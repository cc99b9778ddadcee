# auto-deploy-server: a Dafny model of the deploy pipeline

auto-deploy-server is a small NestJS service. A request to `GET /api/deploy?type=…&git=…`
makes it do the following for a Node project:

1. Read the owner and repository names out of a GitHub SSH reference.
2. Reset and pull the working copy under `AUTO_DEPLOY_PROJECT_BASE_PATH/owner/repo`, or clone it there.
3. Check the project's deployment descriptor `adp.config.js` and its pm2 file `ecosystem.config.js`.
4. Install and build with the commands of the descriptor's package manager.
5. Restart the project's apps under pm2: connect, delete the old apps, start, disconnect.

Each app in the ecosystem file is renamed with an `owner-repo-` prefix. Its paths are rebased onto
the working copy before it is started. The static deploy type is accepted but does nothing yet.
Every answer is wrapped in an `ApiResult` envelope.

The project has eight modules:

- `Wrappers` (wrappers.dfy) holds `Option` and `Result`.
- `Js` (js.dfy) holds the JavaScript semantics the code relies on:
  - truthiness;
  - `String(v)` for values built into template strings;
  - `Number.prototype.toString` on integers, proved to read back as the same integer;
  - `String.prototype.indexOf`.
- `Effects` (effects.dfy) describes the outside world. Every call that changes something
  (a git command, a shell command, a pm2 request) is an `Op`. `Host.Perform` appends each
  `Op` to the trace of a `Host` object. What the code only observes is fixed in an `Oracle`:
  which paths exist, what `require` and `eval` of a descriptor yield, and which calls fail with
  which message. `RunSteps` is the specification of awaiting a list of calls one after another.
- `GitUrl` (git_url.dfy) models `parseGitUrl`. It searches directly for the one pattern
  `/github.com:(.*)\/(.*).git/` and proves that the search returns the match JavaScript picks:
  the leftmost start, then the longest first group, then the longest second group.
- `DeployUtil` (deploy_util.dfy) models the helpers of src/deploy/deploy.util.ts. Each helper
  that issues calls is a method on a `Host`. Each method is proved against a function giving
  the calls it makes and how its promise settles. The ecosystem rewrite works in place on `App`
  objects, as the source's loop does.
- `DeployService` (deploy_service.dfy) models `deployNodeProject` as a method in two stages,
  `Prepare` and `Release`, each tied to a specification function. It proves the properties of
  the whole pipeline: order, nothing unchecked runs, where a failure message comes from, and
  when pm2 is released. It also works through a complete first deploy of
  `git@github.com:alice/app.git`.
- `ResultUtil` (result_util.dfy) models the response envelope builders.
- `DeployController` (deploy_controller.dfy) models the request checks and the dispatch.

The model keeps the code's behaviour in places where a reader might expect otherwise:

- `parseGitUrl` does not fail on an unrecognised reference. It returns two `undefined`s.
  The deploy then goes ahead in `…/undefined/undefined` with the app prefix `undefined-undefined`
  (`DeployService.UnparsedReferenceDeploysUndefined`).
- The pm2 connection is not released on every path. `pm2.disconnect()` runs only after a
  successful start (`DeployUtil.ManageRunOrder`, `DeployService.PipelineFollowsPlan`).
- `pm2.disconnect()` is called without a callback, so an error there is never seen. Every other
  failure, except a delete that reports "not found", ends the deploy, which rejects
  (`DeployService.PipelineFatalIsLast`).
- The static deploy type is a no-op that reports nothing (`DeployService.DeployStaticResources`).
- The HTTP handler and the envelope are part of the code, so they are modelled too.

## Model

| member | source | states |
|---|---|---|
| Js.IntToStringRoundTrip | src/deploy/deploy.util.ts:42 | `depth.toString()` prints an optionally signed numeral of decimal digits that reads back as the same integer, so no depth is lost on the way to git |
| Js.NatToStringRoundTrip | src/deploy/deploy.util.ts:49 | reading back the digits printed for a natural number gives that number (induction on the number of digits) |
| Js.IndexOf | src/deploy/deploy.util.ts:148 | `indexOf` is -1 exactly when the text never occurs; otherwise it is an occurrence and no earlier position is one |
| Effects.RunSteps | src/deploy/deploy.service.ts:31-59 | awaiting calls in turn issues a prefix of them; it resolves exactly when all were issued and none failed; on a rejection the last call issued failed with that message and all calls before it succeeded |
| Effects.Host.Perform | src/deploy/deploy.util.ts:110-115 | a call is appended to the trace and reports the error the world gives it, if any |
| GitUrl.MatchFrom | src/deploy/deploy.util.ts:21 | at a given start, yields a match with the greatest slash position and then the greatest position before "git" among all matches there, or none when there is no match there |
| GitUrl.FirstMatch | src/deploy/deploy.util.ts:21 | yields the leftmost match, chosen greedily, or none when the pattern matches nowhere |
| GitUrl.ParseGitUrl | src/deploy/deploy.util.ts:20-23 | both names are present or both are `undefined`; they are `undefined` exactly when the pattern matches nowhere; otherwise they are the two groups of the match JavaScript selects |
| GitUrl.SelectedIsDetermined | src/deploy/deploy.util.ts:21 | a match with no header before it, no slash after its own slash and no "git" after its own is the one JavaScript selects |
| GitUrl.ParseDetermined | src/deploy/deploy.util.ts:20-23 | for such a match, parseGitUrl returns its two groups |
| GitUrl.ParseCanonical | src/deploy/deploy.util.ts:20-23 | `…github.com:owner/repo.git…` yields exactly `owner` and `repo` when no `github`, any character, `com:` starts inside the prefix, `repo` has no slash, neither name spans a line, and the text after `.git` has no letter `g` |
| GitUrl.ParseAliceApp | src/deploy/deploy.util.ts:20-23 | `git@github.com:alice/app.git` yields `alice` and `app` |
| GitUrl.ParseHttpsFails | src/deploy/deploy.util.ts:21-22 | `https://github.com/alice/app.git`, an HTTPS reference without a port, has no `github?com:` and yields two `undefined`s rather than an error |
| DeployUtil.DepthOptions | src/deploy/deploy.util.ts:42 | no options exactly when the depth is absent or 0; otherwise `--depth` and a numeral that parses back to the depth |
| DeployUtil.PullCodeRuns | src/deploy/deploy.util.ts:36-51 | an existing working copy is reset hard first and pulled only if the reset succeeded, and is never cloned; a missing one is only cloned; both fetches get the same depth options |
| DeployUtil.PullCode | src/deploy/deploy.util.ts:29-52 | the calls issued and the settlement are those of awaiting the pull plan in turn |
| DeployUtil.ChooseCommand | src/deploy/deploy.util.ts:70 | a non-empty given command is used; a missing or empty one falls back to the default; nothing else is ever chosen |
| DeployUtil.ExecuteCommand | src/deploy/deploy.util.ts:169-175 | issues exactly the one shell line and passes its error on unchanged |
| DeployUtil.InstallDependencies | src/deploy/deploy.util.ts:80-91 | issues exactly one shell line, `cd basePath && ` followed by the chosen install command, and settles as that command does |
| DeployUtil.BuildCode | src/deploy/deploy.util.ts:58-74 | runs the pre-build hook first when there is one and stops if it fails, then the build line; settles as the plan does |
| DeployUtil.CommandRuns | src/deploy/deploy.util.ts:58-91 | install issues one command run inside `basePath`; without a hook the build issues only its command; with a hook the command runs exactly when the hook succeeded; a successful build ran its command |
| DeployUtil.CheckConfig | src/deploy/deploy.util.ts:183-210 | resolves exactly when the descriptor exists, loads, has a truthy package manager and a truthy port, and, for a Node deploy, the ecosystem file exists; otherwise it rejects with the message of the first check that failed, in source order |
| DeployUtil.CheckConfigStatic | src/deploy/deploy.util.ts:204-209 | a static check does not depend on the ecosystem file; whatever passes the Node check passes the static one |
| DeployUtil.PortZeroRejected | src/deploy/deploy.util.ts:200-202 | a port of 0 is rejected as a missing port |
| DeployUtil.PackageManagerProfile | src/deploy/deploy.util.ts:224-237 | `yarn` and `npm` select their own commands; every other value, including numbers whose text is looked up as the key, selects the pnpm default |
| DeployUtil.NumeralIsNotWord | src/deploy/deploy.service.ts:42 | the lookup key `String(v)` is `yarn` or `npm` only when `v` is that very string |
| DeployUtil.ProfileCommandsUsed | src/deploy/deploy.service.ts:41-49 | every profile's commands are non-empty, so install and build run exactly the profile's commands and never their own defaults |
| DeployUtil.RewriteAppFields | src/deploy/deploy.util.ts:264-278 | a truthy path field becomes `basePath/` followed by its text, recoverable by dropping that prefix, and a falsy one is kept; a prefix gives the name `prefix-name`; no other field changes |
| DeployUtil.RewriteExamples | src/deploy/deploy.util.ts:264-278 | `index.js` under `/srv/a/b` with prefix `alice-repo` becomes `/srv/a/b/index.js` and `alice-repo-web`; an absolute script is still prefixed (`/srv//opt/app.js`) |
| DeployUtil.RewriteOptions | src/deploy/deploy.util.ts:280 | the returned options keep every other key of the config and hold each app rewritten, in the same order and number |
| DeployUtil.RewriteApps | src/deploy/deploy.util.ts:264-278 | the loop leaves every app object holding the rewrite of its old fields |
| DeployUtil.GetPM2OptionsByFile | src/deploy/deploy.util.ts:250-284 | returns the rewritten options for a file that evaluates, and otherwise fails with the text of what reading or evaluating threw |
| DeployUtil.DeleteOps | src/deploy/deploy.util.ts:145-147 | one delete per app, by its rewritten name, in order, for every app |
| DeployUtil.DeleteOutcome | src/deploy/deploy.util.ts:144-163 | resolves exactly when every delete succeeded or failed with "not found"; otherwise its message is the error of a fatal delete with no fatal delete before it |
| DeployUtil.DeleteServices | src/deploy/deploy.util.ts:144-163 | every delete is issued, even after a fatal one, and the result is the one just described |
| DeployUtil.StartServices | src/deploy/deploy.util.ts:123-137 | the forced deletes, then the start if they succeeded, then the disconnect if the start succeeded |
| DeployUtil.ManagePM2Service | src/deploy/deploy.util.ts:104-138 | the calls and the settlement are those of the connect, load, delete, start and disconnect sequence |
| DeployUtil.ManageRunOrder | src/deploy/deploy.util.ts:104-138 | connect comes first, and a failed connect or load stops there; the calls are a prefix of the plan; start is reached exactly when not forced or every delete succeeded; disconnect is issued exactly when the service resolves; nothing is deleted unless forced |
| DeployService.PrefixName | src/deploy/deploy.service.ts:53 | the prefix is `owner-repo` for a parsed reference and `undefined-undefined` for an unparsed one, and the rewrite applies it to every app name, as `prefix-name` |
| DeployService.BasePath | src/deploy/deploy.service.ts:29 | the working copy lies directly under the root: `root/owner/repo` for a parsed reference, `root/undefined/undefined` for an unparsed one |
| DeployService.Prepare | src/deploy/deploy.service.ts:31-35 | pulls without a depth, then checks the descriptors for a Node deploy if the pull succeeded |
| DeployService.Release | src/deploy/deploy.service.ts:37-59 | with valid descriptors, the calls and the settlement are those of install, then build, then a forced pm2 restart under `owner-repo`; `ReleaseFatalIsLast` and `ReleaseStopsAtFailure` prove that these stages stop at the first failure and reject with its message |
| DeployService.DeployNodeProject | src/deploy/deploy.service.ts:24-64 | the calls the deploy issues and the message it rejects with are those of the parse followed by the two stages, so `PipelineFollowsPlan`, `PipelineFatalIsLast` and `PipelineStopsAtFailure` hold of it |
| DeployService.DeployStaticResources | src/deploy/deploy.service.ts:18-21 | does nothing and issues no call |
| DeployService.PrepareFollowsPlan | src/deploy/deploy.service.ts:31-35 | the first stage issues only git calls, in plan order; when it resolves, all of them were issued and the descriptors are valid |
| DeployService.ReleaseFollowsPlan | src/deploy/deploy.service.ts:45-59 | the later stages issue a prefix of their plan, all of it when they succeed, and release pm2 exactly when they succeed |
| DeployService.PipelineFollowsPlan | src/deploy/deploy.service.ts:26-63 | a Node deploy issues a prefix of the full plan, all of it when it succeeds; pm2 is disconnected exactly when the deploy succeeds |
| DeployService.PipelineRunsNothingUnchecked | src/deploy/deploy.service.ts:34-49 | no shell command runs unless the descriptors passed the check; a failed check ends the deploy right after the git calls, with the check's message |
| DeployUtil.ManageStopsAtFailure | src/deploy/deploy.util.ts:104-163 | when the restart rejects, every call but the last succeeded, except deletes, which are all issued; the message is the error of the last call when that is the connect or the start; it is what reading the ecosystem file threw when only the successful connect was issued; it is deleteServices' rejection when the last call is a delete |
| DeployService.ReleaseStopsAtFailure | src/deploy/deploy.service.ts:45-63 | when the later stages reject, nothing follows the failed call, and the message is that call's error (install, build, connect or start), the ecosystem file's load error after a successful connect, or deleteServices' rejection |
| DeployUtil.ManageFatalIsLast | src/deploy/deploy.util.ts:104-163 | a failed call other than a delete or the disconnect is the last call and the restart rejects; a failed load rejects right after a successful connect; a fatal delete makes the restart reject with deleteServices' rejection, and start is never issued |
| DeployService.ReleaseFatalIsLast | src/deploy/deploy.service.ts:45-63 | a failed install, build, connect or start is the last call and the later stages reject; a failed load after a successful connect rejects with what reading the ecosystem file threw; a fatal delete makes them reject with deleteServices' rejection, and start is never issued |
| DeployService.PipelineFatalIsLast | src/deploy/deploy.service.ts:26-63 | no step runs after one fails, and the deploy then rejects: a failed git, shell, connect or start call is the last call and the deploy rejects; a failed load after a successful connect rejects right there; a fatal delete makes the deploy reject with deleteServices' rejection, and start is never issued |
| DeployService.PipelineStopsAtFailure | src/deploy/deploy.service.ts:26-63 | when the deploy rejects, every call but the last succeeded, except deletes, and the message is the failed step's, unchanged: the failing call's error; checkConfig's message when the last call is a successful git call; the ecosystem load error when it is a successful connect; or deleteServices' rejection when it is a delete |
| DeployService.UnparsedReferenceDeploysUndefined | src/deploy/deploy.service.ts:28-29 | an unrecognised reference is deployed into `root/undefined/undefined` with the prefix `undefined-undefined`, starting with a git call on that directory |
| DeployService.DeployFetchesFullHistory | src/deploy/deploy.service.ts:32 | the service passes no depth, so no git call asks for a shallow copy |
| DeployService.AliceFirstDeploy | src/deploy/deploy.service.ts:24-64 | a first deploy of `git@github.com:alice/app.git` using yarn clones into `/srv/adp/alice/app`, runs yarn's install and build there, deletes and starts `alice-app-web` with script `/srv/adp/alice/app/index.js`, disconnects and resolves |
| DeployService.AliceInstallFails | src/deploy/deploy.service.ts:46-62 | the same first deploy with a failing yarn install clones, runs the install and rejects with the install's error; nothing is built, deleted or started |
| DeployService.AliceMissingPort | src/deploy/deploy.service.ts:35 | the same deploy without a port in the descriptor clones and then rejects with the missing-port message, having run nothing else |
| ResultUtil.SuccessResult | src/utils/result.util.ts:23-28 | a success envelope has code 0, carries its data, and has the default message when none is given |
| ResultUtil.ErrorResult | src/utils/result.util.ts:37-53 | keeps the data (null by default); with a code first, the code is kept and the message is the second argument when truthy, else `未知错误`; with a message first, the message is kept and the code is the second argument when it is a number, else 10000 |
| ResultUtil.ErrorResultOrderIrrelevant | src/utils/result.util.ts:37-53 | a code with a non-empty message gives the same envelope in either argument order |
| ResultUtil.ErrorResultCodes | src/utils/result.util.ts:42-51 | an error envelope has code 0 only when 0 was passed as its code; a message alone gives code 10000 and keeps the data; its message is truthy whenever a code comes first or the message is non-empty |
| DeployController.Respond | src/deploy/deploy.controller.ts:23-49 | a deploy starts exactly when both parameters are non-empty and the type is `node` or `static`; the node type starts a Node deploy and `static` a static one, with the given reference; the answer has code 0 exactly when a deploy starts, and is then `正在部署中` with the default message; otherwise it has code 10000, no data, and the message of the first failed check |
| DeployController.Deploy | src/deploy/deploy.controller.ts:23-49 | answers with that envelope whatever the deploy's outcome; only a Node request issues calls, exactly those of the Node deploy |
| DeployController.AcceptedAnswer | src/deploy/deploy.controller.ts:38-45 | an accepted request is answered with `successResult('正在部署中')` and starts the deploy named by its type |
| DeployController.MissingGitIsIncomplete | src/deploy/deploy.controller.ts:27-29 | a missing or empty reference is answered with code 10000 and the incomplete-parameters message, whatever the type |
| DeployController.TypeIsCaseSensitive | src/deploy/deploy.controller.ts:31-36 | `Node` is refused as an unknown type |

## Left out

- Concurrency and timing are not modelled:
  - the deletes that `Promise.all` awaits together;
  - the deploy that the controller does not await, which runs after the answer is sent;
  - simultaneous deploys of the same project.
- DeployUtil.DeleteOutcome: it reports the first fatal delete in array order. `Promise.all`
  reports whichever rejection comes first in time, so the model only pins the message to some
  fatal delete's error in a fixed order.
- DeployUtil.RewriteApps: it requires the app objects to be distinct. An ecosystem file whose
  `apps` holds the same object twice would have it rewritten twice, and that aliasing is not
  captured. `GetPM2OptionsByFile` always builds distinct fresh objects.
- DeployController.Deploy: the controller does not await `deployNodeProject`, so a failed Node
  deploy is an unhandled rejection. What the Node runtime then does is not part of this model.
  The controller's `catch` cannot be reached, because neither deploy throws synchronously, so it
  is not modelled.
- The file system, `require`, `fs.readFileSync` with `eval`, `git` (simple-git), the shell
  (`child_process.exec`) and the pm2 daemon are outside the model. The `Oracle` stands in for
  them: which paths exist, what each descriptor evaluates to, and which calls fail with which
  message. Module caching by `require` is not modelled, and both reads of `adp.config.js` see
  the same value.
- Only the fields the code touches are modelled: the descriptor's `packageManager` and `port`,
  and each app's `name`, `script`, `out_log` and `error_log`. The other fields pass through
  unchanged as a map. An ecosystem file whose `apps` is not an array is treated like an
  evaluation failure.
- `AUTO_DEPLOY_PROJECT_BASE_PATH` comes from src/deploy/deploy.constant.ts, which is not part of
  this model. It is a parameter `root`.
- Numbers are integers. Non-integral or non-finite depths, ports and codes are not modelled. `Js.IntToString` prints every digit of any integer. JavaScript switches to exponent form (`1e+21`) from 10^21 on, and holds integers exactly only up to 2^53, so depths that large are not modelled.
- `packageManagerMap` looked up with an inherited key such as `toString` or `__proto__` is not
  modelled as a separate case. The entry found then has no `install` or `build`, so
  `installDependencies` and `buildCode` fall back to the same pnpm commands the model gives.
- The `preBuildCode` hook of `buildCode` is an opaque call, `RunPreBuild`. The service never
  passes one.
- `Pm2Disconnect` does not fail in the model's sense: its outcome is not awaited, so an error
  from it is ignored.
- A repeated query parameter, which NestJS turns into an array, is not modelled.
- JavaScript's `.` in the `parseGitUrl` pattern (no `u` flag) matches one UTF-16 code unit, while `GitUrl` works on Unicode scalar values. A character outside the Basic Multilingual Plane between `github` and `com:` matches the model's header but not the JavaScript pattern.
- Console logging, module bootstrap (src/main.ts, src/app.module.ts) and HTTP routing are not
  modelled.
