/**
 * The deploy service (src/deploy/deploy.service.ts): the Node pipeline that
 * synchronises, validates, installs, builds and (re)starts a project, and the
 * static deploy, which does nothing yet.
 */
module DeployService {
  import opened Wrappers
  import opened Js
  import opened Effects
  import opened DeployUtil
  import GitUrl

  /** `${root}/${username}/${repo}`: an unparsed reference gives `root/undefined/undefined`. */
  function BasePath(root: string, username: Option<string>, repo: Option<string>): (p: string)
    ensures |p| > |root| + 1 && p[..|root| + 1] == root + "/"
    ensures username.Some? && repo.Some? ==> p == root + "/" + username.value + "/" + repo.value
    ensures username.None? && repo.None? ==> p == root + "/undefined/undefined"
  {
    root + "/" + ToText(FromOption(username)) + "/" + ToText(FromOption(repo))
  }

  /**
   * `${username}-${repo}`, the prefix of every started app's name: the
   * rewrite always applies it, even for an unparsed reference.
   */
  function PrefixName(username: Option<string>, repo: Option<string>): (p: string)
    ensures username.Some? && repo.Some? ==> p == username.value + "-" + repo.value
    ensures username.None? && repo.None? ==> p == "undefined-undefined"
    ensures forall name :: PrefixedName(Some(p), name) == Str(p + "-" + ToText(name))
  {
    ToText(FromOption(username)) + "-" + ToText(FromOption(repo))
  }

  /** The commands the descriptor's package manager selects (the default when it cannot be loaded). */
  function ProfileOf(o: Oracle, basePath: string): Profile {
    match RequireAdp(o, AdpConfigPath(basePath))
    case Loaded(adp) => PackageManagerProfile(adp.packageManager)
    case Threw(_) => DEFAULT_PROFILE
  }

  /** pullCode (without a depth) then checkConfig for a Node deploy. */
  function PrepareRun(o: Oracle, basePath: string, git: string): (seq<Op>, Outcome) {
    var (pullOps, pulled) := RunSteps(o, PullPlan(o, basePath, git, None));
    if pulled.Failed? then (pullOps, pulled) else (pullOps, CheckConfig(o, basePath, Node))
  }

  /** installDependencies and buildCode with the descriptor's commands, then the forced pm2 restart. */
  function ReleaseRun(o: Oracle, basePath: string, prefixName: string): (seq<Op>, Outcome) {
    var profile := ProfileOf(o, basePath);
    var (installOps, installed) := RunSteps(o, InstallPlan(basePath, Some(profile.install)));
    if installed.Failed? then (installOps, installed)
    else
      var (buildOps, built) := RunSteps(o, BuildPlan(basePath, Some(profile.build), false));
      if built.Failed? then (installOps + buildOps, built)
      else
        var (manageOps, managed) := ManageRun(o, basePath, EcosystemPath(basePath), true, Some(prefixName));
        (installOps + buildOps + manageOps, managed)
  }

  /** The pipeline for a given working copy and name prefix: the first stage, then, if it succeeded, the second. */
  function PipelineRun(o: Oracle, basePath: string, git: string, prefixName: string): (seq<Op>, Outcome) {
    var (prepared, checked) := PrepareRun(o, basePath, git);
    if checked.Failed? then (prepared, checked)
    else
      var (released, outcome) := ReleaseRun(o, basePath, prefixName);
      (prepared + released, outcome)
  }

  /** The calls deployNodeProject makes and how it settles. */
  function DeployRun(o: Oracle, root: string, git: string): (seq<Op>, Outcome) {
    var (username, repo) := GitUrl.ParseGitUrl(git);
    PipelineRun(o, BasePath(root, username, repo), git, PrefixName(username, repo))
  }

  /** The first two steps of deployNodeProject: pullCode, then checkConfig. */
  method Prepare(host: Host, basePath: string, git: string) returns (r: Outcome)
    modifies host
    ensures host.trace == old(host.trace) + PrepareRun(host.oracle, basePath, git).0
    ensures r == PrepareRun(host.oracle, basePath, git).1
  {
    r := PullCode(host, basePath, git, None);
    if r.Failed? {
      return;
    }
    r := CheckConfig(host.oracle, basePath, Node);
  }

  /**
   * The rest of deployNodeProject once the descriptors are valid: load the
   * package manager's commands, install, build and restart under pm2.
   */
  method Release(host: Host, basePath: string, prefixName: string) returns (r: Outcome)
    requires ConfigValid(host.oracle, basePath, Node)
    modifies host
    ensures host.trace == old(host.trace) + ReleaseRun(host.oracle, basePath, prefixName).0
    ensures r == ReleaseRun(host.oracle, basePath, prefixName).1
  {
    var adpConfig := RequireAdp(host.oracle, AdpConfigPath(basePath));
    var profile := PackageManagerProfile(adpConfig.value.packageManager);
    ghost var installRun := RunSteps(host.oracle, InstallPlan(basePath, Some(profile.install)));
    r := InstallDependencies(host, basePath, Some(profile.install));
    if r.Failed? {
      return;
    }
    ghost var buildRun := RunSteps(host.oracle, BuildPlan(basePath, Some(profile.build), false));
    r := BuildCode(host, basePath, Some(profile.build), false);
    if r.Failed? {
      return;
    }
    var pm2ConfigPath := EcosystemPath(basePath);
    ghost var built := host.trace;
    ghost var manageRun := ManageRun(host.oracle, basePath, pm2ConfigPath, true, Some(prefixName));
    r := ManagePM2Service(host, basePath, pm2ConfigPath, true, Some(prefixName));
    Regroup(old(host.trace), installRun.0, buildRun.0, manageRun.0);
  }

  /**
   * deployNodeProject: pull, check the descriptors, load the package manager's
   * commands, install, build and restart under pm2; the first step that fails
   * ends the deploy, which rejects with that step's error message.
   */
  method DeployNodeProject(host: Host, root: string, git: string) returns (r: Outcome)
    modifies host
    ensures host.trace == old(host.trace) + DeployRun(host.oracle, root, git).0
    ensures r == DeployRun(host.oracle, root, git).1
  {
    var (username, repo) := GitUrl.ParseGitUrl(git);
    var basePath := BasePath(root, username, repo);
    ghost var prepare := PrepareRun(host.oracle, basePath, git);
    r := Prepare(host, basePath, git);
    if r.Failed? {
      return;
    }
    var prefixName := PrefixName(username, repo);
    ghost var release := ReleaseRun(host.oracle, basePath, prefixName);
    assert PipelineRun(host.oracle, basePath, git, prefixName) == (prepare.0 + release.0, release.1);
    r := Release(host, basePath, prefixName);
    Regroup(old(host.trace), prepare.0, release.0, []);
  }

  /** Regrouping the traces of consecutive stages. */
  lemma Regroup(a: seq<Op>, b: seq<Op>, c: seq<Op>, d: seq<Op>)
    ensures a + b + c + d == a + (b + c + d)
    ensures d == [] ==> a + b + c == a + (b + c)
  {
  }

  /** deployStaticResources: not implemented yet, so it issues no call and returns. */
  method DeployStaticResources(host: Host, git: string) returns (r: Outcome)
    ensures r == Done && host.trace == old(host.trace)
  {
    r := Done;
  }

  // ---------------------------------------------------------------------
  // Properties of a Node deploy

  /** Every call the stages after checkConfig make when each of them succeeds. */
  function ReleasePlan(o: Oracle, basePath: string, prefixName: string): seq<Op> {
    var profile := ProfileOf(o, basePath);
    var manage := match Pm2Options(o, EcosystemPath(basePath), basePath, Some(prefixName))
      case Success(options) => ManagePlan(options, true)
      case Failure(_) => [Pm2Connect];
    InstallPlan(basePath, Some(profile.install)) + BuildPlan(basePath, Some(profile.build), false) + manage
  }

  /** Every call the pipeline makes when every step succeeds. */
  function PipelinePlan(o: Oracle, basePath: string, git: string, prefixName: string): seq<Op> {
    PullPlan(o, basePath, git, None) + ReleasePlan(o, basePath, prefixName)
  }

  lemma PrefixAppend(a: seq<Op>, b: seq<Op>, c: seq<Op>)
    requires b <= c
    ensures a + b <= a + c
  {
    assert (a + c)[..|a + b|] == a + b;
  }

  lemma PrefixExtend(b: seq<Op>, c: seq<Op>, d: seq<Op>)
    requires b <= c
    ensures b <= c + d
  {
    assert (c + d)[..|b|] == c[..|b|];
  }

  /** The first stage runs only git calls, in the order of its plan. */
  lemma PrepareFollowsPlan(o: Oracle, basePath: string, git: string)
    ensures var (ops, r) := PrepareRun(o, basePath, git);
      && ops <= PullPlan(o, basePath, git, None)
      && (r == Done ==> ops == PullPlan(o, basePath, git, None) && ConfigValid(o, basePath, Node))
      && forall k :: 0 <= k < |ops| ==> ops[k].GitReset? || ops[k].GitPull? || ops[k].GitClone?
  {
  }

  /**
   * The stages after checkConfig run in the order of their plan, all of it
   * when they succeed, and release the pm2 connection exactly when they
   * succeed.
   */
  lemma {:induction false} ReleaseFollowsPlan(o: Oracle, basePath: string, prefixName: string)
    ensures var (ops, r) := ReleaseRun(o, basePath, prefixName);
      && ops <= ReleasePlan(o, basePath, prefixName)
      && (r == Done ==> ops == ReleasePlan(o, basePath, prefixName))
      && (Pm2Disconnect in ops <==> r == Done)
  {
    var profile := ProfileOf(o, basePath);
    var installPlan := InstallPlan(basePath, Some(profile.install));
    var buildPlan := BuildPlan(basePath, Some(profile.build), false);
    var plan := ReleasePlan(o, basePath, prefixName);
    var manage := plan[|installPlan + buildPlan|..];
    assert plan == installPlan + buildPlan + manage;
    var (ops, r) := ReleaseRun(o, basePath, prefixName);
    var (installOps, installed) := RunSteps(o, installPlan);
    var (buildOps, built) := RunSteps(o, buildPlan);
    if installed.Failed? {
      assert ops == installOps == installPlan;
      PrefixExtend(installPlan, installPlan, buildPlan + manage);
      assert installPlan + (buildPlan + manage) == plan;
    } else if built.Failed? {
      assert ops == installPlan + buildPlan;
      PrefixExtend(installPlan + buildPlan, installPlan + buildPlan, manage);
    } else {
      var prefix := Some(prefixName);
      var (manageOps, managed) := ManageRun(o, basePath, EcosystemPath(basePath), true, prefix);
      ManageRunOrder(o, basePath, EcosystemPath(basePath), true, prefix);
      assert ops == installPlan + buildPlan + manageOps;
      PrefixAppend(installPlan + buildPlan, manageOps, manage);
      assert Pm2Disconnect in ops <==> Pm2Disconnect in manageOps;
    }
  }

  /**
   * The steps run strictly in order: the calls a Node deploy makes are a
   * prefix of the full plan, all of it when the deploy succeeds; and the pm2
   * connection is released exactly when the deploy succeeds.
   */
  lemma {:induction false} PipelineFollowsPlan(o: Oracle, basePath: string, git: string, prefixName: string)
    ensures var (ops, r) := PipelineRun(o, basePath, git, prefixName);
      && ops <= PipelinePlan(o, basePath, git, prefixName)
      && (r == Done ==> ops == PipelinePlan(o, basePath, git, prefixName))
      && (Pm2Disconnect in ops <==> r == Done)
  {
    var pullPlan := PullPlan(o, basePath, git, None);
    var releasePlan := ReleasePlan(o, basePath, prefixName);
    var (prepared, checked) := PrepareRun(o, basePath, git);
    var (released, outcome) := ReleaseRun(o, basePath, prefixName);
    PrepareFollowsPlan(o, basePath, git);
    assert Pm2Disconnect !in prepared;
    if checked.Failed? {
      PrefixExtend(prepared, pullPlan, releasePlan);
    } else {
      ReleaseFollowsPlan(o, basePath, prefixName);
      PrefixAppend(prepared, released, releasePlan);
    }
  }

  /**
   * No install, build or other shell command runs unless the descriptors
   * passed checkConfig; a failed check ends the deploy right after the git
   * calls, with the check's message.
   */
  lemma {:induction false} PipelineRunsNothingUnchecked(o: Oracle, basePath: string, git: string, prefixName: string)
    ensures var (ops, r) := PipelineRun(o, basePath, git, prefixName);
      && ((exists k :: 0 <= k < |ops| && ops[k].Exec?) ==> ConfigValid(o, basePath, Node))
      && (RunSteps(o, PullPlan(o, basePath, git, None)).1 == Done && CheckConfig(o, basePath, Node).Failed? ==>
            ops == PullPlan(o, basePath, git, None) && r == CheckConfig(o, basePath, Node))
  {
    PrepareFollowsPlan(o, basePath, git);
  }

  /** A run in which every call succeeded, followed by one that stopped at its failure, stopped at that failure. */
  lemma StopsAppend(o: Oracle, done: seq<Op>, rest: seq<Op>)
    requires forall k :: 0 <= k < |done| ==> StepError(o, done[k]).None?
    requires |rest| > 0 && OnlyLastFailed(o, rest)
    ensures OnlyLastFailed(o, done + rest)
    ensures (done + rest)[|done + rest| - 1] == rest[|rest| - 1]
  {
    forall k | 0 <= k < |done + rest| - 1
      ensures (done + rest)[k].Pm2Delete? || StepError(o, (done + rest)[k]).None?
    {
      if k >= |done| {
        assert (done + rest)[k] == rest[k - |done|];
      }
    }
  }

  /**
   * When the stages after checkConfig reject, no call follows the one that
   * failed, and the rejection carries that call's own error: the install, the
   * build, the pm2 connect or the start; after a failed ecosystem load (the
   * connect, which succeeded, is the last call) what reading the file threw;
   * after the deletes, deleteServices' rejection.
   */
  lemma {:induction false} ReleaseStopsAtFailure(o: Oracle, basePath: string, prefixName: string)
    ensures var (ops, r) := ReleaseRun(o, basePath, prefixName);
      var options := Pm2Options(o, EcosystemPath(basePath), basePath, Some(prefixName));
      r.Failed? ==>
        && |ops| > 0 && OnlyLastFailed(o, ops)
        && (ops[|ops| - 1].Pm2Delete? ==>
              options.Success? && r == DeleteOutcome(o, options.value.apps))
        && (!ops[|ops| - 1].Pm2Delete? && StepError(o, ops[|ops| - 1]).Some? ==>
              StepError(o, ops[|ops| - 1]) == Some(r.message))
        && (!ops[|ops| - 1].Pm2Delete? && StepError(o, ops[|ops| - 1]).None? ==>
              ops[|ops| - 1] == Pm2Connect && ReadEcosystem(o, EcosystemPath(basePath)) == Threw(r.message))
  {
    var profile := ProfileOf(o, basePath);
    var (ops, r) := ReleaseRun(o, basePath, prefixName);
    var (installOps, installed) := RunSteps(o, InstallPlan(basePath, Some(profile.install)));
    var (buildOps, built) := RunSteps(o, BuildPlan(basePath, Some(profile.build), false));
    if installed.Failed? {
    } else if built.Failed? {
      assert ops == installOps + buildOps;
      StopsAppend(o, installOps, buildOps);
    } else {
      var prefix := Some(prefixName);
      var (manageOps, managed) := ManageRun(o, basePath, EcosystemPath(basePath), true, prefix);
      assert ops == installOps + buildOps + manageOps;
      ManageStopsAtFailure(o, basePath, EcosystemPath(basePath), true, prefix);
      if r.Failed? {
        StopsAppend(o, installOps + buildOps, manageOps);
      }
    }
  }

  /**
   * No step of a Node deploy runs after one fails, and the deploy rejects
   * with the message of the step that failed, unchanged: the error of the
   * git, shell or pm2 call that failed; checkConfig's message when the git
   * calls all succeeded but the check did not; what reading the ecosystem
   * file threw; or deleteServices' rejection.
   */
  lemma {:induction false} PipelineStopsAtFailure(o: Oracle, basePath: string, git: string, prefixName: string)
    ensures var (ops, r) := PipelineRun(o, basePath, git, prefixName);
      var options := Pm2Options(o, EcosystemPath(basePath), basePath, Some(prefixName));
      var last := ops[|ops| - 1];
      r.Failed? ==>
        && |ops| > 0 && OnlyLastFailed(o, ops)
        && (last.Pm2Delete? ==>
              options.Success? && r == DeleteOutcome(o, options.value.apps))
        && (!last.Pm2Delete? && StepError(o, last).Some? ==>
              StepError(o, last) == Some(r.message))
        && (StepError(o, last).None? && (last.GitReset? || last.GitPull? || last.GitClone?) ==>
              r == CheckConfig(o, basePath, Node))
        && (StepError(o, last).None? && last == Pm2Connect ==>
              ReadEcosystem(o, EcosystemPath(basePath)) == Threw(r.message))
        && (!last.Pm2Delete? && StepError(o, last).None? ==>
              last == Pm2Connect || last.GitReset? || last.GitPull? || last.GitClone?)
  {
    var (ops, r) := PipelineRun(o, basePath, git, prefixName);
    var (prepared, checked) := PrepareRun(o, basePath, git);
    var (pullOps, pulled) := RunSteps(o, PullPlan(o, basePath, git, None));
    PrepareFollowsPlan(o, basePath, git);
    if checked.Failed? {
      assert ops == prepared == pullOps;
    } else if r.Failed? {
      var (released, outcome) := ReleaseRun(o, basePath, prefixName);
      assert ops == prepared + released;
      ReleaseStopsAtFailure(o, basePath, prefixName);
      StopsAppend(o, prepared, released);
    }
  }

  /** A run in which every call succeeded, followed by one that let no failure pass, lets none pass. */
  lemma FatalAppend(o: Oracle, done: seq<Op>, rest: seq<Op>, r: Outcome)
    requires forall k :: 0 <= k < |done| ==> StepError(o, done[k]).None?
    requires FatalIsLast(o, rest, r)
    ensures FatalIsLast(o, done + rest, r)
  {
    forall k | 0 <= k < |done + rest| && !(done + rest)[k].Pm2Delete? && (done + rest)[k] != Pm2Disconnect
        && StepError(o, (done + rest)[k]).Some?
      ensures k == |done + rest| - 1 && r.Failed?
    {
      if k >= |done| {
        assert (done + rest)[k] == rest[k - |done|];
      }
    }
  }

  /** Calls that are neither a connect nor a start, put before a run, change neither its connect, its start nor its last call. */
  lemma ManageAfter(front: seq<Op>, back: seq<Op>)
    requires Pm2Connect !in front
    requires forall k :: 0 <= k < |front| ==> !front[k].Pm2Start?
    ensures Pm2Connect in front + back ==> Pm2Connect in back
    ensures |back| > 0 ==> (front + back)[|front + back| - 1] == back[|back| - 1]
    ensures (forall k :: 0 <= k < |back| ==> !back[k].Pm2Start?) ==>
      forall k :: 0 <= k < |front + back| ==> !(front + back)[k].Pm2Start?
  {
    if (forall k :: 0 <= k < |back| ==> !back[k].Pm2Start?) {
      forall k | 0 <= k < |front + back|
        ensures !(front + back)[k].Pm2Start?
      {
        if k >= |front| {
          assert (front + back)[k] == back[k - |front|];
        }
      }
    }
  }

  /**
   * The stages after checkConfig do not go on past a failure: a failed
   * install, build, connect or start is the last call and they reject; a
   * failed ecosystem load rejects right after the connect; a fatal delete
   * rejects with deleteServices' rejection and start is never issued.
   */
  lemma {:induction false} ReleaseFatalIsLast(o: Oracle, basePath: string, prefixName: string)
    ensures var (ops, r) := ReleaseRun(o, basePath, prefixName);
      var options := Pm2Options(o, EcosystemPath(basePath), basePath, Some(prefixName));
      && FatalIsLast(o, ops, r)
      && (Pm2Connect in ops && StepError(o, Pm2Connect).None? && options.Failure? ==>
            r == Failed(options.error) && ops[|ops| - 1] == Pm2Connect)
      && (Pm2Connect in ops && StepError(o, Pm2Connect).None? && options.Success? && DeleteOutcome(o, options.value.apps).Failed? ==>
            r == DeleteOutcome(o, options.value.apps) && forall k :: 0 <= k < |ops| ==> !ops[k].Pm2Start?)
  {
    var profile := ProfileOf(o, basePath);
    var (ops, r) := ReleaseRun(o, basePath, prefixName);
    var (installOps, installed) := RunSteps(o, InstallPlan(basePath, Some(profile.install)));
    var (buildOps, built) := RunSteps(o, BuildPlan(basePath, Some(profile.build), false));
    if installed.Failed? {
      assert ops == installOps;
    } else if built.Failed? {
      assert ops == installOps + buildOps;
      assert |ops| == 2 && ops[0].Exec? && ops[1].Exec?;
    } else {
      var prefix := Some(prefixName);
      var (manageOps, managed) := ManageRun(o, basePath, EcosystemPath(basePath), true, prefix);
      assert ops == installOps + buildOps + manageOps;
      ManageFatalIsLast(o, basePath, EcosystemPath(basePath), true, prefix);
      ManageRunOrder(o, basePath, EcosystemPath(basePath), true, prefix);
      FatalAppend(o, installOps + buildOps, manageOps, r);
      ManageAfter(installOps + buildOps, manageOps);
    }
  }

  /**
   * A Node deploy does not go on past a failure: a failed git, shell, connect
   * or start call is the last call and the deploy rejects; a failed ecosystem
   * load rejects right after the connect; a fatal delete rejects with
   * deleteServices' rejection and start is never issued.
   */
  lemma {:induction false} PipelineFatalIsLast(o: Oracle, basePath: string, git: string, prefixName: string)
    ensures var (ops, r) := PipelineRun(o, basePath, git, prefixName);
      var options := Pm2Options(o, EcosystemPath(basePath), basePath, Some(prefixName));
      && FatalIsLast(o, ops, r)
      && (Pm2Connect in ops && StepError(o, Pm2Connect).None? && options.Failure? ==>
            r == Failed(options.error) && ops[|ops| - 1] == Pm2Connect)
      && (Pm2Connect in ops && StepError(o, Pm2Connect).None? && options.Success? && DeleteOutcome(o, options.value.apps).Failed? ==>
            r == DeleteOutcome(o, options.value.apps) && forall k :: 0 <= k < |ops| ==> !ops[k].Pm2Start?)
  {
    var (ops, r) := PipelineRun(o, basePath, git, prefixName);
    var (prepared, checked) := PrepareRun(o, basePath, git);
    PrepareFollowsPlan(o, basePath, git);
    assert Pm2Connect !in prepared;
    if checked.Failed? {
      assert ops == prepared;
    } else {
      var (released, outcome) := ReleaseRun(o, basePath, prefixName);
      assert ops == prepared + released;
      ReleaseFatalIsLast(o, basePath, prefixName);
      FatalAppend(o, prepared, released, r);
      ManageAfter(prepared, released);
    }
  }

  /**
   * A reference parseGitUrl does not recognise is still deployed, into
   * `root/undefined/undefined`, with its app names prefixed "undefined-undefined".
   */
  lemma UnparsedReferenceDeploysUndefined(o: Oracle, root: string, git: string)
    requires GitUrl.ParseGitUrl(git) == (None, None)
    ensures DeployRun(o, root, git) == PipelineRun(o, root + "/undefined/undefined", git, "undefined-undefined")
    ensures var (ops, _) := DeployRun(o, root, git);
      |ops| > 0 && (ops[0].GitReset? || ops[0].GitClone?) && ops[0].dir == root + "/undefined/undefined"
  {
    var basePath := root + "/undefined/undefined";
    assert BasePath(root, None, None) == basePath;
    assert PrefixName(None, None) == "undefined-undefined";
    var (prepared, checked) := PrepareRun(o, basePath, git);
    assert PipelineRun(o, basePath, git, "undefined-undefined").0[0] == prepared[0];
  }

  /** A deploy never asks git for a shallow copy: the service passes no depth. */
  lemma DeployFetchesFullHistory(o: Oracle, basePath: string, git: string)
    ensures var plan := PullPlan(o, basePath, git, None);
      forall k :: 0 <= k < |plan| ==> plan[k].options == [] || plan[k] == GitReset(basePath, ["--hard"])
  {
  }

  // ---------------------------------------------------------------------
  // A concrete first deploy

  const ROOT := "/srv/adp"
  const ALICE_GIT := "git@github.com:alice/app.git"
  const ALICE_BASE := "/srv/adp/alice/app"
  const ALICE_APP := AppRecord(Str("web"), Str("index.js"), Undefined, Undefined, map[])
  const ALICE_STARTED := AppRecord(Str("alice-app-web"), Str("/srv/adp/alice/app/index.js"), Undefined, Undefined, map[])

  /** The calls after the clone: yarn's install and build, then the forced pm2 restart. */
  const ALICE_RELEASE: seq<Op> := [
    Exec("cd /srv/adp/alice/app && yarn install"),
    Exec("cd /srv/adp/alice/app && yarn build"),
    Pm2Connect,
    Pm2Delete(Str("alice-app-web")),
    Pm2Start(Pm2Config([ALICE_STARTED], map[])),
    Pm2Disconnect ]

  /** Nothing is on disk but the two descriptors; yarn is the package manager; no call fails. */
  function AliceWorld(): Oracle {
    Oracle(
      {ALICE_BASE + "/adp.config.js", ALICE_BASE + "/ecosystem.config.js"},
      map[],
      map[ALICE_BASE + "/adp.config.js" := Loaded(AdpConfig(Str("yarn"), Num(3000)))],
      map[ALICE_BASE + "/ecosystem.config.js" := Loaded(Pm2Config([ALICE_APP], map[]))])
  }

  /** The reference is parsed into the owner alice and the repository app. */
  lemma AliceParse()
    ensures GitUrl.ParseGitUrl(ALICE_GIT) == (Some("alice"), Some("app"))
  {
    GitUrl.ParseAliceApp();
  }

  /** ... which name the working copy /srv/adp/alice/app and the prefix alice-app. */
  lemma AliceNames()
    ensures BasePath(ROOT, Some("alice"), Some("app")) == ALICE_BASE
    ensures PrefixName(Some("alice"), Some("app")) == "alice-app"
  {
  }

  /** The working copy does not exist yet, so it is cloned; the descriptors are valid. */
  lemma AlicePrepare()
    ensures PrepareRun(AliceWorld(), ALICE_BASE, ALICE_GIT) == ([GitClone(ALICE_GIT, ALICE_BASE, [])], Done)
  {
    var o := AliceWorld();
    assert ALICE_BASE !in o.existing;
    assert CheckConfig(o, ALICE_BASE, Node) == Done;
  }

  /** yarn is the descriptor's package manager. */
  lemma AliceProfile()
    ensures ProfileOf(AliceWorld(), ALICE_BASE) == Profile("yarn install", "yarn build")
  {
  }

  /** yarn's install, run in the working copy. */
  lemma AliceInstall()
    ensures InstallPlan(ALICE_BASE, Some("yarn install")) == [Exec("cd /srv/adp/alice/app && yarn install")]
  {
    assert ChooseCommand(Some("yarn install"), DEFAULT_INSTALL) == "yarn install";
    assert CommandLine(ALICE_BASE, "yarn install") == "cd /srv/adp/alice/app && yarn install";
  }

  /** yarn's build, run in the working copy. */
  lemma AliceBuild()
    ensures BuildPlan(ALICE_BASE, Some("yarn build"), false) == [Exec("cd /srv/adp/alice/app && yarn build")]
  {
    assert ChooseCommand(Some("yarn build"), DEFAULT_BUILD) == "yarn build";
    assert CommandLine(ALICE_BASE, "yarn build") == "cd /srv/adp/alice/app && yarn build";
  }

  /** The ecosystem file's app, with its script under the working copy and its name prefixed. */
  lemma AliceOptions()
    ensures Pm2Options(AliceWorld(), EcosystemPath(ALICE_BASE), ALICE_BASE, Some("alice-app"))
         == Success(Pm2Config([ALICE_STARTED], map[]))
  {
    var o := AliceWorld();
    assert PrefixedPath(ALICE_BASE, Str("index.js")) == Str("/srv/adp/alice/app/index.js");
    assert PrefixedName(Some("alice-app"), Str("web")) == Str("alice-app-web");
    assert RewriteApp(ALICE_APP, ALICE_BASE, Some("alice-app")) == ALICE_STARTED;
    var loaded := Pm2Config([ALICE_APP], map[]);
    assert ReadEcosystem(o, EcosystemPath(ALICE_BASE)) == Loaded(loaded);
    assert RewriteOptions(loaded, ALICE_BASE, Some("alice-app")).apps == [ALICE_STARTED];
  }

  /** The forced restart deletes the prefixed name, starts, and disconnects. */
  lemma AliceManage()
    ensures ManageRun(AliceWorld(), ALICE_BASE, EcosystemPath(ALICE_BASE), true, Some("alice-app"))
         == ([Pm2Connect, Pm2Delete(Str("alice-app-web")), Pm2Start(Pm2Config([ALICE_STARTED], map[])), Pm2Disconnect], Done)
  {
    var o := AliceWorld();
    var options := Pm2Config([ALICE_STARTED], map[]);
    AliceOptions();
    assert DeleteOps(options.apps) == [Pm2Delete(Str("alice-app-web"))];
    assert DeleteOutcome(o, options.apps) == Done;
    var tail := [Pm2Delete(Str("alice-app-web")), Pm2Start(options), Pm2Disconnect];
    assert DeleteOps(options.apps) + [Pm2Start(options), Pm2Disconnect] == tail;
    assert StartRun(o, options, true) == (tail, Done);
    assert [Pm2Connect] + tail == [Pm2Connect, Pm2Delete(Str("alice-app-web")), Pm2Start(options), Pm2Disconnect];
  }

  /** yarn's commands run in the working copy, then the prefixed app is replaced and started. */
  lemma AliceRelease()
    ensures ReleaseRun(AliceWorld(), ALICE_BASE, "alice-app") == (ALICE_RELEASE, Done)
  {
    var o := AliceWorld();
    AliceProfile();
    AliceInstall();
    AliceBuild();
    AliceManage();
    var install := [Exec("cd /srv/adp/alice/app && yarn install")];
    var build := [Exec("cd /srv/adp/alice/app && yarn build")];
    assert RunSteps(o, install) == (install, Done);
    assert RunSteps(o, build) == (build, Done);
    var manage := [Pm2Connect, Pm2Delete(Str("alice-app-web")), Pm2Start(Pm2Config([ALICE_STARTED], map[])), Pm2Disconnect];
    assert install + build + manage == ALICE_RELEASE;
  }

  /** In any world, the deploy of the reference is the two stages run in /srv/adp/alice/app. */
  lemma AliceStages(o: Oracle)
    ensures DeployRun(o, ROOT, ALICE_GIT) == PipelineRun(o, ALICE_BASE, ALICE_GIT, "alice-app")
  {
    AliceParse();
    AliceNames();
  }

  /**
   * The first deploy of git@github.com:alice/app.git clones into
   * /srv/adp/alice/app, runs yarn's commands there, deletes and starts the
   * app as alice-app-web with its script under the working copy, disconnects
   * and resolves.
   */
  lemma AliceFirstDeploy()
    ensures DeployRun(AliceWorld(), ROOT, ALICE_GIT) == ([GitClone(ALICE_GIT, ALICE_BASE, [])] + ALICE_RELEASE, Done)
  {
    AliceStages(AliceWorld());
    AlicePrepare();
    AliceRelease();
  }

  /** The world of the first deploy, with a descriptor that has no port. */
  function AliceNoPortWorld(): Oracle {
    AliceWorld().(adpConfigs := map[ALICE_BASE + "/adp.config.js" := Loaded(AdpConfig(Str("yarn"), Undefined))])
  }

  /** The clone succeeds and checkConfig then reports the missing port. */
  lemma AliceNoPortPrepare()
    ensures PrepareRun(AliceNoPortWorld(), ALICE_BASE, ALICE_GIT) == ([GitClone(ALICE_GIT, ALICE_BASE, [])], Failed(NO_PORT))
  {
    assert ALICE_BASE !in AliceNoPortWorld().existing;
  }

  /** The same deploy with a descriptor that has no port stops after the clone, before any command. */
  lemma AliceMissingPort()
    ensures DeployRun(AliceNoPortWorld(), ROOT, ALICE_GIT) == ([GitClone(ALICE_GIT, ALICE_BASE, [])], Failed(NO_PORT))
  {
    AliceParse();
    AliceNames();
    AliceNoPortPrepare();
  }

  /** The world of the first deploy, in which yarn's install fails. */
  function AliceInstallFailsWorld(): Oracle {
    AliceWorld().(failures := map[Exec("cd /srv/adp/alice/app && yarn install") := "install failed"])
  }

  /** The clone succeeds and the descriptors are valid, as in the first deploy. */
  lemma AliceInstallFailsPrepare()
    ensures PrepareRun(AliceInstallFailsWorld(), ALICE_BASE, ALICE_GIT) == ([GitClone(ALICE_GIT, ALICE_BASE, [])], Done)
  {
    var o := AliceInstallFailsWorld();
    assert ALICE_BASE !in o.existing;
    assert CheckConfig(o, ALICE_BASE, Node) == Done;
  }

  /** yarn's install is issued and fails; nothing follows it. */
  lemma AliceInstallFailsRelease()
    ensures ReleaseRun(AliceInstallFailsWorld(), ALICE_BASE, "alice-app")
         == ([Exec("cd /srv/adp/alice/app && yarn install")], Failed("install failed"))
  {
    var o := AliceInstallFailsWorld();
    assert ProfileOf(o, ALICE_BASE) == Profile("yarn install", "yarn build");
    AliceInstall();
  }

  /** The two stages: the clone, then the failing install, with nothing after it. */
  lemma AliceInstallFailsStages()
    ensures PipelineRun(AliceInstallFailsWorld(), ALICE_BASE, ALICE_GIT, "alice-app")
         == ([GitClone(ALICE_GIT, ALICE_BASE, []), Exec("cd /srv/adp/alice/app && yarn install")], Failed("install failed"))
  {
    AliceInstallFailsPrepare();
    AliceInstallFailsRelease();
    assert [GitClone(ALICE_GIT, ALICE_BASE, [])] + [Exec("cd /srv/adp/alice/app && yarn install")]
        == [GitClone(ALICE_GIT, ALICE_BASE, []), Exec("cd /srv/adp/alice/app && yarn install")];
  }

  /** The same deploy with a failing install stops there and rejects with the install's error: nothing is built or restarted. */
  lemma AliceInstallFails()
    ensures DeployRun(AliceInstallFailsWorld(), ROOT, ALICE_GIT)
         == ([GitClone(ALICE_GIT, ALICE_BASE, []), Exec("cd /srv/adp/alice/app && yarn install")], Failed("install failed"))
  {
    AliceStages(AliceInstallFailsWorld());
    AliceInstallFailsStages();
  }
}
