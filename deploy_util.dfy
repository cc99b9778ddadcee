/**
 * The helpers of the deploy pipeline (src/deploy/deploy.util.ts), except
 * `parseGitUrl`, which is in module GitUrl: synchronising the working copy,
 * installing and building, validating the descriptors, rewriting the pm2
 * ecosystem options and driving pm2.
 */
module DeployUtil {
  import opened Wrappers
  import opened Js
  import opened Effects

  /** DeployType: `Node = 'node'`, `Static = 'static'`. */
  datatype DeployType = Node | Static

  // ---------------------------------------------------------------------
  // pullCode

  /** `depth ? ['--depth', depth.toString()] : []`, the options of both the pull and the clone. */
  function DepthOptions(depth: Option<int>): (r: seq<string>)
    ensures r == [] <==> depth.None? || depth.value == 0
    ensures r != [] ==>
      && |r| == 2 && r[0] == "--depth" && r[1] != ""
      && (if r[1][0] == '-' then AllDigits(r[1][1..]) else AllDigits(r[1]))
      && ParseInt(r[1]) == depth.value
  {
    match depth
    case None => []
    case Some(d) =>
      if d == 0 then []
      else
        IntToStringRoundTrip(d);
        ["--depth", IntToString(d)]
  }

  /**
   * The git calls pullCode makes: a hard reset then a pull when the working
   * copy exists, otherwise a clone into it.
   */
  function PullPlan(o: Oracle, basePath: string, git: string, depth: Option<int>): seq<Op> {
    if basePath in o.existing then [GitReset(basePath, ["--hard"]), GitPull(basePath, DepthOptions(depth))]
    else [GitClone(git, basePath, DepthOptions(depth))]
  }

  /**
   * With an existing working copy, pullCode resets before it pulls, pulls only
   * if the reset succeeded, and never clones; otherwise it only clones. Both
   * git calls that fetch receive the same depth options.
   */
  lemma PullCodeRuns(o: Oracle, basePath: string, git: string, depth: Option<int>)
    ensures var (ops, r) := RunSteps(o, PullPlan(o, basePath, git, depth));
      && (basePath in o.existing ==>
            && 1 <= |ops| <= 2
            && ops[0] == GitReset(basePath, ["--hard"])
            && (|ops| == 2 <==> StepError(o, ops[0]).None?)
            && (|ops| == 2 ==> ops[1] == GitPull(basePath, DepthOptions(depth)))
            && (r == Done <==> |ops| == 2 && StepError(o, ops[1]).None?))
      && (basePath !in o.existing ==>
            && ops == [GitClone(git, basePath, DepthOptions(depth))]
            && (r == Done <==> StepError(o, ops[0]).None?))
      && forall k :: 0 <= k < |ops| ==> !ops[k].GitClone? || !(basePath in o.existing)
  {
    var plan := PullPlan(o, basePath, git, depth);
    var (ops, r) := RunSteps(o, plan);
    if basePath in o.existing {
      assert ops[0] == plan[0];
      if |ops| == 2 {
        assert ops == plan;
      }
      if StepError(o, ops[0]).None? {
        assert |ops| != 1;
      }
    }
  }

  method PullCode(host: Host, basePath: string, git: string, depth: Option<int>) returns (r: Outcome)
    modifies host
    ensures host.trace == old(host.trace) + RunSteps(host.oracle, PullPlan(host.oracle, basePath, git, depth)).0
    ensures r == RunSteps(host.oracle, PullPlan(host.oracle, basePath, git, depth)).1
  {
    if basePath in host.oracle.existing {
      var error := host.Perform(GitReset(basePath, ["--hard"]));
      if error.Some? {
        return Failed(error.value);
      }
      var pullOptions := DepthOptions(depth);
      error := host.Perform(GitPull(basePath, pullOptions));
      r := if error.Some? then Failed(error.value) else Done;
    } else {
      var error := host.Perform(GitClone(git, basePath, DepthOptions(depth)));
      r := if error.Some? then Failed(error.value) else Done;
    }
  }

  // ---------------------------------------------------------------------
  // executeCommand, installDependencies, buildCode

  const DEFAULT_INSTALL := "pnpm install"
  const DEFAULT_BUILD := "pnpm build"

  /** The shell line that runs `command` in `basePath`. */
  function CommandLine(basePath: string, command: string): string {
    "cd " + basePath + " && " + command
  }

  /** `given ? given : fallback` for an optional command string. */
  function ChooseCommand(given: Option<string>, fallback: string): (c: string)
    ensures given.Some? && given.value != "" ==> c == given.value
    ensures given.None? || given.value == "" ==> c == fallback
    ensures c in {fallback} + (if given.Some? then {given.value} else {})
  {
    if Truthy(FromOption(given)) then given.value else fallback
  }

  /** executeCommand: runs one shell line and passes its error on unchanged. */
  method ExecuteCommand(host: Host, command: string) returns (r: Outcome)
    modifies host
    ensures host.trace == old(host.trace) + [Exec(command)]
    ensures r == RunSteps(host.oracle, [Exec(command)]).1
  {
    var error := host.Perform(Exec(command));
    r := if error.Some? then Failed(error.value) else Done;
  }

  function InstallPlan(basePath: string, installCommand: Option<string>): seq<Op> {
    [Exec(CommandLine(basePath, ChooseCommand(installCommand, DEFAULT_INSTALL)))]
  }

  method InstallDependencies(host: Host, basePath: string, installCommand: Option<string>) returns (r: Outcome)
    modifies host
    ensures host.trace == old(host.trace) + InstallPlan(basePath, installCommand)
    ensures r == RunSteps(host.oracle, InstallPlan(basePath, installCommand)).1
  {
    var commandToExecute := if Truthy(FromOption(installCommand)) then installCommand.value else DEFAULT_INSTALL;
    r := ExecuteCommand(host, CommandLine(basePath, commandToExecute));
  }

  /** The calls buildCode makes: the pre-build hook when there is one, then the build command. */
  function BuildPlan(basePath: string, buildCommand: Option<string>, hasPreBuild: bool): seq<Op> {
    (if hasPreBuild then [RunPreBuild] else [])
    + [Exec(CommandLine(basePath, ChooseCommand(buildCommand, DEFAULT_BUILD)))]
  }

  method BuildCode(host: Host, basePath: string, buildCommand: Option<string>, hasPreBuild: bool) returns (r: Outcome)
    modifies host
    ensures host.trace == old(host.trace) + RunSteps(host.oracle, BuildPlan(basePath, buildCommand, hasPreBuild)).0
    ensures r == RunSteps(host.oracle, BuildPlan(basePath, buildCommand, hasPreBuild)).1
  {
    if hasPreBuild {
      var error := host.Perform(RunPreBuild);
      if error.Some? {
        return Failed(error.value);
      }
    }
    var commandToExecute := if Truthy(FromOption(buildCommand)) then buildCommand.value else DEFAULT_BUILD;
    r := ExecuteCommand(host, CommandLine(basePath, commandToExecute));
  }

  /**
   * installDependencies and buildCode each issue exactly one shell command,
   * run in `basePath`, and a pre-build hook runs first and, if it fails,
   * stops the build command from running.
   */
  lemma CommandRuns(o: Oracle, basePath: string, command: Option<string>, hasPreBuild: bool)
    ensures var install := InstallPlan(basePath, command);
      |install| == 1 && install[0].Exec?
      && install[0].command[..|"cd " + basePath + " && "|] == "cd " + basePath + " && "
    ensures var (ops, r) := RunSteps(o, BuildPlan(basePath, command, hasPreBuild));
      var exec := Exec(CommandLine(basePath, ChooseCommand(command, DEFAULT_BUILD)));
      && (!hasPreBuild ==> ops == [exec])
      && (hasPreBuild ==> ops[0] == RunPreBuild && (exec in ops <==> StepError(o, RunPreBuild).None?))
      && (r == Done ==> exec in ops)
  {
    var plan := BuildPlan(basePath, command, hasPreBuild);
    var (ops, r) := RunSteps(o, plan);
    if hasPreBuild {
      assert ops[0] == plan[0];
      if StepError(o, RunPreBuild).None? {
        assert |ops| == 2 && ops == plan;
      } else {
        assert ops == [RunPreBuild];
      }
    }
  }

  // ---------------------------------------------------------------------
  // checkConfig

  const ADP_MISSING := "adp.config.js 文件不存在"
  const NO_PACKAGE_MANAGER := "配置文件缺少 packageManager"
  const NO_PORT := "配置文件缺少 port"
  const ECOSYSTEM_MISSING := "ecosystem.config.js 文件不存在"

  function AdpConfigPath(basePath: string): string { basePath + "/adp.config.js" }
  function EcosystemPath(basePath: string): string { basePath + "/ecosystem.config.js" }

  /** Everything checkConfig demands, as one condition. */
  predicate ConfigValid(o: Oracle, basePath: string, deployType: DeployType) {
    && AdpConfigPath(basePath) in o.existing
    && RequireAdp(o, AdpConfigPath(basePath)).Loaded?
    && Truthy(RequireAdp(o, AdpConfigPath(basePath)).value.packageManager)
    && Truthy(RequireAdp(o, AdpConfigPath(basePath)).value.port)
    && (deployType == Node ==> EcosystemPath(basePath) in o.existing)
  }

  /**
   * checkConfig: the descriptor exists, loads, names a package manager and a
   * port, and for a Node deploy the ecosystem file exists; checked in that
   * order, and the first check that fails is the error.
   */
  function CheckConfig(o: Oracle, basePath: string, deployType: DeployType): (r: Outcome)
    ensures r == Done <==> ConfigValid(o, basePath, deployType)
    ensures AdpConfigPath(basePath) !in o.existing ==> r == Failed(ADP_MISSING)
    ensures AdpConfigPath(basePath) in o.existing ==>
      match RequireAdp(o, AdpConfigPath(basePath))
      case Threw(t) => r == Failed(t)
      case Loaded(adp) =>
        && (!Truthy(adp.packageManager) ==> r == Failed(NO_PACKAGE_MANAGER))
        && (Truthy(adp.packageManager) && !Truthy(adp.port) ==> r == Failed(NO_PORT))
        && (Truthy(adp.packageManager) && Truthy(adp.port) ==>
              r == if deployType == Node && EcosystemPath(basePath) !in o.existing
                   then Failed(ECOSYSTEM_MISSING) else Done)
  {
    if AdpConfigPath(basePath) !in o.existing then Failed(ADP_MISSING)
    else
      match RequireAdp(o, AdpConfigPath(basePath))
      case Threw(t) => Failed(t)
      case Loaded(adpConfig) =>
        if !Truthy(adpConfig.packageManager) then Failed(NO_PACKAGE_MANAGER)
        else if !Truthy(adpConfig.port) then Failed(NO_PORT)
        else if deployType == Node && EcosystemPath(basePath) !in o.existing then Failed(ECOSYSTEM_MISSING)
        else Done
  }

  /**
   * A static deploy never looks at the ecosystem file, and whatever passes
   * for a Node deploy passes for a static one.
   */
  lemma {:induction false} CheckConfigStatic(o: Oracle, basePath: string)
    ensures CheckConfig(o.(existing := o.existing + {EcosystemPath(basePath)}), basePath, Static)
         == CheckConfig(o.(existing := o.existing - {EcosystemPath(basePath)}), basePath, Static)
    ensures CheckConfig(o, basePath, Node) == Done ==> CheckConfig(o, basePath, Static) == Done
  {
    assert AdpConfigPath(basePath) != EcosystemPath(basePath) by {
      assert |AdpConfigPath(basePath)| != |EcosystemPath(basePath)|;
    }
  }

  /** A port of 0 is as good as none. */
  lemma PortZeroRejected(o: Oracle, basePath: string, deployType: DeployType, packageManager: string)
    requires packageManager != ""
    requires AdpConfigPath(basePath) in o.existing
    requires RequireAdp(o, AdpConfigPath(basePath)) == Loaded(AdpConfig(Str(packageManager), Num(0)))
    ensures CheckConfig(o, basePath, deployType) == Failed(NO_PORT)
  {
  }

  // ---------------------------------------------------------------------
  // packageManagerMap

  /** One entry of packageManagerMap. */
  datatype Profile = Profile(install: string, build: string)

  const DEFAULT_PROFILE := Profile(DEFAULT_INSTALL, DEFAULT_BUILD)

  /** `packageManagerMap[packageManager] || packageManagerMap.default` (the key is `String(packageManager)`). */
  function PackageManagerProfile(packageManager: JsValue): (p: Profile)
    ensures packageManager == Str("yarn") ==> p == Profile("yarn install", "yarn build")
    ensures packageManager == Str("npm") ==> p == Profile("npm install", "npm run build")
    ensures packageManager != Str("yarn") && packageManager != Str("npm") ==> p == DEFAULT_PROFILE
  {
    NumeralIsNotWord(packageManager, "yarn");
    NumeralIsNotWord(packageManager, "npm");
    var key := ToText(packageManager);
    if key == "yarn" then Profile("yarn install", "yarn build")
    else if key == "npm" then Profile("npm install", "npm run build")
    else DEFAULT_PROFILE
  }

  /** Only the string itself converts to a key such as "yarn" or "npm". */
  lemma NumeralIsNotWord(v: JsValue, word: string)
    requires word in {"yarn", "npm"}
    ensures ToText(v) == word <==> v == Str(word)
  {
    if v.Num? {
      var s := IntToString(v.n);
      if v.n < 0 {
        assert s[0] == '-';
      } else {
        assert IsDigit(s[0]);
      }
      assert s[0] != word[0];
    }
  }

  /**
   * Every profile's commands are non-empty, so installDependencies and
   * buildCode run exactly the profile's commands and their own defaults never
   * apply to what the service hands them.
   */
  lemma ProfileCommandsUsed(packageManager: JsValue)
    ensures var p := PackageManagerProfile(packageManager);
      && ChooseCommand(Some(p.install), DEFAULT_INSTALL) == p.install
      && ChooseCommand(Some(p.build), DEFAULT_BUILD) == p.build
      && p.install != "" && p.build != ""
  {
  }

  // ---------------------------------------------------------------------
  // getPM2OptionsByFile

  /** `${basePath}/${value}` when the value is truthy; the value itself otherwise. */
  function PrefixedPath(basePath: string, value: JsValue): JsValue {
    if Truthy(value) then Str(basePath + "/" + ToText(value)) else value
  }

  /** `${prefixName}-${name}` when prefixName is truthy; the name itself otherwise. */
  function PrefixedName(prefixName: Option<string>, name: JsValue): JsValue {
    if Truthy(FromOption(prefixName)) then Str(prefixName.value + "-" + ToText(name)) else name
  }

  /** One pass of the rewriting loop's body over an app. */
  function RewriteApp(app: AppRecord, basePath: string, prefixName: Option<string>): AppRecord {
    app.(script := PrefixedPath(basePath, app.script),
         outLog := PrefixedPath(basePath, app.outLog),
         errorLog := PrefixedPath(basePath, app.errorLog),
         name := PrefixedName(prefixName, app.name))
  }

  /**
   * A rewritten path field is the base path, a slash and the original text,
   * whether or not that text was already absolute; a falsy one is kept. The
   * original is recoverable by dropping the prefix. The name gains the prefix
   * and a dash. No other field changes.
   */
  lemma RewriteAppFields(app: AppRecord, basePath: string, prefixName: Option<string>)
    ensures var r := RewriteApp(app, basePath, prefixName);
      && r.others == app.others
      && (Truthy(app.script) ==>
            r.script.Str? && r.script.s[..|basePath| + 1] == basePath + "/"
            && r.script.s[|basePath| + 1..] == ToText(app.script))
      && (!Truthy(app.script) ==> r.script == app.script)
      && (Truthy(app.outLog) ==> r.outLog == Str(basePath + "/" + ToText(app.outLog)))
      && (!Truthy(app.outLog) ==> r.outLog == app.outLog)
      && (Truthy(app.errorLog) ==> r.errorLog == Str(basePath + "/" + ToText(app.errorLog)))
      && (!Truthy(app.errorLog) ==> r.errorLog == app.errorLog)
      && (prefixName.Some? && prefixName.value != "" ==>
            r.name.Str? && r.name.s[..|prefixName.value| + 1] == prefixName.value + "-"
            && r.name.s[|prefixName.value| + 1..] == ToText(app.name))
      && (prefixName.None? || prefixName.value == "" ==> r.name == app.name)
  {
    var r := RewriteApp(app, basePath, prefixName);
    if Truthy(app.script) {
      assert r.script.s == (basePath + "/") + ToText(app.script);
    }
    if prefixName.Some? && prefixName.value != "" {
      assert r.name.s == (prefixName.value + "-") + ToText(app.name);
    }
  }

  /** The rewrite of a relative script, and of one that is already absolute. */
  lemma RewriteExamples()
    ensures var r := RewriteApp(AppRecord(Str("web"), Str("index.js"), Undefined, Undefined, map[]), "/srv/a/b", Some("alice-repo"));
      r.script == Str("/srv/a/b/index.js") && r.name == Str("alice-repo-web")
      && r.outLog == Undefined && r.errorLog == Undefined
    ensures RewriteApp(AppRecord(Str("web"), Str("/opt/app.js"), Undefined, Undefined, map[]), "/srv", None).script
         == Str("/srv//opt/app.js")
  {
  }

  /** The options getPM2OptionsByFile returns: every app rewritten, in order, other keys kept. */
  function RewriteOptions(config: Pm2Config, basePath: string, prefixName: Option<string>): (r: Pm2Config)
    ensures |r.apps| == |config.apps| && r.others == config.others
    ensures forall i :: 0 <= i < |config.apps| ==> r.apps[i] == RewriteApp(config.apps[i], basePath, prefixName)
  {
    Pm2Config(seq(|config.apps|, i requires 0 <= i < |config.apps| => RewriteApp(config.apps[i], basePath, prefixName)),
              config.others)
  }

  /** getPM2OptionsByFile's result: the rewritten options, or `new Error(e)` for what reading threw. */
  function Pm2Options(o: Oracle, filePath: string, basePath: string, prefixName: Option<string>): Result<Pm2Config, string> {
    match ReadEcosystem(o, filePath)
    case Threw(text) => Failure(text)
    case Loaded(config) => Success(RewriteOptions(config, basePath, prefixName))
  }

  /** An app object of the evaluated ecosystem file, whose fields the rewriting loop assigns. */
  class App {
    var name: JsValue
    var script: JsValue
    var outLog: JsValue
    var errorLog: JsValue
    var others: map<string, JsValue>

    constructor (record: AppRecord)
      ensures Record() == record
    {
      name := record.name;
      script := record.script;
      outLog := record.outLog;
      errorLog := record.errorLog;
      others := record.others;
    }

    /** The object's current field values. */
    function Record(): AppRecord
      reads this
    {
      AppRecord(name, script, outLog, errorLog, others)
    }
  }

  /** The `for (const app of pm2Options)` loop: rewrites every app object in place. */
  method RewriteApps(apps: seq<App>, basePath: string, prefixName: Option<string>)
    requires forall i, j :: 0 <= i < j < |apps| ==> apps[i] != apps[j]
    modifies set app | app in apps
    ensures forall i :: 0 <= i < |apps| ==> apps[i].Record() == RewriteApp(old(apps[i].Record()), basePath, prefixName)
  {
    var i := 0;
    while i < |apps|
      invariant 0 <= i <= |apps|
      invariant forall k :: 0 <= k < i ==> apps[k].Record() == RewriteApp(old(apps[k].Record()), basePath, prefixName)
      invariant forall k :: i <= k < |apps| ==> apps[k].Record() == old(apps[k].Record())
    {
      var app := apps[i];
      if Truthy(app.script) {
        app.script := Str(basePath + "/" + ToText(app.script));
      }
      if Truthy(app.outLog) {
        app.outLog := Str(basePath + "/" + ToText(app.outLog));
      }
      if Truthy(app.errorLog) {
        app.errorLog := Str(basePath + "/" + ToText(app.errorLog));
      }
      if Truthy(FromOption(prefixName)) {
        app.name := Str(prefixName.value + "-" + ToText(app.name));
      }
      i := i + 1;
    }
  }

  /**
   * getPM2OptionsByFile: evaluates the ecosystem file into fresh app objects,
   * rewrites them in place and returns `{ ...config, apps }`; a read or
   * evaluation failure is rethrown with the text of what was thrown.
   */
  method GetPM2OptionsByFile(o: Oracle, filePath: string, basePath: string, prefixName: Option<string>)
    returns (r: Result<Pm2Config, string>)
    ensures r == Pm2Options(o, filePath, basePath, prefixName)
  {
    match ReadEcosystem(o, filePath)
    case Threw(text) =>
      return Failure(text);
    case Loaded(config) =>
      var apps: seq<App> := [];
      var j := 0;
      while j < |config.apps|
        invariant 0 <= j <= |config.apps| && |apps| == j
        invariant forall k :: 0 <= k < j ==> apps[k].Record() == config.apps[k]
        invariant forall k, l :: 0 <= k < l < j ==> apps[k] != apps[l]
        invariant forall k :: 0 <= k < j ==> fresh(apps[k])
      {
        var app := new App(config.apps[j]);
        apps := apps + [app];
        j := j + 1;
      }
      RewriteApps(apps, basePath, prefixName);
      var records: seq<AppRecord> := [];
      j := 0;
      while j < |apps|
        invariant 0 <= j <= |apps| && |records| == j
        invariant forall k :: 0 <= k < j ==> records[k] == apps[k].Record()
      {
        records := records + [apps[j].Record()];
        j := j + 1;
      }
      assert records == RewriteOptions(config, basePath, prefixName).apps;
      return Success(Pm2Config(records, config.others));
  }

  // ---------------------------------------------------------------------
  // deleteServices

  /** A delete error whose message contains "not found" counts as success. */
  predicate Tolerated(message: string) {
    IndexOf(message, "not found") != -1
  }

  /** The deletes deleteServices issues: one per app, by its (rewritten) name, all of them. */
  function DeleteOps(apps: seq<AppRecord>): (r: seq<Op>)
    ensures |r| == |apps| && forall i :: 0 <= i < |apps| ==> r[i] == Pm2Delete(apps[i].name)
  {
    seq(|apps|, i requires 0 <= i < |apps| => Pm2Delete(apps[i].name))
  }

  /** The delete of one app succeeds or fails only with a "not found" error. */
  predicate DeleteSucceeds(o: Oracle, app: AppRecord) {
    match StepError(o, Pm2Delete(app.name))
    case None => true
    case Some(m) => Tolerated(m)
  }

  /** How deleteServices settles: resolved when every delete succeeds, else the first fatal error. */
  function DeleteOutcome(o: Oracle, apps: seq<AppRecord>): (r: Outcome)
    ensures r == Done <==> forall i :: 0 <= i < |apps| ==> DeleteSucceeds(o, apps[i])
    ensures r.Failed? ==>
      exists i :: 0 <= i < |apps| && !DeleteSucceeds(o, apps[i])
        && StepError(o, Pm2Delete(apps[i].name)) == Some(r.message)
        && forall j :: 0 <= j < i ==> DeleteSucceeds(o, apps[j])
    decreases |apps|
  {
    if apps == [] then Done
    else
      var prior := DeleteOutcome(o, apps[..|apps| - 1]);
      if prior.Failed? then prior
      else
        match StepError(o, Pm2Delete(apps[|apps| - 1].name))
        case None => Done
        case Some(m) => if Tolerated(m) then Done else Failed(m)
  }

  method DeleteServices(host: Host, apps: seq<AppRecord>) returns (r: Outcome)
    modifies host
    ensures host.trace == old(host.trace) + DeleteOps(apps)
    ensures r == DeleteOutcome(host.oracle, apps)
  {
    r := Done;
    var i := 0;
    while i < |apps|
      invariant 0 <= i <= |apps|
      invariant host.trace == old(host.trace) + DeleteOps(apps[..i])
      invariant r == DeleteOutcome(host.oracle, apps[..i])
    {
      var error := host.Perform(Pm2Delete(apps[i].name));
      assert apps[..i + 1][..i] == apps[..i];
      if r == Done && error.Some? && !Tolerated(error.value) {
        r := Failed(error.value);
      }
      i := i + 1;
    }
    assert apps[..i] == apps;
  }

  // ---------------------------------------------------------------------
  // managePM2Service

  /** Every call managePM2Service would make if each one succeeded, given the rewritten options. */
  function ManagePlan(options: Pm2Config, force: bool): seq<Op> {
    [Pm2Connect] + (if force then DeleteOps(options.apps) else []) + [Pm2Start(options), Pm2Disconnect]
  }

  /** The calls managePM2Service makes once the options are loaded, and how it settles. */
  function StartRun(o: Oracle, options: Pm2Config, force: bool): (seq<Op>, Outcome) {
    var deletes := if force then DeleteOps(options.apps) else [];
    var deleted := if force then DeleteOutcome(o, options.apps) else Done;
    if deleted.Failed? then (deletes, deleted)
    else
      match StepError(o, Pm2Start(options))
      case Some(m) => (deletes + [Pm2Start(options)], Failed(m))
      case None => (deletes + [Pm2Start(options), Pm2Disconnect], Done)
  }

  /** The calls managePM2Service makes and how it settles. */
  function ManageRun(o: Oracle, basePath: string, pm2ConfigPath: string, force: bool, prefixName: Option<string>)
    : (seq<Op>, Outcome)
  {
    match StepError(o, Pm2Connect)
    case Some(m) => ([Pm2Connect], Failed(m))
    case None =>
      match Pm2Options(o, pm2ConfigPath, basePath, prefixName)
      case Failure(text) => ([Pm2Connect], Failed(text))
      case Success(options) =>
        var (ops, r) := StartRun(o, options, force);
        ([Pm2Connect] + ops, r)
  }

  /** The part of managePM2Service after the options are loaded: the forced deletes, start, disconnect. */
  method StartServices(host: Host, options: Pm2Config, force: bool) returns (r: Outcome)
    modifies host
    ensures host.trace == old(host.trace) + StartRun(host.oracle, options, force).0
    ensures r == StartRun(host.oracle, options, force).1
  {
    if force {
      var deleted := DeleteServices(host, options.apps);
      if deleted.Failed? {
        return deleted;
      }
    }
    var error := host.Perform(Pm2Start(options));
    if error.Some? {
      return Failed(error.value);
    }
    var _ := host.Perform(Pm2Disconnect);
    return Done;
  }

  method ManagePM2Service(host: Host, basePath: string, pm2ConfigPath: string, force: bool, prefixName: Option<string>)
    returns (r: Outcome)
    modifies host
    ensures host.trace == old(host.trace) + ManageRun(host.oracle, basePath, pm2ConfigPath, force, prefixName).0
    ensures r == ManageRun(host.oracle, basePath, pm2ConfigPath, force, prefixName).1
  {
    var error := host.Perform(Pm2Connect);
    if error.Some? {
      return Failed(error.value);
    }
    var pm2Options := GetPM2OptionsByFile(host.oracle, pm2ConfigPath, basePath, prefixName);
    if pm2Options.Failure? {
      return Failed(pm2Options.error);
    }
    r := StartServices(host, pm2Options.value, force);
  }

  /**
   * managePM2Service connects first, then (only when forced) deletes every
   * rewritten app name, then starts, then disconnects, stopping at the first
   * fatal error: its calls are a prefix of that plan. Start is reached exactly
   * when every delete succeeded or reported "not found", and the disconnect
   * is issued exactly when the service settles successfully, i.e. when start
   * succeeded.
   */
  lemma {:induction false} ManageRunOrder(o: Oracle, basePath: string, pm2ConfigPath: string, force: bool, prefixName: Option<string>)
    ensures var (ops, r) := ManageRun(o, basePath, pm2ConfigPath, force, prefixName);
      && 1 <= |ops| && ops[0] == Pm2Connect
      && (StepError(o, Pm2Connect).Some? || Pm2Options(o, pm2ConfigPath, basePath, prefixName).Failure? ==> ops == [Pm2Connect] && r.Failed?)
      && (StepError(o, Pm2Connect).None? && Pm2Options(o, pm2ConfigPath, basePath, prefixName).Success? ==>
            var options := Pm2Options(o, pm2ConfigPath, basePath, prefixName).value;
            && ops <= ManagePlan(options, force)
            && (Pm2Start(options) in ops <==> !force || DeleteOutcome(o, options.apps) == Done)
            && (Pm2Disconnect in ops <==> r == Done)
            && (r == Done <==> ops == ManagePlan(options, force) && StepError(o, Pm2Start(options)).None?)
            && (!force ==> forall k :: 0 <= k < |ops| ==> !ops[k].Pm2Delete?))
  {
    var (ops, r) := ManageRun(o, basePath, pm2ConfigPath, force, prefixName);
    if StepError(o, Pm2Connect).None? && Pm2Options(o, pm2ConfigPath, basePath, prefixName).Success? {
      var options := Pm2Options(o, pm2ConfigPath, basePath, prefixName).value;
      var deletes := if force then DeleteOps(options.apps) else [];
      var plan := ManagePlan(options, force);
      assert plan == [Pm2Connect] + deletes + [Pm2Start(options), Pm2Disconnect];
      assert forall k :: 0 <= k < |deletes| ==> deletes[k].Pm2Delete?;
      assert Pm2Start(options) !in [Pm2Connect] + deletes;
      assert Pm2Disconnect !in [Pm2Connect] + deletes;
      assert Pm2Disconnect !in [Pm2Connect] + deletes + [Pm2Start(options)];
    }
  }

  /**
   * A settled sequence of awaited calls stopped at its failure: every call but
   * the last succeeded, except deletes, which are all issued before any of
   * them is awaited.
   */
  predicate OnlyLastFailed(o: Oracle, ops: seq<Op>) {
    forall k :: 0 <= k < |ops| - 1 ==> ops[k].Pm2Delete? || StepError(o, ops[k]).None?
  }

  /**
   * When managePM2Service rejects, no call follows the one that failed, and
   * the message is that call's own error: a failed connect or start reports
   * its error; a failed load (only the connect was issued, and it succeeded)
   * reports what reading the ecosystem file threw; a failed delete reports
   * deleteServices' rejection.
   */
  lemma ManageStopsAtFailure(o: Oracle, basePath: string, pm2ConfigPath: string, force: bool, prefixName: Option<string>)
    ensures var (ops, r) := ManageRun(o, basePath, pm2ConfigPath, force, prefixName);
      var options := Pm2Options(o, pm2ConfigPath, basePath, prefixName);
      r.Failed? ==>
        && |ops| > 0 && OnlyLastFailed(o, ops)
        && (ops[|ops| - 1].Pm2Delete? ==>
              force && options.Success? && r == DeleteOutcome(o, options.value.apps))
        && (!ops[|ops| - 1].Pm2Delete? && StepError(o, ops[|ops| - 1]).Some? ==>
              StepError(o, ops[|ops| - 1]) == Some(r.message))
        && (!ops[|ops| - 1].Pm2Delete? && StepError(o, ops[|ops| - 1]).None? ==>
              ops == [Pm2Connect] && ReadEcosystem(o, pm2ConfigPath) == Threw(r.message))
  {
    var (ops, r) := ManageRun(o, basePath, pm2ConfigPath, force, prefixName);
    if StepError(o, Pm2Connect).None? && Pm2Options(o, pm2ConfigPath, basePath, prefixName).Success? && r.Failed? {
      var options := Pm2Options(o, pm2ConfigPath, basePath, prefixName).value;
      var deletes := if force then DeleteOps(options.apps) else [];
      if force && DeleteOutcome(o, options.apps).Failed? {
        assert ops == [Pm2Connect] + deletes;
        assert |deletes| > 0;
        assert ops[|ops| - 1] == deletes[|deletes| - 1];
      } else {
        assert ops == [Pm2Connect] + deletes + [Pm2Start(options)];
        assert forall k :: 0 <= k < |deletes| ==> deletes[k].Pm2Delete?;
      }
    }
  }

  /**
   * No failure that is awaited passes unnoticed: a failed call that is neither
   * a delete (all deletes are issued before any of them is awaited) nor the
   * disconnect (whose callback is not awaited) is the last call, and the
   * sequence rejects.
   */
  predicate FatalIsLast(o: Oracle, ops: seq<Op>, r: Outcome) {
    forall k :: 0 <= k < |ops| && !ops[k].Pm2Delete? && ops[k] != Pm2Disconnect && StepError(o, ops[k]).Some? ==>
      k == |ops| - 1 && r.Failed?
  }

  /**
   * managePM2Service does not go on past a failure: a failed connect or start
   * ends it with a rejection; a failed load rejects right after the connect;
   * a fatal delete rejects with deleteServices' rejection, and start is never
   * issued.
   */
  lemma {:induction false} ManageFatalIsLast(o: Oracle, basePath: string, pm2ConfigPath: string, force: bool, prefixName: Option<string>)
    ensures var (ops, r) := ManageRun(o, basePath, pm2ConfigPath, force, prefixName);
      var options := Pm2Options(o, pm2ConfigPath, basePath, prefixName);
      && FatalIsLast(o, ops, r)
      && (StepError(o, Pm2Connect).None? && options.Failure? ==> ops == [Pm2Connect] && r == Failed(options.error))
      && (StepError(o, Pm2Connect).None? && options.Success? && force && DeleteOutcome(o, options.value.apps).Failed? ==>
            r == DeleteOutcome(o, options.value.apps) && forall k :: 0 <= k < |ops| ==> !ops[k].Pm2Start?)
  {
    var (ops, r) := ManageRun(o, basePath, pm2ConfigPath, force, prefixName);
    if StepError(o, Pm2Connect).None? && Pm2Options(o, pm2ConfigPath, basePath, prefixName).Success? {
      var options := Pm2Options(o, pm2ConfigPath, basePath, prefixName).value;
      var deletes := if force then DeleteOps(options.apps) else [];
      assert forall k :: 0 <= k < |deletes| ==> deletes[k].Pm2Delete?;
      if force && DeleteOutcome(o, options.apps).Failed? {
        assert ops == [Pm2Connect] + deletes;
      } else if StepError(o, Pm2Start(options)).Some? {
        assert ops == [Pm2Connect] + deletes + [Pm2Start(options)];
      } else {
        assert ops == [Pm2Connect] + deletes + [Pm2Start(options), Pm2Disconnect];
      }
    }
  }
}
