/**
 * The outside world the deploy code drives: git (simple-git), the shell
 * (child_process.exec), the pm2 daemon and the file system.
 *
 * Every call that changes something outside the process is an `Op` appended
 * to the host's trace. What the code only observes (whether a path exists,
 * what `require` or `eval` of a descriptor yields, which calls fail and with
 * what message) is fixed in advance by an `Oracle`.
 */
module Effects {
  import opened Wrappers
  import opened Js

  /** One entry of an ecosystem file's `apps` array, as handed to pm2. */
  datatype AppRecord = AppRecord(
    name: JsValue,
    script: JsValue,
    outLog: JsValue,                 // out_log
    errorLog: JsValue,               // error_log
    others: map<string, JsValue>)    // every other field, passed through

  /** What an ecosystem file evaluates to: its `apps` and its other keys. */
  datatype Pm2Config = Pm2Config(apps: seq<AppRecord>, others: map<string, JsValue>)

  /** The deployment descriptor adp.config.js. */
  datatype AdpConfig = AdpConfig(packageManager: JsValue, port: JsValue)

  /**
   * Loading a descriptor as code: the value it yields, or the text the
   * deploy reports when loading throws (see RequireAdp and ReadEcosystem).
   */
  datatype Load<T> = Loaded(value: T) | Threw(text: string)

  /** The external calls, in the form they are issued. */
  datatype Op =
    | GitReset(dir: string, options: seq<string>)      // simpleGit(dir).reset(options)
    | GitPull(dir: string, options: seq<string>)       // simpleGit(dir).pull(...options)
    | GitClone(url: string, dir: string, options: seq<string>)
    | RunPreBuild                                      // the caller's preBuildCode hook
    | Exec(command: string)                            // child_process.exec(command)
    | Pm2Connect
    | Pm2Delete(name: JsValue)
    | Pm2Start(config: Pm2Config)
    | Pm2Disconnect

  /** How an asynchronous step settles: resolved, or rejected with an error message. */
  datatype Outcome = Done | Failed(message: string)

  /** The facts the code observes but does not decide. */
  datatype Oracle = Oracle(
    existing: set<string>,                            // paths fs.existsSync reports
    failures: map<Op, string>,                        // the error message of each call that fails
    adpConfigs: map<string, Load<AdpConfig>>,         // require(path)
    ecosystemFiles: map<string, Load<Pm2Config>>)     // eval(fs.readFileSync(path))

  /** The error an external call reports, if it fails. */
  function StepError(o: Oracle, op: Op): (r: Option<string>)
    ensures r.Some? <==> op in o.failures
  {
    if op in o.failures then Some(o.failures[op]) else None
  }

  /**
   * `require(path)` of a deployment descriptor. A failure holds the thrown
   * error's `message`, which is what the deploy rejects with; a path never
   * written is a missing module.
   */
  function RequireAdp(o: Oracle, path: string): Load<AdpConfig> {
    if path in o.adpConfigs then o.adpConfigs[path]
    else Threw("Cannot find module '" + path + "'")
  }

  /**
   * Reading and evaluating an ecosystem file. A failure holds `String(e)` of
   * what was thrown, which becomes the message of the `new Error(e)` the
   * loader rethrows; a file never written cannot be read.
   */
  function ReadEcosystem(o: Oracle, path: string): Load<Pm2Config> {
    if path in o.ecosystemFiles then o.ecosystemFiles[path]
    else Threw("Error: ENOENT: no such file or directory, open '" + path + "'")
  }

  /**
   * Awaiting `ops` one after another: each call is issued only if every call
   * before it succeeded. Gives the calls issued and how the sequence settles.
   */
  function RunSteps(o: Oracle, ops: seq<Op>): (r: (seq<Op>, Outcome))
    ensures |r.0| <= |ops| && r.0 == ops[..|r.0|]
    ensures r.1 == Done <==> r.0 == ops && forall k :: 0 <= k < |ops| ==> StepError(o, ops[k]).None?
    ensures r.1.Failed? ==>
      && |r.0| > 0
      && StepError(o, r.0[|r.0| - 1]) == Some(r.1.message)
      && forall k :: 0 <= k < |r.0| - 1 ==> StepError(o, r.0[k]).None?
    decreases |ops|
  {
    if ops == [] then ([], Done)
    else
      match StepError(o, ops[0])
      case Some(m) => ([ops[0]], Failed(m))
      case None =>
        var (rest, outcome) := RunSteps(o, ops[1..]);
        ([ops[0]] + rest, outcome)
  }

  /** The calls issued so far, against a fixed oracle. */
  class Host {
    const oracle: Oracle
    var trace: seq<Op>

    constructor (oracle: Oracle)
      ensures this.oracle == oracle && trace == []
    {
      this.oracle := oracle;
      trace := [];
    }

    /** Issues one call and reports its error, if any. */
    method Perform(op: Op) returns (error: Option<string>)
      modifies this
      ensures trace == old(trace) + [op]
      ensures error == StepError(oracle, op)
    {
      trace := trace + [op];
      error := StepError(oracle, op);
    }
  }
}
