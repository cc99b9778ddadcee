/**
 * The HTTP entry point GET /api/deploy (src/deploy/deploy.controller.ts):
 * checks the `type` and `git` query parameters, starts the matching deploy
 * and answers at once.
 */
module DeployController {
  import opened Wrappers
  import opened Js
  import opened Effects
  import opened ResultUtil
  import DeployService

  const INCOMPLETE := "部署参数不完整"
  const BAD_TYPE := "部署类型错误，只能是 \"node\" 或 \"static\""
  const DEPLOYING := "正在部署中"

  /** Which deploy a request starts, if any. */
  datatype Dispatch = NoDeploy | NodeDeploy(git: string) | StaticDeploy(git: string)

  /** A query parameter that is present and not empty (`!param` is false). */
  predicate Given(param: Option<string>) {
    Truthy(FromOption(param))
  }

  /** A deploy type the controller accepts. */
  predicate KnownType(t: string) {
    t == "node" || t == "static"
  }

  /**
   * The answer to a request and the deploy it starts. A request is accepted
   * exactly when both parameters are given and the type is known; only an
   * accepted request starts a deploy, and it is answered with the success
   * envelope. A rejection carries the unknown-error code and no data, and its
   * message names the first check that failed.
   */
  function Respond(typ: Option<string>, git: Option<string>): (r: (ApiResult<string>, Dispatch))
    ensures r.1 != NoDeploy <==> Given(typ) && Given(git) && KnownType(typ.value)
    ensures r.1.NodeDeploy? <==> Given(git) && typ == Some("node")
    ensures r.1.StaticDeploy? <==> Given(git) && typ == Some("static")
    ensures r.1 != NoDeploy ==> Some(r.1.git) == git
    ensures r.0.code == SUCCESS <==> r.1 != NoDeploy
    ensures r.1 != NoDeploy ==> r.0 == ApiResult(SUCCESS, Some(DEPLOYING), Str(DEFAULT_SUCCESS_MESSAGE))
    ensures r.1 == NoDeploy ==> r.0.code == UNKNOWN_ERROR && r.0.data == None
    ensures !(Given(typ) && Given(git)) ==> r.0.message == Str(INCOMPLETE)
    ensures Given(typ) && Given(git) && !KnownType(typ.value) ==> r.0.message == Str(BAD_TYPE)
  {
    if !Given(typ) || !Given(git) then
      (ErrorResult(Str(INCOMPLETE), Undefined, None), NoDeploy)
    else if !KnownType(typ.value) then
      (ErrorResult(Num(UNKNOWN_ERROR), Str(BAD_TYPE), None), NoDeploy)
    else
      var dispatch := if typ.value == "node" then NodeDeploy(git.value) else StaticDeploy(git.value);
      (SuccessResult(DEPLOYING, None), dispatch)
  }

  /**
   * Handles one request: starts the deploy `Respond` selects and answers with
   * `Respond`'s envelope. The answer does not depend on how the deploy
   * settles; a rejected request issues no external call.
   */
  method Deploy(host: Host, root: string, typ: Option<string>, git: Option<string>) returns (result: ApiResult<string>)
    modifies host
    ensures result == Respond(typ, git).0
    ensures Respond(typ, git).1.NodeDeploy? ==>
      host.trace == old(host.trace) + DeployService.DeployRun(host.oracle, root, git.value).0
    ensures !Respond(typ, git).1.NodeDeploy? ==> host.trace == old(host.trace)
  {
    var response := Respond(typ, git);
    result := response.0;
    match response.1
    case NodeDeploy(g) =>
      var settled := DeployService.DeployNodeProject(host, root, g);
    case StaticDeploy(g) =>
      var settled := DeployService.DeployStaticResources(host, g);
    case NoDeploy =>
  }

  /** Whether a request is accepted depends on its parameters alone, and the answer names no error. */
  lemma AcceptedAnswer(typ: Option<string>, git: Option<string>)
    requires typ == Some("node") || typ == Some("static")
    requires git.Some? && git.value != ""
    ensures Respond(typ, git).0 == SuccessResult(DEPLOYING, None)
    ensures Respond(typ, git).1 == if typ == Some("node") then NodeDeploy(git.value) else StaticDeploy(git.value)
  {
  }

  /** A missing or empty `git` is reported as incomplete parameters, whatever the type. */
  lemma MissingGitIsIncomplete(typ: Option<string>, git: Option<string>)
    requires git == None || git == Some("")
    ensures Respond(typ, git) == (ErrorResult(Str(INCOMPLETE), Undefined, None), NoDeploy)
    ensures Respond(typ, git).0 == ApiResult(UNKNOWN_ERROR, None, Str(INCOMPLETE))
  {
  }

  /** The type check is case-sensitive: "Node" is refused as an unknown type. */
  lemma TypeIsCaseSensitive()
    ensures Respond(Some("Node"), Some("git@github.com:alice/app.git")) ==
      (ApiResult(UNKNOWN_ERROR, None, Str(BAD_TYPE)), NoDeploy)
  {
  }
}
