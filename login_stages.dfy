/** A reference description of the login controller as a stage machine:
    Validating, then Authenticating, then Done, each stage making one
    collaborator call and mapping its own faults to a 500 on the spot. It is
    independent of the `try`/`catch` shape of `Handle`, and the lemma at the
    end shows the two agree on every request and every collaborator
    behaviour. */
module LoginStages {
  import opened JsValues
  import opened Http
  import opened Login

  datatype Stage = Validating | Authenticating(credentials: Credentials) | Done(response: HttpResponse)

  datatype Machine = Machine(stage: Stage, calls: seq<Call>)

  /** How many stages are still ahead. */
  function Rank(s: Stage): nat
  {
    match s
    case Validating => 2
    case Authenticating(_) => 1
    case Done(_) => 0
  }

  /** Run the current stage: one collaborator call, then the next stage. */
  function Step(c: LoginController, body: Value, m: Machine): (n: Machine)
    requires !m.stage.Done?
    // stages only move forward, so none is revisited
    ensures Rank(n.stage) < Rank(m.stage)
    // each stage makes exactly one call, appended to the trace
    ensures |n.calls| == |m.calls| + 1 && n.calls[..|m.calls|] == m.calls
    ensures m.stage.Validating? ==> n.calls[|m.calls|] == Validate(body)
    ensures m.stage.Authenticating? ==> n.calls[|m.calls|] == Auth(m.stage.credentials)
  {
    match m.stage
    case Validating =>
      var calls := m.calls + [Validate(body)];
      (match c.validator(body)
       case Throw(f) => Machine(Done(ServerError(f)), calls)
       case Normal(Some(e)) => Machine(Done(BadRequest(e)), calls)
       case Normal(None) =>
         match ExtractCredentials(body)
         case Throw(f) => Machine(Done(ServerError(f)), calls)
         case Normal(credentials) => Machine(Authenticating(credentials), calls))
    case Authenticating(credentials) =>
      var calls := m.calls + [Auth(credentials)];
      match c.authenticator(credentials)
      case Throw(f) => Machine(Done(ServerError(f)), calls)
      case Normal(t) =>
        Machine(Done(if Truthy(t) then Ok(AccessTokenBody(t)) else Unauthorized), calls)
  }

  /** Run stages until one is terminal. */
  function Execute(c: LoginController, body: Value, m: Machine): (r: Machine)
    ensures r.stage.Done?
    ensures m.stage.Done? ==> r == m
    // the trace only grows, by at most one call per remaining stage
    ensures |m.calls| <= |r.calls| <= |m.calls| + Rank(m.stage)
    ensures r.calls[..|m.calls|] == m.calls
    decreases Rank(m.stage)
  {
    if m.stage.Done? then m else Execute(c, body, Step(c, body, m))
  }

  /** A request as the stage machine answers it. */
  function Staged(c: LoginController, request: HttpRequest): Exchange
  {
    var r := Execute(c, request.body, Machine(Validating, []));
    Exchange(r.stage.response, r.calls)
  }

  /** Catching every fault of the `try` block at one place answers each request
      exactly as mapping each stage's fault where it arises does. */
  lemma HandleFollowsStages(c: LoginController, request: HttpRequest)
    ensures c.Handle(request) == Staged(c, request)
  {
  }
}
