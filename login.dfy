/** The login controller: validate the request body, then authenticate with
    the e-mail and password taken from it, and map every outcome (including
    any fault thrown on the way) onto one of four responses. */
module Login {
  import opened JsValues
  import opened Http

  /** The argument passed to the authenticator: `{ email, password }`. */
  datatype Credentials = Credentials(email: Value, password: Value)

  /** A call the controller makes into one of its collaborators. */
  datatype Call = Validate(input: Value) | Auth(credentials: Credentials)

  /** The injected validator's `validate(input)`: an error, nothing, or a throw. */
  type Validator = Value -> Completion<Option<Error>>

  /** The injected authenticator's awaited `auth(credentials)`: the value the
      promise resolves to, or the fault it rejects (or throws) with. */
  type Authentication = Credentials -> Completion<Value>

  /** How the body of the `try` block ended, and the calls it made. */
  datatype Attempt = Attempt(completion: Completion<HttpResponse>, calls: seq<Call>)

  /** What one `handle` call returns, and the calls it made, in order. */
  datatype Exchange = Exchange(response: HttpResponse, calls: seq<Call>)

  /** `const { email, password } = httpRequest.body`. */
  function ExtractCredentials(body: Value): (r: Completion<Credentials>)
    ensures r.Throw? <==> body.Undefined? || body.Null?
    ensures body.Obj? ==> r == Normal(Credentials(Lookup(body.props, "email"), Lookup(body.props, "password")))
  {
    match GetProperty(body, "email")
    case Throw(f) => Throw(f)
    case Normal(email) =>
      match GetProperty(body, "password")
      case Throw(f) => Throw(f)
      case Normal(password) => Normal(Credentials(email, password))
  }

  /** The `{ accessToken }` object handed to `ok`. */
  function AccessTokenBody(accessToken: Value): Value
  {
    Obj(map["accessToken" := accessToken])
  }

  /** The number of authenticator calls in a trace. */
  function AuthCalls(calls: seq<Call>): (n: nat)
    ensures n <= |calls|
    ensures n == 0 <==> forall i :: 0 <= i < |calls| ==> !calls[i].Auth?
  {
    if calls == [] then 0
    else AuthCalls(calls[1..]) + (if calls[0].Auth? then 1 else 0)
  }

  /** The `catch (err) { return serverError(err) }` clause. */
  function Catch(c: Completion<HttpResponse>): HttpResponse
  {
    match c
    case Normal(response) => response
    case Throw(err) => ServerError(err)
  }

  /** Both collaborators are fixed at construction and never reassigned. */
  datatype LoginController = LoginController(authenticator: Authentication, validator: Validator) {

    /** The statements inside the `try`: validate, return `badRequest` on an
        error, destructure the body, await `auth`, return `unauthorized` on a
        falsy token and `ok({ accessToken })` otherwise. */
    function TryBlock(request: HttpRequest): (a: Attempt)
      // the validator is always asked first, about the request body
      ensures 1 <= |a.calls| <= 2 && a.calls[0] == Validate(request.body)
      // the authenticator is asked at most once, only after validation passed,
      // and with the credentials read from the body
      ensures |a.calls| == 2 <==> validator(request.body) == Normal(None) && ExtractCredentials(request.body).Normal?
      ensures |a.calls| == 2 ==> a.calls[1] == Auth(ExtractCredentials(request.body).value)
      // `serverError` is reached only through the catch clause
      ensures a.completion.Normal? ==> !a.completion.value.ServerError?
    {
      var body := request.body;
      match validator(body)
      case Throw(f) => Attempt(Throw(f), [Validate(body)])
      case Normal(Some(error)) => Attempt(Normal(BadRequest(error)), [Validate(body)])
      case Normal(None) =>
        match ExtractCredentials(body)
        case Throw(f) => Attempt(Throw(f), [Validate(body)])
        case Normal(credentials) =>
          var calls := [Validate(body), Auth(credentials)];
          match authenticator(credentials)
          case Throw(f) => Attempt(Throw(f), calls)
          case Normal(accessToken) =>
            if !Truthy(accessToken) then Attempt(Normal(Unauthorized), calls)
            else Attempt(Normal(Ok(AccessTokenBody(accessToken))), calls)
    }

    /** `handle(httpRequest)`: the `try` block with its `catch` clause. */
    function Handle(request: HttpRequest): (x: Exchange)
      ensures x.calls == TryBlock(request).calls
      // a 500 answers exactly the requests during which something was thrown
      ensures x.response.ServerError? <==> TryBlock(request).completion.Throw?
      ensures x.response.ServerError? ==> x.response.cause == TryBlock(request).completion.fault
      ensures !x.response.ServerError? ==> x.response == TryBlock(request).completion.value
    {
      var attempt := TryBlock(request);
      Exchange(Catch(attempt.completion), attempt.calls)
    }
  }

  /** A validation error `e` is answered with `badRequest(e)`, that exact
      error, and the authenticator is never called. */
  lemma ValidationErrorIsBadRequest(c: LoginController, request: HttpRequest, e: Error)
    requires c.validator(request.body) == Normal(Some(e))
    ensures c.Handle(request) == Exchange(BadRequest(e), [Validate(request.body)])
    ensures AuthCalls(c.Handle(request).calls) == 0
  {
  }

  /** Conversely, a 400 comes only from the validator, carrying its error. */
  lemma BadRequestOnlyFromValidator(c: LoginController, request: HttpRequest)
    ensures c.Handle(request).response.BadRequest? <==>
      c.validator(request.body).Normal? && c.validator(request.body).value.Some?
    ensures c.Handle(request).response.BadRequest? ==>
      c.validator(request.body) == Normal(Some(c.Handle(request).response.error))
  {
  }

  /** Once validation passes, the authenticator is called exactly once, with
      `email` and `password` copied verbatim from the body. */
  lemma AuthenticatorCalledOnceWithBodyFields(c: LoginController, props: map<string, Value>)
    requires c.validator(Obj(props)) == Normal(None)
    ensures c.Handle(HttpRequest(Obj(props))).calls ==
      [Validate(Obj(props)), Auth(Credentials(Lookup(props, "email"), Lookup(props, "password")))]
    ensures AuthCalls(c.Handle(HttpRequest(Obj(props))).calls) == 1
  {
  }

  /** A fault thrown (or a promise rejected) by the authenticator is answered
      with `serverError` carrying that fault. */
  lemma AuthenticatorFaultIsServerError(c: LoginController, request: HttpRequest, err: Fault)
    requires c.validator(request.body) == Normal(None)
    requires ExtractCredentials(request.body).Normal?
    requires c.authenticator(ExtractCredentials(request.body).value) == Throw(err)
    ensures c.Handle(request).response == ServerError(err)
  {
  }

  /** The validator runs inside the same `try`, so its fault is caught too,
      and the authenticator is then never called. */
  lemma ValidatorFaultIsServerError(c: LoginController, request: HttpRequest, err: Fault)
    requires c.validator(request.body) == Throw(err)
    ensures c.Handle(request) == Exchange(ServerError(err), [Validate(request.body)])
  {
  }

  /** A body that is `undefined` or `null` but passes validation makes the
      destructuring throw a `TypeError`, which is also answered with 500. */
  lemma MissingBodyIsServerError(c: LoginController, request: HttpRequest)
    requires request.body.Undefined? || request.body.Null?
    requires c.validator(request.body) == Normal(None)
    ensures c.Handle(request) == Exchange(ServerError(TypeError("email")), [Validate(request.body)])
  {
  }

  /** A falsy token (`null`, `undefined`, `""`, ...) is answered with
      `unauthorized()`. */
  lemma FalsyTokenIsUnauthorized(c: LoginController, request: HttpRequest, token: Value)
    requires c.validator(request.body) == Normal(None)
    requires ExtractCredentials(request.body).Normal?
    requires c.authenticator(ExtractCredentials(request.body).value) == Normal(token)
    requires !Truthy(token)
    ensures c.Handle(request).response == Unauthorized
  {
  }

  /** A truthy token `t` is answered with `ok({ accessToken: t })`: status
      200 and a body whose only property is that token. */
  lemma TruthyTokenIsOk(c: LoginController, request: HttpRequest, t: Value)
    requires c.validator(request.body) == Normal(None)
    requires ExtractCredentials(request.body).Normal?
    requires c.authenticator(ExtractCredentials(request.body).value) == Normal(t)
    requires Truthy(t)
    ensures c.Handle(request).response.Ok?
    ensures StatusCode(c.Handle(request).response) == 200
    ensures c.Handle(request).response.body.Obj?
    ensures c.Handle(request).response.body.props.Keys == {"accessToken"}
    ensures c.Handle(request).response.body.props["accessToken"] == t
  {
  }

  /** Each of the four responses is reached by exactly one combination of
      collaborator outcomes; together they cover every combination. */
  lemma OutcomeClassification(c: LoginController, request: HttpRequest)
    ensures var x := c.Handle(request);
      var v := c.validator(request.body);
      var cr := ExtractCredentials(request.body);
      var passed := v == Normal(None) && cr.Normal?;
      && (x.response.BadRequest? <==> v.Normal? && v.value.Some?)
      && (x.response.ServerError? <==>
            v.Throw? || (v == Normal(None) && cr.Throw?) || (passed && c.authenticator(cr.value).Throw?))
      && (x.response.Unauthorized? <==>
            passed && c.authenticator(cr.value).Normal? && !Truthy(c.authenticator(cr.value).value))
      && (x.response.Ok? <==>
            passed && c.authenticator(cr.value).Normal? && Truthy(c.authenticator(cr.value).value))
  {
  }

  /** No retries and no hidden state: the response and the calls depend only
      on the answers the collaborators give to the calls actually made. */
  lemma SameAnswersSameExchange(c1: LoginController, c2: LoginController, request: HttpRequest)
    requires c1.validator(request.body) == c2.validator(request.body)
    requires forall i :: 0 <= i < |c1.Handle(request).calls| && c1.Handle(request).calls[i].Auth? ==>
      c1.authenticator(c1.Handle(request).calls[i].credentials) == c2.authenticator(c1.Handle(request).calls[i].credentials)
    ensures c1.Handle(request) == c2.Handle(request)
  {
  }
}
