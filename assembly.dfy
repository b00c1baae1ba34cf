/** The controller wired to an email validator on the `email` field: what a
    negative, a positive and a throwing format check mean for the response. */
module Assembly {
  import opened JsValues
  import opened Http
  import opened EmailValidation
  import opened Login

  /** An email validator used as the controller's `validator`. */
  function AsValidator(v: EmailValidator): Validator
  {
    (input: Value) => v.Validate(input).outcome
  }

  /** An email the checker rejects is answered with 400 and
      `InvalidParamError("email")`, and nobody is authenticated. */
  lemma RejectedEmailIsBadRequest(auth: Authentication, isValid: EmailValidation, props: map<string, Value>)
    requires isValid(Lookup(props, "email")) == Normal(false)
    ensures var x := LoginController(auth, AsValidator(EmailValidator("email", isValid))).Handle(HttpRequest(Obj(props)));
      x.response == BadRequest(InvalidParamError("email")) && StatusCode(x.response) == 400 && AuthCalls(x.calls) == 0
  {
  }

  /** An email the checker accepts lets the request through to the
      authenticator, with the body's email and password. */
  lemma AcceptedEmailReachesAuthenticator(auth: Authentication, isValid: EmailValidation, props: map<string, Value>)
    requires isValid(Lookup(props, "email")) == Normal(true)
    ensures LoginController(auth, AsValidator(EmailValidator("email", isValid))).Handle(HttpRequest(Obj(props))).calls[1]
      == Auth(Credentials(Lookup(props, "email"), Lookup(props, "password")))
  {
  }

  /** The email validator does not catch a fault of its checker, but the
      controller does: the request is answered with 500 carrying that fault. */
  lemma CheckerFaultIsServerError(auth: Authentication, isValid: EmailValidation, props: map<string, Value>, f: Fault)
    requires isValid(Lookup(props, "email")) == Throw(f)
    ensures LoginController(auth, AsValidator(EmailValidator("email", isValid))).Handle(HttpRequest(Obj(props))).response
      == ServerError(f)
  {
  }
}
