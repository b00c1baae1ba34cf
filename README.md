# Login request pipeline, modelled in Dafny

This project models the login endpoint of an authentication API written in
TypeScript:

- the `LoginController` (`src/presentation/controllers/login/login.ts`). It
  runs an injected validator on the request body. On an error it answers 400.
  Otherwise it takes `email` and `password` from the body and awaits an
  injected authenticator. A falsy token gives 401 and a truthy token gives
  200 with `{ accessToken }`. Any fault thrown inside its `try` gives 500;
- the `EmailValidator` (`src/presentation/helpers/validators/email-validator.ts`).
  It reads one configured field of the payload and asks an injected
  format checker about it. A negative answer gives `InvalidParamError(field)`.

Both classes only have `readonly` fields set in their constructors, and
their methods compute a value, so both are datatypes holding their injected
collaborators as function values. Their methods are member functions.

Files and modules:

- `js_values.dfy` (`JsValues`): JavaScript values, thrown faults, completions
  (normal return or throw), truthiness and property access. Reading a property
  of `undefined` or `null` throws a `TypeError`.
- `http.dfy` (`Http`): requests, the four responses (`BadRequest`,
  `Unauthorized`, `ServerError`, `Ok`) and their status codes. These follow
  RFC 9110: section 15.5.1 (400), 15.5.2 (401), 15.6.1 (500) and 15.3.1 (200).
- `email_validator.dfy` (`EmailValidation`): `EmailValidator.Validate`.
- `login.dfy` (`Login`): `LoginController.TryBlock` (the statements inside the
  `try`), `LoginController.Handle` (the `try` with its `catch`), and the
  properties of the outcome mapping.
- `login_stages.dfy` (`LoginStages`): an independent stage machine
  (Validating, Authenticating, Done). Each stage makes one call and maps its
  own fault. A lemma proves it answers every request exactly as `Handle` does.
- `assembly.dfy` (`Assembly`): the controller wired to an email validator on
  `email`.

Every call into a collaborator is recorded in a trace. The controller records
`Validate(input)` and `Auth(credentials)`; the email validator records the
arguments of `isValid`. The trace plays the role of the test spies
(`toHaveBeenCalledWith`). It makes "the authenticator is never called" and
"`isValid` receives `input[fieldName]`" statable.

The call to `validate` sits inside the same `try` as the call to `auth`
(`login.ts:18-19`), so a validator fault is also caught and answered with 500
(`Login.ValidatorFaultIsServerError`, `Assembly.CheckerFaultIsServerError`).

## Model

| member | source | states |
|---|---|---|
| `JsValues.GetProperty` | src/presentation/helpers/validators/email-validator.ts:14 | `v[key]` throws `TypeError(key)` exactly when `v` is `undefined` or `null`; on an object of the model (own properties only) it yields the property or `undefined` |
| `JsValues.NullUndefinedAndEmptyStringAreFalsy` | src/presentation/controllers/login/login.ts:30 | `null`, `undefined` and `""` fail `!accessToken`'s test; every non-empty string passes it |
| `Http.StatusCodeIdentifiesKind` | src/presentation/controllers/login/login.ts:21-35 | the four responses have four distinct status codes, so the status identifies the outcome |
| `EmailValidation.EmailValidator.Validate` | src/presentation/helpers/validators/email-validator.ts:13-18 | `isValid` is called at most once, and whenever the read succeeds with exactly `input[fieldName]`; a missing input throws before `isValid` is asked; the only returned error is `InvalidParamError(fieldName)`; it throws exactly when the lookup or `isValid` throws |
| `EmailValidation.PassesFieldValue` | src/presentation/helpers/validators/email-validator.spec.ts:36-41 | `isValid` receives exactly the value read under the configured field, and is not called when that read throws |
| `EmailValidation.ErrorExactlyWhenInvalid` | src/presentation/helpers/validators/email-validator.ts:14-18 | once the field is read, the result is `InvalidParamError(fieldName)` if and only if `isValid` answers false, and nothing if and only if it answers true |
| `EmailValidation.ErrorIndependentOfValue` | src/presentation/helpers/validators/email-validator.ts:16 | the error names the configured field and does not depend on the field's value |
| `EmailValidation.FaultPropagates` | src/presentation/helpers/validators/email-validator.ts:13-18 | a fault thrown by `isValid` leaves `validate` unchanged |
| `EmailValidation.SameAnswerSameResult` | src/presentation/helpers/validators/email-validator.ts:5-18 | same field name and same checker answer on the value asked about give the same result, so repeated calls agree |
| `Login.ExtractCredentials` | src/presentation/controllers/login/login.ts:24 | destructuring throws exactly when the body is `undefined` or `null`; on an object it yields the body's `email` and `password` verbatim |
| `Login.LoginController.TryBlock` | src/presentation/controllers/login/login.ts:18-33 | the validator is asked first, about the body; the authenticator is asked at most once, exactly when validation passed and destructuring succeeded, with the extracted credentials; no `serverError` is returned from inside the `try` |
| `Login.LoginController.Handle` | src/presentation/controllers/login/login.ts:17-37 | the response is 500 exactly when the `try` block threw, and then carries that fault; otherwise it is the `try` block's own response; the calls are those of the `try` block |
| `Login.ValidationErrorIsBadRequest` | src/presentation/controllers/login/login.ts:19-22 | a validation error `e` gives `badRequest(e)`, and the only call made is to the validator |
| `Login.BadRequestOnlyFromValidator` | src/presentation/controllers/login/login.ts:19-22 | a 400 happens if and only if the validator returned an error, and its body is that error |
| `Login.AuthenticatorCalledOnceWithBodyFields` | src/presentation/controllers/login/login.ts:24-29 | after validation passes, the authenticator is called exactly once, with `email` and `password` copied from the body |
| `Login.AuthenticatorFaultIsServerError` | src/presentation/controllers/login/login.ts:26-36 | a fault from the authenticator gives `serverError` with that fault |
| `Login.ValidatorFaultIsServerError` | src/presentation/controllers/login/login.ts:18-36 | a fault from the validator gives `serverError` with that fault, and the authenticator is not called |
| `Login.MissingBodyIsServerError` | src/presentation/controllers/login/login.ts:24-36 | a body that is `undefined` or `null` and passes validation gives 500 with the destructuring's `TypeError` |
| `Login.FalsyTokenIsUnauthorized` | src/presentation/controllers/login/login.ts:30-32 | a falsy token gives `unauthorized()` |
| `Login.TruthyTokenIsOk` | src/presentation/controllers/login/login.ts:33 | a truthy token `t` gives status 200 with a body whose only property is `accessToken`, equal to `t` |
| `Login.OutcomeClassification` | src/presentation/controllers/login/login.ts:17-37 | each of the four responses is characterised, if and only if, by the collaborators' outcomes |
| `Login.SameAnswersSameExchange` | src/presentation/controllers/login/login.ts:6-37 | two controllers whose collaborators give the same answers to the calls made produce the same response and the same calls |
| `LoginStages.Step` | src/presentation/controllers/login/login.ts:19-33 | each stage makes exactly one call, appends it to the trace and moves strictly forward |
| `LoginStages.Execute` | src/presentation/controllers/login/login.ts:17-37 | running the stages always ends in a response, with at most one call per stage |
| `LoginStages.HandleFollowsStages` | src/presentation/controllers/login/login.ts:17-37 | the `try`/`catch` controller and the stage machine give the same response and the same calls on every request |
| `Assembly.RejectedEmailIsBadRequest` | src/presentation/helpers/validators/email-validator.spec.ts:29-34 | a rejected email gives 400 with `InvalidParamError("email")` and no authentication |
| `Assembly.AcceptedEmailReachesAuthenticator` | src/presentation/controllers/login/login.spec.ts:52-68 | an accepted email leads to a call of the authenticator with the body's email and password |
| `Assembly.CheckerFaultIsServerError` | src/presentation/helpers/validators/email-validator.ts:14 | a fault of the format checker passes through the email validator and becomes a 500 at the controller |

## Left out

- `RequiredFieldsValidator`, `ValidatorComposite`, the HTTP helpers and the error classes are not part of this model. Their source is not available. The validator is a function value; the helpers are the `HttpResponse` constructors; the errors are tagged values carrying a field name or a description.
- The bodies of `unauthorized()` and `serverError(err)` are not available either. `Unauthorized` carries no body and `ServerError` carries the caught fault.
- `EmailValidationAdapter` only wraps an external `isEmail` library whose grammar is not available. The checker is therefore an uninterpreted function that may also throw.
- Promise suspension is not modelled. The authenticator call is a synchronous completion: a resolved value or a rejection. Nothing here is concurrent.
- The real authenticator (tokens, storage, hashing) is not modelled. It is an uninterpreted function.
- JsValues.GetProperty: objects are maps of own properties with no prototype chain, so a field name inherited from `Object.prototype` (such as `constructor` or `toString`) reads as `undefined`, where JavaScript would yield the inherited value.
- JavaScript values are simplified. Numbers are integers (no `NaN`, no fractions), and primitives have no properties (for example a string's `length` reads as `undefined`).
- The controller's `validator` stub has type `Value -> Completion<Option<Error>>`. A validator that returns a falsy non-error value therefore cannot be expressed.
- The test file for the controller is older than `login.ts`. It uses a one-argument constructor, a method named `authenticate`, and expects `new Error('email')` as the body. Those expectations are not modelled. The 400 status it checks for a body without `email` is `Login.ValidationErrorIsBadRequest` for whatever error the validator returns; `Assembly.RejectedEmailIsBadRequest` covers it only when the checker answers false on `undefined`.
