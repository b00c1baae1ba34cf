/** The email-format validator: it reads one configured field of the payload,
    hands that value to an injected email-format checker and turns a negative
    answer into an `InvalidParamError` naming the field. */
module EmailValidation {
  import opened JsValues
  import opened Http

  /** The injected checker's `isValid(email)`: it answers true or false, or
      throws. */
  type EmailValidation = Value -> Completion<bool>

  /** What one `validate` call returned (or threw), together with the
      arguments `isValid` was called with, in call order. */
  datatype Checked = Checked(outcome: Completion<Option<Error>>, isValidCalls: seq<Value>)

  /** Both fields are fixed at construction; the datatype has no way to
      change them afterwards. */
  datatype EmailValidator = EmailValidator(fieldName: string, emailValidation: EmailValidation) {

    /** `validate(input)`: look up `input[fieldName]`, ask `isValid` about it,
        return `InvalidParamError(fieldName)` on false and nothing on true.
        There is no `try`: a throw from the lookup or from `isValid` leaves
        `validate` unchanged. */
    function Validate(input: Value): (r: Checked)
      // isValid is asked at most once, and only about input[fieldName]
      ensures |r.isValidCalls| <= 1
      ensures GetProperty(input, fieldName).Normal? ==> r.isValidCalls == [GetProperty(input, fieldName).value]
      ensures input.Undefined? || input.Null? ==> r == Checked(Throw(TypeError(fieldName)), [])
      // the only error it ever returns names the configured field
      ensures r.outcome.Normal? && r.outcome.value.Some? ==> r.outcome.value.value == InvalidParamError(fieldName)
      // it never turns a thrown fault into a returned value, nor the reverse
      ensures r.outcome.Throw? <==> GetProperty(input, fieldName).Throw? || emailValidation(GetProperty(input, fieldName).value).Throw?
    {
      match GetProperty(input, fieldName)
      case Throw(f) => Checked(Throw(f), [])
      case Normal(email) =>
        match emailValidation(email)
        case Throw(f) => Checked(Throw(f), [email])
        case Normal(isValid) =>
          Checked(Normal(if !isValid then Some(InvalidParamError(fieldName)) else None), [email])
    }
  }

  /** `isValid` receives exactly the value read under the configured field,
      and is not asked at all when that read throws. */
  lemma PassesFieldValue(v: EmailValidator, input: Value)
    ensures v.Validate(input).isValidCalls ==
      match GetProperty(input, v.fieldName)
      case Normal(email) => [email]
      case Throw(_) => []
  {
  }

  /** Once the field is read, a false answer gives
      `InvalidParamError(fieldName)`, a true answer gives nothing, and these
      are the only two returned results. */
  lemma ErrorExactlyWhenInvalid(v: EmailValidator, input: Value)
    requires GetProperty(input, v.fieldName).Normal?
    ensures v.Validate(input).outcome == Normal(Some(InvalidParamError(v.fieldName)))
        <==> v.emailValidation(GetProperty(input, v.fieldName).value) == Normal(false)
    ensures v.Validate(input).outcome == Normal(None)
        <==> v.emailValidation(GetProperty(input, v.fieldName).value) == Normal(true)
  {
  }

  /** The error names the field, never its value: two payloads that the checker
      rejects yield the same error, whatever they hold under the field. */
  lemma ErrorIndependentOfValue(v: EmailValidator, p1: map<string, Value>, p2: map<string, Value>)
    requires v.emailValidation(Lookup(p1, v.fieldName)) == Normal(false)
    requires v.emailValidation(Lookup(p2, v.fieldName)) == Normal(false)
    ensures v.Validate(Obj(p1)).outcome == v.Validate(Obj(p2)).outcome
  {
  }

  /** A fault thrown by `isValid` propagates out of `validate` unchanged. */
  lemma FaultPropagates(v: EmailValidator, input: Value, f: Fault)
    requires GetProperty(input, v.fieldName).Normal?
    requires v.emailValidation(GetProperty(input, v.fieldName).value) == Throw(f)
    ensures v.Validate(input).outcome == Throw(f)
  {
  }

  /** `validate` keeps no state: two validators with the same field name
      whose checkers give the same answer about the field's value return the
      same result, so calling one twice gives the same result twice. */
  lemma SameAnswerSameResult(v1: EmailValidator, v2: EmailValidator, input: Value)
    requires v1.fieldName == v2.fieldName
    requires forall x :: x in v1.Validate(input).isValidCalls ==> v1.emailValidation(x) == v2.emailValidation(x)
    ensures v1.Validate(input) == v2.Validate(input)
  {
  }
}
