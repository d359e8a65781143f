/** The error classifier of src/tele2-ats2-api/decorators.js: an awaited
    transport call is passed through, or its failure is turned into an API
    error by the first rule that matches the HTTP response. */
module Decorators {
  import opened Js
  import opened Errors

  /** The `exception` a rule constructs. MissingConstructor is the value
      undefined (a class the exceptions module does not export);
      ServerErrorConstructor is the server-error class the 500 rules intend. */
  datatype Constructor = UnauthorizedConstructor | EmployeeNotFoundConstructor | ServerErrorConstructor | MissingConstructor

  /** A handler `{ code, message?, details?, exception }`; an absent or empty
      message or details puts no constraint on the response. */
  datatype Rule = Rule(code: int, message: Option<string>, details: Option<string>, exception: Constructor)

  /** `isAxiosError`: an Error instance that has a `response` property. */
  predicate IsAxiosError(t: Thrown): (r: bool)
    // only Error instances qualify, and never one of the library's own errors
    ensures r ==> InstanceOf(t, ErrorRoot)
    ensures r ==> !InstanceOf(t, Tele2Ats2ApiError) && !InstanceOf(t, Tele2Ats2ClientError)
    // a thrown non-Error value never does
    ensures t.NonError? ==> !r
  {
    TaxonomyInstances(t);
    t.TransportError?
  }

  /** One pass of the `for (const handler of handlers)` body: the status must
      equal the code, and a truthy message or details must equal the body's. */
  predicate Matches(rule: Rule, response: Response): (r: bool)
    // the status decides alone when the rule sets neither message nor details
    ensures !Truthy(rule.message) && !Truthy(rule.details) ==> (r <==> response.status == rule.code)
    // a rule never matches another status
    ensures response.status != rule.code ==> !r
    // a rule with details matches only responses carrying exactly those details
    ensures r && Truthy(rule.details) ==> response.details == rule.details
    ensures r && Truthy(rule.message) ==> response.message == rule.message
  {
    && response.status == rule.code
    && (Truthy(rule.message) ==> response.message == rule.message)
    && (Truthy(rule.details) ==> response.details == rule.details)
  }

  /** The index of the first rule that matches, scanning in list order. */
  function FirstMatch(rules: seq<Rule>, response: Response): (r: Option<nat>)
    ensures r.Some? ==> r.value < |rules| && Matches(rules[r.value], response)
    ensures r.Some? ==> forall j :: 0 <= j < r.value ==> !Matches(rules[j], response)
    ensures r.None? ==> forall j :: 0 <= j < |rules| ==> !Matches(rules[j], response)
  {
    if rules == [] then None
    else if Matches(rules[0], response) then Some(0)
    else
      match FirstMatch(rules[1..], response)
      case Some(i) => Some(i + 1)
      case None => None
  }

  /** `new handler.exception()`: an API error without a message, or the
      TypeError that `new undefined()` throws. */
  function Construct(c: Constructor): (t: Thrown)
    ensures c.UnauthorizedConstructor? ==> t == ApiError(ApiUnauthorized, "")
    ensures c.EmployeeNotFoundConstructor? ==> t == ApiError(ApiEmployeeNotFound, "")
    ensures c.ServerErrorConstructor? ==> t == ApiError(ApiServerError, "")
    // every constructor that exists builds an API error
    ensures !c.MissingConstructor? ==> InstanceOf(t, Tele2Ats2ApiError)
    ensures c.MissingConstructor? ==> !InstanceOf(t, Tele2Ats2ApiError) && t.OtherError? && t.name == "TypeError"
  {
    match c
    case UnauthorizedConstructor => ApiError(ApiUnauthorized, "")
    case EmployeeNotFoundConstructor => ApiError(ApiEmployeeNotFound, "")
    case ServerErrorConstructor => ApiError(ApiServerError, "")
    case MissingConstructor =>
      var t := OtherError("TypeError", "handler.exception is not a constructor");
      TaxonomyInstances(t);
      t
  }

  /** `error?.message ?? error + "" ?? "unknown error"`: `error + ""` is
      always a string, so the last alternative is never reached. */
  function FallbackMessage(t: Thrown): (r: string)
    // an Error's own message
    ensures !t.NonError? ==> r == t.message
    // a thrown non-Error value: its string `message` property, else its text
    ensures t.NonError? && t.messageProperty.Some? ==> r == t.messageProperty.value
    ensures t.NonError? && t.messageProperty.None? ==> r == t.text
  {
    match MessageProperty(t)
    case Some(m) => m
    case None => t.text
  }

  /** The generic Tele2Ats2ApiError carrying the original message. */
  function GenericApiError(t: Thrown): (r: Thrown)
    ensures r.ApiError? && r.apiKind == ApiGeneric
    ensures !t.NonError? ==> r.message == t.message
    ensures t.NonError? ==> r.message == (if t.messageProperty.Some? then t.messageProperty.value else t.text)
  {
    ApiError(ApiGeneric, FallbackMessage(t))
  }

  /** The body of the `catch` block: what is thrown for a caught value. */
  function Classify(e: Thrown, rules: seq<Rule>): (r: Thrown)
    // API errors are rethrown untouched
    ensures InstanceOf(e, Tele2Ats2ApiError) ==> r == e
    // anything without a response becomes a generic API error with its message
    ensures !InstanceOf(e, Tele2Ats2ApiError) && !IsAxiosError(e) ==> r == GenericApiError(e)
    // a response: the first matching rule decides, later rules are not consulted
    ensures IsAxiosError(e) && e.response.Some? ==>
      forall i :: 0 <= i < |rules| && Matches(rules[i], e.response.value)
        && (forall j :: 0 <= j < i ==> !Matches(rules[j], e.response.value))
        ==> r == Construct(rules[i].exception)
    // a response no rule matches becomes a generic API error with its message
    ensures IsAxiosError(e) && e.response.Some? && (forall j :: 0 <= j < |rules| ==> !Matches(rules[j], e.response.value))
      ==> r == GenericApiError(e)
    // `response` present but undefined: reading its status fails once there is a rule
    ensures IsAxiosError(e) && e.response.None? ==>
      r == if rules == [] then GenericApiError(e) else OtherError("TypeError", "Cannot read properties of undefined (reading 'status')")
  {
    TaxonomyInstances(e);
    if InstanceOf(e, Tele2Ats2ApiError) then e
    else if !IsAxiosError(e) then GenericApiError(e)
    else match e.response
      case None =>
        if rules == [] then GenericApiError(e)
        else OtherError("TypeError", "Cannot read properties of undefined (reading 'status')")
      case Some(response) =>
        match FirstMatch(rules, response)
        case Some(i) => Construct(rules[i].exception)
        case None => GenericApiError(e)
  }

  /** `decoratorTele2Ats2ApiError(promise, handlers)`. */
  function Decorate<T>(call: Outcome<T>, rules: seq<Rule>): (r: Outcome<T>)
    ensures call.Resolved? ==> r == call
    ensures call.Rejected? ==> r == Rejected(Classify(call.error, rules))
  {
    match call
    case Resolved(_) => call
    case Rejected(e) => Rejected(Classify(e, rules))
  }

  /** Classifying again changes nothing once the result is an API error. */
  lemma ReclassifyApiError(e: Thrown, rules: seq<Rule>, again: seq<Rule>)
    requires Classify(e, rules).ApiError?
    ensures Classify(Classify(e, rules), again) == Classify(e, rules)
  {
    TaxonomyInstances(Classify(e, rules));
  }

  /** A rule whose exception is undefined breaks that: its TypeError is wrapped
      into a generic API error by a second classification. */
  lemma MissingConstructorNotIdempotent(e: Thrown, rules: seq<Rule>, again: seq<Rule>)
    requires IsAxiosError(e) && e.response.Some?
    requires FirstMatch(rules, e.response.value).Some?
    requires rules[FirstMatch(rules, e.response.value).value].exception.MissingConstructor?
    ensures Classify(e, rules).OtherError?
    ensures Classify(Classify(e, rules), again) == ApiError(ApiGeneric, "handler.exception is not a constructor")
  {
    TaxonomyInstances(e);
    var t := Classify(e, rules);
    TaxonomyInstances(t);
  }
}
