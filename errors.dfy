/** Values that the library throws or catches, the promise outcomes that carry
    them, and the error class hierarchy used by `instanceof` checks: the API
    errors (src/tele2-ats2-api/exceptions.js) and the client errors
    (src/tele2-ats2-client/exceptions.js). */
module Errors {
  import opened Js

  /** The part of an HTTP error response the classifier reads: the status and
      the `message` and `details` fields of the response body. */
  datatype Response = Response(status: int, message: Option<string>, details: Option<string>)

  /** ApiServerError is the class the 500 rules intend to construct, which
      src/tele2-ats2-api/exceptions.js does not declare. */
  datatype ApiKind = ApiGeneric | ApiUnauthorized | ApiEmployeeNotFound | ApiServerError

  datatype ClientKind = ClientGeneric | ClientLossTruthToken | ClientProxy

  /** A thrown JavaScript value. */
  datatype Thrown =
      /** An instance of Tele2Ats2ApiError or one of its subclasses. */
    | ApiError(apiKind: ApiKind, message: string)
      /** An instance of Tele2Ats2ClientError or one of its subclasses. */
    | ClientError(clientKind: ClientKind, message: string)
      /** An Error instance that has its own `response` property (a transport
          error of the HTTP library); None when that property holds undefined. */
    | TransportError(name: string, message: string, response: Option<Response>)
      /** Any other Error instance, `name` being its constructor's name. */
    | OtherError(name: string, message: string)
      /** A thrown value that is not an Error: its `message` property, if it is
          a string, and its `String(value)` text. */
    | NonError(messageProperty: Option<string>, text: string)

  /** How an awaited promise settled. */
  datatype Outcome<+T> = Resolved(value: T) | Rejected(error: Thrown)

  /** The classes an error can be an instance of. */
  datatype ErrorClass =
    | ErrorRoot
    | Tele2Ats2ApiError
    | Tele2Ats2ApiUnauthorizedError
    | Tele2Ats2ApiEmployeeNotFoundError
      /** The intended `Tele2Ats2ApiServerError extends Tele2Ats2ApiError`. */
    | Tele2Ats2ApiServerError
    | Tele2Ats2ClientError
    | Tele2Ats2ClientLossTruthTokenError
    | Tele2Ats2ClientProxyError
      /** An Error subclass outside the library's taxonomy (TypeError, AxiosError, ...). */
    | ForeignError(name: string)

  /** The `extends` clause of each class. */
  function Parent(c: ErrorClass): Option<ErrorClass> {
    match c
    case ErrorRoot => None
    case Tele2Ats2ApiError => Some(ErrorRoot)
    case Tele2Ats2ApiUnauthorizedError => Some(Tele2Ats2ApiError)
    case Tele2Ats2ApiEmployeeNotFoundError => Some(Tele2Ats2ApiError)
    case Tele2Ats2ApiServerError => Some(Tele2Ats2ApiError)
    case Tele2Ats2ClientError => Some(ErrorRoot)
    case Tele2Ats2ClientLossTruthTokenError => Some(Tele2Ats2ClientError)
    case Tele2Ats2ClientProxyError => Some(Tele2Ats2ClientError)
    case ForeignError(_) => Some(ErrorRoot)
  }

  function Depth(c: ErrorClass): nat {
    match c
    case ErrorRoot => 0
    case Tele2Ats2ApiError => 1
    case Tele2Ats2ClientError => 1
    case ForeignError(_) => 1
    case _ => 2
  }

  /** `c` is `d` or inherits from it. */
  predicate IsSubclass(c: ErrorClass, d: ErrorClass)
    decreases Depth(c)
  {
    c == d || (Parent(c).Some? && IsSubclass(Parent(c).value, d))
  }

  /** The class a thrown value was constructed from; None for non-Error values. */
  function ClassOf(t: Thrown): Option<ErrorClass> {
    match t
    case ApiError(k, _) =>
      Some(match k
           case ApiGeneric => Tele2Ats2ApiError
           case ApiUnauthorized => Tele2Ats2ApiUnauthorizedError
           case ApiEmployeeNotFound => Tele2Ats2ApiEmployeeNotFoundError
           case ApiServerError => Tele2Ats2ApiServerError)
    case ClientError(k, _) =>
      Some(match k
           case ClientGeneric => Tele2Ats2ClientError
           case ClientLossTruthToken => Tele2Ats2ClientLossTruthTokenError
           case ClientProxy => Tele2Ats2ClientProxyError)
    case TransportError(name, _, _) => Some(ForeignError(name))
    case OtherError(name, _) => Some(ForeignError(name))
    case NonError(_, _) => None
  }

  /** `t instanceof c`. */
  predicate InstanceOf(t: Thrown, c: ErrorClass) {
    ClassOf(t).Some? && IsSubclass(ClassOf(t).value, c)
  }

  /** The `message` property of a thrown value, if it has a string one. */
  function MessageProperty(t: Thrown): Option<string> {
    match t
    case NonError(m, _) => m
    case _ => Some(t.message)
  }

  /** `${error?.message}`, the text client.js puts into the errors it wraps. */
  function TemplateMessage(t: Thrown): (r: string)
    ensures !t.NonError? ==> r == t.message
  {
    JsString(MessageProperty(t))
  }

  /** Every subclass of the client error passes an `instanceof Tele2Ats2ClientError`
      test, and only client errors do; likewise for the API errors. */
  lemma TaxonomyInstances(t: Thrown)
    ensures InstanceOf(t, Tele2Ats2ClientError) <==> t.ClientError?
    ensures InstanceOf(t, Tele2Ats2ApiError) <==> t.ApiError?
    ensures InstanceOf(t, Tele2Ats2ApiUnauthorizedError) <==> t.ApiError? && t.apiKind == ApiUnauthorized
    ensures InstanceOf(t, ErrorRoot) <==> !t.NonError?
  {
    match ClassOf(t)
    case None =>
    case Some(c) =>
      match c
      case ErrorRoot =>
      case Tele2Ats2ApiError =>
      case Tele2Ats2ApiUnauthorizedError =>
        assert IsSubclass(Tele2Ats2ApiError, ErrorRoot);
      case Tele2Ats2ApiEmployeeNotFoundError =>
        assert IsSubclass(Tele2Ats2ApiError, ErrorRoot);
      case Tele2Ats2ApiServerError =>
        assert IsSubclass(Tele2Ats2ApiError, ErrorRoot);
      case Tele2Ats2ClientError =>
      case Tele2Ats2ClientLossTruthTokenError =>
        assert IsSubclass(Tele2Ats2ClientError, ErrorRoot);
      case Tele2Ats2ClientProxyError =>
        assert IsSubclass(Tele2Ats2ClientError, ErrorRoot);
      case ForeignError(_) =>
        assert !IsSubclass(ErrorRoot, Tele2Ats2ClientError);
        assert !IsSubclass(ErrorRoot, Tele2Ats2ApiError);
        assert !IsSubclass(ErrorRoot, Tele2Ats2ApiUnauthorizedError);
        assert IsSubclass(ErrorRoot, ErrorRoot);
  }
}
