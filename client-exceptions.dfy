/** The constructor of Tele2Ats2ClientError (shared by its LossTruthToken and
    Proxy subclasses): how the message and the `error` property are derived
    from the constructor argument. */
module ClientExceptions {
  import opened Errors

  /** What `new Tele2Ats2ClientError(arg)` can be given. */
  datatype ConstructorArgument =
    | StringArgument(text: string)
      /** An Error instance: its message and its constructor's name. */
    | ErrorArgument(className: string, message: string)
      /** Anything else, as `String(arg)`. */
    | OtherArgument(text: string)

  /** The `error` property: a fresh `new Error(message)` or the argument itself. */
  datatype Cause = FreshError(message: string) | ArgumentItself

  datatype ClientErrorFields = ClientErrorFields(message: string, error: Cause)

  function Construct(arg: ConstructorArgument): (r: ClientErrorFields)
    // a string argument is taken as the message verbatim
    ensures arg.StringArgument? ==> r.message == arg.text
    // an Error argument is kept as the cause, and only then
    ensures r.error == ArgumentItself <==> arg.ErrorArgument?
    // a fresh cause always mirrors the message
    ensures r.error.FreshError? ==> r.error.message == r.message
    // an Error argument lends its message, or its class name when that is empty
    ensures arg.ErrorArgument? && arg.message != "" ==> r.message == arg.message
    ensures arg.ErrorArgument? && arg.message == "" ==> r.message == arg.className
    // any other argument never yields an empty message
    ensures arg.OtherArgument? ==> r.message != ""
    ensures arg.OtherArgument? && arg.text != "" ==> r.message == arg.text
    ensures arg.OtherArgument? && arg.text == "" ==> r.message == "unknown error"
    ensures r.message == "" ==> arg == StringArgument("") || (arg.ErrorArgument? && arg.message == "" && arg.className == "")
  {
    match arg
    case StringArgument(s) => ClientErrorFields(s, FreshError(s))
    case ErrorArgument(name, m) => ClientErrorFields(if m != "" then m else name, ArgumentItself)
    case OtherArgument(text) =>
      var msg := if text != "" then text else "unknown error";
      ClientErrorFields(msg, FreshError(msg))
  }

  /** `new <kind>(message)` with a string message, as client.js always calls it. */
  function NewClientError(kind: ClientKind, message: string): (e: Thrown)
    ensures e.ClientError? && e.clientKind == kind && e.message == message
    ensures InstanceOf(e, Tele2Ats2ClientError)
  {
    TaxonomyInstances(ClientError(kind, Construct(StringArgument(message)).message));
    ClientError(kind, Construct(StringArgument(message)).message)
  }
}
