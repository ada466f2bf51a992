/** Python values and exceptions as they cross the alerting library's API.
    Python checks argument types at run time with `is None` and `isinstance`;
    a `Value` is tagged with the variant those checks can tell apart. */
module Objects {

  datatype Option<+T> = None | Some(value: T) {
    /** The first of two alternatives that is present. */
    function OrElse(other: Option<T>): Option<T> {
      if Some? then this else other
    }
  }

  /** The Python exceptions the library raises or lets through. */
  datatype Error =
    | AssertionError(message: string)
    | NotImplementedError
      // TypeError raised by Python when a call omits a required positional argument
    | MissingArgument(name: string)
    | KeyError(key: string)
      // TypeError raised when an operation gets an operand of the wrong type
    | TypeError
      // whatever exception a user-defined client's send_alert raises
    | ClientError(name: string)

  datatype Result<+T> = Success(value: T) | Failure(error: Error)

  /** How a call that returns no value ends: normally, or with an exception. */
  datatype Outcome = Returns | Raises(error: Error)

  /** The class of an AlertingClient object: the base class, one of the four
      channel adapters, or a user-defined subclass whose one-argument
      send_alert ends as `outcome`. */
  datatype ClientKind =
    | Base
    | Slack
    | MailGun
    | SendGrid
    | Telegram
    | Custom(className: string, outcome: Outcome)

  /** An AlertingClient object; `id` stands for its identity. */
  datatype Client = Client(id: nat, kind: ClientKind)

  /** A Python value, as far as the library's checks look at it. */
  datatype Value =
    | PyNone
    | Bool(b: bool)
    | Str(s: string)
    | List(items: seq<Value>)
    | ClientObj(client: Client)
      // any other object, with the qualified name of its class
    | Other(typeName: string)

  /** The qualified name of the class of `v`. */
  function ClassName(v: Value): string {
    match v
    case PyNone => "NoneType"
    case Bool(_) => "bool"
    case Str(_) => "str"
    case List(_) => "list"
    case Other(name) => name
    case ClientObj(c) =>
      match c.kind
      case Base => "alerting.AlertingClient"
      case Slack => "alerting.clients.AlertingSlackClient"
      case MailGun => "alerting.clients.AlertingMailGunClient"
      case SendGrid => "alerting.clients.AlertingSendGridClient"
      case Telegram => "alerting.clients.AlertingTelegramClient"
      case Custom(name, _) => name
  }

  /** Python's `str(type(v))`, which the assertion messages embed. */
  function TypeRepr(v: Value): (r: string)
    ensures |r| == |ClassName(v)| + 10
    ensures r[..8] == "<class '" && r[8..|r| - 2] == ClassName(v) && r[|r| - 2..] == "'>"
    ensures v.Str? ==> r == "<class 'str'>"
  {
    "<class '" + ClassName(v) + "'>"
  }
}
