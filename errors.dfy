/**
 * The error taxonomy (`CustomError`, `createCustomError` and the eight kinds
 * built with it) and the terminal `errorHandler` middleware.
 */
module Errors {
  import opened JsValues

  /**
   * What the terminal handler reads off a thrown value: its `statusCode`,
   * `name` and `message` properties, `None` where a property is undefined.
   * A `CustomError` always has all three; an error thrown by a library may not.
   */
  datatype ErrorValue = ErrorValue(statusCode: Option<int>, name: Option<string>, message: Option<string>)

  /** `new CustomError(name, message, statusCode)`: a falsy status becomes 500. */
  function NewCustomError(name: string, message: string, statusCode: Option<int>): (e: ErrorValue)
    ensures e.name == Some(name) && e.message == Some(message)
    ensures TruthyNumber(e.statusCode)
    ensures TruthyNumber(statusCode) ==> e.statusCode == statusCode
    ensures !TruthyNumber(statusCode) ==> e.statusCode == Some(500)
  {
    ErrorValue(Some(OrElseNumber(statusCode, 500)), Some(name), Some(message))
  }

  /** A class made by `createCustomError`: its name and the status its default parameter bound. */
  datatype ErrorClass = ErrorClass(name: string, boundStatus: int)

  /** `createCustomError(name, statusCode = 500)`; `None` is an omitted status argument. */
  function CreateCustomError(name: string, statusCode: Option<int>): (c: ErrorClass)
    ensures c.name == name
    ensures statusCode.None? ==> c.boundStatus == 500
    ensures statusCode.Some? ==> c.boundStatus == statusCode.value
  {
    ErrorClass(name, statusCode.GetOr(500))
  }

  /** `new C(message)` for a class `C` made by `createCustomError`. */
  function Instantiate(c: ErrorClass, message: string): (e: ErrorValue)
    ensures e.name == Some(c.name) && e.message == Some(message)
    ensures e.statusCode == Some(if c.boundStatus != 0 then c.boundStatus else 500)
  {
    NewCustomError(c.name, message, Some(c.boundStatus))
  }

  /** A class built without a status, or with a zero status, raises 500 — and no other class does. */
  lemma FactoryDefaultStatus(name: string, statusCode: Option<int>, message: string)
    ensures Instantiate(CreateCustomError(name, statusCode), message).statusCode == Some(500)
        <==> statusCode.None? || statusCode == Some(0) || statusCode == Some(500)
  {
  }

  /** The eight kinds exported by the middleware module. */
  datatype Kind =
    | NotFound
    | BadRequest
    | Unauthorized
    | Forbidden
    | InternalServer
    | MethodNotAllowed
    | Conflict
    | UnprocessableEntity

  /** The `name` each kind's class is created with. */
  function Name(k: Kind): (n: string)
    ensures n != ""
  {
    match k
    case NotFound => "NotFound Error"
    case BadRequest => "BadRequest Error"
    case Unauthorized => "Unauthorized Error"
    case Forbidden => "Forbidden Error"
    case InternalServer => "Internal ServerError"
    case MethodNotAllowed => "MethodNotAllowed Error"
    case Conflict => "Conflict Error"
    case UnprocessableEntity => "Unprocessable Entity Error"
  }

  /** The status each kind's class is created with. */
  function Status(k: Kind): (s: int)
    ensures 400 <= s <= 500
  {
    match k
    case NotFound => 404
    case BadRequest => 400
    case Unauthorized => 401
    case Forbidden => 403
    case InternalServer => 500
    case MethodNotAllowed => 405
    case Conflict => 409
    case UnprocessableEntity => 422
  }

  /** No two kinds share a status or a name. */
  lemma KindsDistinct(k1: Kind, k2: Kind)
    ensures Status(k1) == Status(k2) ==> k1 == k2
    ensures Name(k1) == Name(k2) ==> k1 == k2
  {
  }

  /** The class exported for a kind, e.g. `BadRequestError`: its name and a status that is never falsy. */
  function ClassOf(k: Kind): (c: ErrorClass)
    ensures c.name == Name(k) && c.boundStatus == Status(k) && c.boundStatus != 0
  {
    CreateCustomError(Name(k), Some(Status(k)))
  }

  /** `throw new <Kind>Error(message)`: the kind's fixed name and status, the message as given. */
  function Raise(k: Kind, message: string): (e: ErrorValue)
    ensures e == ErrorValue(Some(Status(k)), Some(Name(k)), Some(message))
  {
    Instantiate(ClassOf(k), message)
  }

  /** The JSON body the handler writes. */
  datatype Envelope = Envelope(timestamp: string, status: int, error: string, message: string, path: string, success: bool)

  const DefaultStatus := 500
  const DefaultError := "Internal Server Error"
  const DefaultMessage := "Something went wrong"

  /**
   * The error envelope for `err` on request path `path`; `timestamp` is the
   * clock reading the handler takes.
   */
  function ErrorEnvelope(err: ErrorValue, path: string, timestamp: string): (env: Envelope)
    ensures env.timestamp == timestamp && env.path == path && !env.success
    ensures TruthyNumber(err.statusCode) ==> env.status == err.statusCode.value
    ensures !TruthyNumber(err.statusCode) ==> env.status == DefaultStatus
    ensures Truthy(err.name) ==> env.error == err.name.value
    ensures !Truthy(err.name) ==> env.error == DefaultError
    ensures Truthy(err.message) ==> env.message == err.message.value
    ensures !Truthy(err.message) ==> env.message == DefaultMessage
    ensures env.status != 0 && env.error != "" && env.message != ""
  {
    Envelope(
      timestamp,
      OrElseNumber(err.statusCode, DefaultStatus),
      OrElse(err.name, DefaultError),
      OrElse(err.message, DefaultMessage),
      path,
      false)
  }

  /** Round trip from a kind to the envelope: status and name come from the kind, the message is kept. */
  lemma KindEnvelope(k: Kind, message: string, path: string, timestamp: string)
    ensures var env := ErrorEnvelope(Raise(k, message), path, timestamp);
      && env.status == Status(k)
      && env.error == Name(k)
      && env.message == (if message != "" then message else DefaultMessage)
      && env.path == path
      && !env.success
  {
  }

  /** What the handler does: forward the error to `next`, or write one response. */
  datatype Outcome = Forward(err: ErrorValue) | Write(status: int, body: Envelope)

  /** The handler's decision on an error, the request path and whether headers were already sent. */
  function HandleError(err: ErrorValue, path: string, headersSent: bool, timestamp: string): (o: Outcome)
    ensures headersSent <==> o.Forward?
    ensures o.Forward? ==> o.err == err
    ensures o.Write? ==> o.status == o.body.status && o.body == ErrorEnvelope(err, path, timestamp)
  {
    if headersSent then Forward(err)
    else
      var env := ErrorEnvelope(err, path, timestamp);
      Write(env.status, env)
  }

  /** One response written on the wire: its HTTP status and JSON body. */
  datatype Written = Written(status: int, body: Envelope)

  /** The Express response object, as far as the handler touches it. */
  class Response {
    var headersSent: bool
    var sent: seq<Written>

    ghost predicate Valid()
      reads this
    {
      |sent| > 0 ==> headersSent
    }

    constructor ()
      ensures Valid() && !headersSent && sent == []
    {
      headersSent := false;
      sent := [];
    }

    /** `res.status(status).json(body)`. */
    method Send(status: int, body: Envelope)
      requires Valid()
      modifies this
      ensures Valid() && headersSent
      ensures sent == old(sent) + [Written(status, body)]
    {
      sent := sent + [Written(status, body)];
      headersSent := true;
    }

    /**
     * `errorHandler(err, req, res, next)`: `forwarded` is the value passed to
     * `next`, `None` when `next` is not called.
     */
    method ErrorHandler(err: ErrorValue, path: string, timestamp: string) returns (forwarded: Option<ErrorValue>)
      requires Valid()
      modifies this
      ensures Valid() && headersSent
      ensures old(headersSent) ==> forwarded == Some(err) && sent == old(sent)
      ensures !old(headersSent) ==>
        && forwarded.None?
        && var env := ErrorEnvelope(err, path, timestamp);
        && sent == old(sent) + [Written(env.status, env)]
      ensures HandleError(err, path, old(headersSent), timestamp) ==
        if forwarded.Some? then Forward(forwarded.value) else Write(sent[|sent| - 1].status, sent[|sent| - 1].body)
    {
      if headersSent {
        return Some(err);
      }
      var env := ErrorEnvelope(err, path, timestamp);
      Send(env.status, env);
      forwarded := None;
    }
  }
}
