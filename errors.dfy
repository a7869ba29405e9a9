/** The error classes of src/utils/error.ts and the values the pipeline throws
    or rejects with. */
module Errors {
  import opened Common

  // STATUS_CODES
  const OK: int := 200
  const BAD_REQUEST: int := 400
  const UNAUTHORIZED: int := 403
  const INTERNAL_SERVER_ERROR: int := 500

  const STATUS_CODES: map<string, int> := map[
    "OK" := OK,
    "BAD_REQUEST" := BAD_REQUEST,
    "UNAUTHORIZED" := UNAUTHORIZED,
    "INTERNAL_SERVER_ERROR" := INTERNAL_SERVER_ERROR
  ]

  const API_ERROR_NAME: string := "api internal server error"
  const API_ERROR_DEFAULT_MESSAGE: string := "api error"
  const AUTHORIZE_ERROR_NAME: string := "access denied"
  const AUTHORIZE_ERROR_DEFAULT_MESSAGE: string := "access denied"

  /** A BaseError instance: the constructor stores exactly the name, the status
      code and the message it is given. */
  datatype BaseError = BaseError(name: string, statusCode: int, message: string)

  /** `new APIError(description?, statusCode?)`; an omitted (undefined)
      argument takes its default. */
  function APIError(description: Option<string>, statusCode: Option<int>): (e: BaseError)
    ensures e.name == "api internal server error"
    ensures description.Some? ==> e.message == description.value
    ensures description.None? ==> e.message == "api error"
    ensures statusCode.Some? ==> e.statusCode == statusCode.value
    ensures statusCode.None? ==> e.statusCode == STATUS_CODES["INTERNAL_SERVER_ERROR"] == 500
  {
    BaseError(API_ERROR_NAME, statusCode.GetOr(INTERNAL_SERVER_ERROR), description.GetOr(API_ERROR_DEFAULT_MESSAGE))
  }

  /** `new AuthorizeError(description?, statusCode?)`. */
  function AuthorizeError(description: Option<string>, statusCode: Option<int>): (e: BaseError)
    ensures e.name == "access denied"
    ensures description.Some? ==> e.message == description.value
    ensures description.None? ==> e.message == "access denied"
    ensures statusCode.Some? ==> e.statusCode == statusCode.value
    ensures statusCode.None? ==> e.statusCode == STATUS_CODES["UNAUTHORIZED"] == 403
  {
    BaseError(AUTHORIZE_ERROR_NAME, statusCode.GetOr(UNAUTHORIZED), description.GetOr(AUTHORIZE_ERROR_DEFAULT_MESSAGE))
  }

  /** Which of the two subclasses built an error, read back from its name. */
  predicate IsAuthorizeError(e: BaseError) {
    e.name == AUTHORIZE_ERROR_NAME
  }

  predicate IsAPIError(e: BaseError) {
    e.name == API_ERROR_NAME
  }

  /** The subclass of an error can be recovered from the value alone, whatever
      arguments built it. */
  lemma ErrorKindsAreDistinguishable(d1: Option<string>, c1: Option<int>, d2: Option<string>, c2: Option<int>)
    ensures IsAPIError(APIError(d1, c1)) && !IsAuthorizeError(APIError(d1, c1))
    ensures IsAuthorizeError(AuthorizeError(d2, c2)) && !IsAPIError(AuthorizeError(d2, c2))
    ensures APIError(d1, c1) != AuthorizeError(d2, c2)
  {
  }

  /** A message object posted by a worker thread: either a bare string (the
      worker posts 'done' on success) or an object with optional `type` and
      `message` properties (the worker posts `{type: 'error', message}`). */
  datatype Posted =
    | PostedText(text: string)
    | PostedObject(typ: Option<string>, message: Option<string>)

  /** Every value the pipeline throws or rejects a promise with. */
  datatype Thrown =
    | Raised(err: BaseError)       // an APIError or AuthorizeError instance
    | Plain(message: string)       // `new Error(message)` or a client library error
    | PostedValue(posted: Posted)  // a worker's message object, rejected as is
    | Text(text: string)           // a bare string rejected by `reject(error.message)`

  /** `reason.message`: undefined on a string (bare strings have no `message`
      property) and on an object that lacks one. */
  function MessageOf(t: Thrown): (m: Option<string>)
    ensures t.Raised? ==> m == Some(t.err.message)
    ensures t.Plain? ==> m == Some(t.message)
    ensures t.Text? ==> m == None
  {
    match t
    case Raised(e) => Some(e.message)
    case Plain(msg) => Some(msg)
    case PostedValue(p) => (match p case PostedText(_) => None case PostedObject(_, msg) => msg)
    case Text(_) => None
  }

  /** `new APIError(reason.message)`, the wrapping that importDataToDB and
      importDataConcurrently apply to whatever they catch. */
  function WrapAsAPIError(t: Thrown): (e: BaseError)
    ensures IsAPIError(e) && e.statusCode == 500
    ensures MessageOf(t).Some? ==> e.message == MessageOf(t).value
    ensures MessageOf(t).None? ==> e.message == "api error"
  {
    APIError(MessageOf(t), None)
  }
}
