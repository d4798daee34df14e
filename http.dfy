/** Values exchanged by the two services: JSON documents, upstream replies,
    bearer credentials and the two ways a handler can fail (an HTTPException
    it raises on purpose, or any other exception, which FastAPI turns into
    a 500). */
module Http {

  datatype Option<+T> = None | Some(value: T)

  datatype Result<+T, +E> = Ok(value: T) | Err(error: E)

  /** A parsed JSON value, as Python's `json` module gives it; `JNull` is Python's `None`. */
  datatype Json =
    | JNull
    | JBool(b: bool)
    | JInt(n: int)
    | JStr(s: string)
    | JArr(items: seq<Json>)
    | JObj(fields: map<string, Json>)

  /** Python's truth value of a JSON value (`if not x:`). */
  predicate Truthy(j: Json)
  {
    match j
    case JNull => false
    case JBool(b) => b
    case JInt(n) => n != 0
    case JStr(s) => s != ""
    case JArr(items) => |items| > 0
    case JObj(fields) => |fields| > 0
  }

  /** A `str | None` argument as Python's `or` sees it: present and non-empty. */
  predicate Provided(v: Option<string>)
  {
    v.Some? && v.value != ""
  }

  /** Python's `v or fallback` for a `str | None` value. */
  function OrElse(v: Option<string>, fallback: string): (r: string)
    ensures Provided(v) ==> r == v.value
    ensures !Provided(v) ==> r == fallback
  {
    match v
    case Some(s) => if s != "" then s else fallback
    case None => fallback
  }

  /** An optional string as it appears in a JSON body: absent becomes `null`. */
  function OptionalJson(v: Option<string>): Json
  {
    match v
    case Some(s) => JStr(s)
    case None => JNull
  }

  /** Why an exception that is not an HTTPException was raised. */
  datatype Cause =
    | Transport              // httpx could not complete the call (connection, timeout)
    | StatusError(status: int) // `raise_for_status()` on a status outside 2xx
    | MalformedJson          // `resp.json()` on a body that is not JSON
    | MissingKey(key: string)  // `doc[key]` on an object without that key
    | NotAnObject            // `doc[key]` on a JSON value that is not an object
    | UnknownStatus(status: int) // `http.HTTPStatus(status)` on a status it does not define
    | NotAUrlString          // `urllib.parse` on a URL that is not a `str`

  datatype Failure =
    | HttpError(status: int, detail: Json)   // HTTPException(status_code, detail)
    | Unhandled(cause: Cause)                // any other exception

  /** The reason phrase `http.HTTPStatus` (Python 3.12) gives a status code,
      or `None` for a code it does not define. */
  function StatusPhrase(status: int): Option<string>
  {
    match status
    case 100 => Some("Continue")
    case 101 => Some("Switching Protocols")
    case 102 => Some("Processing")
    case 103 => Some("Early Hints")
    case 200 => Some("OK")
    case 201 => Some("Created")
    case 202 => Some("Accepted")
    case 203 => Some("Non-Authoritative Information")
    case 204 => Some("No Content")
    case 205 => Some("Reset Content")
    case 206 => Some("Partial Content")
    case 207 => Some("Multi-Status")
    case 208 => Some("Already Reported")
    case 226 => Some("IM Used")
    case 300 => Some("Multiple Choices")
    case 301 => Some("Moved Permanently")
    case 302 => Some("Found")
    case 303 => Some("See Other")
    case 304 => Some("Not Modified")
    case 305 => Some("Use Proxy")
    case 307 => Some("Temporary Redirect")
    case 308 => Some("Permanent Redirect")
    case 400 => Some("Bad Request")
    case 401 => Some("Unauthorized")
    case 402 => Some("Payment Required")
    case 403 => Some("Forbidden")
    case 404 => Some("Not Found")
    case 405 => Some("Method Not Allowed")
    case 406 => Some("Not Acceptable")
    case 407 => Some("Proxy Authentication Required")
    case 408 => Some("Request Timeout")
    case 409 => Some("Conflict")
    case 410 => Some("Gone")
    case 411 => Some("Length Required")
    case 412 => Some("Precondition Failed")
    case 413 => Some("Request Entity Too Large")
    case 414 => Some("Request-URI Too Long")
    case 415 => Some("Unsupported Media Type")
    case 416 => Some("Requested Range Not Satisfiable")
    case 417 => Some("Expectation Failed")
    case 418 => Some("I'm a Teapot")
    case 421 => Some("Misdirected Request")
    case 422 => Some("Unprocessable Entity")
    case 423 => Some("Locked")
    case 424 => Some("Failed Dependency")
    case 425 => Some("Too Early")
    case 426 => Some("Upgrade Required")
    case 428 => Some("Precondition Required")
    case 429 => Some("Too Many Requests")
    case 431 => Some("Request Header Fields Too Large")
    case 451 => Some("Unavailable For Legal Reasons")
    case 500 => Some("Internal Server Error")
    case 501 => Some("Not Implemented")
    case 502 => Some("Bad Gateway")
    case 503 => Some("Service Unavailable")
    case 504 => Some("Gateway Timeout")
    case 505 => Some("HTTP Version Not Supported")
    case 506 => Some("Variant Also Negotiates")
    case 507 => Some("Insufficient Storage")
    case 508 => Some("Loop Detected")
    case 510 => Some("Not Extended")
    case 511 => Some("Network Authentication Required")
    case _ => None
  }

  /** `HTTPException(status_code=status, detail=detail)` as Starlette builds
      it: a `None` detail is replaced by the status's reason phrase, and
      looking up a status `http.HTTPStatus` does not define raises ValueError,
      so no HTTPException comes out. */
  function NewHttpException(status: int, detail: Json): (f: Failure)
    ensures f.HttpError? ==> f.status == status && f.detail != JNull
    ensures detail != JNull ==> f == HttpError(status, detail)
    ensures detail == JNull && StatusPhrase(status).Some? ==> f == HttpError(status, JStr(StatusPhrase(status).value))
    ensures detail == JNull && StatusPhrase(status).None? ==> f == Unhandled(UnknownStatus(status))
  {
    if detail != JNull then HttpError(status, detail)
    else match StatusPhrase(status)
      case Some(phrase) => HttpError(status, JStr(phrase))
      case None => Unhandled(UnknownStatus(status))
  }

  /** A `null` detail takes the reason phrase of a defined status, from every
      class of status codes, and an undefined status raises instead. */
  lemma NullDetailTakesPhrase()
    ensures NewHttpException(100, JNull) == HttpError(100, JStr("Continue"))
    ensures NewHttpException(201, JNull) == HttpError(201, JStr("Created"))
    ensures NewHttpException(404, JNull) == HttpError(404, JStr("Not Found"))
    ensures NewHttpException(511, JNull) == HttpError(511, JStr("Network Authentication Required"))
    ensures NewHttpException(299, JNull) == Unhandled(UnknownStatus(299))
  {
  }

  /** A reply from an upstream HTTP server: its status, its Content-Type header
      if any, its body as text, and what `resp.json()` gives for that body
      (`None` when it raises). */
  datatype Response = Response(status: int, contentType: Option<string>, text: string, json: Option<Json>)

  /** What an outbound httpx call yields: a reply, or an exception before any reply. */
  datatype Reply = Received(response: Response) | Raised

  /** What FastAPI's HTTPBearer hands a route: the scheme and the credential
      of the Authorization header, or nothing. */
  datatype Credentials = Credentials(scheme: string, credentials: string)

  /** One handler run: the outbound call it made, if any, and its outcome. */
  datatype Exchange<C, T> = Exchange(sent: Option<C>, result: Result<T, Failure>)

  /** httpx's `is_success`: a 2xx status. */
  predicate IsSuccess(status: int)
  {
    200 <= status < 300
  }

  /** `resp.json()`. */
  function JsonOf(resp: Response): (r: Result<Json, Failure>)
    ensures r.Ok? <==> resp.json.Some?
    ensures r.Ok? ==> r.value == resp.json.value
    ensures r.Err? ==> r.error == Unhandled(MalformedJson)
  {
    match resp.json
    case Some(j) => Ok(j)
    case None => Err(Unhandled(MalformedJson))
  }

  /** The body `{"error": ..., "error_description": ...}` the services put in
      the failures they originate. */
  function ErrorDetail(error: string, description: string): Json
  {
    JObj(map["error" := JStr(error), "error_description" := JStr(description)])
  }

  /** The status FastAPI answers with for a route's outcome. */
  function WireStatus(r: Result<Json, Failure>): int
  {
    match r
    case Ok(_) => 200
    case Err(HttpError(status, _)) => status
    case Err(Unhandled(_)) => 500
  }

  /** Whether a reply with this status may carry a body: not an informational
      status, 204, 205 or 304. */
  predicate BodyAllowed(status: int)
  {
    !(status < 200 || status == 204 || status == 205 || status == 304)
  }

  /** The JSON body FastAPI answers with: the value itself; `{"detail": detail}`
      for an HTTPException whose status allows a body, and an empty body for
      one whose status does not; no JSON at all (a plain-text
      "Internal Server Error") for any other exception. */
  function WireJson(r: Result<Json, Failure>): Option<Json>
  {
    match r
    case Ok(j) => Some(j)
    case Err(HttpError(status, detail)) => if BodyAllowed(status) then Some(JObj(map["detail" := detail])) else None
    case Err(Unhandled(_)) => None
  }
}
