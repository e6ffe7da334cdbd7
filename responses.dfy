/** What the vendor answers, and the error taxonomy of eaglebirth/exceptions.py. */
module Responses {

  import opened Common

  /** A parsed JSON value (numbers are modelled as integers). */
  datatype Json =
    | JNull
    | JBool(b: bool)
    | JNum(n: int)
    | JStr(s: string)
    | JArr(items: seq<Json>)
    | JObj(members: map<string, Json>)

  /** A JSON object, the shape every successful call returns. */
  type Obj = map<string, Json>

  /** A response body: text that does not parse as JSON, or a parsed JSON object. */
  datatype Body = Unparsed(text: string) | Parsed(obj: Obj)

  /** EagleBirthError and its four subclasses. `ApiError` keeps the exception's
      argument as `reason` (any JSON value the vendor put under `message`, or a
      string of the client's own), the HTTP status when one was received, and
      the raw text or parsed object of the response. */
  datatype EagleBirthError =
    | AuthenticationError(message: string)
    | ApiError(reason: Json, statusCode: Option<int>, response: Option<Body>)
    | ValidationError(message: string)
    | RateLimitError(message: string)

  /** The `ValueError` the client constructor raises for a bad API key. */
  datatype ConfigError = ValueError(message: string)
}
