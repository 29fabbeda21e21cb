/**
  * The exceptions the API layer throws, one constructor per throw site in
  * src/api/api.php, and the class of PHP exception each one is.
  */
module ApiErrors {
  import opened Values

  datatype Error =
    // Schema violations raised by verify, chk_type and chk_data.
    | ParamMissing(key: string)
    | NestedParamMissing(key: string)
    | NotAnArray(key: string)
    | InvalidType(key: string, found: Kind)
    | InvalidEmpty(key: string)
    | ExtraKeys
    // Request payload errors raised by parse_json_request and load_data.
    | JsonParseFailed
    | InvalidRoot
    | InvalidMultipart
    | UnknownRequestType
    | UnexpectedMethod
    // Protocol errors raised by api_handle_request and api_endpoint_init.
    | InvalidRequestMethod(requested: string)
    | MissingContentType
    | InvalidMimeType
    | CookieAuthOnPost
    | NotAuthorized
    | RateLimited
    | UnsupportedMethod
    // A truthy non-array JSON response cannot receive an 'error' key.
    | ResponseNotArray

  /**
    * ArgException, IntException and APIException are the source's own classes.
    * EngineError stands for PHP's built-in `Error` hierarchy: the TypeError raised
    * where a nested format reaches an `int` parameter or `array_keys` receives a
    * non-array, and, for a truthy non-array response, the `Error` "Cannot use a
    * scalar value as an array" (int, float, true) or the TypeError (a string).
    */
  datatype ExceptionClass = ArgException | IntException | APIException | EngineError

  function ClassOf(e: Error): (c: ExceptionClass)
    ensures c == IntException <==> e == JsonParseFailed || e == CookieAuthOnPost
    ensures c == APIException <==> e == NotAuthorized || e == RateLimited
    ensures c == EngineError <==> e.NestedParamMissing? || e.NotAnArray? || e == ResponseNotArray
    ensures c == ArgException <==>
      !(e.NestedParamMissing? || e.NotAnArray? || e == ResponseNotArray
        || e == JsonParseFailed || e == CookieAuthOnPost || e == NotAuthorized || e == RateLimited)
  {
    match e
    case NestedParamMissing(_) => EngineError
    case NotAnArray(_) => EngineError
    case ResponseNotArray => EngineError
    case JsonParseFailed => IntException
    case CookieAuthOnPost => IntException
    case NotAuthorized => APIException
    case RateLimited => APIException
    case _ => ArgException
  }

  /**
    * API error codes carried by APIException. api_error.php is not part of this
    * model; the values stand for its constants, with API_E_OK the "no error" code.
    */
  const API_E_OK: int := 0
}
