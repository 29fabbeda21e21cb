/**
  * The endpoint configuration of APIEndpoint (src/api/api.php:12-29, 69-119): the
  * method and MIME codes, the settings an endpoint is built with, and the defaults the
  * constructor applies to options the configuration leaves out.
  */
module EndpointConfig {
  import opened Results
  import opened Schema

  // API_METHOD
  const API_METHOD_GET: int := 0
  const API_METHOD_POST: int := 1

  // API_MIME
  const API_MIME_JSON: int := 0
  const API_MIME_MULTIPART: int := 1
  const API_MIME_TEXT: int := 2

  /** `array_search($code, API_METHOD)`: the method name of a method code. */
  function MethodName(code: int): (r: Option<string>)
    ensures r == Some("GET") <==> code == API_METHOD_GET
    ensures r == Some("POST") <==> code == API_METHOD_POST
    ensures r.None? <==> code != API_METHOD_GET && code != API_METHOD_POST
  {
    if code == API_METHOD_GET then Some("GET")
    else if code == API_METHOD_POST then Some("POST")
    else None
  }

  /** The MIME string behind a request type code, i.e. the literal part of API_MIME_REGEX_MAP. */
  function MimeName(code: int): (r: Option<string>)
    ensures r == Some("application/json") <==> code == API_MIME_JSON
    ensures r == Some("multipart/form-data") <==> code == API_MIME_MULTIPART
    ensures r == Some("text/plain") <==> code == API_MIME_TEXT
    ensures r.None? <==> code !in {API_MIME_JSON, API_MIME_MULTIPART, API_MIME_TEXT}
  {
    if code == API_MIME_JSON then Some("application/json")
    else if code == API_MIME_MULTIPART then Some("multipart/form-data")
    else if code == API_MIME_TEXT then Some("text/plain")
    else None
  }

  /** The private configuration fields of an endpoint once constructed. */
  datatype Settings = Settings(
    apiMethod: int,
    requestType: int,
    responseType: int,
    formatBody: Format,
    formatUrl: Format,
    strictFormat: bool,
    reqQuota: bool,
    reqAuth: bool,
    allowCookieAuth: bool)

  /** The configuration array handed to the constructor; `None` is an absent key. */
  datatype Config = Config(
    apiMethod: int,
    requestType: Option<int>,
    responseType: Option<int>,
    formatBody: Option<Format>,
    formatUrl: Option<Format>,
    strictFormat: Option<bool>,
    reqQuota: Option<bool>,
    reqAuth: Option<bool>,
    allowCookieAuth: Option<bool>)

  function OrElse<T>(o: Option<T>, default: T): T {
    if o.Some? then o.value else default
  }

  /**
    * The defaults of api.php:106-115: JSON request and response, empty formats, strict
    * formats, quota and authentication required, no cookie authentication. A key that
    * is present keeps its configured value.
    */
  function WithDefaults(c: Config): (s: Settings)
    ensures s.apiMethod == c.apiMethod
    ensures c.requestType.None? ==> s.requestType == API_MIME_JSON
    ensures c.responseType.None? ==> s.responseType == API_MIME_JSON
    ensures c.formatBody.None? ==> s.formatBody == Format([])
    ensures c.formatUrl.None? ==> s.formatUrl == Format([])
    ensures c.strictFormat.None? ==> s.strictFormat
    ensures c.reqQuota.None? ==> s.reqQuota
    ensures c.reqAuth.None? ==> s.reqAuth
    ensures c.allowCookieAuth.None? ==> !s.allowCookieAuth
    ensures c.requestType.Some? ==> s.requestType == c.requestType.value
    ensures c.responseType.Some? ==> s.responseType == c.responseType.value
    ensures c.formatBody.Some? ==> s.formatBody == c.formatBody.value
    ensures c.formatUrl.Some? ==> s.formatUrl == c.formatUrl.value
    ensures c.strictFormat.Some? ==> s.strictFormat == c.strictFormat.value
    ensures c.reqQuota.Some? ==> s.reqQuota == c.reqQuota.value
    ensures c.reqAuth.Some? ==> s.reqAuth == c.reqAuth.value
    ensures c.allowCookieAuth.Some? ==> s.allowCookieAuth == c.allowCookieAuth.value
  {
    Settings(
      c.apiMethod,
      OrElse(c.requestType, API_MIME_JSON),
      OrElse(c.responseType, API_MIME_JSON),
      OrElse(c.formatBody, Format([])),
      OrElse(c.formatUrl, Format([])),
      OrElse(c.strictFormat, true),
      OrElse(c.reqQuota, true),
      OrElse(c.reqAuth, true),
      OrElse(c.allowCookieAuth, false))
  }
}
