/**
  * The request loader: parse_json_request, parse_url_request and load_data
  * (src/api/api.php:121-209), as functions of the request and the endpoint settings.
  * json_decode is a parameter: its outcome on a string is taken as given.
  */
module Loader {
  import opened Results
  import opened Values
  import opened ApiErrors
  import opened Flags
  import opened Schema
  import opened EndpointConfig

  /** What `json_decode($str, TRUE)` yields: a parse error, or a value (null included). */
  datatype Decoded = DecodeError | Decoded(v: Value)

  /** The superglobals and headers one request presents to the API layer. */
  datatype Request = Request(
    requestMethod: string,        // $_SERVER['REQUEST_METHOD']
    contentType: Option<string>,  // $_SERVER['CONTENT_TYPE']
    authToken: Option<string>,    // getallheaders()['Auth-Token']
    query: map<string, Value>,    // $_GET
    body: string,                 // file_get_contents('php://input')
    post: map<string, string>,    // $_POST
    files: map<string, Value>)    // $_FILES

  /** What load_data leaves in $this->data, and in $this->files when it sets it. */
  datatype Loaded = Loaded(data: map<string, Value>, files: Option<map<string, Value>>)

  /** Verification of a data array against a format, returning the data when it passes. */
  function Checked(data: map<string, Value>, fmt: Format, strict: bool): (r: Result<map<string, Value>, Error>)
    ensures r.Ok? <==> Verify(data, fmt, strict) == Pass
    ensures r.Ok? ==> r.value == data
    ensures r.Err? ==> Verify(data, fmt, strict) == Fail(r.error)
  {
    match Verify(data, fmt, strict)
    case Pass => Ok(data)
    case Fail(e) => Err(e)
  }

  /**
    * The root array of a JSON request body (api.php:123-141): the empty string and a
    * body that decodes to null give the empty array, a parse error is an IntException,
    * and a root that is not an array is rejected.
    */
  function JsonRoot(str: string, decode: string -> Decoded): (r: Result<map<string, Value>, Error>)
    ensures |str| == 0 ==> r == Ok(map[])
    ensures |str| != 0 && decode(str) == DecodeError ==> r == Err(JsonParseFailed)
    ensures |str| != 0 && decode(str) == Decoded(Null) ==> r == Ok(map[])
    ensures |str| != 0 && decode(str).Decoded? && decode(str).v.Arr? ==> r == Ok(decode(str).v.items)
    ensures r.Ok? && r.value != map[] ==> |str| != 0 && decode(str) == Decoded(Arr(r.value))
    ensures r == Err(InvalidRoot) <==>
      |str| != 0 && decode(str).Decoded? && !decode(str).v.Arr? && !decode(str).v.Null?
  {
    if |str| == 0 then Ok(map[])
    else
      match decode(str)
      case DecodeError => Err(JsonParseFailed)
      case Decoded(Null) => Ok(map[])
      case Decoded(Arr(m)) => Ok(m)
      case Decoded(_) => Err(InvalidRoot)
  }

  /** parse_json_request: the root array, verified against format_body. */
  function ParseJsonRequest(s: Settings, str: string, decode: string -> Decoded): (r: Result<map<string, Value>, Error>)
    ensures r.Ok? ==> Verify(r.value, s.formatBody, s.strictFormat) == Pass
    ensures r.Ok? ==> JsonRoot(str, decode) == Ok(r.value)
    ensures JsonRoot(str, decode).Err? ==> r == JsonRoot(str, decode)
    ensures JsonRoot(str, decode).Ok? ==> r == Checked(JsonRoot(str, decode).value, s.formatBody, s.strictFormat)
  {
    var root :- JsonRoot(str, decode);
    Checked(root, s.formatBody, s.strictFormat)
  }

  /** parse_url_request: the query array, verified against format_url. */
  function ParseUrlRequest(s: Settings, query: map<string, Value>): (r: Result<map<string, Value>, Error>)
    ensures r.Ok? <==> Verify(query, s.formatUrl, s.strictFormat) == Pass
    ensures r.Ok? ==> r.value == query
    ensures r.Err? ==> Verify(query, s.formatUrl, s.strictFormat) == Fail(r.error)
  {
    Checked(query, s.formatUrl, s.strictFormat)
  }

  /** `count($_POST) === 1 && array_key_exists('body', $_POST)` */
  predicate OnlyBodyField(post: map<string, string>) {
    |post| == 1 && "body" in post
  }

  /** The POST+JSON branch of load_data (api.php:173-179): body first, then the query. */
  function LoadJson(s: Settings, req: Request, decode: string -> Decoded): Result<Loaded, Error> {
    var body :- ParseJsonRequest(s, req.body, decode);
    var url :- ParseUrlRequest(s, req.query);
    Ok(Loaded(body + url, None))
  }

  /**
    * The POST+multipart branch of load_data (api.php:180-198): the query first, then
    * the JSON 'body' form field when format_body is not empty.
    */
  function LoadMultipart(s: Settings, req: Request, decode: string -> Decoded): Result<Loaded, Error> {
    var url :- ParseUrlRequest(s, req.query);
    if |s.formatBody.fields| != 0 && OnlyBodyField(req.post) then
      var body :- ParseJsonRequest(s, req.post["body"], decode);
      Ok(Loaded(url + body, Some(req.files)))
    else if |s.formatBody.fields| != 0 then
      Err(InvalidMultipart)
    else
      Ok(Loaded(url, Some(req.files)))
  }

  /**
    * load_data (api.php:152-209), by method and request type. `a + b` is
    * array_merge(a, b) on string keys: the keys of `b` win.
    */
  function LoadData(s: Settings, req: Request, decode: string -> Decoded): Result<Loaded, Error> {
    if s.apiMethod == API_METHOD_POST then
      if s.requestType == API_MIME_JSON then LoadJson(s, req, decode)
      else if s.requestType == API_MIME_MULTIPART then LoadMultipart(s, req, decode)
      else Err(UnknownRequestType)
    else if s.apiMethod == API_METHOD_GET then
      var url :- ParseUrlRequest(s, req.query);
      Ok(Loaded(url, None))
    else
      Err(UnexpectedMethod)
  }

  /**
    * $this->data after load_data: what it loaded on success; on the multipart path the
    * URL data is stored before the body is examined, so it stays behind when the body
    * is then rejected; every other failure leaves the old value.
    */
  function DataAfterLoad(s: Settings, req: Request, decode: string -> Decoded, old_data: map<string, Value>): map<string, Value> {
    var r := LoadData(s, req, decode);
    if r.Ok? then r.value.data
    else if s.apiMethod == API_METHOD_POST && s.requestType == API_MIME_MULTIPART
      && ParseUrlRequest(s, req.query).Ok? then req.query
    else old_data
  }

  /** $this->files after load_data: set to $_FILES only by a successful multipart load. */
  function FilesAfterLoad(s: Settings, req: Request, decode: string -> Decoded, old_files: map<string, Value>): map<string, Value> {
    var r := LoadData(s, req, decode);
    if r.Ok? && r.value.files.Some? then r.value.files.value else old_files
  }

  /** The only-body rule, stated on keys. */
  lemma OnlyBodyFieldKeys(post: map<string, string>)
    ensures OnlyBodyField(post) <==> post.Keys == {"body"}
  {
    if OnlyBodyField(post) {
      assert "body" in post.Keys;
      if post.Keys != {"body"} {
        var k :| k in post.Keys && k != "body";
        assert {k, "body"} <= post.Keys;
        assert |{k, "body"}| == 2;
        SubsetCard({k, "body"}, post.Keys);
      }
    }
  }

  lemma SubsetCard<T>(a: set<T>, b: set<T>)
    requires a <= b
    ensures |a| <= |b|
  {
    assert b == a + (b - a);
  }

  /** A GET endpoint loads exactly the query array, and only once it verifies. */
  lemma GetLoadsVerifiedQuery(s: Settings, req: Request, decode: string -> Decoded)
    requires s.apiMethod == API_METHOD_GET
    ensures LoadData(s, req, decode).Ok? <==> Verify(req.query, s.formatUrl, s.strictFormat) == Pass
    ensures LoadData(s, req, decode).Ok? ==> LoadData(s, req, decode).value == Loaded(req.query, None)
  {
  }

  /**
    * POST+JSON: the body root and the query are each verified against their own
    * format, and in the merged data the query's keys win.
    */
  lemma JsonMergeUrlWins(s: Settings, req: Request, decode: string -> Decoded)
    requires s.apiMethod == API_METHOD_POST && s.requestType == API_MIME_JSON
    requires LoadData(s, req, decode).Ok?
    ensures JsonRoot(req.body, decode).Ok?
    ensures Verify(JsonRoot(req.body, decode).value, s.formatBody, s.strictFormat) == Pass
    ensures Verify(req.query, s.formatUrl, s.strictFormat) == Pass
    ensures LoadData(s, req, decode).value.data.Keys == JsonRoot(req.body, decode).value.Keys + req.query.Keys
    ensures forall k | k in req.query :: LoadData(s, req, decode).value.data[k] == req.query[k]
    ensures forall k | k in JsonRoot(req.body, decode).value && k !in req.query ::
      LoadData(s, req, decode).value.data[k] == JsonRoot(req.body, decode).value[k]
  {
  }

  /**
    * The converse of JsonMergeUrlWins: a body root and a query that both verify are
    * loaded, merged with the query's keys winning, and no files are taken.
    */
  lemma JsonLoadsWhenBothVerify(s: Settings, req: Request, decode: string -> Decoded)
    requires s.apiMethod == API_METHOD_POST && s.requestType == API_MIME_JSON
    requires JsonRoot(req.body, decode).Ok?
    requires Verify(JsonRoot(req.body, decode).value, s.formatBody, s.strictFormat) == Pass
    requires Verify(req.query, s.formatUrl, s.strictFormat) == Pass
    ensures LoadData(s, req, decode) == Ok(Loaded(JsonRoot(req.body, decode).value + req.query, None))
  {
  }

  /** The body is parsed before the query: a body error is reported whatever the query. */
  lemma JsonBodyErrorFirst(s: Settings, req: Request, decode: string -> Decoded)
    requires s.apiMethod == API_METHOD_POST && s.requestType == API_MIME_JSON
    requires ParseJsonRequest(s, req.body, decode).Err?
    ensures LoadData(s, req, decode) == Err(ParseJsonRequest(s, req.body, decode).error)
  {
  }

  /**
    * POST+multipart with a body format: the form must be exactly {body}; the body's
    * keys then win over the query's.
    */
  lemma MultipartBodyWins(s: Settings, req: Request, decode: string -> Decoded)
    requires s.apiMethod == API_METHOD_POST && s.requestType == API_MIME_MULTIPART
    requires |s.formatBody.fields| != 0
    requires LoadData(s, req, decode).Ok?
    ensures req.post.Keys == {"body"}
    ensures JsonRoot(req.post["body"], decode).Ok?
    ensures forall k | k in JsonRoot(req.post["body"], decode).value ::
      LoadData(s, req, decode).value.data[k] == JsonRoot(req.post["body"], decode).value[k]
    ensures forall k | k in req.query && k !in JsonRoot(req.post["body"], decode).value ::
      LoadData(s, req, decode).value.data[k] == req.query[k]
    ensures LoadData(s, req, decode).value.data.Keys == req.query.Keys + JsonRoot(req.post["body"], decode).value.Keys
    ensures LoadData(s, req, decode).value.files == Some(req.files)
  {
    OnlyBodyFieldKeys(req.post);
  }

  /**
    * The converse of MultipartBodyWins: a lone 'body' field whose JSON root verifies,
    * with a query that verifies, loads the query overlaid by the body, and $_FILES.
    */
  lemma MultipartLoadsWhenBothVerify(s: Settings, req: Request, decode: string -> Decoded)
    requires s.apiMethod == API_METHOD_POST && s.requestType == API_MIME_MULTIPART
    requires |s.formatBody.fields| != 0 && req.post.Keys == {"body"}
    requires JsonRoot(req.post["body"], decode).Ok?
    requires Verify(JsonRoot(req.post["body"], decode).value, s.formatBody, s.strictFormat) == Pass
    requires Verify(req.query, s.formatUrl, s.strictFormat) == Pass
    ensures LoadData(s, req, decode) ==
      Ok(Loaded(req.query + JsonRoot(req.post["body"], decode).value, Some(req.files)))
  {
    OnlyBodyFieldKeys(req.post);
  }

  /** POST+multipart with a body format and a form other than exactly {body} is rejected. */
  lemma MultipartNeedsOnlyBody(s: Settings, req: Request, decode: string -> Decoded)
    requires s.apiMethod == API_METHOD_POST && s.requestType == API_MIME_MULTIPART
    requires |s.formatBody.fields| != 0
    requires Verify(req.query, s.formatUrl, s.strictFormat) == Pass
    requires req.post.Keys != {"body"}
    ensures LoadData(s, req, decode) == Err(InvalidMultipart)
    ensures DataAfterLoad(s, req, decode, map[]) == req.query
  {
    OnlyBodyFieldKeys(req.post);
  }

  /** POST+multipart without a body format ignores the form fields entirely. */
  lemma MultipartWithoutBodyFormatIgnoresPost(s: Settings, req: Request, decode: string -> Decoded, post: map<string, string>)
    requires s.apiMethod == API_METHOD_POST && s.requestType == API_MIME_MULTIPART
    requires |s.formatBody.fields| == 0
    ensures LoadData(s, req, decode) == LoadData(s, req.(post := post), decode)
    ensures LoadData(s, req, decode).Ok? <==> Verify(req.query, s.formatUrl, s.strictFormat) == Pass
  {
  }

  /** Request shapes load_data refuses: POST of another MIME type, and any other method. */
  lemma UnsupportedShapes(s: Settings, req: Request, decode: string -> Decoded)
    ensures (s.apiMethod == API_METHOD_POST && s.requestType != API_MIME_JSON
             && s.requestType != API_MIME_MULTIPART) ==>
      LoadData(s, req, decode) == Err(UnknownRequestType)
    ensures (s.apiMethod != API_METHOD_POST && s.apiMethod != API_METHOD_GET) ==>
      LoadData(s, req, decode) == Err(UnexpectedMethod)
  {
  }

  /** An empty body and a body decoding to null are both the empty array. */
  lemma EmptyAndNullBodiesAgree(s: Settings, str: string, decode: string -> Decoded)
    requires |str| != 0 && decode(str) == Decoded(Null)
    ensures ParseJsonRequest(s, str, decode) == ParseJsonRequest(s, "", decode)
    ensures ParseJsonRequest(s, "", decode) == Checked(map[], s.formatBody, s.strictFormat)
  {
  }

  /**
    * A POST+JSON endpoint with body format {name: STR, age: INT|OPT} and an empty
    * query: the body {"name": "a"} loads as exactly that array.
    */
  lemma NameAgeScenario(s: Settings, req: Request, decode: string -> Decoded)
    requires s.apiMethod == API_METHOD_POST && s.requestType == API_MIME_JSON
    requires s.formatBody == Format([Field("name", Leaf(API_P_STR)), Field("age", Leaf(API_P_INT | API_P_OPT))])
    requires s.formatUrl == Format([])
    requires |req.body| != 0 && decode(req.body) == Decoded(Arr(map["name" := Str("a")]))
    requires req.query == map[]
    ensures LoadData(s, req, decode) == Ok(Loaded(map["name" := Str("a")], None))
  {
    var data := map["name" := Str("a")];
    var fmt := s.formatBody;
    assert CheckField(data, fmt.fields[0], s.strictFormat) == Pass;
    assert IsParamOpt(API_P_INT | API_P_OPT);
    assert CheckField(data, fmt.fields[1], s.strictFormat) == Pass;
    assert Keys(fmt) == {"name", "age"} by {
      assert fmt.fields[0].key == "name" && fmt.fields[1].key == "age";
    }
    assert CheckFields(data, fmt, 1, s.strictFormat) == CheckFields(data, fmt, 2, s.strictFormat);
    assert CheckFields(data, fmt, 0, s.strictFormat) == Pass;
    assert data.Keys <= Keys(fmt);
    assert data + map[] == data;
  }
}
