/**
  * The APIEndpoint object (src/api/api.php:68-420): its immutable settings, the
  * per-request state that load_data, set_caller, set_session, resp_set and send
  * update in place, and the accessors get and has.
  */
module Endpoint {
  import opened Results
  import opened Values
  import opened ApiErrors
  import opened Schema
  import opened EndpointConfig
  import opened Loader

  /** The response `send` encodes for a JSON endpoint: a falsy response becomes []. */
  function ResponseBase(resp: Value): Value {
    if Falsy(resp) then Arr(map[]) else resp
  }

  /** `isset($response['error'])`: present and not null. */
  predicate ErrorSet(m: map<string, Value>) {
    "error" in m && !m["error"].Null?
  }

  /**
    * The map transformation of send for JSON responses (api.php:385-389): a falsy
    * response becomes the empty array, and an unset or null 'error' becomes API_E_OK.
    * A truthy response that is not an array cannot take the key.
    */
  function NormaliseResponse(resp: Value): (r: Result<map<string, Value>, Error>)
    ensures r.Err? <==> !Falsy(resp) && !resp.Arr?
    ensures r.Ok? ==> ErrorSet(r.value)
    ensures r.Ok? ==> r.value.Keys == ResponseBase(resp).items.Keys + {"error"}
    ensures r.Ok? ==> forall k | k in r.value && k != "error" :: r.value[k] == ResponseBase(resp).items[k]
    ensures r.Ok? && ErrorSet(ResponseBase(resp).items) ==>
      r.value["error"] == ResponseBase(resp).items["error"]
    ensures r.Ok? && !ErrorSet(ResponseBase(resp).items) ==> r.value["error"] == Int(API_E_OK)
  {
    var base := ResponseBase(resp);
    if !base.Arr? then Err(ResponseNotArray)
    else if !ErrorSet(base.items) then Ok(base.items["error" := Int(API_E_OK)])
    else Ok(base.items)
  }

  /** Normalising an already normalised response changes nothing. */
  lemma NormaliseIdempotent(resp: Value)
    requires NormaliseResponse(resp).Ok?
    ensures NormaliseResponse(Arr(NormaliseResponse(resp).value)) == NormaliseResponse(resp)
  {
    var m := NormaliseResponse(resp).value;
    assert "error" in m;
    assert !Falsy(Arr(m));
  }

  /** Every falsy response is sent as the array holding only the 'no error' code. */
  lemma FalsyResponseIsOk(resp: Value)
    requires Falsy(resp)
    ensures NormaliseResponse(resp) == Ok(map["error" := Int(API_E_OK)])
  {
  }

  class APIEndpoint {
    const settings: Settings
    var data: map<string, Value>
    var files: map<string, Value>
    var response: Value
    var caller: Option<string>
    var session: Option<string>

    /** __construct with the defaults of api.php:106-115; the request state starts empty. */
    constructor (config: Config)
      ensures settings == WithDefaults(config)
      ensures data == map[] && files == map[] && response == Null
      ensures caller == None && session == None
    {
      settings := WithDefaults(config);
      data := map[];
      files := map[];
      response := Null;
      caller := None;
      session := None;
    }

    /** parse_json_request (api.php:121-144), verifying with the verify loop. */
    method ParseJsonRequest(str: string, decode: string -> Decoded) returns (r: Result<map<string, Value>, Error>)
      ensures r == Loader.ParseJsonRequest(settings, str, decode)
    {
      var root: map<string, Value> := map[];
      if |str| != 0 {
        match decode(str) {
          case DecodeError => return Err(JsonParseFailed);
          case Decoded(v) =>
            if v.Arr? {
              root := v.items;
            } else if !v.Null? {
              return Err(InvalidRoot);
            }
        }
      }
      var checked := VerifyFormat(root, settings.formatBody, settings.strictFormat);
      r := if checked.Fail? then Err(checked.error) else Ok(root);
    }

    /** parse_url_request (api.php:146-150). */
    method ParseUrlRequest(query: map<string, Value>) returns (r: Result<map<string, Value>, Error>)
      ensures r == Loader.ParseUrlRequest(settings, query)
    {
      var checked := VerifyFormat(query, settings.formatUrl, settings.strictFormat);
      r := if checked.Fail? then Err(checked.error) else Ok(query);
    }

    /** The POST+JSON branch of load_data: the merged body and query replace data. */
    method LoadJson(req: Request, decode: string -> Decoded) returns (r: Outcome<Error>)
      modifies this`data
      ensures r == Loader.LoadJson(settings, req, decode).Status()
      ensures data == (if r.Pass? then Loader.LoadJson(settings, req, decode).value.data else old(data))
    {
      var body := ParseJsonRequest(req.body, decode);
      if body.Err? {
        return Fail(body.error);
      }
      var url := ParseUrlRequest(req.query);
      if url.Err? {
        return Fail(url.error);
      }
      data := body.value + url.value;
      return Pass;
    }

    /**
      * The POST+multipart branch of load_data: the query is stored before the form is
      * examined, so it stays in data when the form is then rejected.
      */
    method LoadMultipart(req: Request, decode: string -> Decoded) returns (r: Outcome<Error>)
      modifies this`data, this`files
      ensures r == Loader.LoadMultipart(settings, req, decode).Status()
      ensures data == (if r.Pass? then Loader.LoadMultipart(settings, req, decode).value.data
                       else if Loader.ParseUrlRequest(settings, req.query).Ok? then req.query
                       else old(data))
      ensures files == (if r.Pass? then req.files else old(files))
    {
      var url := ParseUrlRequest(req.query);
      if url.Err? {
        return Fail(url.error);
      }
      data := url.value;
      if |settings.formatBody.fields| != 0 && |req.post| == 1 && "body" in req.post {
        var body := ParseJsonRequest(req.post["body"], decode);
        if body.Err? {
          return Fail(body.error);
        }
        data := data + body.value;
      } else if |settings.formatBody.fields| != 0 {
        return Fail(InvalidMultipart);
      }
      files := req.files;
      return Pass;
    }

    /** load_data (api.php:152-209): the method and MIME switch storing into data and files. */
    method LoadData(req: Request, decode: string -> Decoded) returns (r: Outcome<Error>)
      modifies this
      ensures r == Loader.LoadData(settings, req, decode).Status()
      ensures data == DataAfterLoad(settings, req, decode, old(data))
      ensures files == FilesAfterLoad(settings, req, decode, old(files))
      ensures response == old(response) && caller == old(caller) && session == old(session)
    {
      if settings.apiMethod == API_METHOD_POST {
        if settings.requestType == API_MIME_JSON {
          r := LoadJson(req, decode);
        } else if settings.requestType == API_MIME_MULTIPART {
          r := LoadMultipart(req, decode);
        } else {
          r := Fail(UnknownRequestType);
        }
      } else if settings.apiMethod == API_METHOD_GET {
        var url := ParseUrlRequest(req.query);
        if url.Err? {
          return Fail(url.error);
        }
        data := url.value;
        r := Pass;
      } else {
        r := Fail(UnexpectedMethod);
      }
    }

    /** get (api.php:338-344): the whole data array, or one value (NULL when the key is absent). */
    function Get(key: Option<string>): (v: Value)
      reads this
      ensures key.None? ==> v == Arr(data)
      ensures key.Some? && key.value in data ==> v == data[key.value]
      ensures key.Some? && key.value !in data ==> v == Null
    {
      if key.None? then Arr(data)
      else if key.value in data then data[key.value]
      else Null
    }

    /** has (api.php:346-355): the key is present and, with null_check, not loosely null. */
    function Has(key: string, nullCheck: bool): (b: bool)
      reads this
      ensures b ==> key in data
      ensures !nullCheck ==> (b <==> key in data)
    {
      key in data && !(nullCheck && LooselyNull(data[key]))
    }

    /** has and get agree: with null_check, has holds iff get yields a value not loosely null. */
    lemma HasAgreesWithGet(key: string)
      ensures Has(key, true) <==> Has(key, false) && !LooselyNull(Get(Some(key)))
      ensures !Has(key, false) ==> Get(Some(key)) == Null
      ensures Has(key, true) ==> Get(Some(key)) != Null && Get(Some(key)) != Str("")
    {
    }

    /** resp_set (api.php:373-378). */
    method RespSet(resp: Value)
      modifies this`response
      ensures response == resp
    {
      response := resp;
    }

    /** set_caller (api.php:365). */
    method SetCaller(user: string)
      modifies this`caller
      ensures caller == Some(user)
    {
      caller := Some(user);
    }

    /** set_session (api.php:368). */
    method SetSession(s: string)
      modifies this`session
      ensures session == Some(s)
    {
      session := Some(s);
    }

    /**
      * send (api.php:380-419), the response buffer only: a JSON response is normalised
      * in place; any other response type leaves it as it is. Encoding and output are
      * not modelled.
      */
    method Send() returns (r: Outcome<Error>)
      modifies this`response
      ensures settings.responseType == API_MIME_JSON && NormaliseResponse(old(response)).Ok? ==>
        r == Pass && response == Arr(NormaliseResponse(old(response)).value)
      ensures settings.responseType == API_MIME_JSON && NormaliseResponse(old(response)).Err? ==>
        r == Fail(ResponseNotArray) && response == old(response)
      ensures settings.responseType != API_MIME_JSON ==> r == Pass && response == old(response)
    {
      if settings.responseType == API_MIME_JSON {
        var base := response;
        if Falsy(base) {
          base := Arr(map[]);
        }
        if !base.Arr? {
          return Fail(ResponseNotArray);
        }
        var m := base.items;
        if !("error" in m && !m["error"].Null?) {
          m := m["error" := Int(API_E_OK)];
        }
        response := Arr(m);
      }
      return Pass;
    }
  }
}
