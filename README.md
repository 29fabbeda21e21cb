# LibreSignage API endpoint core, in Dafny

This project models the request-validation and dispatch engine of LibreSignage's
`APIEndpoint` (`src/api/api.php`) and proves properties of it. Every API endpoint
script of the system builds an `APIEndpoint` from a configuration array and calls
`api_endpoint_init`. That call checks the request method and Content-Type, loads
and validates the request data against the endpoint's formats, authenticates the
caller, and charges the caller's API rate quota.

Modules, in dependency order:

- `Results` (results.dfy): `Option`, `Result` and `Outcome`. These stand in for the PHP exceptions.
- `Values` (values.dfy): the PHP runtime values the layer inspects.
  - `gettype` kinds.
  - `empty()` on strings.
  - Truthiness (`!$v`).
  - The loose comparison `$v == NULL`.
- `ApiErrors` (errors.dfy): one error per throw site, and the exception class each one is.
- `Flags` (flags.dfy): the type-flag bitmask (`API_P_*`, 64-bit), `chk_type`, `chk_arr_types`, `chk_data` and `is_param_opt`.
  - `Accepts` is a reference definition of leaf acceptance.
- `Schema` (schema.dfy): `verify` over recursive, ordered formats.
  - `Verify`/`CheckFields`/`CheckField` are the specification functions.
  - `VerifyFormat`/`CheckFieldAt` are the loop methods proved equal to them.
  - `Conforms` is an order-free reference predicate proved equivalent to `Verify`.
- `EndpointConfig` (config.dfy): the method and MIME codes, and the constructor's defaults.
- `Loader` (loader.dfy): `parse_json_request`, `parse_url_request` and `load_data` as functions of the settings and the request. `json_decode` is a parameter.
- `Endpoint` (endpoint.dfy): the `APIEndpoint` class.
  - Its settings are constant.
  - `data`, `files`, `response`, `caller` and `session` are updated in place by `LoadData`, `RespSet`, `SetCaller`, `SetSession` and `Send`.
  - `get` and `has` are functions that read the object.
- `Dispatch` (dispatch.dfy): `api_handle_request` and `api_endpoint_init`.
  - The methods `HandleRequest` and `EndpointInit` act on an endpoint and on a `QuotaStore`, which holds the per-user quota records.
  - Each is proved against the specification functions `Handled` and `Init`.
  - The auth verifiers, `time()` and the rate window length are fields of an `Env` parameter.

Three behaviours of the code that a reader might not expect, and that the model keeps:

- For a POST+JSON endpoint, the code verifies the body against `format_body` and the query against `format_url`, each on its own. It then merges them. The merged array is not verified again.
- In the merged array the query's keys win (`array_merge(body, url)`). For multipart, the body's keys win.
- `verify` with an empty format only returns a boolean, and every caller discards it. So an empty format never raises, even in strict mode and even with non-empty data.

## Model

| member | source | states |
|---|---|---|
| Values.KindOf | src/api/api.php:227 | `gettype` names each of the six kinds (string, integer, double, boolean, NULL, array) exactly for values of that kind |
| Values.LooselyNullIsFalsyExceptZeroString | src/api/api.php:348 | `$v == NULL` implies `!$v`; the two differ only on the string "0" |
| ApiErrors.ClassOf | src/api/api.php:127-571 | only the JSON parse failure and cookie auth on POST are IntExceptions; only not-authorised and rate-limited are APIExceptions; exactly the missing nested key, the non-array nested value and the truthy non-array response are PHP engine errors (the `Error` hierarchy, TypeError included); every other error is an ArgException |
| Flags.ConvenienceFlags | src/api/api.php:50-66 | ARR_ANY is set iff one of the five array flags is set; ANY already contains OPT and NULL; only UNUSED adds EMPTY_STR_OK |
| Flags.ChkArrTypes | src/api/api.php:211-216 | the early-return loop answers true iff every element has the requested kind |
| Flags.ChkType | src/api/api.php:218-268 | passes iff the reference `Accepts` holds; otherwise throws naming the key and the value's kind |
| Flags.TypeAcceptedIsAccepts | src/api/api.php:229-254 | chk_type's boolean expression equals the reference: scalar kind flag set, or ARR_MIXED, or some enabled array flag whose kind every element has |
| Flags.AcceptsUnion | src/api/api.php:32-47 | a union of flags accepts exactly what one of its parts accepts |
| Flags.NullAcceptance | src/api/api.php:230 | null is accepted iff API_P_NULL is set, whatever else is set |
| Flags.EmptyArrayAcceptance | src/api/api.php:235-253 | an empty array is accepted iff some array flag is set |
| Flags.MixedArrayNeedsMixedFlag | src/api/api.php:235-253 | an array holding a string and an integer is accepted iff ARR_MIXED is set |
| Flags.AnyAcceptsEverything | src/api/api.php:56-62 | API_P_ANY accepts every value |
| Flags.ChkData | src/api/api.php:270-285 | throws iff EMPTY_STR_OK is clear and the value is "" or "0"; never for a non-string |
| Flags.CheckLeaf | src/api/api.php:316-319 | a leaf passes iff its type is accepted and its data is not a rejected empty string; a type failure is reported first, as InvalidType with the key and the runtime kind; an accepted but rejected empty string fails with InvalidEmpty(key) |
| Flags.EmptyStringBoundary | src/api/api.php:278-284 | a required string leaf rejects "" and "0" and accepts " "; with EMPTY_STR_OK it accepts "" |
| Flags.ChkArrayFlags | src/api/api.php:235-253 | the sequence of chk_arr_types calls computes the array half of chk_type |
| Flags.ChkTypeAt | src/api/api.php:218-268 | the statement form of chk_type returns the same outcome as `ChkType` |
| Schema.VerifyConforms | src/api/api.php:291-336 | verify passes iff the data conforms: each field conforms and, in strict mode, no extra keys |
| Schema.CheckFieldsConforms | src/api/api.php:306-320 | the foreach from position i passes iff every remaining field conforms |
| Schema.CheckFieldConforms | src/api/api.php:307-319 | one iteration passes iff its field conforms, recursing into nested formats |
| Schema.RequiredKeysPresent | src/api/api.php:307-312 | after a pass, every format key missing from the data is an optional leaf |
| Schema.FirstFailingFieldDecides | src/api/api.php:306-320 | verify reports the error of the first failing field in format order |
| Schema.MissingRequiredKeyReported | src/api/api.php:308-311 | a missing non-optional leaf is reported as missing once the earlier fields pass |
| Schema.StrictExtraKeys | src/api/api.php:326-335 | once every field passes, in strict mode with a non-empty format verify fails with ExtraKeys iff the data has a key outside the format |
| Schema.EmptyFormatNeverRejects | src/api/api.php:297-303 | an empty format never raises, strict or not |
| Schema.LenientIgnoresExtraKeys | src/api/api.php:326-335 | in lenient mode, adding keys outside the format does not change the outcome |
| Schema.StrictImpliesLenient | src/api/api.php:326-335 | data that passes strictly also passes leniently, at every nesting level |
| Schema.AbsentOptionalSkipped | src/api/api.php:308-309 | an absent optional leaf is skipped: dropping it from any position of a format that keeps another field does not change the outcome |
| Schema.CheckFieldAt | src/api/api.php:307-319 | the statement form of one iteration agrees with `CheckField` |
| Schema.VerifyFormat | src/api/api.php:291-336 | the foreach loop with early throw, then the strict subset check, agrees with `Verify` |
| EndpointConfig.MethodName | src/api/api.php:13-16 | `array_search` on API_METHOD names GET for 0, POST for 1, and nothing else |
| EndpointConfig.MimeName | src/api/api.php:19-29 | JSON maps to application/json, MULTIPART to multipart/form-data, TEXT to text/plain, and no other code has a pattern |
| EndpointConfig.WithDefaults | src/api/api.php:106-115 | absent options take the defaults: JSON request and response, empty formats, strict, quota and auth required, no cookie auth; every given option is kept |
| Loader.Checked | src/api/api.php:142-143 | a data array is returned iff it verifies; otherwise the verify error |
| Loader.JsonRoot | src/api/api.php:123-141 | "" and a null decode give []; an array root gives its items; a parse error is JsonParseFailed; a non-array, non-null root is rejected |
| Loader.ParseJsonRequest | src/api/api.php:121-144 | a returned body is the decoded root and verifies against format_body; a good root is returned iff it verifies, else verify's error; root errors come before format errors |
| Loader.ParseUrlRequest | src/api/api.php:146-150 | the query is returned unchanged iff it verifies against format_url; otherwise verify's own error is reported |
| Loader.OnlyBodyFieldKeys | src/api/api.php:182-186 | `count($_POST) === 1 && array_key_exists('body', $_POST)` iff the form keys are exactly {body} |
| Loader.GetLoadsVerifiedQuery | src/api/api.php:203-205 | a GET endpoint loads exactly the query, and succeeds iff the query verifies |
| Loader.JsonMergeUrlWins | src/api/api.php:173-179 | on a successful POST+JSON load: body and query each verify; merged keys are their union; query values win on collision |
| Loader.JsonLoadsWhenBothVerify | src/api/api.php:173-179 | POST+JSON: a body root and a query that both verify load as their merge with the query winning, and no files |
| Loader.JsonBodyErrorFirst | src/api/api.php:174-178 | POST+JSON: a body error is reported whatever the query |
| Loader.MultipartBodyWins | src/api/api.php:180-198 | on a successful POST+multipart load with a body format: the form is exactly {body}; merged keys are the union; body values win over the query; files are set |
| Loader.MultipartLoadsWhenBothVerify | src/api/api.php:180-198 | POST+multipart with a body format: a lone 'body' field whose root verifies, with a verifying query, loads the query overlaid by the body, and $_FILES |
| Loader.MultipartNeedsOnlyBody | src/api/api.php:180-196 | POST+multipart with a body format and another form shape: once the query verifies, throws InvalidMultipart and leaves the query in data |
| Loader.MultipartWithoutBodyFormatIgnoresPost | src/api/api.php:180-198 | POST+multipart without a body format ignores the form and succeeds iff the query verifies |
| Loader.UnsupportedShapes | src/api/api.php:199-207 | POST with another MIME type, or any other method, is refused |
| Loader.EmptyAndNullBodiesAgree | src/api/api.php:123-135 | an empty body and a body decoding to null parse alike, as the empty array |
| Loader.NameAgeScenario | src/api/api.php:173-179 | body format {name: STR, age: INT\|OPT} with body {"name":"a"} and no query loads exactly {"name":"a"} |
| Endpoint.NormaliseResponse | src/api/api.php:385-389 | fails only on a truthy non-array; otherwise the keys are the response's plus 'error', other values are kept, a set 'error' is kept, and an unset or null one becomes API_E_OK |
| Endpoint.NormaliseIdempotent | src/api/api.php:385-389 | normalising a normalised response changes nothing |
| Endpoint.FalsyResponseIsOk | src/api/api.php:386 | every falsy response is sent as {error: API_E_OK} |
| Endpoint.APIEndpoint.constructor | src/api/api.php:93-119 | the settings are the configuration with defaults; the request state starts empty |
| Endpoint.APIEndpoint.ParseJsonRequest | src/api/api.php:121-144 | the method agrees with `Loader.ParseJsonRequest` |
| Endpoint.APIEndpoint.ParseUrlRequest | src/api/api.php:146-150 | the method agrees with `Loader.ParseUrlRequest` |
| Endpoint.APIEndpoint.LoadJson | src/api/api.php:173-179 | data becomes the merged array on success and is untouched on failure |
| Endpoint.APIEndpoint.LoadMultipart | src/api/api.php:180-198 | data takes the query before the form is examined; files are set only on success |
| Endpoint.APIEndpoint.LoadData | src/api/api.php:152-209 | outcome, data and files follow `Loader.LoadData`; response, caller and session are unchanged |
| Endpoint.APIEndpoint.Get | src/api/api.php:338-344 | no key gives the whole data array; a present key gives its value; a missing key gives null |
| Endpoint.APIEndpoint.Has | src/api/api.php:346-355 | true only for a present key; without null_check, exactly presence |
| Endpoint.APIEndpoint.HasAgreesWithGet | src/api/api.php:338-355 | with null_check, has holds iff the key is present and get's value is not loosely null |
| Endpoint.APIEndpoint.RespSet | src/api/api.php:373-378 | the response buffer becomes the given value |
| Endpoint.APIEndpoint.SetCaller | src/api/api.php:365 | the caller becomes the given user |
| Endpoint.APIEndpoint.SetSession | src/api/api.php:368 | the session becomes the given session |
| Endpoint.APIEndpoint.Send | src/api/api.php:380-401 | a JSON response buffer becomes its normalised form; other response types leave it unchanged |
| Dispatch.ContainsIffOccurs | src/api/api.php:25-29 | the unanchored match holds iff the pattern occurs at some position of the string |
| Dispatch.ContainsAfter | src/api/api.php:25-29 | an unanchored match survives any text put before it |
| Dispatch.MimeParametersAccepted | src/api/api.php:474-481 | a Content-Type of the endpoint's MIME type followed by parameters matches |
| Dispatch.CheckRequest | src/api/api.php:446-482 | passes iff the method matches and, for POST, the Content-Type is present and matches; a method mismatch is reported first; MissingContentType iff a POST's header is absent, "" or "0"; InvalidMimeType iff a POST's non-empty header does not match the endpoint's MIME type |
| Dispatch.Authenticate | src/api/api.php:491-511 | a token decides alone; without one, cookie auth only when allowed and never on a POST endpoint, and then it succeeds iff the cookie verifies, with the cookie's caller; the only errors are CookieAuthOnPost and NotAuthorized |
| Dispatch.StartWindow | src/api/api.php:520-531 | the window is always started; inside the window nothing changes; once it has elapsed it restarts at now with the counter at 0 |
| Dispatch.UseQuota | src/api/api.php:533 | a use succeeds iff the counter is below the limit, and then adds exactly one |
| Dispatch.QuotaStore.Flush | src/api/api.php:539 | the caller's record is written back and nothing else changes |
| Dispatch.HandleRequest | src/api/api.php:432-540 | outcome and every state change (data, files, caller, session, saved quotas) follow `Handled` |
| Dispatch.EndpointInit | src/api/api.php:542-574 | outcome and state changes follow `Init` |
| Dispatch.MethodCheckedFirst | src/api/api.php:446-462 | a method mismatch throws before anything is loaded or charged |
| Dispatch.PostNeedsContentType | src/api/api.php:465-473 | a POST without a non-empty Content-Type throws before loading |
| Dispatch.LoadErrorPropagates | src/api/api.php:485 | a load_data error is the request's error; no auth or quota step runs |
| Dispatch.PublicEndpointStopsAfterLoad | src/api/api.php:488 | without req_auth, the outcome is load_data's and no caller or quota is touched |
| Dispatch.PostNeedsToken | src/api/api.php:492-511 | a POST endpoint with req_auth always fails without an Auth-Token header |
| Dispatch.SuccessPassedEveryCheck | src/api/api.php:446-539 | a successful request passed the checks, loaded, authenticated when required, and charged one use within the limit when quota is required |
| Dispatch.RateLimitedStoresNothing | src/api/api.php:533-539 | a rate-limited request flushes nothing |
| Dispatch.QuotaNotRequiredStoresNothing | src/api/api.php:518 | an endpoint without req_quota never stores a quota record |
| Dispatch.OnlyCallerQuotaChanges | src/api/api.php:520-539 | only the authenticated caller's record can change, and only on success |
| Dispatch.QuotaInvariantPreserved | src/api/api.php:520-539 | with a clock that does not go back, every saved counter stays within [0, limit] and every window start stays at or before now |
| Dispatch.LimitReachedInsideWindow | src/api/api.php:521-538 | inside the window, a caller at the limit is rate limited |
| Dispatch.WindowRollover | src/api/api.php:523-526 | once the window has elapsed, the next use restarts it at now with count 1 |
| Dispatch.FirstUse | src/api/api.php:528-531 | a caller's first use starts the window at now with count 1 |
| Dispatch.PreflightChangesNothing | src/api/api.php:558-560 | an OPTIONS request succeeds and changes nothing |
| Dispatch.OnlyGetAndPostLoad | src/api/api.php:553-571 | only GET and POST reach load_data; any other method except OPTIONS throws |

## Left out

- Headers, `echo`, `exit`, `api_handle_preflight` and `api_error_setup` are output only and are not modelled. OPTIONS is modelled as a request that changes nothing.
- The stream passthrough and `echo` of non-JSON responses in `send` (api.php:402-418) are I/O. Endpoint.APIEndpoint.Send leaves such a response unchanged.
- `json_encode` failing in `send` (API_E_INTERNAL) is left out. Encoding is not modelled.
- `json_decode` is a parameter: its outcome on a string is taken as given. The PCRE engine is replaced by substring containment, which is exact for the unanchored patterns of API_MIME_REGEX_MAP.
- `ArgumentArray::chk` is not modelled: the constructor does not validate the configuration. Only the defaults at api.php:106-115 are.
- `auth_token_verify`, `web_auth_cookie_verify`, `gtlim('API_RATE_T')` and `time()` are parameters.
  - `time()` is read once per request. The source reads it up to twice (api.php:523 and 525, or 530), and the model takes both reads to agree.
- `UserQuota` is not part of this model. Its persistent state is a map from user to window start and counter.
  - `use_quota` is taken to succeed iff the counter is below a per-store limit, and then to add one.
  - `flush` is taken to write the record back.
- Dispatch.UseQuota: models the assumed behaviour of `use_quota`, whose source is not part of this model.
- `array_is_subset` is taken to be subset on key sets.
- Array keys are strings. `array_merge` renumbering integer keys, and the loose `in_array` key comparison, are not modelled.
- Floating point matters only as the `double` type tag.
- `$_POST` values are strings.
- `$_GET` values are strings (or arrays of strings) in PHP, but the query is modelled as any map of values. A format_url leaf that does not accept strings therefore passes only queries no real request can carry.
- A PHP list is a map from "0", "1", …
- `$data` starts as NULL in PHP and is modelled as the empty array. Before `load_data` this differs for `get()` (NULL, not an array) and `has()` (`array_keys(NULL)` at api.php:347 is a TypeError, not FALSE).
- `$files` is never declared in the class, so `get_files()` (api.php:371) before a multipart load returns NULL; the model starts it as the empty array.
- The PHP TypeErrors are modelled as errors: `NestedParamMissing` (a nested format key missing from the data) and `NotAnArray` (a non-empty nested format on a non-array value). So is the run-time error from adding 'error' to a truthy non-array response (`ResponseNotArray`).
- ApiErrors.ClassOf: `ResponseNotArray` is one error for both engine errors PHP raises at api.php:388, the `Error` for an int, float or `true` response and the TypeError for a non-empty string; both are classed as `EngineError`.
- An empty nested format passes whatever the value. On a non-array in strict mode, PHP 8's `count()` would raise a TypeError there instead.
- The accessors `get_method`, `get_request_type`, `get_response_type`, `requires_quota`, `requires_auth`, `allows_cookie_auth`, `get_caller`, `get_session` and `get_files` read the corresponding fields directly.
- API error codes other than API_E_OK are not modelled (api_error.php is not part of this model); API_E_OK is taken to be 0.
