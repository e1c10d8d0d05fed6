# Tumblpy client core, modelled in Dafny

Tumblpy is a Python client for version 2 of the Tumblr API. This project models its core:

- the parameter classifier (`tumblpy/helpers.py`), which splits a caller's parameters into form fields and file uploads;
- the error classes (`tumblpy/exceptions.py`): a generic error and its rate-limit and authentication subclasses;
- the `Tumblpy` client of the packaged version (`tumblpy/api.py`):
  - the choice of OAuth1 signer;
  - the two OAuth token steps;
  - the generic `request`: verb check, URL builder, parameter merge, and the response normalizer that unwraps the `response` envelope and turns error statuses into errors;
  - `get`, `post` and `get_avatar_url`;
- the older single-module client (`tumblpy.py`, version 0.6.3): its classifier, which also renders ints and rejects anything else, its error classes and its client.

The files:

- `wrappers.dfy` holds `Option` and `Result`.
- `text.dfy` holds the string operations: `rstrip('/')`, `startswith`, `lower`, `'/'.join` and `split('/')`, and decimal rendering with its parser.
- `json.dfy` holds decoded JSON values with Python truthiness and `dict.get`.
- `exceptions.dfy` holds the error classes and what a caller can raise.
- `http.dfy` holds the records exchanged with the HTTP session, and the library codecs taken as parameters.
- `helpers.dfy`, `api.dfy` and `legacy.dfy` follow the three source modules.

Effects are parameters:

- The HTTP session is a function `Outgoing -> Exchange`. `Outgoing` is the request the client hands over: verb, URL, query, form body, files, headers, signer and redirect flag.
- The library codecs are the fields of a `Codec` value: UTF-8 decoding, `json.loads`, `'%s' %` on a non-string, key order of a decoded object, `parse_qsl` and `urlencode`.

Each request method returns what it raises or returns, together with the request it sent (`None` when it raised before sending). Each method is proved equal to a specification function or predicate (`Requested`, `Normalized`, `Interpreted`, `FieldsOf`), and the behaviour the source promises is proved about those functions:

- the success window [200, 301];
- 401 first;
- the last entry of `errors` wins;
- an empty `errors` list hides `error`;
- the avatar envelope;
- `api_key` always sent;
- URL segment structure.

Three consequences of the code worth noting:

- A 302 answer from the avatar endpoint lies outside the success window, so it raises the default error with code 302.
- A missing `location` header gives `{'url': None}`, not an error.
- Several `errors` entries are not concatenated: each pass of the loop overwrites the message, so only the last entry and a trailing space remain.

The errors the packaged request raises are built with the corrected, non-recursive constructor `Exceptions.Construct`; what the packaged classes do as written is recorded under "## Findings".

## Model

| member | source | states |
|---|---|---|
| Helpers.BoolText | tumblpy/helpers.py:12-13 | a boolean is sent as `true` or `false`, and the text is `true` exactly when the value is true |
| Helpers.FieldsOf | tumblpy/helpers.py:10-13 | the form fields are exactly the string and boolean parameters: strings verbatim, booleans as text |
| Helpers.FilesOf | tumblpy/helpers.py:8-9 | the files are exactly the parameters with a callable `read`, unchanged |
| Helpers.ClassificationPartition | tumblpy/helpers.py:4-14 | fields and files have disjoint keys taken from the input; ints and other values are silently dropped |
| Helpers.SplitParamsAndFiles | tumblpy/helpers.py:4-14 | the loop over the items yields exactly `FieldsOf` and `FilesOf` of the input, in whatever order the items come |
| Exceptions.Construct | tumblpy.py:45-80 | constructing the generic class with status 503 raises the rate-limit class, with 401 the authentication class, otherwise the generic class; message and status are kept; a subclass never escalates; `except cls` catches what `raise cls(...)` raises |
| Exceptions.AuthWithoutStatus | tumblpy/exceptions.py:25-28 | `TumblpyAuthError(msg)` without a status is an authentication error with no code |
| Exceptions.PackagedConstruct | tumblpy/exceptions.py:5-28 | 503 or 401 re-enters construction with the subclass, one frame per level; whatever is raised is the class asked for with its message and code, and only for a status other than 503 and 401 with stack left |
| Exceptions.PackagedEscalationExhausts | tumblpy/exceptions.py:5-13 | with the packaged classes, status 503 or 401 never yields an error object: the inherited escalating constructor re-enters itself until the stack is exhausted |
| Exceptions.PackagedAgreesOtherwise | tumblpy/exceptions.py:5-17 | for any other status the packaged construction yields the class asked for, with message (`msg` is `args[0]`) and status, as `Construct` does |
| Text.RStripSlash | tumblpy/api.py:100 | `rstrip('/')` leaves the longest prefix not ending in '/', and removes only '/' characters |
| Text.LowerMatches | tumblpy/api.py:91-93 | folding a string with `lower()` gives a lower-case word exactly when the string spells that word in any mix of cases |
| Text.SplitJoin | tumblpy/api.py:113 | `'/'.join` of segments without '/' splits back into the same segments |
| Text.DecimalRoundTrip | tumblpy/api.py:175 | `str(size)` reads back as the same integer, negative ones included |
| Text.NatText | tumblpy/api.py:175 | the decimal text of a natural number is non-empty, all digits, and starts with a zero only for zero |
| Http.DictOfLastWins | tumblpy/api.py:63 | `dict(parse_qsl(...))` holds exactly the keys of the pairs, each bound to the value of its last occurrence |
| Api.SelectSigning | tumblpy/api.py:36-46 | no signer unless key and secret are both truthy; two credentials when neither token is truthy; four credentials (a missing one passed as `None`) as soon as either token is truthy |
| Api.BlogSegment | tumblpy/api.py:98-102 | the blog part is the stripped blog URL without one leading `http://`; `https://` is kept; it never ends in '/' |
| Api.BuildUrl | tumblpy/api.py:96-113 | the URL starts with the API root; with a blog the rest starts with `blog/<BlogSegment>/`, without one it starts with the endpoint; without extras it ends with the endpoint, and an empty list of extras leaves a trailing `/` |
| Api.BlogUrlSegments | tumblpy/api.py:96-113 | with a blog, the path below the API root splits into `blog`, the blog, the endpoint and the extra segments |
| Api.PlainUrlSegments | tumblpy/api.py:96-113 | without a blog, the path below the API root splits into the endpoint and the extra segments |
| Api.SchemeHandling | tumblpy/api.py:100-102 | `http://<host>/` contributes `<host>`; `https://<host>/` contributes `https://<host>` |
| Api.BareHost | tumblpy/api.py:100-102 | a bare host name without trailing '/' is used as given |
| Api.HostUrls | tumblpy/api.py:96-113 | the full URL of an endpoint on a blog, with and without one extra segment |
| Api.WithDefaults | tumblpy/api.py:116 | the merged parameters hold the keys of both; the defaults override the caller's values |
| Api.LastWins | tumblpy/api.py:154-156 | the `errors` loop leaves the last element followed by a space, or nothing for an empty list |
| Api.Interpret | tumblpy/api.py:146-164 | the unwrap and error loop, step by step, equals `Interpreted`: `response` or `{}` inside [200, 301], otherwise the error with the status and the message found |
| Api.Normalize | tumblpy/api.py:130-164 | the response step equals `Normalized`: 401 first, UTF-8 decoding outside the `try`, the avatar envelope or `json.loads`, then `Interpreted` |
| Api.UnauthorizedFirst | tumblpy/api.py:130-131 | status 401 raises the authentication error without a status, whatever the body and endpoint |
| Api.AvatarFromLocation | tumblpy/api.py:135-140 | the avatar endpoint never consults `json.loads`; in the success window it returns `{'url': location}`, or `None` when the header is missing |
| Api.AvatarFoundIsError | tumblpy/api.py:135-162 | a 302 avatar answer raises the default error with code 302 |
| Api.SuccessUnwraps | tumblpy/api.py:142-149 | in the success window a decoded object yields its `response` field or `{}`; a non-object raises the invalid-content error |
| Api.EnvelopeExample | tumblpy/api.py:146-147 | `{"meta": ..., "response": {"a": 1}}` unwraps to `{"a": 1}` |
| Api.ErrorCarriesStatus | tumblpy/api.py:151-162 | outside [200, 301] the outcome is always an error; the client's error carries the status, and for 503 is the rate-limit class that the corrected constructor gives |
| Api.DefaultMessageOtherwise | tumblpy/api.py:151-162 | outside [200, 301], a payload whose `errors` and `error` are both falsy or absent raises the default text with the status |
| Api.RateLimitAsWritten | tumblpy/api.py:162 | as written, the status error built at tumblpy/api.py:162 for a 503 answer is never constructed: the packaged classes exhaust the stack instead |
| Api.LastErrorWins | tumblpy/api.py:153-156 | a non-empty `errors` list makes the message its last element and a space |
| Api.ErrorFieldUsed | tumblpy/api.py:157-158 | without `errors`, a non-empty `error` string is the message |
| Api.EmptyErrorsHideError | tumblpy/api.py:153-161 | an empty `errors` list present beside `error` yields the default message |
| Api.AuthUrlQuery | tumblpy/api.py:67-71 | the `auth_url` query carries the request token, and `oauth_callback` exactly when a truthy callback was given |
| Api.VerbSpelling | tumblpy/api.py:91-94 | `request` accepts exactly the spellings of `get` and `post` in any mix of cases |
| Api.Tumblpy.constructor | tumblpy/api.py:11-46 | the default parameters are `{'api_key': app_key}`; caller headers are merged over the user agent; credentials are kept as given; the signer is `SelectSigning` |
| Api.Tumblpy.AuthenticationTokensCall | tumblpy/api.py:54-58 | the request-token call is a GET of the request-token URL whose only query parameter is `oauth_callback`, sent exactly when the callback is truthy; it goes through the client's signer with the client's headers |
| Api.Tumblpy.GetAuthenticationTokens | tumblpy/api.py:48-75 | transport failure propagates; non-200 raises the authentication error; an empty decoded body raises the generic error; a missing `oauth_token` raises `KeyError`; the call succeeds exactly when none of these holds, and then returns the decoded tokens with `auth_url` added |
| Api.Tumblpy.GetAuthorizedTokens | tumblpy/api.py:77-86 | no status check: an empty decoded body raises the generic error, otherwise the decoded tokens are returned |
| Api.Tumblpy.AuthorizedTokensIgnoreStatus | tumblpy/api.py:80-86 | two answers with the same body give the same result whatever their status |
| Api.Tumblpy.Request | tumblpy/api.py:88-164 | the request method equals `Requested`: a bad verb raises before sending; otherwise the built URL, merged parameters and files are sent and the answer normalized |
| Api.Tumblpy.VerbChecked | tumblpy/api.py:90-94 | nothing is sent exactly when the lower-cased verb is neither `get` nor `post`, and then the method error is raised |
| Api.Tumblpy.ApiKeyAlwaysSent | tumblpy/api.py:115-126 | a sent request always carries `api_key = app_key` and every other classified field; POST sends the files, and also sends the fields as the query exactly when there are files |
| Api.Tumblpy.Get | tumblpy/api.py:166-168 | `get` is `request` with GET |
| Api.Tumblpy.Post | tumblpy/api.py:170-172 | `post` is `request` with POST |
| Api.Tumblpy.GetAvatarUrl | tumblpy/api.py:174-176 | a GET without redirects of `.../blog/<blog>/avatar/<size>` |
| Legacy.FieldsOf | tumblpy.py:28-42 | the legacy fields are the strings, the booleans as text and the ints as decimal text |
| Legacy.FieldsExtendPackaged | tumblpy.py:38-39 | the legacy fields extend the packaged ones by exactly the ints, and an int's text reads back as that int |
| Legacy.SplitParamsAndFiles | tumblpy.py:28-42 | succeeds exactly when no value is unclassifiable, then yields the legacy fields and the files; otherwise raises the generic error naming an unclassifiable key |
| Legacy.SelectSigning | tumblpy.py:113-129 | two credentials when key and secret are truthy and neither token is; four when all four are truthy; otherwise no signer |
| Legacy.SigningVersionsDiffer | tumblpy.py:123-129 | the two versions choose the same signer except for a half token pair, which only the packaged version signs with |
| Legacy.Normalize | tumblpy.py:221-254 | the legacy response step equals its normalizer: 401 first, then the avatar envelope or `json.loads` of the raw bytes, then the packaged payload step |
| Legacy.NormalizersCompared | tumblpy.py:224-234 | on a UTF-8 body both versions agree; on any other body the packaged version lets `UnicodeDecodeError` escape, while the legacy one reports invalid JSON, or still answers the avatar endpoint |
| Legacy.AuthUrlQueriesCompared | tumblpy.py:156-161 | the legacy `auth_url` query equals the packaged one when the callback is truthy, and otherwise appends `oauth_callback` with the falsy value, which the packaged one omits |
| Legacy.Tumblpy.constructor | tumblpy.py:84-133 | caller headers replace the user agent; credentials are recorded only in truthy pairs; the default parameters are `{'api_key': app_key}`; the signer is the legacy `SelectSigning` |
| Legacy.Tumblpy.AuthenticationTokensCall | tumblpy.py:143-147 | the request-token call sends `oauth_callback` exactly when the callback is truthy, and carries the client's headers only when a signer is set; the signer is the client's |
| Legacy.Tumblpy.GetAuthenticationTokens | tumblpy.py:135-163 | as in the packaged version (the same errors, and success exactly on a 200 answer whose decoding is non-empty and holds `oauth_token`), except that `auth_url` always names the configured callback |
| Legacy.Tumblpy.GetAuthorizedTokens | tumblpy.py:165-174 | no status check: an empty decoded body raises the generic error, otherwise the decoded tokens are returned |
| Legacy.Tumblpy.Request | tumblpy.py:176-254 | the legacy request satisfies `Requested`: a bad verb or an unclassifiable value raises before sending; otherwise the fields go in the query (GET) or in the form body beside the files (POST), with the client's headers, and the answer is normalized |
| Legacy.Tumblpy.ApiKeyAlwaysSent | tumblpy.py:203-216 | the prepared request carries `api_key = app_key` and goes to the built URL |
| Legacy.Tumblpy.Get | tumblpy.py:256-258 | `get` is `request` with GET |
| Legacy.Tumblpy.Post | tumblpy.py:260-262 | `post` is `request` with POST |
| Legacy.Tumblpy.GetAvatarUrl | tumblpy.py:264-266 | a GET of `.../blog/<blog>/avatar/<size>` is sent and its answer normalized |

## Left out

- The HTTP session, OAuth1 HMAC signing, connection pooling (`pool_maxsize`) and the network are outside the model. The session is a function parameter. The signer is recorded as the credentials it is built with.
- `json.loads`, UTF-8 decoding, `parse_qsl`, `urlencode` and `'%s' %` rendering are parameters, not re-implemented. JSON numbers are integers: floating point is not modelled.
- Messages that interpolate run-time values carry only their fixed prefix. This covers the OAuth failure text with status and body, the 401 text with body, and the invalid-content text with the payload. The legacy "not parsable" text is rendered in full, key included.
- Api.Interpret, Api.Normalize, Api.ErrorCarriesStatus, Api.Tumblpy.Request: the packaged pipeline raises its errors through the corrected constructor `Exceptions.Construct`. As written, the error built at tumblpy/api.py:162 for a 503 answer recurses until the stack is exhausted (`Api.RateLimitAsWritten`, and the row under "## Findings"); the model does not follow that path.
- `Api.Interpret`, `Legacy.Normalize`: a non-string `error` value (a number, say) is passed to the constructor as that value in the source; the model renders it with `show` first.
- Header look-up: the session's header mapping is case-insensitive. The model looks up the lower-case name `location`.
- `str.lower` is modelled for ASCII letters only. Other characters never make a valid verb.
- `Legacy.AuthUrlQuery`: the source builds a Python 2 dict, whose iteration order decides the order of the two query pairs. The model fixes token first, then callback.
- `Legacy.SplitParamsAndFiles`: in Python 2, an integer too large for `int` is a `long`, which the classifier rejects. The model treats every integer as an int.
- `Legacy.Tumblpy.Requested`: the key named in the "not parsable" error is some unclassifiable key. Which one depends on the dict's iteration order, which is not modelled.
- `__repr__` of both clients and the package's version re-export are not modelled.
- `tumblpy/compat.py` is not part of this model. Its `basestring`, `json`, `urlencode` and `parse_qsl` appear here as the string type and the codec parameters.

## Findings

| source | as written | input that shows it | evidently intended | confidence | as-written member | corrected member |
|---|---|---|---|---|---|---|
| tumblpy/exceptions.py:5-13,20-28 | the subclasses inherit the escalating `__init__`, so constructing `TumblpyRateLimitError(msg, 503)` raises `TumblpyRateLimitError(msg, 503)` again, without end | `TumblpyError('x', error_code=503)`, raised by `request` for a 503 answer whose UTF-8 body decodes to a JSON object (any UTF-8 503 answer on `avatar`), barring the payloads that raise `AttributeError` or `TypeError` at tumblpy/api.py:153-155; likewise `TumblpyError('x', error_code=401)` when a caller constructs it directly | a rate-limit (503) or authentication (401) error carrying the message and status, as the legacy classes in tumblpy.py:45-80 do | not executed | Exceptions.PackagedEscalationExhausts | Exceptions.Construct |
