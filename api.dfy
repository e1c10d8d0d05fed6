/** The packaged client (`tumblpy` package): signing-mode selection, the two OAuth token
    steps, the generic request (URL, parameters, response normalization) and its wrappers. */
module Api {
  import opened Wrappers
  import opened Text
  import opened Json
  import opened Exceptions
  import opened Http
  import Helpers

  const Version := "1.0.5"
  const BaseApiUrl := "https://api.tumblr.com"
  const ApiVersion := "v2"
  const ApiUrl := BaseApiUrl + "/" + ApiVersion + "/"
  const RequestTokenUrl := "https://www.tumblr.com/oauth/request_token"
  const AccessTokenUrl := "https://www.tumblr.com/oauth/access_token"
  const AuthorizeUrl := "https://www.tumblr.com/oauth/authorize"
  const AuthenticateUrl := "https://www.tumblr.com/oauth/authorize"

  const UserAgent: map<string, string> := map["User-Agent" := "Tumblpy v" + Version]

  // Messages; where the source interpolates the status or the body, only the fixed text is kept.
  const MethodMessage := "Method must be of GET or POST"
  const UnknownErrorMessage := "An unknown error occurred."
  const UnauthorizedMessage := "Error: 401, Message: "
  const InvalidJsonMessage := "Unable to parse response, invalid JSON."
  const InvalidContentMessage := "Unable to parse response, invalid content returned: "
  const DefaultErrorMessage := "There was an error making your request."
  const OAuthFailureMessage := "Seems something couldn't be verified with your OAuth junk."
  const RequestTokensMessage := "Unable to decode request tokens."
  const AuthorizedTokensMessage := "Unable to decode authorized tokens."

  /** Python truthiness of an optional string argument. */
  predicate Present(o: Option<string>) {
    o.Some? && o.value != ""
  }

  // Signing mode

  /** The signer attached to the session: none without both application credentials,
      two credentials when neither token is given, four (a missing one passed as `None`)
      as soon as either token is given. */
  function SelectSigning(appKey: Option<string>, appSecret: Option<string>,
                         oauthToken: Option<string>, oauthTokenSecret: Option<string>): (s: Signing)
    ensures s.Unsigned? <==> !(Present(appKey) && Present(appSecret))
    ensures s.ConsumerOnly? <==> Present(appKey) && Present(appSecret) && !Present(oauthToken) && !Present(oauthTokenSecret)
    ensures s.WithToken? <==> Present(appKey) && Present(appSecret) && (Present(oauthToken) || Present(oauthTokenSecret))
    ensures !s.Unsigned? ==> s.appKey == appKey.value && s.appSecret == appSecret.value
    ensures s.WithToken? ==> s.token == oauthToken && s.tokenSecret == oauthTokenSecret
  {
    if Present(appKey) && Present(appSecret) then
      if !Present(oauthToken) && !Present(oauthTokenSecret) then ConsumerOnly(appKey.value, appSecret.value)
      else WithToken(appKey.value, appSecret.value, oauthToken, oauthTokenSecret)
    else Unsigned
  }

  // URL builder

  /** The blog part of the URL: trailing '/' removed, then one leading `http://`. */
  function BlogSegment(blogUrl: string): (b: string)
    ensures b == [] || b[|b| - 1] != '/'
    ensures RStripSlash(blogUrl) == b || RStripSlash(blogUrl) == "http://" + b
    ensures StartsWith(RStripSlash(blogUrl), "http://") ==> RStripSlash(blogUrl) == "http://" + b
    ensures StartsWith(RStripSlash(blogUrl), "https://") ==> b == RStripSlash(blogUrl)
  {
    var stripped := RStripSlash(blogUrl);
    assert StartsWith(stripped, "http://") ==> stripped[..7][4] == stripped[4] == ':';
    assert StartsWith(stripped, "https://") ==> stripped[..8][4] == stripped[4] == 's';
    if StartsWith(stripped, "http://") then stripped[7..] else stripped
  }

  /** The URL of `_request`: the API root, then `blog/<blog>/` when a blog is given, then
      the endpoint, then '/' and the '/'-joined extras when they are given. */
  function BuildUrl(apiUrl: string, endpoint: string, blogUrl: Option<string>, extraEndpoints: Option<seq<string>>): (u: string)
    ensures StartsWith(u, apiUrl)
    ensures blogUrl.Some? ==> StartsWith(u[|apiUrl|..], "blog/" + BlogSegment(blogUrl.value) + "/")
    ensures blogUrl.None? ==> StartsWith(u[|apiUrl|..], endpoint)
    ensures extraEndpoints.None? ==> |u| >= |endpoint| && u[|u| - |endpoint|..] == endpoint
    ensures extraEndpoints == Some([]) ==> |u| > 0 && u[|u| - 1] == '/'
  {
    var blog := if blogUrl.Some? then "blog/" + BlogSegment(blogUrl.value) + "/" else "";
    var tail := if extraEndpoints.Some? then "/" + JoinSlash(extraEndpoints.value) else "";
    UrlShape(apiUrl, blog, endpoint, tail);
    apiUrl + (blog + (endpoint + tail))
  }

  /** The parts of `root + (blog + (endpoint + tail))` can be read back off the URL. */
  lemma UrlShape(root: string, blog: string, endpoint: string, tail: string)
    ensures var u := root + (blog + (endpoint + tail));
      && StartsWith(u, root)
      && StartsWith(u[|root|..], blog)
      && (blog == [] ==> StartsWith(u[|root|..], endpoint))
      && (tail == [] ==> |u| >= |endpoint| && u[|u| - |endpoint|..] == endpoint)
      && (tail == "/" ==> |u| > 0 && u[|u| - 1] == '/')
  {
    var path := blog + (endpoint + tail);
    UrlSuffix(root, path);
    UrlSuffix(blog, endpoint + tail);
    if blog == [] {
      assert path == endpoint + tail;
      UrlSuffix(endpoint, tail);
    }
    if tail == [] {
      assert endpoint + tail == endpoint;
      assert root + path == (root + blog) + endpoint;
      EndsWith(root + blog, endpoint);
    }
    if tail == "/" {
      EndsWith(root + (blog + endpoint), tail);
      assert root + path == (root + (blog + endpoint)) + tail;
    }
  }

  lemma EndsWith(front: string, back: string)
    ensures |front + back| >= |back| && (front + back)[|front + back| - |back|..] == back
  {
  }


  /** The avatar URL of a blog at one size. */
  lemma AvatarPath(apiUrl: string, blogUrl: string, size: string)
    ensures BuildUrl(apiUrl, "avatar", Some(blogUrl), Some([size])) == apiUrl + "blog/" + BlogSegment(blogUrl) + "/avatar/" + size
  {
    assert JoinSlash([size]) == size;
  }

  /** With a blog, the path below the API root reads `blog/<blog>/<endpoint>/<extra>...`
      when none of the parts holds a '/'. */
  lemma {:induction false} BlogUrlSegments(apiUrl: string, endpoint: string, blogUrl: string, extra: seq<string>)
    requires NoSlash(endpoint) && NoSlash(BlogSegment(blogUrl))
    requires forall i :: 0 <= i < |extra| ==> NoSlash(extra[i])
    ensures var url := BuildUrl(apiUrl, endpoint, Some(blogUrl), if extra == [] then None else Some(extra));
      StartsWith(url, apiUrl) && SplitSlash(url[|apiUrl|..]) == ["blog", BlogSegment(blogUrl), endpoint] + extra
  {
    var parts := ["blog", BlogSegment(blogUrl), endpoint] + extra;
    BlogPath(apiUrl, endpoint, blogUrl, extra);
    UrlSuffix(apiUrl, JoinSlash(parts));
    BlogPartsNoSlash(BlogSegment(blogUrl), endpoint, extra);
    SplitJoin(parts);
  }

  /** The URL with a blog is `apiUrl` followed by the joined segments. */
  lemma BlogPath(apiUrl: string, endpoint: string, blogUrl: string, extra: seq<string>)
    ensures BuildUrl(apiUrl, endpoint, Some(blogUrl), if extra == [] then None else Some(extra))
            == apiUrl + JoinSlash(["blog", BlogSegment(blogUrl), endpoint] + extra)
  {
    var b := BlogSegment(blogUrl);
    var tail := [endpoint] + extra;
    BlogForm(apiUrl, endpoint, blogUrl, extra);
    EndpointTail(endpoint, extra);
    BlogJoin(b, tail);
    assert ["blog", b] + tail == ["blog", b, endpoint] + extra;
  }

  lemma BlogForm(apiUrl: string, endpoint: string, blogUrl: string, extra: seq<string>)
    ensures BuildUrl(apiUrl, endpoint, Some(blogUrl), if extra == [] then None else Some(extra))
            == apiUrl + ("blog/" + BlogSegment(blogUrl) + "/" + (endpoint + if extra == [] then "" else "/" + JoinSlash(extra)))
  {
    var blog := "blog/" + BlogSegment(blogUrl) + "/";
    var rest := if extra == [] then "" else "/" + JoinSlash(extra);
    assert apiUrl + blog + endpoint + rest == apiUrl + (blog + (endpoint + rest));
  }

  lemma BlogPartsNoSlash(b: string, endpoint: string, extra: seq<string>)
    requires NoSlash(endpoint) && NoSlash(b)
    requires forall i :: 0 <= i < |extra| ==> NoSlash(extra[i])
    ensures var parts := ["blog", b, endpoint] + extra;
      forall i :: 0 <= i < |parts| ==> NoSlash(parts[i])
  {
    var parts := ["blog", b, endpoint] + extra;
    assert NoSlash("blog");
    forall i | 0 <= i < |parts| ensures NoSlash(parts[i]) {
      if i >= 3 { assert parts[i] == extra[i - 3]; }
    }
  }

  /** The URL without a blog is `apiUrl` followed by the joined segments. */
  lemma PlainPath(apiUrl: string, endpoint: string, extra: seq<string>)
    ensures BuildUrl(apiUrl, endpoint, None, if extra == [] then None else Some(extra)) == apiUrl + JoinSlash([endpoint] + extra)
  {
    EndpointTail(endpoint, extra);
  }

  lemma BlogJoin(b: string, tail: seq<string>)
    requires tail != []
    ensures JoinSlash(["blog", b] + tail) == "blog/" + b + "/" + JoinSlash(tail)
  {
    JoinCons(b, tail);
    JoinCons("blog", [b] + tail);
    assert ["blog"] + ([b] + tail) == ["blog", b] + tail;
  }

  /** Without a blog, the path below the API root reads `<endpoint>/<extra>...`. */
  lemma {:induction false} PlainUrlSegments(apiUrl: string, endpoint: string, extra: seq<string>)
    requires NoSlash(endpoint)
    requires forall i :: 0 <= i < |extra| ==> NoSlash(extra[i])
    ensures var url := BuildUrl(apiUrl, endpoint, None, if extra == [] then None else Some(extra));
      StartsWith(url, apiUrl) && SplitSlash(url[|apiUrl|..]) == [endpoint] + extra
  {
    var parts := [endpoint] + extra;
    var url := BuildUrl(apiUrl, endpoint, None, if extra == [] then None else Some(extra));
    EndpointTail(endpoint, extra);
    assert url == apiUrl + JoinSlash(parts);
    UrlSuffix(apiUrl, JoinSlash(parts));
    assert url[|apiUrl|..] == JoinSlash(parts);
    SplitJoin(parts);
    assert SplitSlash(url[|apiUrl|..]) == parts;
  }

  lemma JoinCons(p: string, rest: seq<string>)
    requires rest != []
    ensures JoinSlash([p] + rest) == p + "/" + JoinSlash(rest)
  {
    assert ([p] + rest)[1..] == rest;
  }

  lemma EndpointTail(endpoint: string, extra: seq<string>)
    ensures JoinSlash([endpoint] + extra) == if extra == [] then endpoint else endpoint + "/" + JoinSlash(extra)
  {
    if extra != [] {
      JoinCons(endpoint, extra);
    }
  }

  lemma UrlSuffix(apiUrl: string, path: string)
    ensures StartsWith(apiUrl + path, apiUrl) && (apiUrl + path)[|apiUrl|..] == path
  {
    assert (apiUrl + path)[..|apiUrl|] == apiUrl;
  }

  /** A blog URL given as `http://<host>/` contributes `<host>`; one given as
      `https://<host>/` keeps its scheme. */
  lemma SchemeHandling(host: string)
    requires host != [] && host[|host| - 1] != '/'
    ensures BlogSegment("http://" + host + "/") == host
    ensures BlogSegment("https://" + host + "/") == "https://" + host
  {
    var plain := "http://" + host + "/";
    assert plain[..|plain| - 1] == "http://" + host;
    UrlSuffix("http://", host);
    var secure := "https://" + host + "/";
    assert secure[..|secure| - 1] == "https://" + host;
    UrlSuffix("https://", host);
  }

  /** A bare host name is used as it is. */
  lemma BareHost(host: string)
    requires host != [] && !StartsWith(host, "http://") && host[|host| - 1] != '/'
    ensures BlogSegment(host) == host
  {
  }

  /** With a bare host, the blog URL of an endpoint, and of an endpoint with one extra
      segment (the avatar size, say). */
  lemma HostUrls(host: string, endpoint: string, segment: string)
    requires host != [] && !StartsWith(host, "http://") && host[|host| - 1] != '/'
    ensures BuildUrl(ApiUrl, endpoint, Some(host), None) == ApiUrl + "blog/" + host + "/" + endpoint
    ensures BuildUrl(ApiUrl, endpoint, Some(host), Some([segment])) == ApiUrl + "blog/" + host + "/" + endpoint + "/" + segment
  {
    BareHost(host);
    assert JoinSlash([segment]) == segment;
  }

  // Parameters

  /** `params.update(self.default_params)`: the defaults override what the caller passed. */
  function WithDefaults(fields: map<string, string>, defaults: map<string, Option<string>>): (merged: map<string, Option<string>>)
    ensures merged.Keys == fields.Keys + defaults.Keys
    ensures forall k :: k in defaults ==> merged[k] == defaults[k]
    ensures forall k :: k in fields && k !in defaults ==> merged[k] == Some(fields[k])
  {
    (map k | k in fields :: Some(fields[k])) + defaults
  }

  // Response normalizer

  /** What `for x in v` iterates over: a list's items, a string's characters, an object's
      keys; `None` for a value that is not iterable (`TypeError`). */
  function Elements(v: Json, codec: Codec): Option<seq<Json>>
  {
    match v
    case JArray(items) => Some(items)
    case JStr(s) => Some(seq(|s|, i requires 0 <= i < |s| => JStr([s[i]])))
    case JObject(fields) =>
      var keys := codec.keyOrder(fields);
      Some(seq(|keys|, i requires 0 <= i < |keys| => JStr(keys[i])))
    case _ => None
  }

  /** `'%s' % v`. */
  function MessageText(v: Json, codec: Codec): string {
    if v.JStr? then v.s else codec.show(v)
  }

  /** The message the `errors` loop leaves: each pass overwrites it, so only the last
      element counts, followed by a space; nothing when there is no element. */
  function LastWins(errors: seq<Json>, codec: Codec): (m: Json)
    ensures errors == [] ==> m == JStr("")
    ensures errors != [] ==> m == JStr(MessageText(errors[|errors| - 1], codec) + " ")
  {
    if errors == [] then JStr("") else JStr(MessageText(errors[|errors| - 1], codec) + " ")
  }

  /** The error message taken from an unwrapped payload outside the success window, before
      the default text is substituted for an empty one. */
  function ErrorValue(content: Json, codec: Codec): Outcome<Json>
  {
    if !Truthy(content) then Ok(JStr(""))
    else if !content.JObject? then Err(Python(AttributeError))
    else if !(Truthy(Lookup(content.fields, "errors")) || Truthy(Lookup(content.fields, "error"))) then Ok(JStr(""))
    else if "errors" in content.fields then
      match Elements(content.fields["errors"], codec)
      case None => Err(Python(TypeError))
      case Some(errors) => Ok(LastWins(errors, codec))
    else Ok(content.fields["error"])
  }

  /** The payload unwrapping and status policy applied to the decoded body. */
  function Interpreted(decoded: Json, status: int, codec: Codec): Outcome<Json>
  {
    if !decoded.JObject? then Err(Tumblpy(Construct(Generic, InvalidContentMessage, None)))
    else
      var content := if "response" in decoded.fields then decoded.fields["response"] else JObject(map[]);
      if 200 <= status <= 301 then Ok(content)
      else match ErrorValue(content, codec)
        case Err(raised) => Err(raised)
        case Ok(message) =>
          var text := MessageText(if Truthy(message) then message else JStr(DefaultErrorMessage), codec);
          Err(Tumblpy(Construct(Generic, text, Some(status))))
  }

  /** Unwraps `response` (default `{}`), returns it inside [200, 301], and otherwise raises
      the error that carries the status and the message found in the payload. */
  method Interpret(decoded: Json, status: int, codec: Codec) returns (r: Outcome<Json>)
    ensures r == Interpreted(decoded, status, codec)
  {
    if !decoded.JObject? {
      return Err(Tumblpy(Construct(Generic, InvalidContentMessage, None)));
    }
    var content := if "response" in decoded.fields then decoded.fields["response"] else JObject(map[]);
    if status < 200 || status > 301 {
      var errorMessage := JStr("");
      if Truthy(content) {
        if !content.JObject? {
          return Err(Python(AttributeError));
        }
        var fields := content.fields;
        if Truthy(Lookup(fields, "errors")) || Truthy(Lookup(fields, "error")) {
          if "errors" in fields {
            var errors := Elements(fields["errors"], codec);
            if errors.None? {
              return Err(Python(TypeError));
            }
            var i := 0;
            while i < |errors.value|
              invariant 0 <= i <= |errors.value|
              invariant errorMessage == LastWins(errors.value[..i], codec)
            {
              errorMessage := JStr(MessageText(errors.value[i], codec) + " ");
              i := i + 1;
            }
            assert errors.value[..i] == errors.value;
          } else if "error" in fields {
            errorMessage := fields["error"];
          }
        }
      }
      if !Truthy(errorMessage) {
        errorMessage := JStr(DefaultErrorMessage);
      }
      return Err(Tumblpy(Construct(Generic, MessageText(errorMessage, codec), Some(status))));
    }
    return Ok(content);
  }

  /** The envelope the avatar endpoint is given in place of a decoded body. */
  function AvatarEnvelope(headers: map<string, string>): Json {
    var url := if "location" in headers then JStr(headers["location"]) else JNull;
    JObject(map["response" := JObject(map["url" := url])])
  }

  /** The packaged normalizer: 401 first, then the body is decoded as UTF-8 (outside the
      `try`, so a failure escapes as `UnicodeDecodeError`), then the avatar envelope or
      `json.loads`, then `Interpreted`. */
  function Normalized(endpoint: string, response: HttpResponse, codec: Codec): Outcome<Json>
  {
    if response.status == 401 then Err(Tumblpy(Construct(Auth, UnauthorizedMessage, None)))
    else match codec.utf8(response.content)
      case None => Err(Python(UnicodeDecodeError))
      case Some(text) =>
        if endpoint == "avatar" then Interpreted(AvatarEnvelope(response.headers), response.status, codec)
        else match codec.loads(text)
          case None => Err(Tumblpy(Construct(Generic, InvalidJsonMessage, None)))
          case Some(decoded) => Interpreted(decoded, response.status, codec)
  }

  /** The packaged normalizer, step by step. */
  method Normalize(endpoint: string, response: HttpResponse, codec: Codec) returns (r: Outcome<Json>)
    ensures r == Normalized(endpoint, response, codec)
  {
    if response.status == 401 {
      return Err(Tumblpy(Construct(Auth, UnauthorizedMessage, None)));
    }
    var text := codec.utf8(response.content);
    if text.None? {
      return Err(Python(UnicodeDecodeError));
    }
    var content: Json;
    if endpoint == "avatar" {
      content := AvatarEnvelope(response.headers);
    } else {
      var decoded := codec.loads(text.value);
      if decoded.None? {
        return Err(Tumblpy(Construct(Generic, InvalidJsonMessage, None)));
      }
      content := decoded.value;
    }
    r := Interpret(content, response.status, codec);
  }

  /** What the request returns once the session has answered. */
  function Received(endpoint: string, exchange: Exchange, codec: Codec): Outcome<Json>
  {
    match exchange
    case TransportFailed => Err(Tumblpy(Construct(Generic, UnknownErrorMessage, None)))
    case Reply(response) => Normalized(endpoint, response, codec)
  }

  /** Status 401 raises the authentication error, without a status, whatever the body and
      the endpoint. */
  lemma UnauthorizedFirst(endpoint: string, response: HttpResponse, codec: Codec)
    requires response.status == 401
    ensures Normalized(endpoint, response, codec) == Err(Tumblpy(TumblpyError(Auth, UnauthorizedMessage, None)))
  {
  }

  /** The avatar endpoint never consults `json.loads`; inside the success window it returns
      `{'url': <location header or None>}`. */
  lemma AvatarFromLocation(response: HttpResponse, codec: Codec, loads: string -> Option<Json>)
    requires response.status != 401 && codec.utf8(response.content).Some?
    ensures Normalized("avatar", response, codec) == Normalized("avatar", response, codec.(loads := loads))
    ensures 200 <= response.status <= 301 ==>
      Normalized("avatar", response, codec) ==
        Ok(JObject(map["url" := if "location" in response.headers then JStr(response.headers["location"]) else JNull]))
  {
  }

  /** A redirect with status 302 lies outside the success window: even on the avatar
      endpoint it raises the default error with code 302. */
  lemma AvatarFoundIsError(location: string, body: Bytes, codec: Codec)
    requires codec.utf8(body).Some?
    ensures Normalized("avatar", HttpResponse(302, map["location" := location], body), codec)
            == Err(Tumblpy(TumblpyError(Generic, DefaultErrorMessage, Some(302))))
  {
    var content := JObject(map["url" := JStr(location)]);
    assert "url" in content.fields;
    assert Lookup(content.fields, "errors") == JNull;
    assert Lookup(content.fields, "error") == JNull;
    assert ErrorValue(content, codec) == Ok(JStr(""));
  }

  /** Inside the success window a decoded object yields its `response` field, or `{}`;
      anything that is not an object is rejected. */
  lemma SuccessUnwraps(endpoint: string, response: HttpResponse, codec: Codec, decoded: Json)
    requires endpoint != "avatar" && 200 <= response.status <= 301
    requires codec.utf8(response.content).Some? && codec.loads(codec.utf8(response.content).value) == Some(decoded)
    ensures decoded.JObject? && "response" in decoded.fields ==> Normalized(endpoint, response, codec) == Ok(decoded.fields["response"])
    ensures decoded.JObject? && "response" !in decoded.fields ==> Normalized(endpoint, response, codec) == Ok(JObject(map[]))
    ensures !decoded.JObject? ==> Normalized(endpoint, response, codec) == Err(Tumblpy(TumblpyError(Generic, InvalidContentMessage, None)))
  {
  }

  /** The envelope `{"meta": {"status": 200}, "response": {"a": 1}}` unwraps to `{"a": 1}`. */
  lemma EnvelopeExample(codec: Codec)
    ensures Interpreted(JObject(map["meta" := JObject(map["status" := JInt(200)]), "response" := JObject(map["a" := JInt(1)])]), 200, codec)
            == Ok(JObject(map["a" := JInt(1)]))
  {
  }

  /** Outside the success window the outcome is always an error; the client's error carries
      the status, escalated for 503 (and 401). */
  lemma ErrorCarriesStatus(decoded: Json, status: int, codec: Codec)
    requires status < 200 || status > 301
    ensures Interpreted(decoded, status, codec).Err?
    ensures decoded.JObject? && Interpreted(decoded, status, codec).error.Tumblpy? ==>
      var e := Interpreted(decoded, status, codec).error.error;
      e.errorCode == Some(status) &&
      e.kind == (if status == 503 then RateLimit else if status == 401 then Auth else Generic)
  {
  }

  /** With a non-empty `errors` list the message is its last element and a space. */
  lemma LastErrorWins(fields: map<string, Json>, items: seq<Json>, last: string, status: int, codec: Codec)
    requires status < 200 || status > 301
    requires "errors" in fields && fields["errors"] == JArray(items)
    requires items != [] && items[|items| - 1] == JStr(last)
    ensures Interpreted(JObject(map["response" := JObject(fields)]), status, codec)
            == Err(Tumblpy(Construct(Generic, last + " ", Some(status))))
  {
    assert fields != map[];
    assert Truthy(Lookup(fields, "errors"));
  }

  /** Without `errors`, a non-empty string `error` is the message. */
  lemma ErrorFieldUsed(fields: map<string, Json>, message: string, status: int, codec: Codec)
    requires status < 200 || status > 301
    requires "errors" !in fields && "error" in fields && fields["error"] == JStr(message) && message != ""
    ensures Interpreted(JObject(map["response" := JObject(fields)]), status, codec)
            == Err(Tumblpy(Construct(Generic, message, Some(status))))
  {
    assert fields != map[];
  }

  /** Outside the success window, a payload whose `errors` and `error` are both falsy or
      absent raises the default text with the status. */
  lemma DefaultMessageOtherwise(fields: map<string, Json>, status: int, codec: Codec)
    requires status < 200 || status > 301
    requires !Truthy(Lookup(fields, "errors")) && !Truthy(Lookup(fields, "error"))
    ensures Interpreted(JObject(map["response" := JObject(fields)]), status, codec)
            == Err(Tumblpy(Construct(Generic, DefaultErrorMessage, Some(status))))
  {
    assert "response" in map["response" := JObject(fields)];
  }

  /** As written, the error that `request` raises for a 503 answer is never constructed:
      the packaged classes exhaust the stack instead (see `Exceptions.PackagedConstruct`). */
  lemma RateLimitAsWritten(decoded: Json, codec: Codec, frames: nat)
    requires decoded.JObject? && Interpreted(decoded, 503, codec).Err? && Interpreted(decoded, 503, codec).error.Tumblpy?
    ensures var e := Interpreted(decoded, 503, codec).error.error;
      e.kind == RateLimit && PackagedConstruct(Generic, e.msg, e.errorCode, frames) == StackExhausted
  {
    ErrorCarriesStatus(decoded, 503, codec);
    var e := Interpreted(decoded, 503, codec).error.error;
    PackagedEscalationExhausts(Generic, e.msg, e.errorCode, frames);
  }

  /** An `errors` list that is present but empty hides the `error` field: the default text
      is used. */
  lemma EmptyErrorsHideError(message: string, status: int, codec: Codec)
    requires status < 200 || status > 301
    requires message != ""
    ensures Interpreted(JObject(map["response" := JObject(map["errors" := JArray([]), "error" := JStr(message)])]), status, codec)
            == Err(Tumblpy(Construct(Generic, DefaultErrorMessage, Some(status))))
  {
    var fields := map["errors" := JArray([]), "error" := JStr(message)];
    assert "error" in fields;
    assert Truthy(Lookup(fields, "error"));
    assert Elements(fields["errors"], codec) == Some([]);
  }

  // The OAuth token steps

  /** The query of `auth_url`: the request token, then the callback when one was given. */
  function AuthUrlQuery(token: string, callbackUrl: Option<string>): (q: seq<(string, Option<string>)>)
    ensures |q| >= 1 && q[0] == ("oauth_token", Some(token))
    ensures (exists i :: 0 <= i < |q| && q[i].0 == "oauth_callback") <==> Present(callbackUrl)
    ensures forall i :: 0 <= i < |q| && q[i].0 == "oauth_callback" ==> q[i].1 == callbackUrl
  {
    var q := [("oauth_token", Some(token))] + (if Present(callbackUrl) then [("oauth_callback", callbackUrl)] else []);
    assert |"oauth_token"| != |"oauth_callback"|;
    assert Present(callbackUrl) ==> q[1].0 == "oauth_callback";
    q
  }

  /** The verb check ignores case: `request` accepts exactly the spellings of `get` and
      `post` in any mix of upper and lower case. */
  lemma VerbSpelling(httpMethod: string)
    ensures LowerAscii(httpMethod) == "get" <==> SpellsCaseless(httpMethod, "get")
    ensures LowerAscii(httpMethod) == "post" <==> SpellsCaseless(httpMethod, "post")
  {
    LowerMatches(httpMethod, "get");
    LowerMatches(httpMethod, "post");
  }

  /** The client: credentials, headers and signer fixed at construction. */
  class Tumblpy {
    const appKey: Option<string>
    const appSecret: Option<string>
    const oauthToken: Option<string>
    const oauthTokenSecret: Option<string>
    const defaultParams: map<string, Option<string>>
    const headers: map<string, string>
    const auth: Signing

    constructor (appKey: Option<string>, appSecret: Option<string>, oauthToken: Option<string>,
                 oauthTokenSecret: Option<string>, headers: Option<map<string, string>>)
      ensures this.appKey == appKey && this.appSecret == appSecret
      ensures this.oauthToken == oauthToken && this.oauthTokenSecret == oauthTokenSecret
      ensures defaultParams == map["api_key" := appKey]
      ensures this.headers == if headers.Some? && headers.value != map[] then UserAgent + headers.value else UserAgent
      ensures auth == SelectSigning(appKey, appSecret, oauthToken, oauthTokenSecret)
    {
      this.appKey := appKey;
      this.appSecret := appSecret;
      this.oauthToken := oauthToken;
      this.oauthTokenSecret := oauthTokenSecret;
      defaultParams := map["api_key" := appKey];
      var requestHeaders := UserAgent;
      if headers.Some? && headers.value != map[] {
        requestHeaders := requestHeaders + headers.value;
      }
      this.headers := requestHeaders;
      auth := SelectSigning(appKey, appSecret, oauthToken, oauthTokenSecret);
    }

    /** The request for a request token. */
    function AuthenticationTokensCall(callbackUrl: Option<string>): (c: Outgoing)
      ensures c.verb == GET && c.url == RequestTokenUrl && c.allowRedirects && c.query.Some?
      ensures "oauth_callback" in c.query.value <==> Present(callbackUrl)
      ensures c.query.value.Keys <= {"oauth_callback"} && forall k :: k in c.query.value ==> c.query.value[k] == callbackUrl
      ensures c.auth == auth && c.headers == headers
    {
      var args := if Present(callbackUrl) then map["oauth_callback" := callbackUrl] else map[];
      Outgoing(GET, RequestTokenUrl, Some(args), None, None, headers, auth, true)
    }

    /** `get_authentication_tokens`: a non-200 status raises the authentication error, an
        empty decoded body the generic one; otherwise the decoded tokens are returned with
        `auth_url` added. */
    function GetAuthenticationTokens(callbackUrl: Option<string>, transport: Outgoing -> Exchange, codec: Codec)
      : (r: Outcome<map<string, string>>)
      ensures var x := transport(AuthenticationTokensCall(callbackUrl));
        && (x.TransportFailed? ==> r == Err(Python(RequestException)))
        && (x.Reply? && x.response.status != 200 ==> r == Err(Tumblpy(TumblpyError(Auth, OAuthFailureMessage, None))))
        && (x.Reply? && x.response.status == 200 && DictOf(codec.parseQsl(x.response.content)) == map[] ==>
              r == Err(Tumblpy(TumblpyError(Generic, RequestTokensMessage, None))))
        && ((x.Reply? && x.response.status == 200 && DictOf(codec.parseQsl(x.response.content)) != map[] &&
             "oauth_token" !in DictOf(codec.parseQsl(x.response.content))) ==> r == Err(Python(KeyError)))
        && (r.Ok? <==> x.Reply? && x.response.status == 200 && DictOf(codec.parseQsl(x.response.content)) != map[] &&
                       "oauth_token" in DictOf(codec.parseQsl(x.response.content)))
        && (r.Ok? ==>
              (var tokens := DictOf(codec.parseQsl(x.response.content));
               r.value.Keys == tokens.Keys + {"auth_url"} &&
               (forall k :: k in tokens && k != "auth_url" ==> r.value[k] == tokens[k]) &&
               r.value["auth_url"] == AuthenticateUrl + "?" + codec.urlencode(AuthUrlQuery(tokens["oauth_token"], callbackUrl))))
    {
      match transport(AuthenticationTokensCall(callbackUrl))
      case TransportFailed => Err(Python(RequestException))
      case Reply(response) =>
        if response.status != 200 then Err(Tumblpy(Construct(Auth, OAuthFailureMessage, None)))
        else
          var tokens := DictOf(codec.parseQsl(response.content));
          if tokens == map[] then Err(Tumblpy(Construct(Generic, RequestTokensMessage, None)))
          else if "oauth_token" !in tokens then Err(Python(KeyError))
          else
            var query := AuthUrlQuery(tokens["oauth_token"], callbackUrl);
            Ok(tokens["auth_url" := AuthenticateUrl + "?" + codec.urlencode(query)])
    }

    /** The request exchanging the verifier for the access token. */
    function AuthorizedTokensCall(oauthVerifier: string): Outgoing {
      Outgoing(GET, AccessTokenUrl, Some(map["oauth_verifier" := Some(oauthVerifier)]), None, None, headers, auth, true)
    }

    /** `get_authorized_tokens`: no status check; only an empty decoded body fails. */
    function GetAuthorizedTokens(oauthVerifier: string, transport: Outgoing -> Exchange, codec: Codec)
      : (r: Outcome<map<string, string>>)
      ensures var x := transport(AuthorizedTokensCall(oauthVerifier));
        && (x.TransportFailed? ==> r == Err(Python(RequestException)))
        && (x.Reply? && DictOf(codec.parseQsl(x.response.content)) == map[] ==>
              r == Err(Tumblpy(TumblpyError(Generic, AuthorizedTokensMessage, None))))
        && (x.Reply? && DictOf(codec.parseQsl(x.response.content)) != map[] ==>
              r == Ok(DictOf(codec.parseQsl(x.response.content))))
    {
      match transport(AuthorizedTokensCall(oauthVerifier))
      case TransportFailed => Err(Python(RequestException))
      case Reply(response) =>
        var tokens := DictOf(codec.parseQsl(response.content));
        if tokens == map[] then Err(Tumblpy(Construct(Generic, AuthorizedTokensMessage, None))) else Ok(tokens)
    }

    /** Two replies with the same body give the same tokens, whatever their status. */
    lemma AuthorizedTokensIgnoreStatus(oauthVerifier: string, t1: Outgoing -> Exchange, t2: Outgoing -> Exchange, codec: Codec)
      requires t1(AuthorizedTokensCall(oauthVerifier)).Reply? && t2(AuthorizedTokensCall(oauthVerifier)).Reply?
      requires t1(AuthorizedTokensCall(oauthVerifier)).response.content == t2(AuthorizedTokensCall(oauthVerifier)).response.content
      ensures GetAuthorizedTokens(oauthVerifier, t1, codec) == GetAuthorizedTokens(oauthVerifier, t2, codec)
    {
    }

    // The generic request

    /** The request `request` hands to the session, or the error it raises first. */
    function Prepared(endpoint: string, httpMethod: string, blogUrl: Option<string>,
                      extraEndpoints: Option<seq<string>>, params: Option<map<string, Helpers.Value>>): Outcome<Outgoing>
    {
      var verb := LowerAscii(httpMethod);
      if verb != "get" && verb != "post" then Err(Tumblpy(Construct(Generic, MethodMessage, None)))
      else
        var given := if params.Some? then params.value else map[];
        var url := BuildUrl(ApiUrl, endpoint, blogUrl, extraEndpoints);
        var merged := WithDefaults(Helpers.FieldsOf(given), defaultParams);
        var files := Helpers.FilesOf(given);
        if verb == "get" then Ok(Outgoing(GET, url, Some(merged), None, None, headers, auth, false))
        else Ok(Outgoing(POST, url, if files != map[] then Some(merged) else None, Some(merged), Some(files), headers, auth, false))
    }

    /** The outcome of `request` and the request it sent, if any. */
    function Requested(endpoint: string, httpMethod: string, blogUrl: Option<string>,
                       extraEndpoints: Option<seq<string>>, params: Option<map<string, Helpers.Value>>,
                       transport: Outgoing -> Exchange, codec: Codec): (Outcome<Json>, Option<Outgoing>)
    {
      match Prepared(endpoint, httpMethod, blogUrl, extraEndpoints, params)
      case Err(raised) => (Err(raised), None)
      case Ok(out) => (Received(endpoint, transport(out), codec), Some(out))
    }

    /** `request`: checks the verb, builds the URL, classifies and merges the parameters,
        sends, and normalizes the response. */
    method Request(endpoint: string, httpMethod: string, blogUrl: Option<string>,
                   extraEndpoints: Option<seq<string>>, params: Option<map<string, Helpers.Value>>,
                   transport: Outgoing -> Exchange, codec: Codec)
      returns (r: Outcome<Json>, sent: Option<Outgoing>)
      ensures (r, sent) == Requested(endpoint, httpMethod, blogUrl, extraEndpoints, params, transport, codec)
    {
      var given := if params.Some? then params.value else map[];
      var verb := LowerAscii(httpMethod);
      if verb != "get" && verb != "post" {
        return Err(Tumblpy(Construct(Generic, MethodMessage, None))), None;
      }
      var url := BuildUrl(ApiUrl, endpoint, blogUrl, extraEndpoints);
      var fields, files := Helpers.SplitParamsAndFiles(given);
      var merged := WithDefaults(fields, defaultParams);
      var out: Outgoing;
      if verb == "get" {
        out := Outgoing(GET, url, Some(merged), None, None, headers, auth, false);
      } else {
        out := Outgoing(POST, url, if files != map[] then Some(merged) else None, Some(merged), Some(files), headers, auth, false);
      }
      sent := Some(out);
      var exchange := transport(out);
      if exchange.TransportFailed? {
        r := Err(Tumblpy(Construct(Generic, UnknownErrorMessage, None)));
      } else {
        r := Normalize(endpoint, exchange.response, codec);
      }
    }

    /** Any verb other than GET or POST, in any case, is refused before anything is sent. */
    lemma VerbChecked(endpoint: string, httpMethod: string, blogUrl: Option<string>,
                      extraEndpoints: Option<seq<string>>, params: Option<map<string, Helpers.Value>>,
                      transport: Outgoing -> Exchange, codec: Codec)
      ensures var (r, sent) := Requested(endpoint, httpMethod, blogUrl, extraEndpoints, params, transport, codec);
        (sent.None? <==> LowerAscii(httpMethod) != "get" && LowerAscii(httpMethod) != "post") &&
        (sent.None? ==> r == Err(Tumblpy(TumblpyError(Generic, MethodMessage, None))))
    {
    }

    /** The merged parameters always carry `api_key = app_key`, overriding the caller's, and
        every other classified field; GET sends them as the query, POST as the form body
        (and also as the query when there are files). */
    lemma ApiKeyAlwaysSent(endpoint: string, httpMethod: string, blogUrl: Option<string>,
                           extraEndpoints: Option<seq<string>>, params: Option<map<string, Helpers.Value>>)
      requires defaultParams == map["api_key" := appKey]
      requires Prepared(endpoint, httpMethod, blogUrl, extraEndpoints, params).Ok?
      ensures var out := Prepared(endpoint, httpMethod, blogUrl, extraEndpoints, params).value;
        var merged := if out.verb == GET then out.query else out.data;
        var given := if params.Some? then params.value else map[];
        merged.Some? && "api_key" in merged.value && merged.value["api_key"] == appKey &&
        (forall k :: k in Helpers.FieldsOf(given) && k != "api_key" ==> k in merged.value && merged.value[k] == Some(Helpers.FieldsOf(given)[k])) &&
        (out.verb == POST ==> out.files == Some(Helpers.FilesOf(given)) && (out.query.Some? <==> Helpers.FilesOf(given) != map[]))
    {
    }

    method Get(endpoint: string, blogUrl: Option<string>, extraEndpoints: Option<seq<string>>,
               params: Option<map<string, Helpers.Value>>, transport: Outgoing -> Exchange, codec: Codec)
      returns (r: Outcome<Json>, sent: Option<Outgoing>)
      ensures (r, sent) == Requested(endpoint, "GET", blogUrl, extraEndpoints, params, transport, codec)
      ensures sent.Some? && sent.value.verb == GET
    {
      r, sent := Request(endpoint, "GET", blogUrl, extraEndpoints, params, transport, codec);
    }

    method Post(endpoint: string, blogUrl: Option<string>, extraEndpoints: Option<seq<string>>,
                params: Option<map<string, Helpers.Value>>, transport: Outgoing -> Exchange, codec: Codec)
      returns (r: Outcome<Json>, sent: Option<Outgoing>)
      ensures (r, sent) == Requested(endpoint, "POST", blogUrl, extraEndpoints, params, transport, codec)
      ensures sent.Some? && sent.value.verb == POST
    {
      r, sent := Request(endpoint, "POST", blogUrl, extraEndpoints, params, transport, codec);
    }

    /** `get_avatar_url`: a GET of `.../blog/<blog>/avatar/<size>`. */
    method GetAvatarUrl(blogUrl: string, transport: Outgoing -> Exchange, codec: Codec, size: int := 64)
      returns (r: Outcome<Json>, sent: Option<Outgoing>)
      ensures (r, sent) == Requested("avatar", "GET", Some(blogUrl), Some([DecimalText(size)]), None, transport, codec)
      ensures sent.Some? && sent.value.verb == GET && !sent.value.allowRedirects
      ensures sent.Some? && sent.value.url == ApiUrl + "blog/" + BlogSegment(blogUrl) + "/avatar/" + DecimalText(size)
    {
      r, sent := Request("avatar", "GET", Some(blogUrl), Some([DecimalText(size)]), None, transport, codec);
      AvatarPath(ApiUrl, blogUrl, DecimalText(size));
    }
  }
}
