/** The legacy single-module client (`tumblpy.py`, version 0.6.3): its classifier that
    renders ints and rejects unknown values, its error classes, and its `Tumblpy` class,
    whose URL builder and response step are the packaged ones (`Api.BuildUrl`,
    `Api.Interpret`). */
module Legacy {
  import opened Wrappers
  import opened Text
  import opened Json
  import opened Exceptions
  import opened Http
  import Helpers
  import Api

  const Version := "0.6.3"
  const BaseApiUrl := "http://api.tumblr.com"
  const ApiVersion := "v2"
  const ApiUrl := BaseApiUrl + "/" + ApiVersion + "/"
  const RequestTokenUrl := "http://www.tumblr.com/oauth/request_token"
  const AccessTokenUrl := "https://www.tumblr.com/oauth/access_token"
  const AuthorizeUrl := "https://www.tumblr.com/oauth/authorize"
  const AuthenticateUrl := "https://www.tumblr.com/oauth/authorize"

  const UserAgent: map<string, string> := map["User-Agent" := "Tumblpy v" + Version]

  function NotParsableMessage(key: string): string {
    "Value for \"" + key + "\" was not parsable."
  }

  // Parameter classifier

  /** The form fields: strings verbatim, booleans as text (tested before ints, so never
      `1`/`0`), ints as decimal text. */
  function FieldsOf(given: map<string, Helpers.Value>): (fields: map<string, string>)
    ensures forall k :: k in fields <==> k in given && (given[k].Str? || given[k].Bool? || given[k].Int?)
    ensures forall k :: k in given && given[k].Str? ==> fields[k] == given[k].s
    ensures forall k :: k in given && given[k].Bool? ==> fields[k] == Helpers.BoolText(given[k].b)
    ensures forall k :: k in given && given[k].Int? ==> fields[k] == DecimalText(given[k].i)
  {
    map k | k in given && (given[k].Str? || given[k].Bool? || given[k].Int?) ::
      match given[k]
      case Str(s) => s
      case Bool(b) => Helpers.BoolText(b)
      case Int(i) => DecimalText(i)
  }

  /** The legacy fields extend the packaged ones by exactly the ints, and an int's text
      reads back as the same int. */
  lemma FieldsExtendPackaged(given: map<string, Helpers.Value>)
    ensures forall k :: k in Helpers.FieldsOf(given) ==> k in FieldsOf(given) && FieldsOf(given)[k] == Helpers.FieldsOf(given)[k]
    ensures FieldsOf(given).Keys - Helpers.FieldsOf(given).Keys == set k | k in given && given[k].Int?
    ensures forall k :: k in given && given[k].Int? ==> ParseDecimal(FieldsOf(given)[k]) == Some(given[k].i)
  {
    forall k | k in given && given[k].Int?
      ensures ParseDecimal(FieldsOf(given)[k]) == Some(given[k].i)
    {
      DecimalRoundTrip(given[k].i);
    }
  }

  /** `_split_params_and_files` of the legacy module: streams to files, strings, booleans
      and ints to fields; any other value raises an error naming its key. */
  method SplitParamsAndFiles(given: map<string, Helpers.Value>)
    returns (r: Outcome<(map<string, string>, map<string, Helpers.Value>)>)
    ensures r.Ok? <==> forall k :: k in given ==> !given[k].Other?
    ensures r.Ok? ==> r.value == (FieldsOf(given), Helpers.FilesOf(given))
    ensures r.Err? ==> exists k :: k in given && given[k].Other? &&
                        r.error == Tumblpy(TumblpyError(Generic, NotParsableMessage(k), None))
  {
    var params: map<string, string> := map[];
    var files: map<string, Helpers.Value> := map[];
    var pending := given.Keys;
    while pending != {}
      invariant pending <= given.Keys
      invariant forall k :: k in given && k !in pending ==> !given[k].Other?
      invariant forall k :: k in files <==> k in given && k !in pending && given[k].Stream?
      invariant forall k :: k in files ==> files[k] == given[k]
      invariant forall k :: k in params <==> k in given && k !in pending && (given[k].Str? || given[k].Bool? || given[k].Int?)
      invariant forall k :: k in params ==> params[k] == FieldsOf(given)[k]
      decreases pending
    {
      var k :| k in pending;
      var v := given[k];
      match v {
        case Stream(_) => files := files[k := v];
        case Str(s) => params := params[k := s];
        case Bool(b) => params := params[k := Helpers.BoolText(b)];
        case Int(i) => params := params[k := DecimalText(i)];
        case Other(_) =>
          return Err(Tumblpy(Construct(Generic, NotParsableMessage(k), None)));
      }
      pending := pending - {k};
    }
    assert params == FieldsOf(given);
    assert files == Helpers.FilesOf(given);
    return Ok((params, files));
  }

  /** Some value is neither a stream, a string, a boolean nor an int. */
  ghost predicate Unparsable(given: map<string, Helpers.Value>) {
    exists k :: k in given && given[k].Other?
  }

  // Signing mode

  /** The legacy signer: two credentials when key and secret are given and neither token,
      four when all four are given; a token without its secret leaves the client unsigned. */
  function SelectSigning(appKey: Option<string>, appSecret: Option<string>,
                         oauthToken: Option<string>, oauthTokenSecret: Option<string>): (s: Signing)
    ensures s.ConsumerOnly? <==> Api.Present(appKey) && Api.Present(appSecret) && !Api.Present(oauthToken) && !Api.Present(oauthTokenSecret)
    ensures s.WithToken? <==> Api.Present(appKey) && Api.Present(appSecret) && Api.Present(oauthToken) && Api.Present(oauthTokenSecret)
    ensures s.ConsumerOnly? ==> s == ConsumerOnly(appKey.value, appSecret.value)
    ensures s.WithToken? ==> s == WithToken(appKey.value, appSecret.value, oauthToken, oauthTokenSecret)
  {
    var consumer := Api.Present(appKey) && Api.Present(appSecret);
    if consumer && !Api.Present(oauthToken) && !Api.Present(oauthTokenSecret) then ConsumerOnly(appKey.value, appSecret.value)
    else if consumer && Api.Present(oauthToken) && Api.Present(oauthTokenSecret) then WithToken(appKey.value, appSecret.value, oauthToken, oauthTokenSecret)
    else Unsigned
  }

  /** The two versions choose the same signer except for a half token pair, which the
      packaged client signs with (four credentials, one `None`) and the legacy one does not. */
  lemma SigningVersionsDiffer(appKey: Option<string>, appSecret: Option<string>,
                              oauthToken: Option<string>, oauthTokenSecret: Option<string>)
    ensures var half := Api.Present(appKey) && Api.Present(appSecret) && Api.Present(oauthToken) != Api.Present(oauthTokenSecret);
      (SelectSigning(appKey, appSecret, oauthToken, oauthTokenSecret) == Api.SelectSigning(appKey, appSecret, oauthToken, oauthTokenSecret) <==> !half) &&
      (half ==> SelectSigning(appKey, appSecret, oauthToken, oauthTokenSecret).Unsigned? &&
                Api.SelectSigning(appKey, appSecret, oauthToken, oauthTokenSecret).WithToken?)
  {
  }

  // Response normalizer

  /** `json.loads` on the raw bytes: it decodes them as UTF-8 itself, and a decoding
      failure is a `ValueError` like any other. */
  function LoadsBytes(content: Bytes, codec: Codec): Option<Json> {
    match codec.utf8(content)
    case None => None
    case Some(text) => codec.loads(text)
  }

  /** The legacy normalizer: 401 first, then the avatar envelope or `json.loads`, then the
      same payload step as the packaged client. */
  function Normalized(endpoint: string, response: HttpResponse, codec: Codec): Outcome<Json>
  {
    if response.status == 401 then Err(Tumblpy(Construct(Auth, Api.UnauthorizedMessage, None)))
    else if endpoint == "avatar" then Api.Interpreted(Api.AvatarEnvelope(response.headers), response.status, codec)
    else match LoadsBytes(response.content, codec)
      case None => Err(Tumblpy(Construct(Generic, Api.InvalidJsonMessage, None)))
      case Some(decoded) => Api.Interpreted(decoded, response.status, codec)
  }

  method Normalize(endpoint: string, response: HttpResponse, codec: Codec) returns (r: Outcome<Json>)
    ensures r == Normalized(endpoint, response, codec)
  {
    if response.status == 401 {
      return Err(Tumblpy(Construct(Auth, Api.UnauthorizedMessage, None)));
    }
    var content: Json;
    if endpoint == "avatar" {
      content := Api.AvatarEnvelope(response.headers);
    } else {
      var decoded := LoadsBytes(response.content, codec);
      if decoded.None? {
        return Err(Tumblpy(Construct(Generic, Api.InvalidJsonMessage, None)));
      }
      content := decoded.value;
    }
    r := Api.Interpret(content, response.status, codec);
  }

  /** On a UTF-8 body the two normalizers agree. On any other body (and a status other than
      401) the packaged one lets `UnicodeDecodeError` escape, while the legacy one still
      answers the avatar endpoint and reports invalid JSON elsewhere. */
  lemma NormalizersCompared(endpoint: string, response: HttpResponse, codec: Codec)
    ensures codec.utf8(response.content).Some? ==> Normalized(endpoint, response, codec) == Api.Normalized(endpoint, response, codec)
    ensures codec.utf8(response.content).None? && response.status != 401 ==>
      Api.Normalized(endpoint, response, codec) == Err(Python(UnicodeDecodeError)) &&
      (endpoint != "avatar" ==> Normalized(endpoint, response, codec) == Err(Tumblpy(TumblpyError(Generic, Api.InvalidJsonMessage, None)))) &&
      (endpoint == "avatar" ==> Normalized(endpoint, response, codec) == Api.Interpreted(Api.AvatarEnvelope(response.headers), response.status, codec))
  {
  }

  function Received(endpoint: string, exchange: Exchange, codec: Codec): Outcome<Json>
  {
    match exchange
    case TransportFailed => Err(Tumblpy(Construct(Generic, Api.UnknownErrorMessage, None)))
    case Reply(response) => Normalized(endpoint, response, codec)
  }

  /** The query of the legacy `auth_url`: the request token and, always, the configured
      callback, `None` included. */
  function AuthUrlQuery(token: string, callbackUrl: Option<string>): (q: seq<(string, Option<string>)>)
    ensures |q| == 2 && q[0] == ("oauth_token", Some(token)) && q[1] == ("oauth_callback", callbackUrl)
  {
    [("oauth_token", Some(token)), ("oauth_callback", callbackUrl)]
  }

  /** The two `auth_url` queries agree when a truthy callback is configured; otherwise the
      legacy one appends `oauth_callback` with the falsy value, which the packaged one omits. */
  lemma AuthUrlQueriesCompared(token: string, callbackUrl: Option<string>)
    ensures Api.Present(callbackUrl) ==> AuthUrlQuery(token, callbackUrl) == Api.AuthUrlQuery(token, callbackUrl)
    ensures !Api.Present(callbackUrl) ==>
      AuthUrlQuery(token, callbackUrl) == Api.AuthUrlQuery(token, callbackUrl) + [("oauth_callback", callbackUrl)]
  {
  }

  /** The legacy client. The application credentials are recorded only when both are given
      and the user token only when both halves are given; otherwise those attributes are
      never set (modelled as `None`). */
  class Tumblpy {
    const callbackUrl: Option<string>
    const appKey: Option<string>
    const appSecret: Option<string>
    const oauthToken: Option<string>
    const oauthTokenSecret: Option<string>
    const defaultParams: map<string, Option<string>>
    const headers: map<string, string>
    const auth: Signing

    constructor (appKey: Option<string>, appSecret: Option<string>, oauthToken: Option<string>,
                 oauthTokenSecret: Option<string>, headers: Option<map<string, string>>,
                 callbackUrl: Option<string>)
      ensures this.callbackUrl == callbackUrl
      ensures defaultParams == map["api_key" := appKey]
      ensures this.headers == if headers.Some? && headers.value != map[] then headers.value else UserAgent
      ensures Api.Present(appKey) && Api.Present(appSecret) ==> this.appKey == appKey && this.appSecret == appSecret
      ensures !(Api.Present(appKey) && Api.Present(appSecret)) ==> this.appKey == None && this.appSecret == None
      ensures Api.Present(oauthToken) && Api.Present(oauthTokenSecret) ==> this.oauthToken == oauthToken && this.oauthTokenSecret == oauthTokenSecret
      ensures !(Api.Present(oauthToken) && Api.Present(oauthTokenSecret)) ==> this.oauthToken == None && this.oauthTokenSecret == None
      ensures auth == SelectSigning(appKey, appSecret, oauthToken, oauthTokenSecret)
    {
      this.callbackUrl := callbackUrl;
      defaultParams := map["api_key" := appKey];
      this.headers := if headers.Some? && headers.value != map[] then headers.value else UserAgent;
      if Api.Present(appKey) && Api.Present(appSecret) {
        this.appKey, this.appSecret := appKey, appSecret;
      } else {
        this.appKey, this.appSecret := None, None;
      }
      if Api.Present(oauthToken) && Api.Present(oauthTokenSecret) {
        this.oauthToken, this.oauthTokenSecret := oauthToken, oauthTokenSecret;
      } else {
        this.oauthToken, this.oauthTokenSecret := None, None;
      }
      auth := SelectSigning(appKey, appSecret, oauthToken, oauthTokenSecret);
    }

    /** The session is built with the headers only when it is also given a signer. */
    function SessionHeaders(): map<string, string> {
      if auth.Unsigned? then map[] else headers
    }

    /** The request for a request token; the callback is sent only when it is truthy. */
    function AuthenticationTokensCall(): (c: Outgoing)
      ensures c.verb == GET && c.url == RequestTokenUrl && c.allowRedirects && c.query.Some?
      ensures "oauth_callback" in c.query.value <==> Api.Present(callbackUrl)
      ensures c.query.value.Keys <= {"oauth_callback"} && forall k :: k in c.query.value ==> c.query.value[k] == callbackUrl
      ensures c.headers == (if auth.Unsigned? then map[] else headers) && c.auth == auth
    {
      var args := if Api.Present(callbackUrl) then map["oauth_callback" := callbackUrl] else map[];
      Outgoing(GET, RequestTokenUrl, Some(args), None, None, SessionHeaders(), auth, true)
    }

    /** `get_authentication_tokens` of the legacy client: as the packaged one, except that
        `auth_url` always carries `oauth_callback`. */
    function GetAuthenticationTokens(transport: Outgoing -> Exchange, codec: Codec)
      : (r: Outcome<map<string, string>>)
      ensures var x := transport(AuthenticationTokensCall());
        && (x.TransportFailed? ==> r == Err(Python(RequestException)))
        && (x.Reply? && x.response.status != 200 ==> r == Err(Tumblpy(TumblpyError(Auth, Api.OAuthFailureMessage, None))))
        && (x.Reply? && x.response.status == 200 && DictOf(codec.parseQsl(x.response.content)) == map[] ==>
              r == Err(Tumblpy(TumblpyError(Generic, Api.RequestTokensMessage, None))))
        && ((x.Reply? && x.response.status == 200 && DictOf(codec.parseQsl(x.response.content)) != map[] &&
             "oauth_token" !in DictOf(codec.parseQsl(x.response.content))) ==> r == Err(Python(KeyError)))
        && (r.Ok? <==> x.Reply? && x.response.status == 200 && DictOf(codec.parseQsl(x.response.content)) != map[] &&
                       "oauth_token" in DictOf(codec.parseQsl(x.response.content)))
        && (r.Ok? ==>
              (var tokens := DictOf(codec.parseQsl(x.response.content));
               r.value.Keys == tokens.Keys + {"auth_url"} &&
               (forall k :: k in tokens && k != "auth_url" ==> r.value[k] == tokens[k]) &&
               r.value["auth_url"] == AuthenticateUrl + "?" + codec.urlencode(AuthUrlQuery(tokens["oauth_token"], callbackUrl))))
    {
      match transport(AuthenticationTokensCall())
      case TransportFailed => Err(Python(RequestException))
      case Reply(response) =>
        if response.status != 200 then Err(Tumblpy(Construct(Auth, Api.OAuthFailureMessage, None)))
        else
          var tokens := DictOf(codec.parseQsl(response.content));
          if tokens == map[] then Err(Tumblpy(Construct(Generic, Api.RequestTokensMessage, None)))
          else if "oauth_token" !in tokens then Err(Python(KeyError))
          else Ok(tokens["auth_url" := AuthenticateUrl + "?" + codec.urlencode(AuthUrlQuery(tokens["oauth_token"], callbackUrl))])
    }

    function AuthorizedTokensCall(oauthVerifier: string): Outgoing {
      Outgoing(GET, AccessTokenUrl, Some(map["oauth_verifier" := Some(oauthVerifier)]), None, None, SessionHeaders(), auth, true)
    }

    /** `get_authorized_tokens` of the legacy client: no status check; only an empty
        decoded body fails. */
    function GetAuthorizedTokens(oauthVerifier: string, transport: Outgoing -> Exchange, codec: Codec)
      : (r: Outcome<map<string, string>>)
      ensures var x := transport(AuthorizedTokensCall(oauthVerifier));
        && (x.TransportFailed? ==> r == Err(Python(RequestException)))
        && (x.Reply? && DictOf(codec.parseQsl(x.response.content)) == map[] ==>
              r == Err(Tumblpy(TumblpyError(Generic, Api.AuthorizedTokensMessage, None))))
        && (x.Reply? && DictOf(codec.parseQsl(x.response.content)) != map[] ==>
              r == Ok(DictOf(codec.parseQsl(x.response.content))))
    {
      match transport(AuthorizedTokensCall(oauthVerifier))
      case TransportFailed => Err(Python(RequestException))
      case Reply(response) =>
        var tokens := DictOf(codec.parseQsl(response.content));
        if tokens == map[] then Err(Tumblpy(Construct(Generic, Api.AuthorizedTokensMessage, None))) else Ok(tokens)
    }

    // The generic request

    /** The request handed to the session for a valid verb and a classifiable mapping:
        GET sends the parameters as the query, POST as the form body beside the files;
        both pass the client's headers explicitly. */
    function Prepared(endpoint: string, verb: Verb, blogUrl: Option<string>,
                      extraEndpoints: Option<seq<string>>, given: map<string, Helpers.Value>): Outgoing
    {
      var url := Api.BuildUrl(ApiUrl, endpoint, blogUrl, extraEndpoints);
      var merged := Api.WithDefaults(FieldsOf(given), defaultParams);
      if verb == GET then Outgoing(GET, url, Some(merged), None, None, headers, auth, false)
      else Outgoing(POST, url, None, Some(merged), Some(Helpers.FilesOf(given)), headers, auth, false)
    }

    /** The outcomes `request` may have: a bad verb or an unclassifiable value raises before
        anything is sent (naming one offending key, in the mapping's iteration order);
        otherwise the prepared request is sent and its answer normalized. */
    ghost predicate Requested(endpoint: string, httpMethod: string, blogUrl: Option<string>,
                              extraEndpoints: Option<seq<string>>, params: Option<map<string, Helpers.Value>>,
                              transport: Outgoing -> Exchange, codec: Codec,
                              r: Outcome<Json>, sent: Option<Outgoing>)
    {
      var verb := LowerAscii(httpMethod);
      var given := if params.Some? then params.value else map[];
      var valid := verb == "get" || verb == "post";
      && (!valid ==> sent.None? && r == Err(Tumblpy(TumblpyError(Generic, Api.MethodMessage, None))))
      && (valid && Unparsable(given) ==>
            sent.None? && exists k :: k in given && given[k].Other? && r == Err(Tumblpy(TumblpyError(Generic, NotParsableMessage(k), None))))
      && (valid && !Unparsable(given) ==>
            sent == Some(Prepared(endpoint, if verb == "get" then GET else POST, blogUrl, extraEndpoints, given)) &&
            r == Received(endpoint, transport(sent.value), codec))
    }

    method Request(endpoint: string, httpMethod: string, blogUrl: Option<string>,
                   extraEndpoints: Option<seq<string>>, params: Option<map<string, Helpers.Value>>,
                   transport: Outgoing -> Exchange, codec: Codec)
      returns (r: Outcome<Json>, sent: Option<Outgoing>)
      ensures Requested(endpoint, httpMethod, blogUrl, extraEndpoints, params, transport, codec, r, sent)
    {
      var given := if params.Some? then params.value else map[];
      var verb := LowerAscii(httpMethod);
      if verb != "get" && verb != "post" {
        return Err(Tumblpy(Construct(Generic, Api.MethodMessage, None))), None;
      }
      var url := Api.BuildUrl(ApiUrl, endpoint, blogUrl, extraEndpoints);
      var split := SplitParamsAndFiles(given);
      if split.Err? {
        return Err(split.error), None;
      }
      var (fields, files) := split.value;
      var merged := Api.WithDefaults(fields, defaultParams);
      var out: Outgoing;
      if verb == "get" {
        out := Outgoing(GET, url, Some(merged), None, None, headers, auth, false);
      } else {
        out := Outgoing(POST, url, None, Some(merged), Some(files), headers, auth, false);
      }
      sent := Some(out);
      var exchange := transport(out);
      if exchange.TransportFailed? {
        r := Err(Tumblpy(Construct(Generic, Api.UnknownErrorMessage, None)));
      } else {
        r := Normalize(endpoint, exchange.response, codec);
      }
    }

    /** Whatever the outcome, a request that was sent carries `api_key = app_key`. */
    lemma ApiKeyAlwaysSent(endpoint: string, verb: Verb, blogUrl: Option<string>,
                           extraEndpoints: Option<seq<string>>, given: map<string, Helpers.Value>)
      requires defaultParams == map["api_key" := appKey]
      ensures var out := Prepared(endpoint, verb, blogUrl, extraEndpoints, given);
        var merged := if verb == GET then out.query else out.data;
        merged.Some? && "api_key" in merged.value && merged.value["api_key"] == appKey &&
        out.url == Api.BuildUrl(ApiUrl, endpoint, blogUrl, extraEndpoints)
    {
    }

    method Get(endpoint: string, blogUrl: Option<string>, extraEndpoints: Option<seq<string>>,
               params: Option<map<string, Helpers.Value>>, transport: Outgoing -> Exchange, codec: Codec)
      returns (r: Outcome<Json>, sent: Option<Outgoing>)
      ensures Requested(endpoint, "GET", blogUrl, extraEndpoints, params, transport, codec, r, sent)
    {
      r, sent := Request(endpoint, "GET", blogUrl, extraEndpoints, params, transport, codec);
    }

    method Post(endpoint: string, blogUrl: Option<string>, extraEndpoints: Option<seq<string>>,
                params: Option<map<string, Helpers.Value>>, transport: Outgoing -> Exchange, codec: Codec)
      returns (r: Outcome<Json>, sent: Option<Outgoing>)
      ensures Requested(endpoint, "POST", blogUrl, extraEndpoints, params, transport, codec, r, sent)
    {
      r, sent := Request(endpoint, "POST", blogUrl, extraEndpoints, params, transport, codec);
    }

    method GetAvatarUrl(blogUrl: string, transport: Outgoing -> Exchange, codec: Codec, size: int := 64)
      returns (r: Outcome<Json>, sent: Option<Outgoing>)
      ensures sent == Some(Prepared("avatar", GET, Some(blogUrl), Some([DecimalText(size)]), map[]))
      ensures r == Received("avatar", transport(sent.value), codec)
      ensures sent.value.url == ApiUrl + "blog/" + Api.BlogSegment(blogUrl) + "/avatar/" + DecimalText(size)
    {
      r, sent := Request("avatar", "GET", Some(blogUrl), Some([DecimalText(size)]), None, transport, codec);
      assert LowerAscii("GET") == "get";
      assert !Unparsable(map[]);
      Api.AvatarPath(ApiUrl, blogUrl, DecimalText(size));
    }
  }
}
