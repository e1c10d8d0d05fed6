/** The client's view of the transport: the request it hands to the HTTP session, the
    response (or transport failure) it gets back, and the library codecs it calls. */
module Http {
  import opened Wrappers
  import opened Json
  import Helpers

  newtype byte = x: int | 0 <= x < 256

  type Bytes = seq<byte>

  /** A response: status, headers (names lower-cased, as the session's case-insensitive
      header mapping looks them up), and the raw body. */
  datatype HttpResponse = HttpResponse(status: int, headers: map<string, string>, content: Bytes)

  /** What the session returns for a request: a response, or a `RequestException`. */
  datatype Exchange = Reply(response: HttpResponse) | TransportFailed

  datatype Verb = GET | POST

  /** The OAuth1 signer attached to the session. `ConsumerOnly` signs with the application
      key and secret; `WithToken` also passes the user token and token secret. */
  datatype Signing =
    | Unsigned
    | ConsumerOnly(appKey: string, appSecret: string)
    | WithToken(appKey: string, appSecret: string, token: Option<string>, tokenSecret: Option<string>)

  /** The request handed to the session. `query` is the `params=` argument, `data` the
      form body and `files` the multipart uploads (`None`: not passed). A parameter whose
      value is `None` is held as `None` here; the session leaves such parameters out.
      `headers` are the headers the request goes out with: the packaged client installs
      them as the session's headers, replacing the session's defaults; the legacy client
      passes them with each request. */
  datatype Outgoing = Outgoing(
    verb: Verb,
    url: string,
    query: Option<map<string, Option<string>>>,
    data: Option<map<string, Option<string>>>,
    files: Option<map<string, Helpers.Value>>,
    headers: map<string, string>,
    auth: Signing,
    allowRedirects: bool)

  /** The library codecs, taken as given functions:
      `utf8` is `bytes.decode('utf-8')` (`None` when it raises), `loads` is `json.loads`
      (`None` when it raises `ValueError`), `show` is `'%s' % v` for a value that is not a
      string, `keyOrder` is the order in which a decoded object yields its keys (left
      unconstrained: it may repeat keys or name absent ones; only the message built from an
      object-valued `errors` depends on it),
      `parseQsl` is `parse_qsl` and `urlencode` is `urlencode` over ordered pairs (a `None`
      value is rendered as Python renders `None`). */
  datatype Codec = Codec(
    utf8: Bytes -> Option<string>,
    loads: string -> Option<Json>,
    show: Json -> string,
    keyOrder: map<string, Json> -> seq<string>,
    parseQsl: Bytes -> seq<(string, string)>,
    urlencode: seq<(string, Option<string>)> -> string)

  /** `dict(pairs)`, built by inserting the pairs in order. */
  function DictOf(pairs: seq<(string, string)>): map<string, string>
  {
    if pairs == [] then map[]
    else
      var last := pairs[|pairs| - 1];
      DictOf(pairs[..|pairs| - 1])[last.0 := last.1]
  }

  /** A key is in `dict(pairs)` exactly when some pair carries it. */
  lemma {:induction false} DictOfKey(pairs: seq<(string, string)>, k: string)
    ensures k in DictOf(pairs) <==> exists i :: 0 <= i < |pairs| && pairs[i].0 == k
  {
    if pairs != [] {
      var init := pairs[..|pairs| - 1];
      DictOfKey(init, k);
      if k in DictOf(init) {
        var i :| 0 <= i < |init| && init[i].0 == k;
        assert pairs[i].0 == k;
      }
      if exists i :: 0 <= i < |pairs| && pairs[i].0 == k {
        var i :| 0 <= i < |pairs| && pairs[i].0 == k;
        if i < |init| { assert init[i].0 == k; }
      }
    }
  }

  /** A pair whose key does not occur again later gives that key its value. */
  lemma {:induction false} DictOfLast(pairs: seq<(string, string)>, i: nat)
    requires i < |pairs|
    requires forall j :: i < j < |pairs| ==> pairs[j].0 != pairs[i].0
    ensures pairs[i].0 in DictOf(pairs) && DictOf(pairs)[pairs[i].0] == pairs[i].1
  {
    var init := pairs[..|pairs| - 1];
    if i < |init| {
      assert forall j :: i < j < |init| ==> init[j] == pairs[j];
      DictOfLast(init, i);
    }
  }

  /** `dict(pairs)` holds every key of the pairs, bound to the value of its last occurrence. */
  lemma DictOfLastWins(pairs: seq<(string, string)>)
    ensures forall k :: k in DictOf(pairs) <==> exists i :: 0 <= i < |pairs| && pairs[i].0 == k
    ensures forall i :: 0 <= i < |pairs| && (forall j :: i < j < |pairs| ==> pairs[j].0 != pairs[i].0) ==>
              pairs[i].0 in DictOf(pairs) && DictOf(pairs)[pairs[i].0] == pairs[i].1
  {
    forall k
      ensures k in DictOf(pairs) <==> exists i :: 0 <= i < |pairs| && pairs[i].0 == k
    {
      DictOfKey(pairs, k);
    }
    forall i | 0 <= i < |pairs| && (forall j :: i < j < |pairs| ==> pairs[j].0 != pairs[i].0)
      ensures pairs[i].0 in DictOf(pairs) && DictOf(pairs)[pairs[i].0] == pairs[i].1
    {
      DictOfLast(pairs, i);
    }
  }
}
