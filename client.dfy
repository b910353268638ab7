/**
 * The signed-URL builder of the API client (`PTVApiClient._build_url`).
 *
 * A request URL is the base host, the resource path, the query parameters
 * rendered as `k=v` and joined with `&`, the developer id, and finally a
 * signature: the hex HMAC-SHA1, keyed by the API key, of everything after the
 * host. Each append chooses `?` or `&` by looking for a `?` already in the URL.
 */
module PtvClient {
  import opened Wrappers
  import opened Text
  import opened Hex
  import opened PyValue

  const BaseUrl: string := "https://timetableapi.ptv.vic.gov.au"

  /** The credentials a client holds, unchanged, for its lifetime. */
  datatype Client = Client(devId: string, apiKey: string)

  /** One entry of a parameter dictionary. */
  datatype Param = Param(key: string, value: Value)

  /** What an endpoint hands to `client.get`: the path and, when it passes one,
      the parameter dictionary with its entries in insertion order. */
  datatype Call = Call(path: string, params: Option<seq<Param>>)

  /** HMAC-SHA1 keyed by its first argument over its second (both UTF-8 encoded).
      The hash itself is a library routine; only its 20-byte result matters here. */
  type Hmac = (string, string) -> Digest

  function Keys(ps: seq<Param>): seq<string>
  {
    seq(|ps|, i requires 0 <= i < |ps| => ps[i].key)
  }

  /** `d.get(key)`: the value stored under `key`, or `None` when it is absent.
      It returns the first entry with that key, where a Python dict keeps the
      last; no builder of this model puts a key in twice. */
  function Lookup(ps: seq<Param>, key: string): (v: Option<Value>)
    ensures v.Some? <==> key in Keys(ps)
  {
    if ps == [] then None
    else
      assert Keys(ps) == [ps[0].key] + Keys(ps[1..]);
      if ps[0].key == key then Some(ps[0].value) else Lookup(ps[1..], key)
  }

  /** Each entry as the text `k=v`, with `v` rendered by `str`. */
  function Entries(ps: seq<Param>): seq<string>
  {
    seq(|ps|, i requires 0 <= i < |ps| => ps[i].key + "=" + Render(ps[i].value))
  }

  function QueryText(ps: seq<Param>): string
  {
    Join(Entries(ps), "&")
  }

  /** `if params:` is false for `None` and for an empty dictionary. */
  predicate HasParams(params: Option<seq<Param>>)
  {
    params.Some? && |params.value| > 0
  }

  /** The join rule: `&` once the URL has a `?`, otherwise `?`. */
  function Joiner(url: string): string
  {
    if '?' in url then "&" else "?"
  }

  /** The URL up to and including the developer id, before it is signed. */
  function UnsignedUrl(c: Client, path: string, params: Option<seq<Param>>): (url: string)
    ensures BaseUrl + path <= url
  {
    var url0 := BaseUrl + path;
    var url1 := if HasParams(params) then url0 + Joiner(url0) + QueryText(params.value) else url0;
    url1 + Joiner(url1) + "devid=" + c.devId
  }

  /** `url.split(BASE_URL)[1]`. */
  function SigningInput(url: string): string
    requires BaseUrl <= url
  {
    Split(url, BaseUrl)[1]
  }

  /** The hex HMAC of the signing input under the API key. */
  function UrlSignature(c: Client, path: string, params: Option<seq<Param>>, hmac: Hmac): (sig: string)
    ensures |sig| == 40
  {
    HexDigest(hmac(c.apiKey, SigningInput(UnsignedUrl(c, path, params))))
  }

  /** `_build_url(path, params)` for a client with credentials `c`. */
  function BuildUrl(c: Client, path: string, params: Option<seq<Param>>, hmac: Hmac): (url: string)
    ensures BaseUrl + path <= url
  {
    UnsignedUrl(c, path, params) + "&signature=" + UrlSignature(c, path, params, hmac)
  }

  /** The 40 characters at the end of a signed URL. */
  function SignatureOf(url: string): string
    requires |url| >= 40
  {
    url[|url| - 40..]
  }

  /** The text after the host the scheme signs: path, query, then `devid`. */
  function SignedText(c: Client, path: string, params: Option<seq<Param>>): string
  {
    var first := if '?' in path then "&" else "?";
    if HasParams(params) then path + first + QueryText(params.value) + "&devid=" + c.devId
    else path + first + "devid=" + c.devId
  }

  /** The join rule yields one `?` (or the path's own) and `&` everywhere after it;
      the parameter block is present exactly when there are parameters. */
  lemma UnsignedLayout(c: Client, path: string, params: Option<seq<Param>>)
    ensures UnsignedUrl(c, path, params) == BaseUrl + SignedText(c, path, params)
  {
    BaseUrlPlain();
    LayoutAfterHost(BaseUrl, c, path, params);
  }

  /** The same for any `?`-free host text. */
  lemma LayoutAfterHost(host: string, c: Client, path: string, params: Option<seq<Param>>)
    requires '?' !in host
    ensures var url0 := host + path;
            var url1 := if HasParams(params) then url0 + Joiner(url0) + QueryText(params.value) else url0;
            url1 + Joiner(url1) + "devid=" + c.devId == host + SignedText(c, path, params)
  {
    var url0 := host + path;
    var first := if '?' in path then "&" else "?";
    InCat(host, path, '?');
    assert Joiner(url0) == first;
    if HasParams(params) {
      var q := QueryText(params.value);
      var url1 := url0 + first + q;
      assert '?' in url1 by {
        if '?' in path {
          var i :| 0 <= i < |path| && path[i] == '?';
          assert url1[|host| + i] == '?';
        } else {
          assert url1[|url0|] == '?';
        }
      }
      assert Joiner(url1) == "&";
      AssocAfterHost(host, path, first, q, c.devId);
      FuseDevId(path + first + q, c.devId);
    } else {
      AssocNoQuery(host, path, first, c.devId);
    }
  }

  /** A character is in a concatenation exactly when it is in one of the parts. */
  lemma InCat(a: string, b: string, ch: char)
    ensures ch in a + b <==> ch in a || ch in b
  {
    if ch in a + b {
      var i :| 0 <= i < |a + b| && (a + b)[i] == ch;
      if i < |a| {
        assert a[i] == ch;
      } else {
        assert b[i - |a|] == ch;
      }
    }
    if ch in a {
      var i :| 0 <= i < |a| && a[i] == ch;
      assert (a + b)[i] == ch;
    }
    if ch in b {
      var i :| 0 <= i < |b| && b[i] == ch;
      assert (a + b)[|a| + i] == ch;
    }
  }

  lemma AssocAfterHost(host: string, path: string, first: string, q: string, d: string)
    ensures host + path + first + q + "&" + "devid=" + d == host + (path + first + q + "&" + "devid=" + d)
  {
  }

  lemma AssocNoQuery(host: string, path: string, first: string, d: string)
    ensures host + path + first + "devid=" + d == host + (path + first + "devid=" + d)
  {
  }

  lemma FuseDevId(p: string, d: string)
    ensures p + "&" + "devid=" + d == p + "&devid=" + d
  {
    assert "&" + "devid=" == "&devid=";
  }

  /** For a `?`-free path and a non-empty dictionary: `?`, the entries, then `&devid=`. */
  lemma UnsignedWithParams(c: Client, path: string, ps: seq<Param>)
    requires '?' !in path && |ps| > 0
    ensures UnsignedUrl(c, path, Some(ps)) == BaseUrl + path + "?" + QueryText(ps) + "&devid=" + c.devId
  {
    UnsignedLayout(c, path, Some(ps));
    Regroup5(BaseUrl, path, "?", QueryText(ps), "&devid=", c.devId);
  }

  /** For a `?`-free path and no dictionary or an empty one: `?devid=` right after the path. */
  lemma UnsignedWithoutParams(c: Client, path: string, params: Option<seq<Param>>)
    requires '?' !in path && !HasParams(params)
    ensures UnsignedUrl(c, path, params) == BaseUrl + path + "?devid=" + c.devId
  {
    UnsignedLayout(c, path, params);
    Regroup4(BaseUrl, path, "?", "devid=", c.devId);
    assert "?" + "devid=" == "?devid=";
  }

  lemma Regroup5(a: string, b: string, c: string, d: string, e: string, f: string)
    ensures a + (b + c + d + e + f) == a + b + c + d + e + f
  {
  }

  lemma Regroup4(a: string, b: string, c: string, d: string, e: string)
    ensures a + (b + c + d + e) == a + b + (c + d) + e
  {
  }

  /** When the host text does not recur after the host, the URL is the host, the
      signed text, and `&signature=` with the hex HMAC of exactly that text. */
  lemma BuildUrlLayout(c: Client, path: string, params: Option<seq<Param>>, hmac: Hmac)
    requires !Occurs(BaseUrl, SignedText(c, path, params))
    ensures var t := SignedText(c, path, params);
            BuildUrl(c, path, params, hmac) == BaseUrl + t + "&signature=" + HexDigest(hmac(c.apiKey, t))
  {
    var t := SignedText(c, path, params);
    UnsignedLayout(c, path, params);
    SplitAfterSeparator(BaseUrl, t);
    SplitWithoutOccurrence(t, BaseUrl);
  }

  /** The signature decodes to the HMAC of the signing input under the API key:
      it depends on nothing else and determines that digest. */
  lemma SignatureIsDigest(c: Client, path: string, params: Option<seq<Param>>, hmac: Hmac)
    ensures var url := BuildUrl(c, path, params, hmac);
            var raw := SigningInput(UnsignedUrl(c, path, params));
            HexDecode(SignatureOf(url)) == hmac(c.apiKey, raw)
  {
    var unsigned := UnsignedUrl(c, path, params);
    var digest := hmac(c.apiKey, SigningInput(unsigned));
    var url := BuildUrl(c, path, params, hmac);
    assert SignatureOf(url) == HexDigest(digest);
    HexRoundTrip(digest);
  }

  /** With `?`-free path, parameters and developer id, the URL holds exactly one `?`. */
  lemma OneQuestionMark(c: Client, path: string, params: Option<seq<Param>>, hmac: Hmac)
    requires '?' !in path && '?' !in c.devId
    requires params.Some? ==> forall k :: 0 <= k < |params.value| ==> '?' !in Entries(params.value)[k]
    ensures multiset(BuildUrl(c, path, params, hmac))['?'] == 1
  {
    var signature := UrlSignature(c, path, params, hmac);
    var query := QueryAfterMark(c, params);
    UrlAroundMark(c, path, params, hmac);
    QueryAfterMarkPlain(c, params);
    assert '?' !in signature by {
      forall k | 0 <= k < |signature| ensures signature[k] != '?' {
        assert IsLowerHex(signature[k]);
      }
    }
    NotInCat(query, "&signature=", '?');
    NotInCat(query + "&signature=", signature, '?');
    BaseUrlPlain();
    NotInCat(BaseUrl, path, '?');
    CountSingle(BaseUrl + path, '?', query + "&signature=" + signature);
  }

  /** What follows the first `?` in the unsigned URL of a `?`-free path. */
  function QueryAfterMark(c: Client, params: Option<seq<Param>>): string
  {
    if HasParams(params) then QueryText(params.value) + "&devid=" + c.devId else "devid=" + c.devId
  }

  lemma UrlAroundMark(c: Client, path: string, params: Option<seq<Param>>, hmac: Hmac)
    requires '?' !in path
    ensures BuildUrl(c, path, params, hmac) == (BaseUrl + path) + ['?'] + (QueryAfterMark(c, params) + "&signature=" + UrlSignature(c, path, params, hmac))
  {
    var unsigned := UnsignedUrl(c, path, params);
    var signature := UrlSignature(c, path, params, hmac);
    var query := QueryAfterMark(c, params);
    UnsignedLayout(c, path, params);
    SignedTextAroundMark(c, path, params);
    assert unsigned == BaseUrl + (path + "?" + query);
    Regroup(BaseUrl, path, query, "&signature=", signature);
  }

  lemma SignedTextAroundMark(c: Client, path: string, params: Option<seq<Param>>)
    requires '?' !in path
    ensures SignedText(c, path, params) == path + "?" + QueryAfterMark(c, params)
  {
  }

  lemma QueryAfterMarkPlain(c: Client, params: Option<seq<Param>>)
    requires '?' !in c.devId
    requires params.Some? ==> forall k :: 0 <= k < |params.value| ==> '?' !in Entries(params.value)[k]
    ensures '?' !in QueryAfterMark(c, params)
  {
    if HasParams(params) {
      NoCharInJoin(Entries(params.value), "&", '?');
      NotInCat(QueryText(params.value), "&devid=", '?');
      NotInCat(QueryText(params.value) + "&devid=", c.devId, '?');
    } else {
      NotInCat("devid=", c.devId, '?');
    }
  }

  lemma BaseUrlPlain()
    ensures '?' !in BaseUrl && '&' !in BaseUrl
  {
  }

  lemma Regroup(a: string, m: string, q: string, s: string, t: string)
    ensures a + (m + "?" + q) + s + t == (a + m) + ['?'] + (q + s + t)
  {
  }

  lemma NotInCat(a: string, b: string, ch: char)
    requires ch !in a && ch !in b
    ensures ch !in a + b
  {
  }

  lemma CountSingle(a: string, ch: char, b: string)
    requires ch !in a && ch !in b
    ensures multiset(a + [ch] + b)[ch] == 1
  {
    assert multiset(a)[ch] == 0 && multiset(b)[ch] == 0;
    assert multiset(a + [ch] + b) == multiset(a) + multiset([ch]) + multiset(b);
  }

  /** A character absent from the pieces and the separator is absent from the join. */
  lemma {:induction false} NoCharInJoin(xs: seq<string>, sep: string, ch: char)
    requires forall k :: 0 <= k < |xs| ==> ch !in xs[k]
    requires ch !in sep
    ensures ch !in Join(xs, sep)
  {
    if |xs| > 1 {
      NoCharInJoin(xs[1..], sep, ch);
    }
  }

  /** Splitting the query block at `&` gives back every entry as `k=v`, in
      insertion order, when no key or rendered value contains `&`. */
  lemma QueryEntries(ps: seq<Param>)
    requires |ps| > 0
    requires forall k :: 0 <= k < |ps| ==> '&' !in ps[k].key && '&' !in Render(ps[k].value)
    ensures SplitOn(QueryText(ps), '&') == Entries(ps)
    ensures forall k :: 0 <= k < |ps| ==> Entries(ps)[k] == ps[k].key + "=" + Render(ps[k].value)
  {
    SplitJoin(Entries(ps), '&');
  }

  /** If the host text recurs right after a `/` at the start of the path, the
      signed text is cut at that point and covers only the `/`. */
  lemma SigningInputTruncated(c: Client, rest: string, params: Option<seq<Param>>)
    ensures SigningInput(UnsignedUrl(c, "/" + BaseUrl + rest, params)) == "/"
  {
    var path := "/" + BaseUrl + rest;
    var unsigned := UnsignedUrl(c, path, params);
    var tail := unsigned[|BaseUrl|..];
    assert unsigned == BaseUrl + tail;
    assert tail == [('/')] + (BaseUrl + tail[1 + |BaseUrl|..]) by {
      assert unsigned[..|BaseUrl + path|] == BaseUrl + path;
    }
    SplitAfterSeparator(BaseUrl, tail);
    SplitAfterForeignChar('/', BaseUrl, BaseUrl + tail[1 + |BaseUrl|..]);
  }
}
