/**
 * The URL sanitiser and normaliser of the analyse route.
 *
 * A URL is the record the WHATWG `URL` object exposes. Parsing is the
 * runtime's and is not modelled: it is a parameter `parse`, a total function
 * that fails with `None` where the `URL` constructor throws. Serialisation
 * is `URL.prototype.toString` for URLs with an authority: it always writes
 * `//` after the scheme, so a URL without a host (`mailto:`) is not
 * represented.
 */
module Urls {
  import opened Wrappers
  import opened Text

  /** One `name=value` entry of the query, as `URLSearchParams` holds it. */
  type QueryPair = (string, string)

  /** `scheme` includes its colon (`"https:"`), as the `protocol` property does. */
  datatype Url = Url(
    scheme: string,
    authority: string,
    path: string,
    query: seq<QueryPair>,
    fragment: Option<string>)

  /** The `URL` constructor: a parsed record, or `None` where it throws. */
  type Parser = string -> Option<Url>

  datatype SanitizeError =
    | InvalidUrl           // the `URL` constructor threw
    | UnsupportedProtocol  // parsed, but the scheme is neither `http:` nor `https:`

  function JoinPairs(q: seq<QueryPair>): string
    requires q != []
  {
    q[0].0 + "=" + q[0].1 + (if |q| == 1 then "" else "&" + JoinPairs(q[1..]))
  }

  /** The `search` part of the serialisation: empty for an empty query. */
  function Search(q: seq<QueryPair>): string {
    if q == [] then "" else "?" + JoinPairs(q)
  }

  function Hash(fragment: Option<string>): string {
    if fragment.Some? then "#" + fragment.value else ""
  }

  function Serialize(u: Url): string {
    u.scheme + "//" + u.authority + u.path + Search(u.query) + Hash(u.fragment)
  }

  /** A serialisation starts with its scheme and `//`. */
  lemma SerializeStartsWithScheme(u: Url)
    ensures StartsWith(Serialize(u), u.scheme + "//")
  {
    var p := u.scheme + "//";
    StartsWithConcat(p, u.authority);
    StartsWithExtend(p + u.authority, p, u.path);
    StartsWithExtend(p + u.authority + u.path, p, Search(u.query));
    StartsWithExtend(p + u.authority + u.path + Search(u.query), p, Hash(u.fragment));
  }

  // ---------------------------------------------------------------------------
  // Scheme inference: the test `/^[a-zA-Z]+:\/\//`

  predicate IsAsciiLetter(c: char) {
    'a' <= c <= 'z' || 'A' <= c <= 'Z'
  }

  /** The length of the run of ASCII letters at the start of `s`. */
  function LeadingLetters(s: string): (n: nat)
    ensures n <= |s|
    ensures forall i :: 0 <= i < n ==> IsAsciiLetter(s[i])
    ensures n < |s| ==> !IsAsciiLetter(s[n])
  {
    if s != [] && IsAsciiLetter(s[0]) then 1 + LeadingLetters(s[1..]) else 0
  }

  /** The pattern matches with its letter run ending at `n`. */
  predicate SchemeMatchAt(s: string, n: int) {
    0 < n && n + 3 <= |s| && (forall i :: 0 <= i < n ==> IsAsciiLetter(s[i])) && s[n..n + 3] == "://"
  }

  /** The input already names a scheme: at least one letter, then `://`. */
  predicate HasSchemePrefix(s: string) {
    var n := LeadingLetters(s);
    n > 0 && StartsWith(s[n..], "://")
  }

  /** `HasSchemePrefix` is the regular expression: the pattern matches at some letter run exactly when it holds. */
  lemma HasSchemePrefixIff(s: string)
    ensures HasSchemePrefix(s) <==> exists n :: SchemeMatchAt(s, n)
  {
    var m := LeadingLetters(s);
    if HasSchemePrefix(s) {
      assert SchemeMatchAt(s, m);
    }
    if exists n :: SchemeMatchAt(s, n) {
      var n :| SchemeMatchAt(s, n);
      assert s[n] == ':';
      assert n <= m;
      assert m <= n;
      assert s[m..][..3] == s[m..m + 3];
    }
  }

  /** Any `https://` string names its scheme. */
  lemma HttpsHasSchemePrefix(s: string)
    requires StartsWith(s, "https://")
    ensures HasSchemePrefix(s)
  {
    assert s[..8] == "https://";
    assert s[0] == 'h' && s[1] == 't' && s[2] == 't' && s[3] == 'p' && s[4] == 's' && s[5] == ':';
    assert LeadingLetters(s[5..]) == 0;
    assert LeadingLetters(s[4..]) == 1 + LeadingLetters(s[5..]);
    assert LeadingLetters(s[3..]) == 1 + LeadingLetters(s[4..]);
    assert LeadingLetters(s[2..]) == 1 + LeadingLetters(s[3..]);
    assert LeadingLetters(s[1..]) == 1 + LeadingLetters(s[2..]);
    assert LeadingLetters(s) == 5;
    assert s[5..][..3] == "://";
  }

  /** Step 1 of the sanitiser: trim, and prepend `https://` when no scheme is given. */
  function PrepareInput(raw: string): (s: string)
    ensures HasSchemePrefix(s)
    ensures HasSchemePrefix(Trim(raw)) ==> s == Trim(raw)
    ensures !HasSchemePrefix(Trim(raw)) ==> s == "https://" + Trim(raw)
  {
    var t := Trim(raw);
    if HasSchemePrefix(t) then t
    else
      var s := "https://" + t;
      StartsWithConcat("https://", t);
      HttpsHasSchemePrefix(s);
      s
  }

  // ---------------------------------------------------------------------------
  // Tracking parameters

  /** `key.toLowerCase().startsWith("utm_")`. */
  predicate IsUtmKey(key: string) {
    StartsWith(ToLower(key), "utm_")
  }

  /** The same test read character by character: `u`, `t`, `m` in either case, then an underscore. */
  lemma IsUtmKeyIff(key: string)
    ensures IsUtmKey(key) <==>
      |key| >= 4 && (key[0] == 'u' || key[0] == 'U') && (key[1] == 't' || key[1] == 'T')
                 && (key[2] == 'm' || key[2] == 'M') && key[3] == '_'
  {
    if |key| >= 4 {
      var l := ToLower(key);
      assert l[..4] == [l[0], l[1], l[2], l[3]];
      assert "utm_" == ['u', 't', 'm', '_'];
    }
  }

  /** The query with every tracking pair removed and the others kept in order. */
  function StripUtm(q: seq<QueryPair>): (r: seq<QueryPair>)
    ensures |r| <= |q|
    ensures forall i :: 0 <= i < |r| ==> !IsUtmKey(r[i].0)
  {
    if q == [] then []
    else (if IsUtmKey(q[0].0) then [] else [q[0]]) + StripUtm(q[1..])
  }

  /** A pair survives exactly when it was in the query and its key is not a tracking key. */
  lemma {:induction false} StripUtmMembers(q: seq<QueryPair>, p: QueryPair)
    ensures p in StripUtm(q) <==> p in q && !IsUtmKey(p.0)
  {
    if q != [] {
      StripUtmMembers(q[1..], p);
      assert q == [q[0]] + q[1..];
    }
  }

  /** Stripping commutes with concatenation: the surviving pairs keep their relative order. */
  lemma {:induction false} StripUtmConcat(a: seq<QueryPair>, b: seq<QueryPair>)
    ensures StripUtm(a + b) == StripUtm(a) + StripUtm(b)
  {
    if a == [] {
      assert a + b == b;
    } else {
      var head := if IsUtmKey(a[0].0) then [] else [a[0]];
      calc {
        StripUtm(a + b);
        { assert (a + b)[0] == a[0]; assert (a + b)[1..] == a[1..] + b; }
        head + StripUtm(a[1..] + b);
        { StripUtmConcat(a[1..], b); }
        head + (StripUtm(a[1..]) + StripUtm(b));
      }
    }
  }

  /** A query with no tracking key is left as it is; so stripping twice strips nothing more. */
  lemma {:induction false} StripUtmClean(q: seq<QueryPair>)
    requires forall i :: 0 <= i < |q| ==> !IsUtmKey(q[i].0)
    ensures StripUtm(q) == q
  {
    if q != [] {
      StripUtmClean(q[1..]);
      assert q == [q[0]] + q[1..];
    }
  }

  /** `params.delete(key)`: every entry with exactly that name goes. */
  function WithoutKey(q: seq<QueryPair>, key: string): (r: seq<QueryPair>)
    ensures forall i :: 0 <= i < |r| ==> r[i].0 != key
  {
    if q == [] then []
    else (if q[0].0 == key then [] else [q[0]]) + WithoutKey(q[1..], key)
  }

  /** The entries whose name is not among `keys`: what a run of deletions leaves. */
  function WithoutKeys(q: seq<QueryPair>, keys: seq<string>): seq<QueryPair> {
    if q == [] then []
    else (if q[0].0 in keys then [] else [q[0]]) + WithoutKeys(q[1..], keys)
  }

  /** One more deletion extends the set of deleted names. */
  lemma {:induction false} WithoutKeyStep(q: seq<QueryPair>, keys: seq<string>, key: string)
    ensures WithoutKey(WithoutKeys(q, keys), key) == WithoutKeys(q, keys + [key])
  {
    if q != [] {
      WithoutKeyStep(q[1..], keys, key);
      var rest := WithoutKeys(q[1..], keys);
      if q[0].0 in keys {
        assert WithoutKeys(q, keys) == rest;
      } else {
        assert WithoutKeys(q, keys) == [q[0]] + rest;
        assert ([q[0]] + rest)[1..] == rest;
      }
    }
  }

  /** Deleting exactly the tracking names that occur is stripping the tracking pairs. */
  lemma {:induction false} WithoutUtmKeys(q: seq<QueryPair>, keys: seq<string>)
    requires forall i :: 0 <= i < |q| ==> (q[i].0 in keys <==> IsUtmKey(q[i].0))
    ensures WithoutKeys(q, keys) == StripUtm(q)
  {
    if q != [] {
      WithoutUtmKeys(q[1..], keys);
    }
  }

  lemma WithoutNoKeys(q: seq<QueryPair>)
    ensures WithoutKeys(q, []) == q
  {
  }

  // ---------------------------------------------------------------------------
  // sanitizeUrl

  /**
   * What `sanitizeUrl` computes, on the record: the parsed URL with scheme
   * `https:`, no fragment and no tracking pair; or the error it throws.
   */
  function SanitizedUrl(parse: Parser, raw: string): (r: Result<Url, SanitizeError>)
    ensures r.Ok? ==> r.value.scheme == "https:" && r.value.fragment.None?
    ensures r.Ok? ==> forall i :: 0 <= i < |r.value.query| ==> !IsUtmKey(r.value.query[i].0)
  {
    match parse(PrepareInput(raw))
    case None => Err(InvalidUrl)
    case Some(u) =>
      if u.scheme != "https:" && u.scheme != "http:" then Err(UnsupportedProtocol)
      else Ok(Url("https:", u.authority, u.path, StripUtm(u.query), None))
  }

  /**
   * `sanitizeUrl`: trims, infers the scheme, parses, refuses every scheme but
   * `http:`/`https:`, forces `https:`, clears the fragment, collects the
   * tracking keys and deletes them, and returns the serialisation.
   */
  method SanitizeUrl(parse: Parser, raw: string) returns (r: Result<string, SanitizeError>)
    ensures r.Err? <==> SanitizedUrl(parse, raw).Err?
    ensures r.Err? ==> r.error == SanitizedUrl(parse, raw).error
    ensures r.Ok? ==> r.value == Serialize(SanitizedUrl(parse, raw).value)
  {
    var urlStr := Trim(raw);
    if !HasSchemePrefix(urlStr) {
      urlStr := "https://" + urlStr;
    }
    var parsed := parse(urlStr);
    if parsed.None? {
      return Err(InvalidUrl);
    }
    var url := parsed.value;
    if url.scheme != "https:" && url.scheme != "http:" {
      return Err(UnsupportedProtocol);
    }
    url := url.(scheme := "https:");
    url := url.(fragment := None);

    var params := RemoveTrackingParams(url.query);
    url := url.(query := params);
    return Ok(Serialize(url));
  }

  /**
   * The tracking-parameter pass of `sanitizeUrl`: one sweep over the entries
   * collects every name that is a tracking key, then each collected name is
   * deleted from the parameters.
   */
  method RemoveTrackingParams(query: seq<QueryPair>) returns (params: seq<QueryPair>)
    ensures params == StripUtm(query)
  {
    params := query;
    var keysToRemove: seq<string> := [];
    var i := 0;
    while i < |params|
      invariant 0 <= i <= |params|
      invariant forall k :: k in keysToRemove ==> IsUtmKey(k)
      invariant forall j :: 0 <= j < i && IsUtmKey(params[j].0) ==> params[j].0 in keysToRemove
    {
      if IsUtmKey(params[i].0) {
        keysToRemove := keysToRemove + [params[i].0];
      }
      i := i + 1;
    }

    WithoutNoKeys(query);
    var n := 0;
    while n < |keysToRemove|
      invariant 0 <= n <= |keysToRemove|
      invariant params == WithoutKeys(query, keysToRemove[..n])
    {
      WithoutKeyStep(query, keysToRemove[..n], keysToRemove[n]);
      assert keysToRemove[..n + 1] == keysToRemove[..n] + [keysToRemove[n]];
      params := WithoutKey(params, keysToRemove[n]);
      n := n + 1;
    }
    assert keysToRemove[..n] == keysToRemove;
    WithoutUtmKeys(query, keysToRemove);
  }

  /** Every sanitised URL is an `https://` URL. */
  lemma SanitizedIsHttps(parse: Parser, raw: string)
    requires SanitizedUrl(parse, raw).Ok?
    ensures StartsWith(Serialize(SanitizedUrl(parse, raw).value), "https://")
  {
    SerializeHttps(SanitizedUrl(parse, raw).value);
  }

  /** An `https:` URL serialises to a string starting with `https://`. */
  lemma SerializeHttps(u: Url)
    requires u.scheme == "https:"
    ensures StartsWith(Serialize(u), "https://")
  {
    SerializeStartsWithScheme(u);
    assert u.scheme + "//" == "https://";
  }

  /** The SSRF guard: the sanitiser fails exactly when parsing fails or the parsed scheme is not `http:`/`https:`. */
  lemma SanitizeRejects(parse: Parser, raw: string)
    ensures SanitizedUrl(parse, raw) == Err(InvalidUrl) <==> parse(PrepareInput(raw)).None?
    ensures SanitizedUrl(parse, raw) == Err(UnsupportedProtocol) <==>
      parse(PrepareInput(raw)).Some? && parse(PrepareInput(raw)).value.scheme !in {"http:", "https:"}
  {
  }

  /** An `http:` URL and its `https:` twin sanitise to the same URL: the upgrade is unconditional. */
  lemma SanitizeUpgradesHttp(parse: Parser, a: string, b: string, u: Url)
    requires parse(PrepareInput(a)) == Some(u) && u.scheme == "http:"
    requires parse(PrepareInput(b)) == Some(u.(scheme := "https:"))
    ensures SanitizedUrl(parse, a).Ok? && SanitizedUrl(parse, a) == SanitizedUrl(parse, b)
  {
  }

  /** The tracking filter keeps exactly the non-tracking pairs of the parsed query, in order. */
  lemma SanitizeQuery(parse: Parser, raw: string, u: Url, p: QueryPair)
    requires parse(PrepareInput(raw)) == Some(u) && u.scheme in {"http:", "https:"}
    ensures SanitizedUrl(parse, raw).Ok?
    ensures p in SanitizedUrl(parse, raw).value.query <==> p in u.query && !IsUtmKey(p.0)
  {
    StripUtmMembers(u.query, p);
  }

  /** A trimmed `https://` string reaches the parser unchanged. */
  lemma PrepareKeepsHttps(s: string)
    requires IsTrimmed(s) && StartsWith(s, "https://")
    ensures PrepareInput(s) == s
  {
    TrimOfTrimmed(s);
    HttpsHasSchemePrefix(s);
  }

  /**
   * Sanitising is idempotent wherever the parser reads a serialisation back as
   * the record it came from.
   */
  lemma SanitizeIdempotent(parse: Parser, raw: string)
    requires SanitizedUrl(parse, raw).Ok?
    requires var v := SanitizedUrl(parse, raw).value; parse(Serialize(v)) == Some(v) && IsTrimmed(Serialize(v))
    ensures SanitizedUrl(parse, Serialize(SanitizedUrl(parse, raw).value)) == SanitizedUrl(parse, raw)
  {
    var v := SanitizedUrl(parse, raw).value;
    var s := Serialize(v);
    SerializeHttps(v);
    PrepareKeepsHttps(s);
    SanitizeFixedPoint(parse, s, v);
  }

  /** An input that parses to an `https:` URL with no fragment and no tracking key sanitises to that URL. */
  lemma SanitizeFixedPoint(parse: Parser, s: string, v: Url)
    requires parse(PrepareInput(s)) == Some(v)
    requires v.scheme == "https:" && v.fragment.None?
    requires forall i :: 0 <= i < |v.query| ==> !IsUtmKey(v.query[i].0)
    ensures SanitizedUrl(parse, s) == Ok(v)
  {
    StripUtmClean(v.query);
  }

  // ---------------------------------------------------------------------------
  // normalizeUrl

  /** `normalizeUrl`: drop the fragment of a parseable URL; otherwise fall back to the trimmed input. */
  function NormalizeUrl(parse: Parser, raw: string): (r: string)
    ensures parse(raw).None? ==> r == Trim(raw)
  {
    match parse(raw)
    case None => Trim(raw)
    case Some(u) => Serialize(u.(fragment := None))
  }

  /**
   * Normalising changes the fragment and nothing else: the scheme is not
   * forced and the query keeps its tracking pairs.
   */
  lemma NormalizeOnlyDropsFragment(parse: Parser, raw: string, u: Url)
    requires parse(raw) == Some(u)
    ensures NormalizeUrl(parse, raw) == Serialize(Url(u.scheme, u.authority, u.path, u.query, None))
    ensures StartsWith(NormalizeUrl(parse, raw), u.scheme + "//")
  {
  }

  /** Normalising twice is normalising once, wherever the parser reads a serialisation back. */
  lemma NormalizeIdempotent(parse: Parser, raw: string)
    requires parse(raw).Some? ==>
      var v := parse(raw).value.(fragment := None); parse(Serialize(v)) == Some(v)
    requires parse(raw).None? ==> parse(Trim(raw)).None?
    ensures NormalizeUrl(parse, NormalizeUrl(parse, raw)) == NormalizeUrl(parse, raw)
  {
    if parse(raw).None? {
      TrimIdempotent(raw);
    }
  }
}
