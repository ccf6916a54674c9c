/**
 * The metadata extractor of the analyse route. The HTML parser and its
 * selector engine are not modelled: a document is the text of its first
 * `head > title` element and a total function from a selector and an
 * attribute name to the attribute's value on the first matching element,
 * `None` when nothing matches or the attribute is missing. What is modelled
 * is the post-processing: every value is trimmed and an empty result
 * becomes absent, except the charset, which is taken as found.
 */
module Extraction {
  import opened Wrappers
  import opened Text
  import opened SeoTypes

  /** A parsed page, as the selector queries see it. */
  datatype Document = Document(titleText: string, attr: (string, string) -> Option<string>)

  /** The three records the extractor returns. */
  datatype Extracted = Extracted(meta: BaseMeta, openGraph: OpenGraphMeta, twitter: TwitterMeta)

  /** `value?.trim() || undefined`: absent stays absent, and a value that trims to nothing becomes absent. */
  function Clean(value: Option<string>): (r: Option<string>)
    ensures CleanField(r)
    ensures r.Some? ==> value.Some? && r.value == Trim(value.value)
  {
    if value.None? then None
    else
      var t := Trim(value.value);
      if t == "" then None else Some(t)
  }

  /** A value is dropped exactly when it is absent or made only of whitespace. */
  lemma CleanDropsBlank(value: Option<string>)
    ensures Clean(value).None? <==>
      value.None? || forall i :: 0 <= i < |value.value| ==> IsWhitespace(value.value[i])
  {
    if value.Some? {
      TrimEmptyIff(value.value);
    }
  }

  /** Cleaning a clean value changes nothing; in particular cleaning is idempotent. */
  lemma CleanOfClean(value: Option<string>)
    requires CleanField(value)
    ensures Clean(value) == value
  {
    if value.Some? {
      TrimOfTrimmed(value.value);
    }
  }

  /** `a || b` on optional strings: the first truthy one, else the second. */
  function Or(a: Option<string>, b: Option<string>): (r: Option<string>)
    ensures Present(a) ==> r == a
    ensures !Present(a) ==> r == b
  {
    if Present(a) then a else b
  }

  /** The first position where `t` occurs in `s` at or after `from`. */
  function IndexFrom(s: string, t: string, from: nat): (r: Option<nat>)
    requires t != []
    ensures r.Some? ==> from <= r.value && OccursAt(s, t, r.value)
    ensures forall i :: from <= i && (r.None? || i < r.value) ==> !OccursAt(s, t, i)
    decreases |s| - from
  {
    if from + |t| > |s| then None
    else if s[from..from + |t|] == t then Some(from)
    else IndexFrom(s, t, from + 1)
  }

  /** `s.indexOf(t)` as an option: the first occurrence, if any. */
  function IndexOf(s: string, t: string): (r: Option<nat>)
    requires t != []
    ensures r.Some? ==> OccursAt(s, t, r.value) && forall i :: 0 <= i < r.value ==> !OccursAt(s, t, i)
    ensures r.None? ==> forall i :: 0 <= i ==> !OccursAt(s, t, i)
  {
    IndexFrom(s, t, 0)
  }

  /**
   * `piece` is the text at the start of `rest` up to the first occurrence
   * of `sep`, or all of `rest` when `sep` does not occur in it.
   */
  predicate PieceAt(rest: string, sep: string, piece: string) {
    && |piece| <= |rest| && rest[..|piece|] == piece
    && (|piece| == |rest| || OccursAt(rest, sep, |piece|))
    && forall j :: 0 <= j < |piece| ==> !OccursAt(rest, sep, j)
  }

  /**
   * `s.split(sep)[1]`: the piece between the first occurrence of `sep` and
   * the next one (or the end of `s`), and absent when `sep` does not occur.
   */
  function SecondPiece(s: string, sep: string): (r: Option<string>)
    requires sep != []
    ensures r.None? <==> forall i :: 0 <= i ==> !OccursAt(s, sep, i)
    ensures r.Some? ==> exists i :: IndexOf(s, sep) == Some(i) && PieceAt(s[i + |sep|..], sep, r.value)
  {
    match IndexOf(s, sep)
    case None => None
    case Some(i) =>
      var rest := s[i + |sep|..];
      match IndexOf(rest, sep)
      case None => Some(rest)
      case Some(j) => Some(rest[..j])
  }

  /**
   * A `Content-Type` value whose only `charset=` is followed by the charset
   * name yields that name, untrimmed; for instance `text/html; charset=utf-8`
   * yields `utf-8`.
   */
  lemma SecondPieceAfterMarker(prefix: string, name: string)
    requires forall i :: 0 <= i && i != |prefix| ==> !OccursAt(prefix + "charset=" + name, "charset=", i)
    ensures SecondPiece(prefix + "charset=" + name, "charset=") == Some(name)
  {
    var s := prefix + "charset=" + name;
    var sep := "charset=";
    assert OccursAt(s, sep, |prefix|);
    var rest := s[|prefix| + |sep|..];
    assert rest == name;
    forall j | 0 <= j ensures !OccursAt(rest, sep, j) {
      var k := |prefix| + |sep| + j;
      assert !OccursAt(s, sep, k);
      if j + |sep| <= |rest| {
        assert s[k..k + |sep|] == rest[j..j + |sep|];
      }
    }
  }

  /**
   * `extractMeta`: the title text, each `content` or `href` attribute and
   * the `lang` attribute cleaned; `lang` falling back to the
   * `content-language` header; the charset from `meta[charset]`, else from
   * the `charset=` piece of the `Content-Type` header, neither trimmed.
   * Every field it reports is absent or a non-empty trimmed string, except
   * the charset, which is absent or non-empty but may carry whitespace.
   */
  function ExtractMeta(doc: Document): (r: Extracted)
    ensures CleanMeta(r)
    ensures r.meta.charset.None? || r.meta.charset.value != ""
  {
    var title := Clean(Some(doc.titleText));
    var description := Clean(doc.attr("meta[name=\"description\"]", "content"));
    var robots := Clean(doc.attr("meta[name=\"robots\"]", "content"));
    var canonical := Clean(doc.attr("link[rel=\"canonical\"]", "href"));
    var lang := Or(Clean(doc.attr("html", "lang")),
                   Clean(doc.attr("meta[http-equiv=\"content-language\"]", "content")));
    var contentType := doc.attr("meta[http-equiv=\"Content-Type\"]", "content");
    var fromHeader := if contentType.Some? then SecondPiece(contentType.value, "charset=") else None;
    var charset := Or(doc.attr("meta[charset]", "charset"), Or(fromHeader, None));
    Extracted(
      BaseMeta(title, description, robots, canonical, lang, charset),
      OpenGraphMeta(Og(doc, "title"), Og(doc, "description"), Og(doc, "image"),
                    Og(doc, "url"), Og(doc, "type"), Og(doc, "site_name")),
      TwitterMeta(Tw(doc, "card"), Tw(doc, "title"), Tw(doc, "description"),
                  Tw(doc, "image"), Tw(doc, "site"), Tw(doc, "creator")))
  }

  /** The `og` helper: the cleaned `content` of `meta[property="og:<property>"]`. */
  function Og(doc: Document, property: string): (r: Option<string>)
    ensures CleanField(r)
  {
    Clean(doc.attr("meta[property=\"og:" + property + "\"]", "content"))
  }

  /** The `tw` helper: the cleaned `content` of `meta[name="twitter:<name>"]`. */
  function Tw(doc: Document, name: string): (r: Option<string>)
    ensures CleanField(r)
  {
    Clean(doc.attr("meta[name=\"twitter:" + name + "\"]", "content"))
  }

  /** Everything the extractor reports except the charset is absent or a non-empty trimmed string. */
  predicate CleanMeta(e: Extracted) {
    && CleanField(e.meta.title) && CleanField(e.meta.description) && CleanField(e.meta.robots)
    && CleanField(e.meta.canonical) && CleanField(e.meta.lang)
    && CleanField(e.openGraph.title) && CleanField(e.openGraph.description) && CleanField(e.openGraph.image)
    && CleanField(e.openGraph.url) && CleanField(e.openGraph.kind) && CleanField(e.openGraph.siteName)
    && CleanField(e.twitter.card) && CleanField(e.twitter.title) && CleanField(e.twitter.description)
    && CleanField(e.twitter.image) && CleanField(e.twitter.site) && CleanField(e.twitter.creator)
  }

  /**
   * The `lang` attribute of `html` wins when it has content; the header is
   * consulted only when the attribute is absent or blank.
   */
  lemma LangPrefersHtmlAttribute(doc: Document)
    ensures var lang := ExtractMeta(doc).meta.lang;
      var own := Clean(doc.attr("html", "lang"));
      && (own.Some? ==> lang == own)
      && (own.None? ==> lang == Clean(doc.attr("meta[http-equiv=\"content-language\"]", "content")))
  {
  }

  /** A non-empty `meta[charset]` attribute is taken verbatim, whatever the `Content-Type` header says. */
  lemma CharsetAttributeWins(doc: Document)
    requires Present(doc.attr("meta[charset]", "charset"))
    ensures ExtractMeta(doc).meta.charset == doc.attr("meta[charset]", "charset")
  {
  }
}
