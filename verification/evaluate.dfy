/**
 * The rule evaluator `evaluateSeo` of the analyse route: a fixed sequence of
 * rule groups (title, description, canonical, robots, lang, charset, Open
 * Graph, Twitter card), each appending labelled issues to one ordered list.
 *
 * `Evaluation` states, group by group, the list the evaluator builds;
 * `EvaluateSeo` builds it step by step, as the route does, and is proved to
 * produce exactly that list. The lemmas below state the bands, exclusions and
 * ordering of the rule table.
 */
module Evaluation {
  import opened Wrappers
  import opened Text
  import opened SeoTypes
  import opened Urls


  function TitleMissingIssue(): Issue {
    Issue(TitleMissing, Error, Message(TitleMissing, ""), Some(Title),
          Some(Advice(TitleMissing)))
  }

  function TitleTooShortIssue(len: nat): Issue {
    Issue(TitleTooShort, Warning, Message(TitleTooShort, NatToString(len)), Some(Title),
          Some(Advice(TitleTooShort)))
  }

  function TitleTooLongIssue(len: nat): Issue {
    Issue(TitleTooLong, Warning, Message(TitleTooLong, NatToString(len)), Some(Title),
          Some(Advice(TitleTooLong)))
  }

  function TitleOkIssue(len: nat): Issue {
    Issue(TitleOk, Success, Message(TitleOk, NatToString(len)), Some(Title), None)
  }

  function DescriptionMissingIssue(): Issue {
    Issue(DescriptionMissing, Warning, Message(DescriptionMissing, ""), Some(Description),
          Some(Advice(DescriptionMissing)))
  }

  function DescriptionTooShortIssue(len: nat): Issue {
    Issue(DescriptionTooShort, Info, Message(DescriptionTooShort, NatToString(len)),
          Some(Description), Some(Advice(DescriptionTooShort)))
  }

  function DescriptionTooLongIssue(len: nat): Issue {
    Issue(DescriptionTooLong, Warning, Message(DescriptionTooLong, NatToString(len)),
          Some(Description), Some(Advice(DescriptionTooLong)))
  }

  function DescriptionOkIssue(len: nat): Issue {
    Issue(DescriptionOk, Success, Message(DescriptionOk, NatToString(len)),
          Some(Description), None)
  }

  function CanonicalMissingIssue(): Issue {
    Issue(CanonicalMissing, Info, Message(CanonicalMissing, ""), Some(Canonical),
          Some(Advice(CanonicalMissing)))
  }

  function CanonicalRelativeIssue(): Issue {
    Issue(CanonicalRelative, Warning, Message(CanonicalRelative, ""), Some(Canonical),
          Some(Advice(CanonicalRelative)))
  }

  function CanonicalDiffersIssue(): Issue {
    Issue(CanonicalDiffers, Info, Message(CanonicalDiffers, ""), Some(Canonical),
          Some(Advice(CanonicalDiffers)))
  }

  function CanonicalOkIssue(): Issue {
    Issue(CanonicalOk, Success, Message(CanonicalOk, ""), Some(Canonical), None)
  }

  /** Pushed by the route's `catch` around the canonical checks; `NormalizeUrl` never fails, so no list holds it. */
  function CanonicalInvalidIssue(): Issue {
    Issue(CanonicalInvalid, Warning, Message(CanonicalInvalid, ""), Some(Canonical), Some(Advice(CanonicalInvalid)))
  }

  function RobotsNoindexIssue(): Issue {
    Issue(RobotsNoindex, Warning, Message(RobotsNoindex, ""), Some(Robots),
          Some(Advice(RobotsNoindex)))
  }

  function RobotsNofollowIssue(): Issue {
    Issue(RobotsNofollow, Info, Message(RobotsNofollow, ""), Some(Robots),
          Some(Advice(RobotsNofollow)))
  }

  function RobotsOkIssue(robots: string): Issue {
    Issue(RobotsOk, Success, Message(RobotsOk, robots), Some(Robots), None)
  }

  function RobotsNoneIssue(): Issue {
    Issue(RobotsNone, Success, Message(RobotsNone, ""), Some(Robots), None)
  }

  function LangMissingIssue(): Issue {
    Issue(LangMissing, Info, Message(LangMissing, ""), Some(Lang),
          Some(Advice(LangMissing)))
  }

  function LangOkIssue(lang: string): Issue {
    Issue(LangOk, Success, Message(LangOk, lang), Some(Lang), None)
  }

  function CharsetMissingIssue(): Issue {
    Issue(CharsetMissing, Info, Message(CharsetMissing, ""), Some(Charset),
          Some(Advice(CharsetMissing)))
  }

  function CharsetOkIssue(charset: string): Issue {
    Issue(CharsetOk, Success, Message(CharsetOk, charset), Some(Charset), None)
  }

  function OgIncompleteIssue(): Issue {
    Issue(OgIncomplete, Warning, Message(OgIncomplete, ""), Some(OpenGraph),
          Some(Advice(OgIncomplete)))
  }

  function OgOkIssue(): Issue {
    Issue(OgOk, Success, Message(OgOk, ""), Some(OpenGraph), None)
  }

  function TwitterCardMissingIssue(): Issue {
    Issue(TwitterCardMissing, Info, Message(TwitterCardMissing, ""), Some(Twitter),
          Some(Advice(TwitterCardMissing)))
  }

  function TwitterOkIssue(card: string): Issue {
    Issue(TwitterOk, Success, Message(TwitterOk, card), Some(Twitter), None)
  }

  // ---------------------------------------------------------------------------
  // The rule groups, as lists of issues.

  function TitleIssues(title: Option<string>): seq<Issue> {
    if !Present(title) then [TitleMissingIssue()]
    else
      var len := Utf16Length(title.value);
      if len < 30 then [TitleTooShortIssue(len)]
      else if len > 60 then [TitleTooLongIssue(len)]
      else [TitleOkIssue(len)]
  }

  function DescriptionIssues(description: Option<string>): seq<Issue> {
    if !Present(description) then [DescriptionMissingIssue()]
    else
      var len := Utf16Length(description.value);
      if len < 70 then [DescriptionTooShortIssue(len)]
      else if len > 170 then [DescriptionTooLongIssue(len)]
      else [DescriptionOkIssue(len)]
  }

  /** The normalised canonical is non-empty and does not start with `http`. */
  predicate IsRelative(canonicalNormalized: string) {
    canonicalNormalized != "" && !StartsWith(canonicalNormalized, "http")
  }

  /** The normalised canonical is non-empty, differs from the analysed URL and does not end with `/`. */
  predicate DiffersFrom(normalized: string, canonicalNormalized: string) {
    canonicalNormalized != "" && normalized != canonicalNormalized && !EndsWith(canonicalNormalized, "/")
  }

  /** The checks on a present canonical, given the normalised page URL and the normalised canonical. */
  function CanonicalChecks(normalized: string, canonicalNormalized: string): seq<Issue> {
    var relative := IsRelative(canonicalNormalized);
    (if relative then [CanonicalRelativeIssue()] else [])
    + (if DiffersFrom(normalized, canonicalNormalized) then [CanonicalDiffersIssue()] else [])
    + (if relative then [] else [CanonicalOkIssue()])
  }

  function CanonicalIssues(parse: Parser, url: string, canonical: Option<string>): seq<Issue> {
    if !Present(canonical) then [CanonicalMissingIssue()]
    else CanonicalChecks(NormalizeUrl(parse, url), NormalizeUrl(parse, canonical.value))
  }

  /** The checks on a present robots value, given the value and its lower-cased form. */
  function RobotsChecks(robots: string, robotsValue: string): seq<Issue> {
    var noindex := Contains(robotsValue, "noindex");
    (if noindex then [RobotsNoindexIssue()] else [])
    + (if Contains(robotsValue, "nofollow") then [RobotsNofollowIssue()] else [])
    + (if noindex then [] else [RobotsOkIssue(robots)])
  }

  function RobotsIssues(robots: Option<string>): seq<Issue> {
    if !Present(robots) then [RobotsNoneIssue()]
    else RobotsChecks(robots.value, ToLower(robots.value))
  }

  function LangIssues(lang: Option<string>): seq<Issue> {
    if !Present(lang) then [LangMissingIssue()] else [LangOkIssue(lang.value)]
  }

  function CharsetIssues(charset: Option<string>): seq<Issue> {
    if !Present(charset) then [CharsetMissingIssue()] else [CharsetOkIssue(charset.value)]
  }

  function OpenGraphIssues(og: OpenGraphMeta): seq<Issue> {
    if !Present(og.title) || !Present(og.description) || !Present(og.image) then [OgIncompleteIssue()] else [OgOkIssue()]
  }

  function TwitterIssues(twitter: TwitterMeta): seq<Issue> {
    if !Present(twitter.card) then [TwitterCardMissingIssue()] else [TwitterOkIssue(twitter.card.value)]
  }

  /** The whole list `evaluateSeo` returns: the groups in their fixed order. */
  function Evaluation(parse: Parser, url: string, meta: BaseMeta, og: OpenGraphMeta, twitter: TwitterMeta): seq<Issue> {
    TitleIssues(meta.title) + DescriptionIssues(meta.description) + CanonicalIssues(parse, url, meta.canonical)
    + RobotsIssues(meta.robots) + LangIssues(meta.lang) + CharsetIssues(meta.charset)
    + OpenGraphIssues(og) + TwitterIssues(twitter)
  }

  // ---------------------------------------------------------------------------
  // evaluateSeo

  /**
   * `evaluateSeo`: runs the groups in order, each pushing onto one list. Each
   * group's branch is a step of its own below, taking the list so far.
   */
  method EvaluateSeo(parse: Parser, url: string, meta: BaseMeta, openGraph: OpenGraphMeta, twitter: TwitterMeta)
    returns (issues: seq<Issue>)
    ensures issues == Evaluation(parse, url, meta, openGraph, twitter)
  {
    issues := [];
    issues := CheckTitle(issues, meta.title);
    assert issues == TitleIssues(meta.title);
    issues := CheckDescription(issues, meta.description);
    issues := CheckCanonical(issues, parse, url, meta.canonical);
    issues := CheckRobots(issues, meta.robots);
    issues := CheckLang(issues, meta.lang);
    issues := CheckCharset(issues, meta.charset);
    issues := CheckOpenGraph(issues, openGraph);
    issues := CheckTwitter(issues, twitter);
  }

  method CheckTitle(issues: seq<Issue>, title: Option<string>) returns (r: seq<Issue>)
    ensures r == issues + TitleIssues(title)
  {
    r := issues;
    if !Present(title) {
      r := r + [TitleMissingIssue()];
    } else {
      var len := Utf16Length(title.value);
      if len < 30 {
        r := r + [TitleTooShortIssue(len)];
      } else if len > 60 {
        r := r + [TitleTooLongIssue(len)];
      } else {
        r := r + [TitleOkIssue(len)];
      }
    }
  }

  method CheckDescription(issues: seq<Issue>, description: Option<string>) returns (r: seq<Issue>)
    ensures r == issues + DescriptionIssues(description)
  {
    r := issues;
    if !Present(description) {
      r := r + [DescriptionMissingIssue()];
    } else {
      var len := Utf16Length(description.value);
      if len < 70 {
        r := r + [DescriptionTooShortIssue(len)];
      } else if len > 170 {
        r := r + [DescriptionTooLongIssue(len)];
      } else {
        r := r + [DescriptionOkIssue(len)];
      }
    }
  }

  /** The canonical checks, with the route's `canonicalError` flag. */
  method CheckCanonical(issues: seq<Issue>, parse: Parser, url: string, canonical: Option<string>)
    returns (r: seq<Issue>)
    ensures r == issues + CanonicalIssues(parse, url, canonical)
  {
    r := issues;
    if !Present(canonical) {
      r := r + [CanonicalMissingIssue()];
    } else {
      var normalized := NormalizeUrl(parse, url);
      var canonicalNormalized := NormalizeUrl(parse, canonical.value);
      r := CheckCanonicalAgainst(r, normalized, canonicalNormalized);
    }
  }

  method CheckCanonicalAgainst(issues: seq<Issue>, normalized: string, canonicalNormalized: string)
    returns (r: seq<Issue>)
    ensures r == issues + CanonicalChecks(normalized, canonicalNormalized)
  {
    r := issues;
    var canonicalError := false;
    if canonicalNormalized != "" && !StartsWith(canonicalNormalized, "http") {
      r := r + [CanonicalRelativeIssue()];
      canonicalError := true;
    }
    if canonicalNormalized != "" && normalized != canonicalNormalized && !EndsWith(canonicalNormalized, "/") {
      r := r + [CanonicalDiffersIssue()];
    }
    if !canonicalError {
      r := r + [CanonicalOkIssue()];
    }
  }

  /** The robots checks, with the route's `robotsWarning` flag. */
  method CheckRobots(issues: seq<Issue>, robots: Option<string>) returns (r: seq<Issue>)
    ensures r == issues + RobotsIssues(robots)
  {
    r := issues;
    if Present(robots) {
      var robotsValue := ToLower(robots.value);
      var robotsWarning := false;
      if Contains(robotsValue, "noindex") {
        r := r + [RobotsNoindexIssue()];
        robotsWarning := true;
      }
      if Contains(robotsValue, "nofollow") {
        r := r + [RobotsNofollowIssue()];
      }
      if !robotsWarning {
        r := r + [RobotsOkIssue(robots.value)];
      }
    } else {
      r := r + [RobotsNoneIssue()];
    }
  }

  method CheckLang(issues: seq<Issue>, lang: Option<string>) returns (r: seq<Issue>)
    ensures r == issues + LangIssues(lang)
  {
    if !Present(lang) {
      r := issues + [LangMissingIssue()];
    } else {
      r := issues + [LangOkIssue(lang.value)];
    }
  }

  method CheckCharset(issues: seq<Issue>, charset: Option<string>) returns (r: seq<Issue>)
    ensures r == issues + CharsetIssues(charset)
  {
    if !Present(charset) {
      r := issues + [CharsetMissingIssue()];
    } else {
      r := issues + [CharsetOkIssue(charset.value)];
    }
  }

  method CheckOpenGraph(issues: seq<Issue>, og: OpenGraphMeta) returns (r: seq<Issue>)
    ensures r == issues + OpenGraphIssues(og)
  {
    if !Present(og.title) || !Present(og.description) || !Present(og.image) {
      r := issues + [OgIncompleteIssue()];
    } else {
      r := issues + [OgOkIssue()];
    }
  }

  method CheckTwitter(issues: seq<Issue>, twitter: TwitterMeta) returns (r: seq<Issue>)
    ensures r == issues + TwitterIssues(twitter)
  {
    if !Present(twitter.card) {
      r := issues + [TwitterCardMissingIssue()];
    } else {
      r := issues + [TwitterOkIssue(twitter.card.value)];
    }
  }

  // ---------------------------------------------------------------------------
  // Properties of the rule table

  function Ids(r: seq<Issue>): set<IssueId> {
    set x | x in r :: x.id
  }

  /** Title: exactly one issue, chosen by the band of the title's length, and the message reports the length. */
  lemma TitleBands(title: Option<string>)
    ensures |TitleIssues(title)| == 1 && GroupOf(TitleIssues(title), Title)
    ensures var x := TitleIssues(title)[0];
      && x.field == Some(Title)
      && (x.id == TitleMissing <==> !Present(title))
      && (x.level == Error <==> !Present(title))
      && (Present(title) ==>
            var len := Utf16Length(title.value);
            && (x.id == TitleTooShort <==> len < 30)
            && (x.id == TitleTooLong <==> len > 60)
            && (x.id == TitleOk <==> 30 <= len <= 60)
            && (x.level == Warning <==> len < 30 || len > 60)
            && (x.level == Success <==> 30 <= len <= 60)
            && x.message == Message(x.id, NatToString(len)))
  {
    TitleWellFormed(title);
  }

  /** The title group is a single catalogued issue. */
  lemma TitleWellFormed(title: Option<string>)
    ensures |TitleIssues(title)| == 1 && GroupOf(TitleIssues(title), Title)
  {
  }

  /** The description group is a single catalogued issue. */
  lemma DescriptionWellFormed(description: Option<string>)
    ensures |DescriptionIssues(description)| == 1 && GroupOf(DescriptionIssues(description), Description)
  {
  }

  /** Description: exactly one issue; absent is a warning, short is only informative, long is a warning. */
  lemma DescriptionBands(description: Option<string>)
    ensures |DescriptionIssues(description)| == 1 && GroupOf(DescriptionIssues(description), Description)
    ensures var x := DescriptionIssues(description)[0];
      && x.field == Some(Description)
      && (x.id == DescriptionMissing <==> !Present(description))
      && (!Present(description) ==> x.level == Warning)
      && (Present(description) ==>
            var len := Utf16Length(description.value);
            && (x.id == DescriptionTooShort <==> len < 70)
            && (x.id == DescriptionTooLong <==> len > 170)
            && (x.id == DescriptionOk <==> 70 <= len <= 170)
            && (x.level == Info <==> len < 70)
            && (x.level == Warning <==> len > 170)
            && (x.level == Success <==> 70 <= len <= 170)
            && x.message == Message(x.id, NatToString(len)))
  {
    DescriptionWellFormed(description);
  }

  /**
   * Canonical: an absent canonical yields only `canonical_missing`; otherwise
   * `canonical_relative` and `canonical_differs` are decided independently,
   * and `canonical_ok` is emitted exactly when `canonical_relative` is not.
   * `canonical_invalid`, the id of the route's `catch` branch, is never
   * emitted: `NormalizeUrl` has no failure for that branch to catch.
   */
  lemma CanonicalRules(parse: Parser, url: string, canonical: Option<string>)
    ensures var r := CanonicalIssues(parse, url, canonical);
      && GroupOf(r, Canonical) && (forall x :: x in r ==> x.id != CanonicalInvalid)
      && (!Present(canonical) ==> Ids(r) == {CanonicalMissing} && |r| == 1)
      && (Present(canonical) ==>
            var normalized := NormalizeUrl(parse, url);
            var canonicalNormalized := NormalizeUrl(parse, canonical.value);
            && CanonicalMissing !in Ids(r)
            && (CanonicalRelative in Ids(r) <==> IsRelative(canonicalNormalized))
            && (CanonicalDiffers in Ids(r) <==> DiffersFrom(normalized, canonicalNormalized))
            && (CanonicalOk in Ids(r) <==> CanonicalRelative !in Ids(r)))
  {
    if Present(canonical) {
      CanonicalChecksRules(NormalizeUrl(parse, url), NormalizeUrl(parse, canonical.value));
    }
  }

  /** The checks on a present canonical form a well-formed group. */
  lemma CanonicalChecksWellFormed(normalized: string, canonicalNormalized: string)
    ensures GroupOf(CanonicalChecks(normalized, canonicalNormalized), Canonical)
  {
    var relative, differs := IsRelative(canonicalNormalized), DiffersFrom(normalized, canonicalNormalized);
    if relative && differs {
      PairGroup(CanonicalRelativeIssue(), CanonicalDiffersIssue(), Canonical);
    } else if relative {
      SingleGroup(CanonicalRelativeIssue(), Canonical);
    } else if differs {
      PairGroup(CanonicalDiffersIssue(), CanonicalOkIssue(), Canonical);
    } else {
      SingleGroup(CanonicalOkIssue(), Canonical);
    }
  }

  /** The checks on a present canonical: relative and differing are decided independently, and ok exactly when not relative. */
  lemma CanonicalChecksRules(normalized: string, canonicalNormalized: string)
    ensures var r := CanonicalChecks(normalized, canonicalNormalized);
      && GroupOf(r, Canonical)
      && CanonicalMissing !in Ids(r) && (forall x :: x in r ==> x.id != CanonicalInvalid)
      && (CanonicalRelative in Ids(r) <==> IsRelative(canonicalNormalized))
      && (CanonicalDiffers in Ids(r) <==> DiffersFrom(normalized, canonicalNormalized))
      && (CanonicalOk in Ids(r) <==> CanonicalRelative !in Ids(r))
  {
    CanonicalChecksWellFormed(normalized, canonicalNormalized);
    var r := CanonicalChecks(normalized, canonicalNormalized);
    var relative, differs := IsRelative(canonicalNormalized), DiffersFrom(normalized, canonicalNormalized);
    if relative && differs {
      assert r == [CanonicalRelativeIssue(), CanonicalDiffersIssue()];
    } else if relative {
      assert r == [CanonicalRelativeIssue()];
    } else if differs {
      assert r == [CanonicalDiffersIssue(), CanonicalOkIssue()];
    } else {
      assert r == [CanonicalOkIssue()];
    }
  }

  /**
   * A relative canonical that the parser cannot read, such as `/about`, draws
   * both `canonical_relative` and `canonical_differs`: the two are not
   * mutually exclusive in this evaluator.
   */
  lemma RelativeCanonicalAlsoDiffers(parse: Parser, url: string, canonical: string)
    requires parse(canonical).None? && IsTrimmed(canonical) && canonical != ""
    requires !StartsWith(canonical, "http") && !EndsWith(canonical, "/")
    requires NormalizeUrl(parse, url) != canonical
    ensures Ids(CanonicalIssues(parse, url, Some(canonical))) == {CanonicalRelative, CanonicalDiffers}
  {
    TrimOfTrimmed(canonical);
  }

  /**
   * Robots: absent yields only `robots_none`; otherwise `noindex` and
   * `nofollow` are independent substring tests on the lower-cased value, and
   * `robots_ok` is emitted exactly when `noindex` is absent.
   */
  lemma RobotsRules(robots: Option<string>)
    ensures var r := RobotsIssues(robots);
      && GroupOf(r, Robots)
      && (!Present(robots) ==> Ids(r) == {RobotsNone} && |r| == 1)
      && (Present(robots) ==>
            var robotsValue := ToLower(robots.value);
            && RobotsNone !in Ids(r)
            && (RobotsNoindex in Ids(r) <==> Contains(robotsValue, "noindex"))
            && (RobotsNofollow in Ids(r) <==> Contains(robotsValue, "nofollow"))
            && (RobotsOk in Ids(r) <==> !Contains(robotsValue, "noindex")))
  {
    if Present(robots) {
      RobotsChecksRules(robots.value, ToLower(robots.value));
    }
  }

  /** The checks on a present robots value form a well-formed group. */
  lemma RobotsChecksWellFormed(robots: string, robotsValue: string)
    ensures GroupOf(RobotsChecks(robots, robotsValue), Robots)
  {
    var noindex, nofollow := Contains(robotsValue, "noindex"), Contains(robotsValue, "nofollow");
    if noindex && nofollow {
      PairGroup(RobotsNoindexIssue(), RobotsNofollowIssue(), Robots);
    } else if noindex {
      SingleGroup(RobotsNoindexIssue(), Robots);
    } else if nofollow {
      PairGroup(RobotsNofollowIssue(), RobotsOkIssue(robots), Robots);
    } else {
      SingleGroup(RobotsOkIssue(robots), Robots);
    }
  }

  /** The checks on a present robots value: `noindex` and `nofollow` are independent, and ok exactly when not `noindex`. */
  lemma RobotsChecksRules(robots: string, robotsValue: string)
    ensures var r := RobotsChecks(robots, robotsValue);
      && GroupOf(r, Robots) && RobotsNone !in Ids(r)
      && (RobotsNoindex in Ids(r) <==> Contains(robotsValue, "noindex"))
      && (RobotsNofollow in Ids(r) <==> Contains(robotsValue, "nofollow"))
      && (RobotsOk in Ids(r) <==> !Contains(robotsValue, "noindex"))
  {
    RobotsChecksWellFormed(robots, robotsValue);
    var r := RobotsChecks(robots, robotsValue);
    var noindex, nofollow := Contains(robotsValue, "noindex"), Contains(robotsValue, "nofollow");
    if noindex && nofollow {
      assert r == [RobotsNoindexIssue(), RobotsNofollowIssue()];
    } else if noindex {
      assert r == [RobotsNoindexIssue()];
    } else if nofollow {
      assert r == [RobotsNofollowIssue(), RobotsOkIssue(robots)];
    } else {
      assert r == [RobotsOkIssue(robots)];
    }
  }

  /** A `nofollow` without `noindex` still counts as configured: only `noindex` suppresses `robots_ok`. */
  lemma NofollowKeepsRobotsOk(robots: string)
    requires robots != ""
    requires Contains(ToLower(robots), "nofollow") && !Contains(ToLower(robots), "noindex")
    ensures Ids(RobotsIssues(Some(robots))) == {RobotsNofollow, RobotsOk}
  {
  }

  /** Lang: one issue, a success exactly when the attribute is present. */
  lemma LangRules(lang: Option<string>)
    ensures var r := LangIssues(lang);
      |r| == 1 && GroupOf(r, Lang) && (r[0].id == LangOk <==> Present(lang)) && (r[0].level == Success <==> Present(lang))
      && (Present(lang) ==> r[0].message == Message(LangOk, lang.value))
  {
  }

  /** Charset: one issue, a success exactly when a charset was found. */
  lemma CharsetRules(charset: Option<string>)
    ensures var r := CharsetIssues(charset);
      |r| == 1 && GroupOf(r, Charset) && (r[0].id == CharsetOk <==> Present(charset))
      && (r[0].level == Success <==> Present(charset))
      && (Present(charset) ==> r[0].message == Message(CharsetOk, charset.value))
  {
  }

  /** Open Graph: one issue; `og_ok` needs title, description and image, whatever the other tags hold. */
  lemma OpenGraphRules(og: OpenGraphMeta)
    ensures var r := OpenGraphIssues(og);
      && |r| == 1 && GroupOf(r, OpenGraph)
      && (r[0].id == OgOk <==> Present(og.title) && Present(og.description) && Present(og.image))
      && (r[0].id == OgIncomplete <==> !(Present(og.title) && Present(og.description) && Present(og.image)))
  {
  }

  /** Twitter: one issue; only `twitter:card` is checked. */
  lemma TwitterRules(twitter: TwitterMeta)
    ensures var r := TwitterIssues(twitter);
      |r| == 1 && GroupOf(r, Twitter) && (r[0].id == TwitterOk <==> Present(twitter.card))
      && (r[0].id == TwitterCardMissing <==> !Present(twitter.card))
      && (Present(twitter.card) ==> r[0].message == Message(TwitterOk, twitter.card.value))
  {
  }

  // ---------------------------------------------------------------------------
  // Order and uniqueness of the whole list

  /** The level the catalogue fixes for each id. */
  function LevelOf(id: IssueId): Severity {
    match id
    case TitleMissing => Error
    case TitleTooShort | TitleTooLong => Warning
    case DescriptionMissing | DescriptionTooLong => Warning
    case DescriptionTooShort => Info
    case CanonicalMissing | CanonicalDiffers => Info
    case CanonicalRelative | CanonicalInvalid => Warning
    case RobotsNoindex => Warning
    case RobotsNofollow => Info
    case LangMissing | CharsetMissing | TwitterCardMissing => Info
    case OgIncomplete => Warning
    case TitleOk | DescriptionOk | CanonicalOk | RobotsOk | RobotsNone | LangOk | CharsetOk | OgOk | TwitterOk => Success
  }

  /** Only `title_missing` is an error in the catalogue. */
  lemma OnlyTitleMissingIsErrorLevel(id: IssueId)
    ensures LevelOf(id) == Error <==> id == TitleMissing
  {
  }

  /** An issue carries the field of its id's group, the level the catalogue fixes for its id, its own message template, and its own advice exactly when its id has one. */
  predicate Catalogued(x: Issue) {
    && x.field == Some(x.id.Group()) && x.level == LevelOf(x.id) && x.message.template == x.id
    && x.recommendation == (if x.id.Advised() then Some(Advice(x.id)) else None)
  }

  function RankOf(x: Issue): nat {
    if x.field.Some? then x.field.value.Rank() else 8
  }

  /** Issues appear grouped, groups in evaluation order. */
  predicate InGroupOrder(r: seq<Issue>) {
    forall i, j :: 0 <= i < j < |r| ==> RankOf(r[i]) <= RankOf(r[j])
  }

  predicate DistinctIds(r: seq<Issue>) {
    forall i, j :: 0 <= i < j < |r| ==> r[i].id != r[j].id
  }

  /** What one rule group emits: one or two catalogued issues of group `f`, with distinct ids. */
  predicate GroupOf(g: seq<Issue>, f: Field) {
    1 <= |g| <= 2 && DistinctIds(g) && forall x :: x in g ==> Catalogued(x) && x.id.Group() == f
  }

  lemma SingleGroup(a: Issue, f: Field)
    requires Catalogued(a) && a.id.Group() == f
    ensures GroupOf([a], f)
  {
  }

  lemma PairGroup(a: Issue, b: Issue, f: Field)
    requires Catalogued(a) && Catalogued(b) && a.id != b.id && a.id.Group() == f && b.id.Group() == f
    ensures GroupOf([a, b], f)
  {
  }

  /** Every rule group is well formed. */
  lemma AllGroupsWellFormed(parse: Parser, url: string, meta: BaseMeta, og: OpenGraphMeta, twitter: TwitterMeta)
    ensures GroupOf(TitleIssues(meta.title), Title)
    ensures GroupOf(DescriptionIssues(meta.description), Description)
    ensures GroupOf(CanonicalIssues(parse, url, meta.canonical), Canonical)
    ensures GroupOf(RobotsIssues(meta.robots), Robots)
    ensures GroupOf(LangIssues(meta.lang), Lang) && GroupOf(CharsetIssues(meta.charset), Charset)
    ensures GroupOf(OpenGraphIssues(og), OpenGraph) && GroupOf(TwitterIssues(twitter), Twitter)
    ensures |TitleIssues(meta.title)| == 1 && |DescriptionIssues(meta.description)| == 1
    ensures |LangIssues(meta.lang)| == 1 && |CharsetIssues(meta.charset)| == 1
    ensures |OpenGraphIssues(og)| == 1 && |TwitterIssues(twitter)| == 1
  {
    TitleWellFormed(meta.title);
    DescriptionWellFormed(meta.description);
    CanonicalRules(parse, url, meta.canonical);
    RobotsRules(meta.robots);
    LangRules(meta.lang);
    CharsetRules(meta.charset);
    OpenGraphRules(og);
    TwitterRules(twitter);
  }

  /** Appending a group for a later field keeps the list catalogued, in group order and free of repeated ids. */
  lemma AppendGroup(a: seq<Issue>, b: seq<Issue>, f: Field)
    requires InGroupOrder(a) && DistinctIds(a)
    requires forall x :: x in a ==> Catalogued(x) && RankOf(x) < f.Rank()
    requires GroupOf(b, f)
    ensures InGroupOrder(a + b) && DistinctIds(a + b)
    ensures forall x :: x in a + b ==> Catalogued(x) && RankOf(x) <= f.Rank()
  {
    var ab := a + b;
    forall i, j | 0 <= i < j < |ab|
      ensures RankOf(ab[i]) <= RankOf(ab[j]) && ab[i].id != ab[j].id
    {
      if j < |a| {
        assert ab[i] == a[i] && ab[j] == a[j];
      } else if i < |a| {
        assert ab[i] == a[i] && ab[j] == b[j - |a|];
        assert ab[i] in a && ab[j] in b;
      } else {
        assert ab[i] == b[i - |a|] && ab[j] == b[j - |a|];
      }
    }
  }

  /** `x` lies in the group of its own field. */
  predicate InOwnGroup(x: Issue, g1: seq<Issue>, g2: seq<Issue>, g3: seq<Issue>, g4: seq<Issue>,
                       g5: seq<Issue>, g6: seq<Issue>, g7: seq<Issue>, g8: seq<Issue>)
  {
    match x.id.Group()
    case Title => x in g1
    case Description => x in g2
    case Canonical => x in g3
    case Robots => x in g4
    case Lang => x in g5
    case Charset => x in g6
    case OpenGraph => x in g7
    case Twitter => x in g8
  }

  /** Every issue of eight concatenated groups comes from the group of its own field. */
  lemma ConcatOwnGroups(g1: seq<Issue>, g2: seq<Issue>, g3: seq<Issue>, g4: seq<Issue>,
                        g5: seq<Issue>, g6: seq<Issue>, g7: seq<Issue>, g8: seq<Issue>)
    requires GroupOf(g1, Title) && GroupOf(g2, Description) && GroupOf(g3, Canonical) && GroupOf(g4, Robots)
    requires GroupOf(g5, Lang) && GroupOf(g6, Charset) && GroupOf(g7, OpenGraph) && GroupOf(g8, Twitter)
    ensures forall x :: x in g1 + g2 + g3 + g4 + g5 + g6 + g7 + g8 ==> InOwnGroup(x, g1, g2, g3, g4, g5, g6, g7, g8)
  {
  }

  /** Eight well-formed groups, concatenated in field order, give a catalogued list in group order with distinct ids. */
  lemma ConcatGroups(g1: seq<Issue>, g2: seq<Issue>, g3: seq<Issue>, g4: seq<Issue>,
                     g5: seq<Issue>, g6: seq<Issue>, g7: seq<Issue>, g8: seq<Issue>)
    requires GroupOf(g1, Title) && GroupOf(g2, Description) && GroupOf(g3, Canonical) && GroupOf(g4, Robots)
    requires GroupOf(g5, Lang) && GroupOf(g6, Charset) && GroupOf(g7, OpenGraph) && GroupOf(g8, Twitter)
    ensures var r := g1 + g2 + g3 + g4 + g5 + g6 + g7 + g8;
      && InGroupOrder(r) && DistinctIds(r) && 8 <= |r| <= 16
      && (forall x :: x in r ==> Catalogued(x))
  {
    LeadingGroups(g1, g2, g3, g4);
    AppendGroup(g1 + g2 + g3 + g4, g5, Lang);
    AppendGroup(g1 + g2 + g3 + g4 + g5, g6, Charset);
    AppendGroup(g1 + g2 + g3 + g4 + g5 + g6, g7, OpenGraph);
    AppendGroup(g1 + g2 + g3 + g4 + g5 + g6 + g7, g8, Twitter);
  }

  /** The first four groups, concatenated, give a catalogued list in group order with distinct ids. */
  lemma LeadingGroups(g1: seq<Issue>, g2: seq<Issue>, g3: seq<Issue>, g4: seq<Issue>)
    requires GroupOf(g1, Title) && GroupOf(g2, Description) && GroupOf(g3, Canonical) && GroupOf(g4, Robots)
    ensures var r := g1 + g2 + g3 + g4;
      && InGroupOrder(r) && DistinctIds(r)
      && (forall x :: x in r ==> Catalogued(x) && RankOf(x) <= Robots.Rank())
  {
    AppendGroup([], g1, Title);
    assert [] + g1 == g1;
    AppendGroup(g1, g2, Description);
    AppendGroup(g1 + g2, g3, Canonical);
    AppendGroup(g1 + g2 + g3, g4, Robots);
  }

  /**
   * The evaluated list is grouped by field in the order title, description,
   * canonical, robots, lang, charset, Open Graph, Twitter; every issue carries
   * its group's field and its id's level; no id occurs twice; and it holds
   * between 8 and 10 issues.
   */
  lemma EvaluationShape(parse: Parser, url: string, meta: BaseMeta, og: OpenGraphMeta, twitter: TwitterMeta)
    ensures var r := Evaluation(parse, url, meta, og, twitter);
      && InGroupOrder(r) && DistinctIds(r) && 8 <= |r| <= 10
      && (forall x :: x in r ==> Catalogued(x))
      && (forall x :: x in r ==> InOwnGroup(x, TitleIssues(meta.title), DescriptionIssues(meta.description),
                                           CanonicalIssues(parse, url, meta.canonical), RobotsIssues(meta.robots),
                                           LangIssues(meta.lang), CharsetIssues(meta.charset),
                                           OpenGraphIssues(og), TwitterIssues(twitter)))
  {
    var g1, g2, g3, g4 := TitleIssues(meta.title), DescriptionIssues(meta.description),
                          CanonicalIssues(parse, url, meta.canonical), RobotsIssues(meta.robots);
    var g5, g6, g7, g8 := LangIssues(meta.lang), CharsetIssues(meta.charset), OpenGraphIssues(og), TwitterIssues(twitter);
    AllGroupsWellFormed(parse, url, meta, og, twitter);
    ConcatGroups(g1, g2, g3, g4, g5, g6, g7, g8);
    ConcatOwnGroups(g1, g2, g3, g4, g5, g6, g7, g8);
  }

  /** In a catalogued list with distinct ids, the error filter holds the `title_missing` issue if there is one, and nothing else. */
  lemma ErrorsOfCatalogued(r: seq<Issue>)
    requires DistinctIds(r) && forall x :: x in r ==> Catalogued(x)
    ensures forall x :: x in r ==> (x.level == Error <==> x.id == TitleMissing)
    ensures forall x :: x in r && x.id == TitleMissing ==> OfLevel(r, Error) == [x]
    ensures (forall x :: x in r ==> x.id != TitleMissing) ==> OfLevel(r, Error) == []
  {
    forall x | x in r ensures x.level == Error <==> x.id == TitleMissing {
      OnlyTitleMissingIsErrorLevel(x.id);
    }
    forall i, j | 0 <= i < j < |r| ensures !(r[i].level == Error && r[j].level == Error) {
      assert r[i] in r && r[j] in r;
    }
    OfLevelUnique(r, Error);
    if OfLevel(r, Error) != [] {
      OfLevelMembers(r, Error, OfLevel(r, Error)[0]);
    }
  }

  /**
   * Only a missing title is an error: an issue of the list is an error
   * exactly when it is `title_missing`, and the error filter holds that issue
   * when the title is absent or empty and nothing otherwise.
   */
  lemma OnlyMissingTitleIsError(parse: Parser, url: string, meta: BaseMeta, og: OpenGraphMeta, twitter: TwitterMeta)
    ensures var r := Evaluation(parse, url, meta, og, twitter);
      && (forall x :: x in r ==> (x.level == Error <==> x.id == TitleMissing))
      && OfLevel(r, Error) == (if Present(meta.title) then [] else [TitleMissingIssue()])
  {
    AllGroupsWellFormed(parse, url, meta, og, twitter);
    TitleBands(meta.title);
    ErrorsOfGroups(TitleIssues(meta.title), DescriptionIssues(meta.description), CanonicalIssues(parse, url, meta.canonical),
                   RobotsIssues(meta.robots), LangIssues(meta.lang), CharsetIssues(meta.charset),
                   OpenGraphIssues(og), TwitterIssues(twitter));
  }

  /** The error filter of eight concatenated groups is the title group's issue when that is `title_missing`, and empty otherwise. */
  lemma ErrorsOfGroups(g1: seq<Issue>, g2: seq<Issue>, g3: seq<Issue>, g4: seq<Issue>,
                       g5: seq<Issue>, g6: seq<Issue>, g7: seq<Issue>, g8: seq<Issue>)
    requires GroupOf(g1, Title) && GroupOf(g2, Description) && GroupOf(g3, Canonical) && GroupOf(g4, Robots)
    requires GroupOf(g5, Lang) && GroupOf(g6, Charset) && GroupOf(g7, OpenGraph) && GroupOf(g8, Twitter)
    requires |g1| == 1
    ensures var r := g1 + g2 + g3 + g4 + g5 + g6 + g7 + g8;
      && (forall x :: x in r ==> (x.level == Error <==> x.id == TitleMissing))
      && OfLevel(r, Error) == (if g1[0].id == TitleMissing then [g1[0]] else [])
  {
    var r := g1 + g2 + g3 + g4 + g5 + g6 + g7 + g8;
    ConcatGroups(g1, g2, g3, g4, g5, g6, g7, g8);
    ErrorsOfCatalogued(r);
    if g1[0].id == TitleMissing {
      assert g1[0] in r;
    } else {
      ConcatOwnGroups(g1, g2, g3, g4, g5, g6, g7, g8);
      forall x | x in r
        ensures x.id != TitleMissing
      {
        assert InOwnGroup(x, g1, g2, g3, g4, g5, g6, g7, g8);
      }
    }
  }

  /**
   * A list with no warning and no error still has a success: the title group
   * always reports one of error, warning or success.
   */
  lemma CleanEvaluationHasSuccess(parse: Parser, url: string, meta: BaseMeta, og: OpenGraphMeta, twitter: TwitterMeta)
    requires var r := Evaluation(parse, url, meta, og, twitter); OfLevel(r, Warning) == [] && OfLevel(r, Error) == []
    ensures OfLevel(Evaluation(parse, url, meta, og, twitter), Success) != []
  {
    var r := Evaluation(parse, url, meta, og, twitter);
    TitleBands(meta.title);
    var x := TitleIssues(meta.title)[0];
    assert x == r[0];
    OfLevelMembers(r, Warning, x);
    OfLevelMembers(r, Error, x);
    OfLevelMembers(r, Success, x);
  }

  /**
   * A page with no title, description, canonical, Open Graph or Twitter tags
   * but a `lang` attribute gets exactly one error, `title_missing`, and an
   * `og_incomplete` warning.
   */
  lemma BarePageScenario(parse: Parser, url: string, lang: string, og: OpenGraphMeta, twitter: TwitterMeta)
    requires lang != ""
    requires og == OpenGraphMeta(None, None, None, None, None, None)
    requires twitter == TwitterMeta(None, None, None, None, None, None)
    ensures var r := Evaluation(parse, url, BaseMeta(None, None, None, None, Some(lang), None), og, twitter);
      && OfLevel(r, Error) == [TitleMissingIssue()]
      && OgIncomplete in Ids(r) && LangOk in Ids(r)
  {
    var meta := BaseMeta(None, None, None, None, Some(lang), None);
    OnlyMissingTitleIsError(parse, url, meta, og, twitter);
    var r := Evaluation(parse, url, meta, og, twitter);
    assert OgIncompleteIssue() in r && LangOkIssue(lang) in r;
  }
}
