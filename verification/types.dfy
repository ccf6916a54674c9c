/**
 * The records the analyser passes around: severities, issues and the three
 * flat metadata records, plus the one operation every consumer of an issue
 * list shares, `issues.filter(i => i.level === level)`.
 */
module SeoTypes {
  import opened Wrappers
  import opened Text

  /** The four issue levels, in the order the type declares them. */
  datatype Severity = Info | Warning | Error | Success

  /** The analysed attribute an issue is about; `Name` is the string stored in the issue's `field`. */
  datatype Field = Title | Description | Canonical | Robots | Lang | Charset | OpenGraph | Twitter
  {
    function Name(): string {
      match this
      case Title => "title"
      case Description => "description"
      case Canonical => "canonical"
      case Robots => "robots"
      case Lang => "lang"
      case Charset => "charset"
      case OpenGraph => "open_graph"
      case Twitter => "twitter"
    }

    /** Position of the field's rule group in the evaluation order. */
    function Rank(): nat {
      match this
      case Title => 0
      case Description => 1
      case Canonical => 2
      case Robots => 3
      case Lang => 4
      case Charset => 5
      case OpenGraph => 6
      case Twitter => 7
    }
  }

  /** The identifiers the evaluator gives its issues; `Name` is the string stored in the issue's `id`. */
  datatype IssueId =
    | TitleMissing | TitleTooShort | TitleTooLong | TitleOk
    | DescriptionMissing | DescriptionTooShort | DescriptionTooLong | DescriptionOk
    | CanonicalMissing | CanonicalRelative | CanonicalDiffers | CanonicalOk | CanonicalInvalid
    | RobotsNoindex | RobotsNofollow | RobotsOk | RobotsNone
    | LangMissing | LangOk | CharsetMissing | CharsetOk
    | OgIncomplete | OgOk | TwitterCardMissing | TwitterOk
  {
    function Name(): string {
      match this
      case TitleMissing => "title_missing"
      case TitleTooShort => "title_too_short"
      case TitleTooLong => "title_too_long"
      case TitleOk => "title_ok"
      case DescriptionMissing => "description_missing"
      case DescriptionTooShort => "description_too_short"
      case DescriptionTooLong => "description_too_long"
      case DescriptionOk => "description_ok"
      case CanonicalMissing => "canonical_missing"
      case CanonicalRelative => "canonical_relative"
      case CanonicalDiffers => "canonical_differs"
      case CanonicalOk => "canonical_ok"
      case CanonicalInvalid => "canonical_invalid"
      case RobotsNoindex => "robots_noindex"
      case RobotsNofollow => "robots_nofollow"
      case RobotsOk => "robots_ok"
      case RobotsNone => "robots_none"
      case LangMissing => "lang_missing"
      case LangOk => "lang_ok"
      case CharsetMissing => "charset_missing"
      case CharsetOk => "charset_ok"
      case OgIncomplete => "og_incomplete"
      case OgOk => "og_ok"
      case TwitterCardMissing => "twitter_card_missing"
      case TwitterOk => "twitter_ok"
    }

    /** Whether the issue comes with a recommendation. */
    predicate Advised() {
      !(this in {TitleOk, DescriptionOk, CanonicalOk, RobotsOk, RobotsNone, LangOk, CharsetOk, OgOk, TwitterOk})
    }

    /** The rule group that emits the issue. */
    function Group(): Field {
      match this
      case TitleMissing | TitleTooShort | TitleTooLong | TitleOk => Title
      case DescriptionMissing | DescriptionTooShort | DescriptionTooLong | DescriptionOk => Description
      case CanonicalMissing | CanonicalRelative | CanonicalDiffers | CanonicalOk | CanonicalInvalid => Canonical
      case RobotsNoindex | RobotsNofollow | RobotsOk | RobotsNone => Robots
      case LangMissing | LangOk => Lang
      case CharsetMissing | CharsetOk => Charset
      case OgIncomplete | OgOk => OpenGraph
      case TwitterCardMissing | TwitterOk => Twitter
    }
  }

  /**
   * An issue's message: the template of issue `template`, with `slot` filled
   * into it (the length, or the reported tag value) and empty for a template
   * without a slot. `Catalogue.MessageText` spells it out.
   */
  datatype Message = Message(template: IssueId, slot: string)

  /** An issue's recommendation: the fixed advice of issue `template`, spelt out by `Catalogue.AdviceText`. */
  datatype Advice = Advice(template: IssueId)

  /** One finding of the rule evaluator. */
  datatype Issue = Issue(
    id: IssueId,
    level: Severity,
    message: Message,
    field: Option<Field>,
    recommendation: Option<Advice>)

  datatype BaseMeta = BaseMeta(
    title: Option<string>,
    description: Option<string>,
    robots: Option<string>,
    canonical: Option<string>,
    lang: Option<string>,
    charset: Option<string>)

  /** `kind` holds `og:type` (`type` is a Dafny keyword). */
  datatype OpenGraphMeta = OpenGraphMeta(
    title: Option<string>,
    description: Option<string>,
    image: Option<string>,
    url: Option<string>,
    kind: Option<string>,
    siteName: Option<string>)

  datatype TwitterMeta = TwitterMeta(
    card: Option<string>,
    title: Option<string>,
    description: Option<string>,
    image: Option<string>,
    site: Option<string>,
    creator: Option<string>)

  /** The report returned for one analysed page. */
  datatype AnalysisResult = AnalysisResult(
    url: string,
    normalizedUrl: string,
    htmlLength: nat,
    meta: BaseMeta,
    openGraph: OpenGraphMeta,
    twitter: TwitterMeta,
    issues: seq<Issue>)

  /** JavaScript truthiness of an optional string: present and not empty. */
  predicate Present(o: Option<string>) {
    o.Some? && o.value != ""
  }

  /** What the extractor guarantees of a metadata field: absent, or a non-empty trimmed string. */
  predicate CleanField(o: Option<string>) {
    o.None? || (o.value != "" && IsTrimmed(o.value))
  }

  /** `String.prototype.length`: UTF-16 code units, two for a character outside the Basic Multilingual Plane. */
  function Utf16Length(s: string): (n: nat)
    ensures |s| <= n <= 2 * |s|
  {
    if s == [] then 0 else (if s[0] as int > 0xFFFF then 2 else 1) + Utf16Length(s[1..])
  }

  /** `issues.filter((i) => i.level === level)`. */
  function OfLevel(issues: seq<Issue>, level: Severity): (r: seq<Issue>)
    ensures |r| <= |issues|
    ensures forall i :: 0 <= i < |r| ==> r[i].level == level
  {
    if issues == [] then []
    else (if issues[0].level == level then [issues[0]] else []) + OfLevel(issues[1..], level)
  }

  /** The filter keeps every issue of the level and nothing else. */
  lemma {:induction false} OfLevelMembers(issues: seq<Issue>, level: Severity, x: Issue)
    ensures x in OfLevel(issues, level) <==> x in issues && x.level == level
  {
    if issues != [] {
      OfLevelMembers(issues[1..], level, x);
      assert issues == [issues[0]] + issues[1..];
    }
  }

  /** The filter is stable: it commutes with concatenation, so the kept issues stay in their original order. */
  lemma {:induction false} OfLevelConcat(a: seq<Issue>, b: seq<Issue>, level: Severity)
    ensures OfLevel(a + b, level) == OfLevel(a, level) + OfLevel(b, level)
  {
    if a == [] {
      assert a + b == b;
    } else {
      var head := if a[0].level == level then [a[0]] else [];
      calc {
        OfLevel(a + b, level);
        { assert (a + b)[0] == a[0]; assert (a + b)[1..] == a[1..] + b; }
        head + OfLevel(a[1..] + b, level);
        { OfLevelConcat(a[1..], b, level); }
        head + (OfLevel(a[1..], level) + OfLevel(b, level));
      }
    }
  }

  /**
   * The four level filters partition the list: their sizes add up to the
   * list's length, and (by `OfLevelMembers`) each issue is kept by the filter
   * of its own level and by no other.
   */
  lemma {:induction false} OfLevelPartition(issues: seq<Issue>)
    ensures |OfLevel(issues, Error)| + |OfLevel(issues, Warning)| + |OfLevel(issues, Info)|
            + |OfLevel(issues, Success)| == |issues|
  {
    if issues != [] {
      var x, rest := issues[0], issues[1..];
      OfLevelPartition(rest);
      assert |OfLevel(issues, x.level)| == 1 + |OfLevel(rest, x.level)|;
    }
  }

  /** When at most one issue has the level, the filter returns exactly that issue, or nothing. */
  lemma {:induction false} OfLevelUnique(issues: seq<Issue>, level: Severity)
    requires forall i, j :: 0 <= i < j < |issues| ==> !(issues[i].level == level && issues[j].level == level)
    ensures |OfLevel(issues, level)| <= 1
    ensures forall i :: 0 <= i < |issues| && issues[i].level == level ==> OfLevel(issues, level) == [issues[i]]
  {
    if issues != [] {
      var rest := issues[1..];
      OfLevelUnique(rest, level);
      if issues[0].level == level && OfLevel(rest, level) != [] {
        OfLevelMembers(rest, level, OfLevel(rest, level)[0]);
      }
      forall i | 0 < i < |issues| && issues[i].level == level
        ensures OfLevel(issues, level) == [issues[i]]
      {
        assert rest[i - 1] == issues[i];
      }
    }
  }
}
