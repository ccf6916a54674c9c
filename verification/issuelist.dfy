/**
 * The issue list panel: an empty state when there is nothing to show,
 * otherwise one section per level, in the order errors, warnings,
 * informative issues, successes, each holding the issues of its level in
 * their original order and omitted when it would be empty.
 */
module IssueList {
  import opened Wrappers
  import opened Text
  import opened SeoTypes

  /** `LEVEL_LABEL`: the badge text of each level. */
  function LevelLabel(level: Severity): string {
    match level
    case Error => "Erro"
    case Warning => "Aviso"
    case Info => "Info"
    case Success => "Sucesso"
  }

  /** Every level has a label, and no two levels share one, so a badge names its level. */
  lemma LevelLabelInjective(a: Severity, b: Severity)
    ensures LevelLabel(a) != ""
    ensures LevelLabel(a) == LevelLabel(b) ==> a == b
  {
    assert LevelLabel(a)[0] != LevelLabel(b)[0] || a == b;
  }

  /** The order in which `renderSection` is called. */
  const SectionOrder: seq<Severity> := [Error, Warning, Info, Success]

  /** The heading text passed to `renderSection` for each level. */
  function SectionTitle(level: Severity): string {
    match level
    case Error => "Erros Críticos"
    case Warning => "Avisos e Melhorias"
    case Info => "Informações"
    case Success => "Itens de Sucesso"
  }

  /**
   * One rendered issue: its badge, its message and the suggestion line, which
   * is shown when the issue has a recommendation (every recommendation of the
   * catalogue has text, see `Catalogue.AdviceNonEmpty`).
   */
  datatype Item = Item(badge: string, message: Message, suggestion: Option<Advice>)

  /** Section heading, count and items aside, what one issue renders as. */
  function RenderItem(issue: Issue): (item: Item)
    ensures item.badge == LevelLabel(issue.level) && item.message == issue.message
    ensures item.suggestion == issue.recommendation
  {
    Item(LevelLabel(issue.level), issue.message, issue.recommendation)
  }

  /** One rendered section: its level, heading, the `(n)` count and its items. */
  datatype Section = Section(level: Severity, title: string, count: nat, items: seq<Item>)

  /** What the panel shows. */
  datatype Panel = EmptyState | Sections(sections: seq<Section>)

  function RenderItems(list: seq<Issue>): (items: seq<Item>)
    ensures |items| == |list|
    ensures forall i :: 0 <= i < |list| ==> items[i] == RenderItem(list[i])
  {
    if list == [] then [] else [RenderItem(list[0])] + RenderItems(list[1..])
  }

  /** `renderSection(level, title)`: nothing for an empty group, else the heading, the count and one item per issue. */
  function RenderSection(issues: seq<Issue>, level: Severity): (s: Option<Section>)
    ensures s.None? <==> OfLevel(issues, level) == []
    ensures s.Some? ==> s.value.level == level && s.value.count == |OfLevel(issues, level)| > 0
  {
    var list := OfLevel(issues, level);
    if |list| == 0 then None
    else Some(Section(level, SectionTitle(level), |list|, RenderItems(list)))
  }

  /** The rendered sections of `levels`, in that order, skipping the empty ones. */
  function RenderSections(issues: seq<Issue>, levels: seq<Severity>): seq<Section> {
    if levels == [] then []
    else
      var s := RenderSection(issues, levels[0]);
      (if s.Some? then [s.value] else []) + RenderSections(issues, levels[1..])
  }

  /** `IssueList`: the empty state for an empty list, else the four sections in their fixed order. */
  function Render(issues: seq<Issue>): Panel {
    if |issues| == 0 then EmptyState
    else Sections(RenderSections(issues, SectionOrder))
  }

  /** The position of a level in the section order. */
  function SectionIndex(level: Severity): (n: nat)
    ensures n < |SectionOrder| && SectionOrder[n] == level
  {
    match level
    case Error => 0
    case Warning => 1
    case Info => 2
    case Success => 3
  }

  /**
   * The sections rendered for a list of levels: one per level whose group is
   * non-empty, in the order of the list, each with the items of the issues
   * of its level.
   */
  lemma {:induction false} RenderSectionsShape(issues: seq<Issue>, levels: seq<Severity>)
    ensures var ss := RenderSections(issues, levels);
      && |ss| <= |levels|
      && (forall s :: s in ss ==>
            s.level in levels && s.count == |OfLevel(issues, s.level)| > 0 && s.items == RenderItems(OfLevel(issues, s.level)))
      && (forall level :: level in levels && OfLevel(issues, level) != [] ==> exists s :: s in ss && s.level == level)
  {
    if levels != [] {
      RenderSectionsShape(issues, levels[1..]);
      var ss := RenderSections(issues, levels);
      var s := RenderSection(issues, levels[0]);
      forall level | level in levels && OfLevel(issues, level) != []
        ensures exists t :: t in ss && t.level == level
      {
        if level == levels[0] {
          assert s.value in ss;
        } else {
          assert level in levels[1..];
          var t :| t in RenderSections(issues, levels[1..]) && t.level == level;
          assert t in ss;
        }
      }
    }
  }

  /** Every section rendered for a list of levels is the section of one of them. */
  lemma {:induction false} RenderSectionsLevels(issues: seq<Issue>, levels: seq<Severity>)
    ensures forall s :: s in RenderSections(issues, levels) ==> s.level in levels
  {
    if levels != [] {
      RenderSectionsLevels(issues, levels[1..]);
    }
  }

  /** Sections whose levels strictly follow the section order. */
  predicate SectionsInOrder(ss: seq<Section>) {
    forall i, j :: 0 <= i < j < |ss| ==> SectionIndex(ss[i].level) < SectionIndex(ss[j].level)
  }

  /** Sections follow the order of the level list they were rendered from. */
  lemma {:induction false} RenderSectionsOrdered(issues: seq<Issue>, levels: seq<Severity>)
    requires forall i, j :: 0 <= i < j < |levels| ==> SectionIndex(levels[i]) < SectionIndex(levels[j])
    ensures SectionsInOrder(RenderSections(issues, levels))
  {
    if levels != [] {
      var rest := RenderSections(issues, levels[1..]);
      forall i, j | 0 <= i < j < |levels[1..]|
        ensures SectionIndex(levels[1..][i]) < SectionIndex(levels[1..][j])
      {
        assert levels[1..][i] == levels[i + 1] && levels[1..][j] == levels[j + 1];
      }
      RenderSectionsOrdered(issues, levels[1..]);
      RenderSectionsLevels(issues, levels[1..]);
      var s := RenderSection(issues, levels[0]);
      if s.Some? {
        OrderedCons(s.value, rest, levels);
      } else {
        assert RenderSections(issues, levels) == rest;
      }
    }
  }

  /** A section of the first level, put before sections of the later levels in order, keeps the order. */
  lemma OrderedCons(x: Section, rest: seq<Section>, levels: seq<Severity>)
    requires levels != [] && x.level == levels[0]
    requires forall i, j :: 0 <= i < j < |levels| ==> SectionIndex(levels[i]) < SectionIndex(levels[j])
    requires forall t :: t in rest ==> t.level in levels[1..]
    requires SectionsInOrder(rest)
    ensures SectionsInOrder([x] + rest)
  {
    var ss := [x] + rest;
    forall i, j | 0 <= i < j < |ss|
      ensures SectionIndex(ss[i].level) < SectionIndex(ss[j].level)
    {
      assert ss[j] == rest[j - 1] && rest[j - 1] in rest;
      if i == 0 {
        var k :| 0 <= k < |levels[1..]| && levels[1..][k] == ss[j].level;
        assert levels[k + 1] == ss[j].level;
      } else {
        assert ss[i] == rest[i - 1];
      }
    }
  }

  /** An empty list shows the empty state and no section; a non-empty one shows sections, never the empty state. */
  lemma EmptyStateIff(issues: seq<Issue>)
    ensures Render(issues) == EmptyState <==> issues == []
  {
  }

  /**
   * A non-empty list shows its sections in the order errors, warnings,
   * informative issues, successes; every section is non-empty and holds the
   * issues of its level; every level that has issues gets a section; and
   * the section counts add up to the number of issues.
   */
  lemma SectionsPartition(issues: seq<Issue>)
    requires issues != []
    ensures var ss := Render(issues).sections;
      && 1 <= |ss| <= 4
      && SectionsInOrder(ss)
      && (forall s :: s in ss ==> s.count == |OfLevel(issues, s.level)| > 0 && s.items == RenderItems(OfLevel(issues, s.level)))
      && (forall x :: x in issues ==> exists s :: s in ss && s.level == x.level)
      && SectionTotal(ss) == |issues|
  {
    var ss := RenderSections(issues, SectionOrder);
    assert Render(issues).sections == ss;
    RenderSectionsShape(issues, SectionOrder);
    RenderSectionsOrdered(issues, SectionOrder);
    IssuesHaveSections(issues);
    assert issues[0] in issues;
    SectionTotalIsPartition(issues);
  }

  /** The level of every issue in the list has a rendered section. */
  lemma IssuesHaveSections(issues: seq<Issue>)
    ensures forall x :: x in issues ==> exists s :: s in RenderSections(issues, SectionOrder) && s.level == x.level
  {
    RenderSectionsShape(issues, SectionOrder);
    forall x | x in issues
      ensures exists s :: s in RenderSections(issues, SectionOrder) && s.level == x.level
    {
      OfLevelMembers(issues, x.level, x);
      assert x.level in SectionOrder;
    }
  }

  /** The sum of the section counts. */
  function SectionTotal(ss: seq<Section>): nat {
    if ss == [] then 0 else ss[0].count + SectionTotal(ss[1..])
  }

  /** The number of issues of the given levels. */
  function LevelTotal(issues: seq<Issue>, levels: seq<Severity>): nat {
    if levels == [] then 0 else |OfLevel(issues, levels[0])| + LevelTotal(issues, levels[1..])
  }

  /** Dropping the empty sections loses no issue: the counts shown add up to the size of the groups. */
  lemma {:induction false} SectionTotalLevels(issues: seq<Issue>, levels: seq<Severity>)
    ensures SectionTotal(RenderSections(issues, levels)) == LevelTotal(issues, levels)
  {
    if levels != [] {
      SectionTotalLevels(issues, levels[1..]);
      var rest := RenderSections(issues, levels[1..]);
      var s := RenderSection(issues, levels[0]);
      if s.Some? {
        assert ([s.value] + rest)[1..] == rest;
      } else {
        assert [] + rest == rest;
      }
    }
  }

  /** The section counts add up to the length of the list. */
  lemma SectionTotalIsPartition(issues: seq<Issue>)
    ensures SectionTotal(RenderSections(issues, SectionOrder)) == |issues|
  {
    SectionTotalLevels(issues, SectionOrder);
    LevelTotalOfFour(issues, Error, Warning, Info, Success);
    OfLevelPartition(issues);
  }

  /** The number of issues of four levels is the sum of the four group sizes. */
  lemma LevelTotalOfFour(issues: seq<Issue>, a: Severity, b: Severity, c: Severity, d: Severity)
    ensures LevelTotal(issues, [a, b, c, d])
         == |OfLevel(issues, a)| + |OfLevel(issues, b)| + |OfLevel(issues, c)| + |OfLevel(issues, d)|
  {
    assert [d][1..] == [];
    assert LevelTotal(issues, [d]) == |OfLevel(issues, d)|;
    assert [c, d][1..] == [d];
    assert LevelTotal(issues, [c, d]) == |OfLevel(issues, c)| + LevelTotal(issues, [d]);
    assert [b, c, d][1..] == [c, d];
    assert LevelTotal(issues, [b, c, d]) == |OfLevel(issues, b)| + LevelTotal(issues, [c, d]);
    assert [a, b, c, d][1..] == [b, c, d];
  }

  /**
   * The filter of a level is stable: two issues of the level keep their
   * relative order, with the issues of the level lying between them still
   * between them.
   */
  lemma GroupKeepsOrder(p: seq<Issue>, a: Issue, m: seq<Issue>, b: Issue, q: seq<Issue>)
    requires a.level == b.level
    ensures OfLevel(p + [a] + m + [b] + q, a.level)
         == OfLevel(p, a.level) + [a] + OfLevel(m, a.level) + [b] + OfLevel(q, a.level)
  {
    var l := a.level;
    assert OfLevel([a], l) == [a] && OfLevel([b], l) == [b];
    OfLevelConcat(p + [a] + m + [b], q, l);
    OfLevelConcat(p + [a] + m, [b], l);
    OfLevelConcat(p + [a], m, l);
    OfLevelConcat(p, [a], l);
  }
}
