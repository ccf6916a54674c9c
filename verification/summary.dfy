/**
 * The score card shown above the issue list: the number of issues of each
 * level, a weighted score out of 100, the colour class of the gauge and the
 * sentence under it.
 *
 * The score is computed in exact integers. A success weighs 1, a warning
 * 1/2 and an error 0, informative issues are not checks at all, and the
 * mean is rounded to the nearest integer, halves upwards, as `Math.round`
 * does.
 */
module Summary {
  import opened SeoTypes
  import opened Urls
  import Evaluation

  /** Issues per level, in the card's own field order. */
  datatype Counts = Counts(error: nat, warning: nat, success: nat, info: nat)
  {
    /** The issues that take part in the score: successes, warnings and errors. */
    function Checks(): nat {
      success + warning + error
    }
  }

  /** One `filter(...).length` per level; between them the four counts account for every issue once. */
  function CountsOf(issues: seq<Issue>): (c: Counts)
    ensures c.error + c.warning + c.success + c.info == |issues|
    ensures c.Checks() == |issues| - c.info
  {
    OfLevelPartition(issues);
    Counts(|OfLevel(issues, Error)|, |OfLevel(issues, Warning)|,
           |OfLevel(issues, Success)|, |OfLevel(issues, Info)|)
  }

  /**
   * The score: the weighted mean of the checks times 100, rounded to the
   * nearest integer with halves going up, and 0 when there is nothing to
   * check. In integers the mean is `(2s + w) / (2T)` for `T` checks.
   */
  function Score(c: Counts): (score: nat)
    ensures score <= 100
    ensures c.Checks() == 0 ==> score == 0
    ensures c.Checks() > 0 ==>
      var total := c.Checks();
      2 * total * score - total <= 100 * (2 * c.success + c.warning) < 2 * total * score + total
  {
    var total := c.Checks();
    if total > 0 then
      var weighted := 100 * (2 * c.success + c.warning);
      var score := (weighted + total) / (2 * total);
      DivisionBounds(weighted + total, 2 * total);
      assert weighted <= 200 * total;
      BelowQuotient(weighted + total, 2 * total, 101);
      score
    else 0
  }

  /** `n / d` lies between `n / d * d` and one `d` further. */
  lemma DivisionBounds(n: nat, d: nat)
    requires d > 0
    ensures d * (n / d) <= n < d * (n / d) + d
  {
  }

  /** Below `d * q`, the quotient by `d` stays below `q`. */
  lemma BelowQuotient(n: nat, d: nat, q: nat)
    requires d > 0 && n < d * q
    ensures n / d < q
  {
    DivisionBounds(n, d);
  }

  /** Multiplying by a non-negative factor keeps the order. */
  lemma MulMonotone(k: nat, a: int, b: int)
    requires a <= b
    ensures k * a <= k * b
  {
    assert k * b - k * a == k * (b - a);
  }

  /** Two integers within half a step `t` of the same value, in units of `2t`, are equal. */
  lemma NearestUnique(t: int, x: int, a: int, b: int)
    requires t > 0
    requires 2 * t * a - t <= x < 2 * t * a + t
    requires 2 * t * b - t <= x < 2 * t * b + t
    ensures a == b
  {
    if a < b {
      MulMonotone(2 * t, a + 1, b);
    } else if b < a {
      MulMonotone(2 * t, b + 1, a);
    }
  }

  /** The rounding bounds pin the score down: no other integer lies that close to the weighted mean. */
  lemma ScoreIsNearest(c: Counts, r: int)
    requires c.Checks() > 0
    requires 2 * c.Checks() * r - c.Checks() <= 100 * (2 * c.success + c.warning) < 2 * c.Checks() * r + c.Checks()
    ensures r == Score(c)
  {
    NearestUnique(c.Checks(), 100 * (2 * c.success + c.warning), r, Score(c));
  }

  /** The score of an issue list, as the card shows it. */
  function ScoreOf(issues: seq<Issue>): (score: nat)
    ensures score <= 100
  {
    Score(CountsOf(issues))
  }

  /** Only successes, so at least one check and no warning or error: the score is 100. */
  lemma AllSuccessIsPerfect(c: Counts)
    requires c.success > 0 && c.warning == 0 && c.error == 0
    ensures Score(c) == 100
  {
    ScoreIsNearest(c, 100);
  }

  /** Only errors: the score is 0. */
  lemma AllErrorIsZero(c: Counts)
    requires c.error > 0 && c.success == 0 && c.warning == 0
    ensures Score(c) == 0
  {
    ScoreIsNearest(c, 0);
  }

  /** The score is 0 exactly when there is nothing to check or the weighted mean is below half a point. */
  lemma ScoreZeroIff(c: Counts)
    ensures Score(c) == 0 <==> c.Checks() == 0 || 100 * (2 * c.success + c.warning) < c.Checks()
  {
    if c.Checks() > 0 && 100 * (2 * c.success + c.warning) < c.Checks() {
      ScoreIsNearest(c, 0);
    }
  }

  /**
   * With fewer than 100 checks, the score is 100 exactly when there is a
   * check and none of them is a warning or an error: a single warning or
   * error costs at least half a point, which rounding cannot hide.
   */
  lemma PerfectScoreIff(c: Counts)
    requires c.Checks() < 100
    ensures Score(c) == 100 <==> c.Checks() > 0 && c.warning == 0 && c.error == 0
  {
    if c.Checks() > 0 && c.warning == 0 && c.error == 0 {
      AllSuccessIsPerfect(c);
    }
    if c.Checks() > 0 && (c.warning > 0 || c.error > 0) {
      var total := c.Checks();
      assert 2 * c.success + c.warning <= 2 * total - 1;
      assert 100 * (2 * c.success + c.warning) <= 200 * total - 100;
    }
  }

  /** The bound is needed: 99 successes and one warning round up to a perfect 100. */
  lemma NearPerfectRoundsUp()
    ensures Score(Counts(0, 1, 99, 0)) == 100
  {
    ScoreIsNearest(Counts(0, 1, 99, 0), 100);
  }

  /** Informative issues never move the score: adding one anywhere leaves the counts that matter unchanged. */
  lemma ScoreIgnoresInfo(a: seq<Issue>, x: Issue, b: seq<Issue>)
    requires x.level == Info
    ensures ScoreOf(a + [x] + b) == ScoreOf(a + b)
  {
    forall level | level != Info
      ensures OfLevel(a + [x] + b, level) == OfLevel(a + b, level)
    {
      OfLevelConcat(a + [x], b, level);
      OfLevelConcat(a, [x], level);
      OfLevelConcat(a, b, level);
    }
  }

  /**
   * For a list the evaluator produced, which holds at most ten issues, the
   * score is 100 exactly when the list has no warning and no error.
   */
  lemma EvaluationPerfectIff(parse: Parser, url: string, meta: BaseMeta, og: OpenGraphMeta, twitter: TwitterMeta)
    ensures var r := Evaluation.Evaluation(parse, url, meta, og, twitter);
      ScoreOf(r) == 100 <==> OfLevel(r, Warning) == [] && OfLevel(r, Error) == []
  {
    var r := Evaluation.Evaluation(parse, url, meta, og, twitter);
    Evaluation.EvaluationShape(parse, url, meta, og, twitter);
    var c := CountsOf(r);
    PerfectScoreIff(c);
    if OfLevel(r, Warning) == [] && OfLevel(r, Error) == [] {
      Evaluation.CleanEvaluationHasSuccess(parse, url, meta, og, twitter);
    }
  }

  // Gauge colour and message

  /** The gauge's colour class. */
  datatype ScoreClass = Low | Mid | High
  {
    function Rank(): nat {
      match this
      case Low => 0
      case Mid => 1
      case High => 2
    }
  }

  /** `getScoreClass`: below 50 is low, below 85 is mid, anything else high. */
  function ClassOf(score: int): (k: ScoreClass)
    ensures k == Low <==> score < 50
    ensures k == Mid <==> 50 <= score < 85
    ensures k == High <==> 85 <= score
  {
    if score < 50 then Low
    else if score < 85 then Mid
    else High
  }

  /** A better score never gets a worse colour. */
  lemma ClassMonotone(s1: int, s2: int)
    requires s1 <= s2
    ensures ClassOf(s1).Rank() <= ClassOf(s2).Rank()
  {
  }

  const CriticalMessage: string := "SEO crítico. Precisa de atenção imediata."
  const FairMessage: string := "Bom trabalho, mas há espaço para melhorias."
  const ExcellentMessage: string := "Excelente! Seu SEO on-page está perfeito."
  const GreatMessage: string := "Ótimo desempenho de SEO!"

  /** `getScoreMessage`. */
  function MessageOf(score: int): string {
    if score < 50 then CriticalMessage
    else if score < 85 then FairMessage
    else if score == 100 then ExcellentMessage
    else GreatMessage
  }

  /**
   * The message agrees with the colour: the critical message goes with the
   * low class, the fair one with mid, and within the high class "Excelente"
   * appears exactly at 100 and "Ótimo" for every other high score.
   */
  lemma MessageMatchesClass(score: int)
    ensures MessageOf(score) == CriticalMessage <==> ClassOf(score) == Low
    ensures MessageOf(score) == FairMessage <==> ClassOf(score) == Mid
    ensures MessageOf(score) == ExcellentMessage <==> score == 100
    ensures MessageOf(score) == GreatMessage <==> ClassOf(score) == High && score != 100
  {
    assert CriticalMessage[0] == 'S' && FairMessage[0] == 'B' && ExcellentMessage[0] == 'E' && GreatMessage[0] == 'Ó';
  }
}
