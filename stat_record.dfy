/**
 * The per-user review record the three statistics routes read back from the
 * database (the `questionStat` rows), and the percentage they all compute
 * with `Math.round(part / whole * 100)`.
 */
module StatRecord {
  import opened JsMath

  /** The fields of a stored review record that the statistics read. */
  datatype QuestionStat = QuestionStat(
    repetitions: int,
    easeFactor: real,
    interval: real,
    timesCorrect: int,
    timesAnswered: int)

  /**
   * `Math.round(part / whole * 100)`, for a non-zero `whole`: the whole
   * percentage nearest to the exact share, halves rounded up.
   */
  function Percent(part: int, whole: int): (p: int)
    requires whole != 0
    ensures var exact := part as real * 100.0 / whole as real;
      p as real - 0.5 <= exact < p as real + 0.5
  {
    assert part as real / whole as real * 100.0 == part as real * 100.0 / whole as real;
    Round(part as real / whole as real * 100.0)
  }

  /** A part of a positive whole is a percentage between 0 and 100. */
  lemma PercentInRange(part: int, whole: int)
    requires 0 <= part <= whole && whole > 0
    ensures 0 <= Percent(part, whole) <= 100
  {
    var x := part as real / whole as real;
    assert x * whole as real == part as real;
    assert 0.0 <= x <= 1.0;
    RoundMonotone(0.0, x * 100.0);
    RoundMonotone(x * 100.0, 100.0);
    RoundOfInt(0);
    RoundOfInt(100);
  }

  /** The whole is 100 percent of itself, and nothing is 0 percent. */
  lemma PercentEnds(whole: int)
    requires whole != 0
    ensures Percent(whole, whole) == 100
    ensures Percent(0, whole) == 0
  {
    assert whole as real / whole as real == 1.0;
    RoundOfInt(100);
    RoundOfInt(0);
  }

  /**
   * The percentage of answers a single record got right: 0 until the
   * question has been answered (questions/stats and questions/all).
   */
  function AnsweredPercent(s: QuestionStat): (p: int)
    ensures s.timesAnswered <= 0 ==> p == 0
    ensures s.timesAnswered > 0 ==>
              var exact := s.timesCorrect as real * 100.0 / s.timesAnswered as real;
              p as real - 0.5 <= exact < p as real + 0.5
  {
    if s.timesAnswered > 0 then Percent(s.timesCorrect, s.timesAnswered) else 0
  }

  /** A record never counts more right answers than answers, so it is a percentage. */
  lemma AnsweredPercentInRange(s: QuestionStat)
    requires 0 <= s.timesCorrect <= s.timesAnswered
    ensures 0 <= AnsweredPercent(s) <= 100
    ensures s.timesAnswered == 0 ==> AnsweredPercent(s) == 0
    ensures s.timesAnswered > 0 && s.timesCorrect == s.timesAnswered ==> AnsweredPercent(s) == 100
  {
    if s.timesAnswered > 0 {
      PercentInRange(s.timesCorrect, s.timesAnswered);
      PercentEnds(s.timesAnswered);
    }
  }
}
