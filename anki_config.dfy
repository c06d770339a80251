/**
 * Scheduler configuration, card states, answer grades and the
 * response-time grading heuristic (lib/anki-config.ts).
 */
module AnkiConfig {

  /** What happens to a card whose lapse count reaches the leech threshold. */
  datatype LeechAction = Suspend | Tag

  /**
   * The tunable parameters of the scheduler. Step tables are in minutes,
   * intervals in days. Nothing checks these values.
   */
  datatype Config = Config(
    learningSteps: seq<real>,
    relearningSteps: seq<real>,
    graduatingInterval: real,
    easyInterval: real,
    hardIntervalMultiplier: real,
    easyBonus: real,
    intervalModifier: real,
    startingEaseFactor: real,
    minEaseFactor: real,
    maxEaseFactor: real,
    againPenalty: real,
    hardPenalty: real,
    easyBonusEase: real,
    dailyNewCards: int,
    dailyReviewCards: int,
    leechThreshold: int,
    leechAction: LeechAction)

  const DefaultConfig: Config := Config(
    learningSteps := [1.0, 10.0],
    relearningSteps := [10.0],
    graduatingInterval := 1.0,
    easyInterval := 4.0,
    hardIntervalMultiplier := 1.2,
    easyBonus := 1.3,
    intervalModifier := 1.0,
    startingEaseFactor := 2.5,
    minEaseFactor := 1.3,
    maxEaseFactor := 2.5,
    againPenalty := -0.20,
    hardPenalty := -0.15,
    easyBonusEase := 0.15,
    dailyNewCards := 20,
    dailyReviewCards := 200,
    leechThreshold := 8,
    leechAction := Suspend)

  /** The five review states of a card. */
  datatype CardState = New | Learning | Review | Relearning | Suspended

  /** The string each state is stored as. */
  function StateName(s: CardState): (name: string)
    ensures |name| >= 3
  {
    match s
    case New => "new"
    case Learning => "learning"
    case Review => "review"
    case Relearning => "relearning"
    case Suspended => "suspended"
  }

  /** The four answer grades, ordered by their numeric values 0..3. */
  datatype Quality = Again | Hard | Good | Easy
  {
    function Value(): (v: nat)
      ensures v <= 3
    {
      match this
      case Again => 0
      case Hard => 1
      case Good => 2
      case Easy => 3
    }
  }

  /** Distinct grades have distinct numeric values. */
  lemma QualityValueInjective(p: Quality, q: Quality)
    ensures p.Value() == q.Value() <==> p == q
  {
  }

  /** Response-time thresholds, in seconds. */
  datatype TimeBasedGrading = TimeBasedGrading(
    fastThreshold: real,
    normalThreshold: real,
    slowThreshold: real,
    verySlowThreshold: real)

  const DefaultThresholds: TimeBasedGrading := TimeBasedGrading(10.0, 20.0, 40.0, 120.0)

  /**
   * The grade suggested for an answer given in `responseTimeMs` milliseconds.
   * A wrong answer is always Again; a right one falls into the first bucket
   * whose threshold the elapsed seconds are strictly below, and into Again
   * when it is below none of them. The very-slow threshold is never read.
   */
  function SuggestGradeFromTime(responseTimeMs: real, wasCorrect: bool, t: TimeBasedGrading): (q: Quality)
    ensures !wasCorrect ==> q == Again
    ensures q == Easy <==> wasCorrect && responseTimeMs / 1000.0 < t.fastThreshold
    ensures q == Good <==> wasCorrect && t.fastThreshold <= responseTimeMs / 1000.0 < t.normalThreshold
    ensures q == Hard <==> wasCorrect && t.fastThreshold <= responseTimeMs / 1000.0
                            && t.normalThreshold <= responseTimeMs / 1000.0 < t.slowThreshold
  {
    if !wasCorrect then Again
    else
      var seconds := responseTimeMs / 1000.0;
      if seconds < t.fastThreshold then Easy
      else if seconds < t.normalThreshold then Good
      else if seconds < t.slowThreshold then Hard
      else Again
  }

  /** With ordered thresholds, a slower correct answer never gets a better grade. */
  lemma SuggestedGradeNonIncreasing(t: TimeBasedGrading, ms1: real, ms2: real)
    requires t.fastThreshold <= t.normalThreshold <= t.slowThreshold
    requires ms1 <= ms2
    ensures SuggestGradeFromTime(ms2, true, t).Value() <= SuggestGradeFromTime(ms1, true, t).Value()
  {
    var s1, s2 := ms1 / 1000.0, ms2 / 1000.0;
    assert s1 <= s2;
  }

  /** The very-slow threshold has no effect on the suggested grade. */
  lemma VerySlowThresholdUnused(t: TimeBasedGrading, v: real, ms: real, ok: bool)
    ensures SuggestGradeFromTime(ms, ok, t) == SuggestGradeFromTime(ms, ok, t.(verySlowThreshold := v))
  {
  }

  /** A correct answer at or beyond the slow threshold is graded Again. */
  lemma SlowCorrectAnswerIsAgain(t: TimeBasedGrading, ms: real)
    requires t.fastThreshold <= t.normalThreshold <= t.slowThreshold
    requires ms / 1000.0 >= t.slowThreshold
    ensures SuggestGradeFromTime(ms, true, t) == Again
  {
  }

  /** Strict boundaries under the default thresholds. */
  lemma DefaultGradingExamples()
    ensures SuggestGradeFromTime(5000.0, true, DefaultThresholds) == Easy
    ensures SuggestGradeFromTime(10000.0, true, DefaultThresholds) == Good
    ensures SuggestGradeFromTime(15000.0, true, DefaultThresholds) == Good
    ensures SuggestGradeFromTime(20000.0, true, DefaultThresholds) == Hard
    ensures SuggestGradeFromTime(40000.0, true, DefaultThresholds) == Again
    ensures SuggestGradeFromTime(1000.0, false, DefaultThresholds) == Again
  {
  }
}
