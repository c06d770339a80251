/**
 * What the scheduler of lib/anki-algorithm.ts guarantees: the per-state
 * transition rules, the invariants it keeps (step index in range, interval
 * positive, ease bounds), graduation after enough Good answers, leech
 * suspension and the due test.
 */
module AnkiProperties {
  import opened Wrappers
  import opened JsMath
  import opened AnkiConfig
  import opened AnkiAlgorithm

  /**
   * A card the scheduler can always handle: the learning table is
   * non-empty and a card in a step table points at a step.
   */
  predicate WellFormed(cfg: Config, c: CardData)
  {
    && |cfg.learningSteps| > 0
    && (c.state == Learning ==> 0 <= c.currentStep < |cfg.learningSteps|)
    && (c.state == Relearning ==> 0 <= c.currentStep)
  }

  /** The card `schedule` leaves behind. */
  function After(cfg: Config, c: CardData, q: Quality, now: real): CardData
    requires StepReadsDefined(cfg, c, q)
  {
    ScheduleCard(cfg, c, q, None, now, now).card
  }

  /** Every step-table read on a well-formed card is in bounds, whatever the grade. */
  lemma WellFormedReadsDefined(cfg: Config, c: CardData, q: Quality)
    requires WellFormed(cfg, c)
    ensures StepReadsDefined(cfg, c, q)
  {
  }

  /** Scheduling a well-formed card gives a well-formed card, also when it throws. */
  lemma ScheduleKeepsWellFormed(cfg: Config, c: CardData, q: Quality, resp: Option<real>, now: real, later: real)
    requires WellFormed(cfg, c)
    ensures StepReadsDefined(cfg, c, q)
    ensures WellFormed(cfg, ScheduleCard(cfg, c, q, resp, now, later).card)
  {
  }

  /**
   * A card left in Learning points inside `learningSteps`, and one left in
   * Relearning points inside `relearningSteps` when that table is non-empty.
   */
  lemma StepIndexInRange(cfg: Config, c: CardData, q: Quality, resp: Option<real>, now: real, later: real)
    requires StepReadsDefined(cfg, c, q)
    ensures var d := ScheduleCard(cfg, c, q, resp, now, later).card;
      && (d.state == Learning ==> 0 <= d.currentStep < |cfg.learningSteps|)
      && (d.state == Relearning ==> 0 <= d.currentStep && (|cfg.relearningSteps| > 0 ==> d.currentStep < |cfg.relearningSteps|))
  {
  }

  /** New cards: Easy graduates with an unclamped ease bonus, Good enters Learning, Hard and Again stay New. */
  lemma NewCardRules(cfg: Config, c: CardData, q: Quality, now: real, later: real)
    requires c.state == New && |cfg.learningSteps| > 0
    ensures var d := ScheduleCard(cfg, c, q, None, now, later).card;
      && (q == Easy ==> d.state == Review && d.interval == cfg.easyInterval
                        && d.easeFactor == cfg.startingEaseFactor + cfg.easyBonusEase && d.repetitions == 1
                        && d.currentStep == c.currentStep)
      && (q == Good ==> d.state == Learning && d.currentStep == 0
                        && d.interval == AnkiScheduler.MinutesToDays(cfg.learningSteps[0]))
      && ((q == Hard || q == Again) ==>
            d.state == New && d.currentStep == 0 && d.interval == AnkiScheduler.MinutesToDays(cfg.learningSteps[0]))
      && (q != Easy ==> d.easeFactor == c.easeFactor && d.repetitions == c.repetitions)
      && d.lapses == c.lapses
  {
  }

  /**
   * Learning cards: Again restarts, Easy graduates like a New card, Hard past
   * the first step repeats it, and Good (or Hard on the first step) advances,
   * graduating with the graduating interval once the table is exhausted.
   */
  lemma LearningCardRules(cfg: Config, c: CardData, q: Quality, now: real, later: real)
    requires c.state == Learning && WellFormed(cfg, c)
    ensures var d := ScheduleCard(cfg, c, q, None, now, later).card;
      var steps := cfg.learningSteps;
      && (q == Again ==> d.state == Learning && d.currentStep == 0
                         && d.interval == AnkiScheduler.MinutesToDays(steps[0]))
      && (q == Easy ==> d.state == Review && d.interval == cfg.easyInterval
                        && d.easeFactor == cfg.startingEaseFactor + cfg.easyBonusEase && d.repetitions == 1)
      && (q == Hard && c.currentStep > 0 ==>
            d.state == Learning && d.currentStep == c.currentStep
            && d.interval == AnkiScheduler.MinutesToDays(steps[c.currentStep]))
      && ((q == Good || (q == Hard && c.currentStep == 0)) && c.currentStep + 1 < |steps| ==>
            d.state == Learning && d.currentStep == c.currentStep + 1
            && d.interval == AnkiScheduler.MinutesToDays(steps[c.currentStep + 1]))
      && ((q == Good || (q == Hard && c.currentStep == 0)) && c.currentStep + 1 == |steps| ==>
            d.state == Review && d.interval == cfg.graduatingInterval
            && d.easeFactor == cfg.startingEaseFactor && d.repetitions == 1)
      && d.lapses == c.lapses
  {
  }

  /**
   * A lapse on a Review card: Relearning at step 0, one more lapse, the
   * again-penalty floored at the minimum ease, a quarter of the interval but
   * at least a day, and suspension once the lapses reach the leech threshold
   * when the leech action is to suspend.
   */
  lemma ReviewLapseRules(cfg: Config, c: CardData, now: real, later: real)
    requires c.state == Review
    ensures var d := ScheduleCard(cfg, c, Again, None, now, later).card;
      && d.currentStep == 0
      && d.lapses == c.lapses + 1
      && d.easeFactor == Max(cfg.minEaseFactor, c.easeFactor + cfg.againPenalty)
      && d.interval == Max(1.0, c.interval / 4.0)
      && d.repetitions == c.repetitions
      && (d.state == Suspended <==> c.lapses + 1 >= cfg.leechThreshold && cfg.leechAction == Suspend)
      && (d.state != Suspended ==> d.state == Relearning)
  {
  }

  /**
   * A recalled Review card: one more repetition; Hard lowers the ease and
   * multiplies the interval by the hard multiplier, Good keeps the ease and
   * multiplies by it, Easy raises the ease (capped) and multiplies by the new
   * ease and the easy bonus; then the global modifier, at least one day.
   */
  lemma ReviewRecallRules(cfg: Config, c: CardData, q: Quality, now: real, later: real)
    requires c.state == Review && q != Again
    ensures var d := ScheduleCard(cfg, c, q, None, now, later).card;
      && d.state == Review
      && d.repetitions == c.repetitions + 1
      && d.lapses == c.lapses
      && (q == Hard ==> d.easeFactor == Max(cfg.minEaseFactor, c.easeFactor + cfg.hardPenalty)
                        && d.interval == Max(1.0, Round(Times(Max(1.0, Round(Times(c.interval, cfg.hardIntervalMultiplier)) as real),
                                                            cfg.intervalModifier)) as real))
      && (q == Good ==> d.easeFactor == c.easeFactor
                        && d.interval == Max(1.0, Round(Times(Round(Times(c.interval, c.easeFactor)) as real,
                                                            cfg.intervalModifier)) as real))
      && (q == Easy ==> d.easeFactor == Min(cfg.maxEaseFactor, c.easeFactor + cfg.easyBonusEase)
                        && d.interval == Max(1.0, Round(Times(Round(Times(Times(c.interval, d.easeFactor), cfg.easyBonus)) as real,
                                                            cfg.intervalModifier)) as real))
      && d.interval >= 1.0
  {
  }

  /**
   * Relearning cards: Again quarters the interval again (at least a day),
   * Easy graduates with the easy bonus, Good and Hard advance and graduate
   * keeping the rounded interval once the table is exhausted.
   */
  lemma RelearningCardRules(cfg: Config, c: CardData, q: Quality, now: real, later: real)
    requires c.state == Relearning && 0 <= c.currentStep
    ensures var d := ScheduleCard(cfg, c, q, None, now, later).card;
      var steps := cfg.relearningSteps;
      && (q == Again ==> d.state == Relearning && d.currentStep == 0 && d.interval == Max(1.0, c.interval / 4.0)
                         && d.easeFactor == c.easeFactor)
      && (q == Easy ==> d.state == Review && d.interval == Max(1.0, Round(Times(c.interval, cfg.easyBonus)) as real)
                        && d.easeFactor == Min(cfg.maxEaseFactor, c.easeFactor + cfg.easyBonusEase))
      && ((q == Good || q == Hard) && c.currentStep + 1 < |steps| ==>
            d.state == Relearning && d.currentStep == c.currentStep + 1
            && d.interval == AnkiScheduler.MinutesToDays(steps[c.currentStep + 1]))
      && ((q == Good || q == Hard) && c.currentStep + 1 >= |steps| ==>
            d.state == Review && d.interval == Max(1.0, Round(c.interval) as real))
      && d.repetitions == c.repetitions && d.lapses == c.lapses
  {
  }

  /** Worked example: a 10-day Review card of ease 2.5 answered Hard goes to 12 days and ease 2.35. */
  lemma ReviewHardExample(c: CardData, now: real, later: real)
    requires c.state == Review && c.interval == 10.0 && c.easeFactor == 2.5 && c.lapses == 0
    ensures var d := ScheduleCard(DefaultConfig, c, Hard, None, now, later).card;
      d.state == Review && d.interval == 12.0 && d.easeFactor == 2.35
  {
    var m := Round(Times(10.0, 1.2));
    assert m == 12;
    assert Round(Times(12.0, 1.0)) == 12;
  }

  /** Worked example: the same card answered Again goes to Relearning at 2.5 days and ease 2.3. */
  lemma ReviewAgainExample(c: CardData, now: real, later: real)
    requires c.state == Review && c.interval == 10.0 && c.easeFactor == 2.5 && c.lapses == 0
    ensures var d := ScheduleCard(DefaultConfig, c, Again, None, now, later).card;
      d.state == Relearning && d.interval == 2.5 && d.easeFactor == 2.3 && d.lapses == 1
  {
  }

  /**
   * Every successful call leaves a positive interval (when the two configured
   * intervals are positive), so the next review lies strictly after the
   * clock reading it was computed from.
   */
  lemma IntervalPositive(cfg: Config, c: CardData, q: Quality, resp: Option<real>, now: real, later: real)
    requires StepReadsDefined(cfg, c, q)
    requires cfg.graduatingInterval > 0.0 && cfg.easyInterval > 0.0
    ensures var o := ScheduleCard(cfg, c, q, resp, now, later);
      o.result.Success? ==> o.card.interval > 0.0 && o.card.nextReview.value > later
  {
    var o := ScheduleCard(cfg, c, q, resp, now, later);
    if o.result.Success? {
      assert o.card.interval > 0.0;
      assert o.card.nextReview.value == later + o.card.interval * MsPerDay;
    }
  }

  /**
   * The ease never drops below the minimum, provided it starts there and the
   * configured ease values are ordered and the Easy bonus is not negative.
   */
  lemma EaseStaysAboveMinimum(cfg: Config, c: CardData, q: Quality, resp: Option<real>, now: real, later: real)
    requires StepReadsDefined(cfg, c, q)
    requires cfg.minEaseFactor <= cfg.startingEaseFactor && cfg.minEaseFactor <= cfg.maxEaseFactor
    requires 0.0 <= cfg.easyBonusEase
    requires c.easeFactor >= cfg.minEaseFactor
    ensures ScheduleCard(cfg, c, q, resp, now, later).card.easeFactor >= cfg.minEaseFactor
  {
  }

  /**
   * The ease never rises above the larger of the maximum and the Easy
   * graduation ease, when the penalties are not positive; the maximum alone
   * is not an upper bound.
   */
  lemma EaseStaysBelowCap(cfg: Config, c: CardData, q: Quality, resp: Option<real>, now: real, later: real)
    requires StepReadsDefined(cfg, c, q)
    requires cfg.startingEaseFactor <= cfg.maxEaseFactor && cfg.minEaseFactor <= cfg.maxEaseFactor
    requires cfg.againPenalty <= 0.0 && cfg.hardPenalty <= 0.0
    requires c.easeFactor <= Max(cfg.maxEaseFactor, cfg.startingEaseFactor + cfg.easyBonusEase)
    ensures ScheduleCard(cfg, c, q, resp, now, later).card.easeFactor
            <= Max(cfg.maxEaseFactor, cfg.startingEaseFactor + cfg.easyBonusEase)
  {
  }

  /** Under the defaults an Easy answer on a New card sets the ease to 2.65, above the 2.5 maximum. */
  lemma EasyGraduationExceedsMaximum(c: CardData, now: real, later: real)
    requires c.state == New
    ensures var d := ScheduleCard(DefaultConfig, c, Easy, None, now, later).card;
      d.easeFactor == 2.65 && d.easeFactor > DefaultConfig.maxEaseFactor
  {
  }

  /** `n` Good answers. */
  function Goods(n: nat): (qs: seq<Quality>)
    ensures |qs| == n && forall i :: 0 <= i < n ==> qs[i] == Good
  {
    seq(n, _ => Good)
  }

  /** The card after answering the grades `qs` in turn, all at the clock reading `now`. */
  function Replay(cfg: Config, c: CardData, qs: seq<Quality>, now: real): Result<CardData, ScheduleError>
    requires WellFormed(cfg, c)
    decreases |qs|
  {
    if qs == [] then Success(c)
    else
      ScheduleKeepsWellFormed(cfg, c, qs[0], None, now, now);
      var o := ScheduleCard(cfg, c, qs[0], None, now, now);
      if o.result.Failure? then Failure(o.result.error)
      else Replay(cfg, o.card, qs[1..], now)
  }

  /** Fewer Good answers than the remaining learning steps keep a Learning card in Learning, one step further each. */
  lemma {:induction false} GoodsAdvanceLearning(cfg: Config, c: CardData, k: nat, now: real)
    requires WellFormed(cfg, c) && c.state == Learning
    requires c.currentStep + k < |cfg.learningSteps|
    ensures var r := Replay(cfg, c, Goods(k), now);
      r.Success? && r.value.state == Learning && r.value.currentStep == c.currentStep + k
    decreases k
  {
    if k > 0 {
      var d := After(cfg, c, Good, now);
      LearningCardRules(cfg, c, Good, now, now);
      assert Goods(k)[1..] == Goods(k - 1);
      GoodsAdvanceLearning(cfg, d, k - 1, now);
    }
  }

  /**
   * As many Good answers as there are learning steps left graduate a Learning
   * card to Review with the graduating interval and the starting ease.
   */
  lemma {:induction false} GoodsGraduateLearning(cfg: Config, c: CardData, now: real)
    requires WellFormed(cfg, c) && c.state == Learning
    ensures var r := Replay(cfg, c, Goods(|cfg.learningSteps| - c.currentStep), now);
      && r.Success? && r.value.state == Review && r.value.interval == cfg.graduatingInterval
      && r.value.easeFactor == cfg.startingEaseFactor && r.value.repetitions == 1
    decreases |cfg.learningSteps| - c.currentStep
  {
    var n := |cfg.learningSteps| - c.currentStep;
    var d := After(cfg, c, Good, now);
    LearningCardRules(cfg, c, Good, now, now);
    assert Goods(n)[1..] == Goods(n - 1);
    if n > 1 {
      GoodsGraduateLearning(cfg, d, now);
    }
  }

  /**
   * From a New card, Good answers graduate it only after one more answer than
   * there are learning steps: the first Good enters step 0 without advancing.
   */
  lemma NewCardGraduation(cfg: Config, c: CardData, now: real)
    requires WellFormed(cfg, c) && c.state == New
    ensures var r := Replay(cfg, c, Goods(|cfg.learningSteps|), now);
      r.Success? && r.value.state == Learning && r.value.currentStep == |cfg.learningSteps| - 1
    ensures var r := Replay(cfg, c, Goods(|cfg.learningSteps| + 1), now);
      r.Success? && r.value.state == Review && r.value.interval == cfg.graduatingInterval
  {
    var n := |cfg.learningSteps|;
    var d := After(cfg, c, Good, now);
    NewCardRules(cfg, c, Good, now, now);
    assert Goods(n)[1..] == Goods(n - 1);
    assert Goods(n + 1)[1..] == Goods(n);
    GoodsAdvanceLearning(cfg, d, n - 1, now);
    GoodsGraduateLearning(cfg, d, now);
  }

  /** Under the defaults, a New card is still Learning after two Good answers and in Review after three. */
  lemma DefaultNewCardGraduation(c: CardData, now: real)
    requires c.state == New
    ensures var r := Replay(DefaultConfig, c, [Good, Good], now);
      r.Success? && r.value.state == Learning && r.value.currentStep == 1
    ensures var r := Replay(DefaultConfig, c, [Good, Good, Good], now);
      r.Success? && r.value.state == Review && r.value.interval == 1.0 && r.value.easeFactor == 2.5
  {
    NewCardGraduation(DefaultConfig, c, now);
    assert Goods(2) == [Good, Good];
    assert Goods(3) == [Good, Good, Good];
  }

  /** Lapses are counted only for Again on a Review card. */
  lemma LapsesCountOnlyReviewFailures(cfg: Config, c: CardData, q: Quality, resp: Option<real>, now: real, later: real)
    requires StepReadsDefined(cfg, c, q)
    ensures ScheduleCard(cfg, c, q, resp, now, later).card.lapses
            == c.lapses + (if c.state == Review && q == Again then 1 else 0)
  {
  }

  /**
   * Under the defaults the eighth lapse suspends the card, and scheduling a
   * Suspended card then fails while still counting the answer.
   */
  lemma LeechSuspension(c: CardData, now: real)
    requires c.state == Review && c.lapses == 7
    ensures var d := After(DefaultConfig, c, Again, now);
      && d.state == Suspended && d.lapses == 8
      && var o := ScheduleCard(DefaultConfig, d, Again, None, now, now);
         o.result.Failure? && o.result.error.Message() == "Unknown card state: suspended"
         && o.card.timesAnswered == c.timesAnswered + 2 && o.card.state == Suspended
  {
  }

  /** With the leech action set to tagging, a leech stays in Relearning. */
  lemma TaggedLeechKeepsRelearning(cfg: Config, c: CardData, now: real)
    requires c.state == Review && cfg.leechAction == Tag
    ensures After(cfg, c, Again, now).state == Relearning
  {
  }

  /**
   * A card that was just scheduled is due exactly from `interval` days after
   * the clock reading used for it, and so not at that reading itself when
   * the interval is positive.
   */
  lemma DueExactlyAfterInterval(cfg: Config, c: CardData, q: Quality, resp: Option<real>, now: real, later: real, t: real)
    requires StepReadsDefined(cfg, c, q)
    requires cfg.graduatingInterval > 0.0 && cfg.easyInterval > 0.0
    ensures var o := ScheduleCard(cfg, c, q, resp, now, later);
      o.result.Success? ==>
        && (AnkiScheduler.IsDue(o.card, t) <==> t >= later + o.card.interval * MsPerDay)
        && !AnkiScheduler.IsDue(o.card, later)
  {
    IntervalPositive(cfg, c, q, resp, now, later);
  }

  function UnitRank(u: IntervalUnit): nat
  {
    match u
    case Minutes => 0
    case Days => 1
    case Months => 2
    case Years => 3
  }

  /** A longer interval is never described in a smaller unit. */
  lemma IntervalUnitMonotone(a: real, b: real)
    requires a <= b
    ensures UnitRank(AnkiScheduler.IntervalDescription(a).unit) <= UnitRank(AnkiScheduler.IntervalDescription(b).unit)
  {
  }
}
