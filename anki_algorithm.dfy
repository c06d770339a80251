/**
 * The SM-2-derived scheduler of lib/anki-algorithm.ts.
 *
 * Each handler is specified by a function on a `CardData` snapshot; the
 * classes `Card` and `AnkiScheduler` carry out the same updates in place, as
 * the source does, and their methods are proved to agree with the functions.
 * Timestamps are milliseconds; the clock is read twice by the source (once
 * when `schedule` starts, once when the next review is computed) and both
 * readings are parameters here: `now` and `later`.
 */
module AnkiAlgorithm {
  import opened Wrappers
  import opened JsMath
  import opened AnkiConfig

  const MinutesPerDay: real := 1440.0
  const MsPerDay: real := 86400000.0

  /** A stored review record for one (user, question) pair. */
  datatype CardData = CardData(
    id: string,
    userId: string,
    questionId: int,
    timesAnswered: int,
    timesCorrect: int,
    lastAnswered: Option<real>,
    nextReview: Option<real>,
    easeFactor: real,
    interval: real,
    repetitions: int,
    state: CardState,
    currentStep: int,
    lapses: int,
    lastReviewDate: Option<real>)

  datatype Details = Details(quality: Quality, responseTime: Option<real>, applied: seq<Rule>)

  /** The audit record `schedule` returns. */
  datatype SchedulingResult = SchedulingResult(
    cardId: string,
    fromState: CardState,
    toState: CardState,
    prevInterval: real,
    nextInterval: real,
    nextReview: real,
    easeFactor: real,
    details: Details)

  /** The rules `schedule` records as having fired, in the order they fire. */
  datatype Rule =
    | AgainRestart
    | EaseBonus
    | EaseBonusEasy
    | EasePenaltyAgain
    | EasePenaltyHard
    | EasyBonusMultiplier
    | EasyGraduation
    | EasyGraduationFromLearning
    | EnteredLearning
    | FailedIntervalReduced4x
    | GoodStandardProgression
    | GraduatedToReview
    | HardIntervalMultiplier
    | IntervalModifier
    | LapseRecorded
    | LearningAgainRestart
    | LearningHardRepeat
    | LearningStepAdvanced
    | LeechDetected
    | LeechSuspended
    | RelearningAgainReduced4x
    | RelearningEasyGraduation
    | RelearningGraduated
    | RelearningStepAdvanced

  /** The tag each rule is recorded under. */
  function RuleTag(r: Rule): string
  {
    match r
    case AgainRestart => "again_restart"
    case EaseBonus => "ease_bonus"
    case EaseBonusEasy => "ease_bonus_easy"
    case EasePenaltyAgain => "ease_penalty_again"
    case EasePenaltyHard => "ease_penalty_hard"
    case EasyBonusMultiplier => "easy_bonus_multiplier"
    case EasyGraduation => "easy_graduation"
    case EasyGraduationFromLearning => "easy_graduation_from_learning"
    case EnteredLearning => "entered_learning"
    case FailedIntervalReduced4x => "failed_interval_reduced_4x"
    case GoodStandardProgression => "good_standard_progression"
    case GraduatedToReview => "graduated_to_review"
    case HardIntervalMultiplier => "hard_interval_multiplier"
    case IntervalModifier => "interval_modifier"
    case LapseRecorded => "lapse_recorded"
    case LearningAgainRestart => "learning_again_restart"
    case LearningHardRepeat => "learning_hard_repeat"
    case LearningStepAdvanced => "learning_step_advanced"
    case LeechDetected => "leech_detected"
    case LeechSuspended => "leech_suspended"
    case RelearningAgainReduced4x => "relearning_again_reduced_4x"
    case RelearningEasyGraduation => "relearning_easy_graduation"
    case RelearningGraduated => "relearning_graduated"
    case RelearningStepAdvanced => "relearning_step_advanced"
  }

  /** The error `schedule` throws for a state it has no handler for. */
  datatype ScheduleError = UnknownCardState(state: CardState)
  {
    function Message(): string
    {
      "Unknown card state: " + StateName(state)
    }
  }

  /** What one handler does: the updated card and the rule tags it pushes. */
  datatype Transition = Transition(card: CardData, applied: seq<Rule>)

  /** What `schedule` leaves behind: the card (updated even when it throws) and its result or error. */
  datatype Outcome = Outcome(card: CardData, result: Result<SchedulingResult, ScheduleError>)

  /** Sets `nextReview` to `interval` days after the clock reading `at`. */
  function WithNextReview(c: CardData, at: real): (d: CardData)
    ensures d.nextReview.Some? && d.nextReview.value - at == d.interval * MsPerDay
    ensures d.(nextReview := c.nextReview) == c
  {
    c.(nextReview := Some(at + c.interval * MsPerDay))
  }

  /**
   * The bookkeeping `schedule` does before dispatching on the state: one
   * more answer, one more right answer exactly for Good and Easy, both
   * timestamps set to `now`, and nothing else touched.
   */
  function Answered(c: CardData, q: Quality, now: real): (d: CardData)
    ensures d.timesAnswered == c.timesAnswered + 1
    ensures d.timesCorrect == c.timesCorrect + 1 <==> q == Good || q == Easy
    ensures q != Good && q != Easy ==> d.timesCorrect == c.timesCorrect
    ensures c.timesCorrect <= c.timesAnswered ==> d.timesCorrect <= d.timesAnswered
    ensures d.lastAnswered == d.lastReviewDate == Some(now)
    ensures d.(timesAnswered := c.timesAnswered, timesCorrect := c.timesCorrect,
               lastAnswered := c.lastAnswered, lastReviewDate := c.lastReviewDate) == c
  {
    c.(timesAnswered := c.timesAnswered + 1,
       lastAnswered := Some(now),
       lastReviewDate := Some(now),
       timesCorrect := if q.Value() >= Good.Value() then c.timesCorrect + 1 else c.timesCorrect)
  }

  /**
   * Every step-table read that scheduling `c` with grade `q` performs is in
   * bounds. Out of bounds the source reads `undefined` and the interval
   * becomes NaN, which this model does not represent.
   */
  predicate StepReadsDefined(cfg: Config, c: CardData, q: Quality)
  {
    match c.state
    case New => q != Easy ==> |cfg.learningSteps| > 0
    case Learning => LearningReadsDefined(cfg, c, q)
    case Relearning => RelearningReadsDefined(cfg, c, q)
    case _ => true
  }

  predicate LearningReadsDefined(cfg: Config, c: CardData, q: Quality)
  {
    && (q == Again ==> |cfg.learningSteps| > 0)
    && (q == Hard && c.currentStep > 0 ==> c.currentStep < |cfg.learningSteps|)
    && ((q == Good || (q == Hard && c.currentStep <= 0)) && c.currentStep + 1 < |cfg.learningSteps|
        ==> 0 <= c.currentStep + 1)
  }

  predicate RelearningReadsDefined(cfg: Config, c: CardData, q: Quality)
  {
    (q == Good || q == Hard) && c.currentStep + 1 < |cfg.relearningSteps| ==> 0 <= c.currentStep + 1
  }

  /**
   * `d` is `c` handled and rescheduled: same identity and answer counters,
   * and the next review falls `interval` days after the clock reading `at`.
   */
  predicate Rescheduled(c: CardData, d: CardData, at: real)
  {
    && d.id == c.id && d.userId == c.userId && d.questionId == c.questionId
    && d.timesAnswered == c.timesAnswered && d.timesCorrect == c.timesCorrect
    && d.lastAnswered == c.lastAnswered && d.lastReviewDate == c.lastReviewDate
    && d.nextReview == Some(at + d.interval * MsPerDay)
  }

  /**
   * `d` differs from `c` only in what a handler decides: identity, answer
   * counters, timestamps and the next review are untouched.
   */
  predicate SchedulingOnly(c: CardData, d: CardData)
  {
    && d.id == c.id && d.userId == c.userId && d.questionId == c.questionId
    && d.timesAnswered == c.timesAnswered && d.timesCorrect == c.timesCorrect
    && d.lastAnswered == c.lastAnswered && d.lastReviewDate == c.lastReviewDate
    && d.nextReview == c.nextReview
  }

  /** Direct graduation to Review on Easy, shared by New and Learning cards. */
  function GraduatedEasy(cfg: Config, c: CardData): CardData
  {
    c.(state := Review,
       interval := cfg.easyInterval,
       easeFactor := cfg.startingEaseFactor + cfg.easyBonusEase,
       repetitions := 1)
  }

  /** The card with its next review `interval` days after the clock reading `at`. */
  function Rescheduling(t: Transition, at: real): Transition
  {
    t.(card := WithNextReview(t.card, at))
  }

  /** What `handleNewCard` decides: Easy graduates, Good enters Learning, Hard and Again stay New at step 0. */
  function NewCardMove(cfg: Config, c: CardData, q: Quality): (t: Transition)
    requires q != Easy ==> |cfg.learningSteps| > 0
    ensures SchedulingOnly(c, t.card) && t.card.lapses == c.lapses
    ensures q == Easy ==> t.card.state == Review && t.card.interval == cfg.easyInterval && t.card.repetitions == 1
    ensures q == Good ==> t.card.state == Learning
    ensures q == Hard || q == Again ==> t.card.state == c.state
    ensures q != Easy ==> t.card.currentStep == 0 && t.card.interval > 0.0
  {
    if q == Easy then
      Transition(GraduatedEasy(cfg, c), [EasyGraduation, EaseBonus])
    else if q.Value() >= Good.Value() then
      Transition(c.(state := Learning, currentStep := 0,
                    interval := AnkiScheduler.MinutesToDays(cfg.learningSteps[0])),
                 [EnteredLearning])
    else
      Transition(c.(currentStep := 0, interval := AnkiScheduler.MinutesToDays(cfg.learningSteps[0])),
                 [AgainRestart])
  }

  /** `handleNewCard`: the move, then the next review. */
  function NewCardStep(cfg: Config, c: CardData, q: Quality, later: real): (t: Transition)
    requires q != Easy ==> |cfg.learningSteps| > 0
    ensures Rescheduled(c, t.card, later)
  {
    Rescheduling(NewCardMove(cfg, c, q), later)
  }

  /** What `handleLearningCard` decides: restart, graduate early, repeat, or advance through `learningSteps`. */
  function LearningCardMove(cfg: Config, c: CardData, q: Quality): (t: Transition)
    requires LearningReadsDefined(cfg, c, q)
    ensures SchedulingOnly(c, t.card) && t.card.lapses == c.lapses
    ensures LearningGraduates(cfg, c, q) ==> t.card.state == Review && t.card.repetitions == 1
    ensures !LearningGraduates(cfg, c, q) ==>
              t.card.state == c.state && 0 <= t.card.currentStep < |cfg.learningSteps| && t.card.interval > 0.0
  {
    var steps := cfg.learningSteps;
    if q == Again then
      Transition(c.(currentStep := 0, interval := AnkiScheduler.MinutesToDays(steps[0])),
                 [LearningAgainRestart])
    else if q == Easy then
      Transition(GraduatedEasy(cfg, c), [EasyGraduationFromLearning, EaseBonus])
    else if q == Hard && c.currentStep > 0 then
      Transition(c.(interval := AnkiScheduler.MinutesToDays(steps[c.currentStep])),
                 [LearningHardRepeat])
    else
      var step := c.currentStep + 1;
      if step >= |steps| then
        Transition(c.(currentStep := step, state := Review, interval := cfg.graduatingInterval,
                      easeFactor := cfg.startingEaseFactor, repetitions := 1),
                   [GraduatedToReview])
      else
        Transition(c.(currentStep := step, interval := AnkiScheduler.MinutesToDays(steps[step])),
                   [LearningStepAdvanced])
  }

  /** Whether `handleLearningCard` graduates the card: on Easy, or when Good (or Hard at step 0) runs past the last step. */
  predicate LearningGraduates(cfg: Config, c: CardData, q: Quality)
  {
    q == Easy || (q != Again && !(q == Hard && c.currentStep > 0) && c.currentStep + 1 >= |cfg.learningSteps|)
  }

  /** `handleLearningCard`: the move, then the next review. */
  function LearningCardStep(cfg: Config, c: CardData, q: Quality, later: real): (t: Transition)
    requires LearningReadsDefined(cfg, c, q)
    ensures Rescheduled(c, t.card, later)
  {
    Rescheduling(LearningCardMove(cfg, c, q), later)
  }

  /** The Again branch of `handleReviewCard`: a lapse, and possibly a leech. */
  function ReviewLapse(cfg: Config, c: CardData): (t: Transition)
    ensures SchedulingOnly(c, t.card)
    ensures t.card.lapses == c.lapses + 1 && t.card.currentStep == 0
    ensures t.card.state == Suspended <==> c.lapses + 1 >= cfg.leechThreshold && cfg.leechAction == Suspend
    ensures t.card.state != Suspended ==> t.card.state == Relearning
    ensures t.card.interval >= 1.0 && t.card.interval >= c.interval / 4.0
    ensures t.card.easeFactor >= cfg.minEaseFactor
  {
    var lapsed := c.(state := Relearning, currentStep := 0, lapses := c.lapses + 1,
                     easeFactor := Max(cfg.minEaseFactor, c.easeFactor + cfg.againPenalty),
                     interval := Max(1.0, c.interval / 4.0));
    var tags := [FailedIntervalReduced4x, EasePenaltyAgain, LapseRecorded];
    if lapsed.lapses >= cfg.leechThreshold then
      if cfg.leechAction == Suspend then
        Transition(lapsed.(state := Suspended), tags + [LeechDetected] + [LeechSuspended])
      else
        Transition(lapsed, tags + [LeechDetected])
    else
      Transition(lapsed, tags)
  }

  /** The Hard, Good and Easy branches of `handleReviewCard`, before the interval modifier. */
  function ReviewRecall(cfg: Config, c: CardData, q: Quality): (t: Transition)
    requires q != Again
    ensures SchedulingOnly(c, t.card)
    ensures t.card.state == c.state && t.card.lapses == c.lapses && t.card.repetitions == c.repetitions + 1
    ensures q == Hard ==> t.card.interval >= 1.0 && t.card.easeFactor >= cfg.minEaseFactor
    ensures q == Good ==> t.card.easeFactor == c.easeFactor
    ensures q == Easy ==> t.card.easeFactor <= cfg.maxEaseFactor
  {
    var oldInterval := c.interval;
    var c1 := c.(repetitions := c.repetitions + 1);
    if q == Hard then
      Transition(c1.(easeFactor := Max(cfg.minEaseFactor, c.easeFactor + cfg.hardPenalty),
                     interval := Max(1.0, Round(Times(oldInterval, cfg.hardIntervalMultiplier)) as real)),
                 [EasePenaltyHard, HardIntervalMultiplier])
    else if q == Easy then
      var ease := Min(cfg.maxEaseFactor, c.easeFactor + cfg.easyBonusEase);
      Transition(c1.(easeFactor := ease, interval := Round(Times(Times(oldInterval, ease), cfg.easyBonus)) as real),
                 [EaseBonusEasy, EasyBonusMultiplier])
    else
      Transition(c1.(interval := Round(Times(oldInterval, c.easeFactor)) as real), [GoodStandardProgression])
  }

  /** What `handleReviewCard` decides: a lapse, or a recall followed by the global interval modifier. */
  function ReviewCardMove(cfg: Config, c: CardData, q: Quality): (t: Transition)
    ensures SchedulingOnly(c, t.card) && t.card.interval >= 1.0
    ensures q == Again ==> t.card.lapses == c.lapses + 1 && t.card.state in {Relearning, Suspended}
    ensures q != Again ==>
              t.card.lapses == c.lapses && t.card.state == c.state && t.card.repetitions == c.repetitions + 1
  {
    if q == Again then ReviewLapse(cfg, c)
    else
      var r := ReviewRecall(cfg, c, q);
      Transition(r.card.(interval := Max(1.0, Round(Times(r.card.interval, cfg.intervalModifier)) as real)),
                 if cfg.intervalModifier != 1.0 then r.applied + [IntervalModifier] else r.applied)
  }

  /** `handleReviewCard`: the move, then the next review. */
  function ReviewCardStep(cfg: Config, c: CardData, q: Quality, later: real): (t: Transition)
    ensures Rescheduled(c, t.card, later)
  {
    Rescheduling(ReviewCardMove(cfg, c, q), later)
  }

  /** What `handleRelearningCard` decides: reduce again, graduate early, or advance through `relearningSteps`. */
  function RelearningCardMove(cfg: Config, c: CardData, q: Quality): (t: Transition)
    requires RelearningReadsDefined(cfg, c, q)
    ensures SchedulingOnly(c, t.card) && t.card.lapses == c.lapses
    ensures q == Again ==> t.card.state == c.state && t.card.currentStep == 0 && t.card.interval >= 1.0
    ensures q == Easy ==> t.card.state == Review && t.card.interval >= 1.0 && t.card.easeFactor <= cfg.maxEaseFactor
    ensures (q == Good || q == Hard) && c.currentStep + 1 >= |cfg.relearningSteps| ==>
              t.card.state == Review && t.card.interval >= 1.0
    ensures (q == Good || q == Hard) && c.currentStep + 1 < |cfg.relearningSteps| ==>
              t.card.state == c.state && 0 <= t.card.currentStep < |cfg.relearningSteps| && t.card.interval > 0.0
  {
    var steps := cfg.relearningSteps;
    if q == Again then
      Transition(c.(currentStep := 0, interval := Max(1.0, c.interval / 4.0)),
                 [RelearningAgainReduced4x])
    else if q == Easy then
      Transition(c.(state := Review,
                    interval := Max(1.0, Round(Times(c.interval, cfg.easyBonus)) as real),
                    easeFactor := Min(cfg.maxEaseFactor, c.easeFactor + cfg.easyBonusEase)),
                 [RelearningEasyGraduation, EaseBonus])
    else
      var step := c.currentStep + 1;
      if step >= |steps| then
        Transition(c.(currentStep := step, state := Review,
                      interval := Max(1.0, Round(c.interval * 1.0) as real)),
                   [RelearningGraduated])
      else
        Transition(c.(currentStep := step, interval := AnkiScheduler.MinutesToDays(steps[step])),
                   [RelearningStepAdvanced])
  }

  /** `handleRelearningCard`: the move, then the next review. */
  function RelearningCardStep(cfg: Config, c: CardData, q: Quality, later: real): (t: Transition)
    requires RelearningReadsDefined(cfg, c, q)
    ensures Rescheduled(c, t.card, later)
  {
    Rescheduling(RelearningCardMove(cfg, c, q), later)
  }

  /** The dispatch on the card's state; a Suspended card has no handler. */
  function Dispatch(cfg: Config, c: CardData, q: Quality, later: real): (t: Transition)
    requires c.state != Suspended
    requires StepReadsDefined(cfg, c, q)
    ensures Rescheduled(c, t.card, later)
  {
    match c.state
    case New => NewCardStep(cfg, c, q, later)
    case Learning => LearningCardStep(cfg, c, q, later)
    case Review => ReviewCardStep(cfg, c, q, later)
    case Relearning => RelearningCardStep(cfg, c, q, later)
  }

  /**
   * `schedule`: the counters are bumped first, then the card goes to its
   * state's handler; a Suspended card makes it throw, with the counters
   * already bumped.
   */
  function ScheduleCard(cfg: Config, c: CardData, q: Quality, responseTimeMs: Option<real>,
                        now: real, later: real): (o: Outcome)
    requires StepReadsDefined(cfg, c, q)
    ensures o.card.timesAnswered == c.timesAnswered + 1
    ensures o.card.timesCorrect == c.timesCorrect + (if q.Value() >= Good.Value() then 1 else 0)
    ensures o.card.lastAnswered == o.card.lastReviewDate == Some(now)
    ensures o.card.id == c.id && o.card.userId == c.userId && o.card.questionId == c.questionId
    ensures o.result.Failure? <==> c.state == Suspended
    ensures o.result.Failure? ==> o.card == Answered(c, q, now)
    ensures o.result.Success? ==>
      && o.card.nextReview == Some(later + o.card.interval * MsPerDay)
      && var r := o.result.value;
         && r.cardId == c.id && r.fromState == c.state && r.prevInterval == c.interval
         && r.toState == o.card.state && r.nextInterval == o.card.interval
         && r.nextReview == o.card.nextReview.value && r.easeFactor == o.card.easeFactor
         && r.details.quality == q && r.details.responseTime == responseTimeMs
  {
    var answered := Answered(c, q, now);
    if c.state == Suspended then
      Outcome(answered, Failure(UnknownCardState(c.state)))
    else
      var t := Dispatch(cfg, answered, q, later);
      Outcome(t.card, Success(SchedulingResult(c.id, c.state, t.card.state, c.interval, t.card.interval,
                                               t.card.nextReview.value, t.card.easeFactor,
                                               Details(q, responseTimeMs, t.applied))))
  }

  /**
   * A card record held by reference; `schedule` and its handlers update it in
   * place. The identity fields are never written by the scheduler.
   */
  class Card {
    const id: string
    const userId: string
    const questionId: int
    var timesAnswered: int
    var timesCorrect: int
    var lastAnswered: Option<real>
    var nextReview: Option<real>
    var easeFactor: real
    var interval: real
    var repetitions: int
    var state: CardState
    var currentStep: int
    var lapses: int
    var lastReviewDate: Option<real>

    constructor (d: CardData)
      ensures Data() == d
    {
      id, userId, questionId := d.id, d.userId, d.questionId;
      timesAnswered, timesCorrect := d.timesAnswered, d.timesCorrect;
      lastAnswered, nextReview := d.lastAnswered, d.nextReview;
      easeFactor, interval, repetitions := d.easeFactor, d.interval, d.repetitions;
      state, currentStep, lapses := d.state, d.currentStep, d.lapses;
      lastReviewDate := d.lastReviewDate;
    }

    /** The card's current field values. */
    function Data(): CardData
      reads this
    {
      CardData(id, userId, questionId, timesAnswered, timesCorrect, lastAnswered, nextReview,
               easeFactor, interval, repetitions, state, currentStep, lapses, lastReviewDate)
    }
  }

  class AnkiScheduler {
    const config: Config

    constructor (config: Config)
      ensures this.config == config
    {
      this.config := config;
    }

    /**
     * Records an answer of grade `quality` on `card`, moves the card through
     * the state machine and returns the audit record; fails on a Suspended card.
     */
    method Schedule(card: Card, quality: Quality, responseTimeMs: Option<real>, now: real, later: real)
      returns (r: Result<SchedulingResult, ScheduleError>)
      requires StepReadsDefined(config, card.Data(), quality)
      modifies card
      ensures Outcome(card.Data(), r) == ScheduleCard(config, old(card.Data()), quality, responseTimeMs, now, later)
    {
      var cardId, fromState, prevInterval := card.id, card.state, card.interval;

      card.timesAnswered := card.timesAnswered + 1;
      card.lastAnswered := Some(now);
      card.lastReviewDate := Some(now);
      if quality.Value() >= Good.Value() {
        card.timesCorrect := card.timesCorrect + 1;
      }
      ghost var answered := card.Data();
      assert answered == Answered(old(card.Data()), quality, now);

      var applied: seq<Rule>;
      match card.state {
        case New =>
          applied := HandleNewCard(card, quality, later);
          assert Transition(card.Data(), applied) == Dispatch(config, answered, quality, later);
        case Learning =>
          applied := HandleLearningCard(card, quality, later);
          assert Transition(card.Data(), applied) == Dispatch(config, answered, quality, later);
        case Review =>
          applied := HandleReviewCard(card, quality, later);
          assert Transition(card.Data(), applied) == Dispatch(config, answered, quality, later);
        case Relearning =>
          applied := HandleRelearningCard(card, quality, later);
          assert Transition(card.Data(), applied) == Dispatch(config, answered, quality, later);
        case Suspended =>
          return Failure(UnknownCardState(card.state));
      }

      r := Success(SchedulingResult(cardId, fromState, card.state, prevInterval, card.interval,
                                    card.nextReview.value, card.easeFactor,
                                    Details(quality, responseTimeMs, applied)));
    }

    method HandleNewCard(card: Card, quality: Quality, later: real) returns (applied: seq<Rule>)
      requires quality != Easy ==> |config.learningSteps| > 0
      modifies card
      ensures Transition(card.Data(), applied) == NewCardStep(config, old(card.Data()), quality, later)
    {
      ghost var before := card.Data();
      if quality == Easy {
        card.state := Review;
        card.interval := config.easyInterval;
        card.easeFactor := config.startingEaseFactor + config.easyBonusEase;
        card.repetitions := 1;
        applied := [EasyGraduation, EaseBonus];
        assert Transition(card.Data(), applied) == NewCardMove(config, before, quality);
      } else if quality.Value() >= Good.Value() {
        card.state := Learning;
        card.currentStep := 0;
        card.interval := MinutesToDays(config.learningSteps[0]);
        applied := [EnteredLearning];
        assert Transition(card.Data(), applied) == NewCardMove(config, before, quality);
      } else {
        card.currentStep := 0;
        card.interval := MinutesToDays(config.learningSteps[0]);
        applied := [AgainRestart];
        assert Transition(card.Data(), applied) == NewCardMove(config, before, quality);
      }
      UpdateNextReview(card, later);
    }

    method HandleLearningCard(card: Card, quality: Quality, later: real) returns (applied: seq<Rule>)
      requires LearningReadsDefined(config, card.Data(), quality)
      modifies card
      ensures Transition(card.Data(), applied) == LearningCardStep(config, old(card.Data()), quality, later)
    {
      ghost var before := card.Data();
      var steps := config.learningSteps;
      if quality == Again {
        card.currentStep := 0;
        card.interval := MinutesToDays(steps[0]);
        applied := [LearningAgainRestart];
        assert Transition(card.Data(), applied) == LearningCardMove(config, before, quality);
      } else if quality == Easy {
        card.state := Review;
        card.interval := config.easyInterval;
        card.easeFactor := config.startingEaseFactor + config.easyBonusEase;
        card.repetitions := 1;
        applied := [EasyGraduationFromLearning, EaseBonus];
        assert Transition(card.Data(), applied) == LearningCardMove(config, before, quality);
      } else if quality == Hard && card.currentStep > 0 {
        card.interval := MinutesToDays(steps[card.currentStep]);
        applied := [LearningHardRepeat];
        assert Transition(card.Data(), applied) == LearningCardMove(config, before, quality);
      } else {
        card.currentStep := card.currentStep + 1;
        if card.currentStep >= |steps| {
          card.state := Review;
          card.interval := config.graduatingInterval;
          card.easeFactor := config.startingEaseFactor;
          card.repetitions := 1;
          applied := [GraduatedToReview];
          assert Transition(card.Data(), applied) == LearningCardMove(config, before, quality);
        } else {
          card.interval := MinutesToDays(steps[card.currentStep]);
          applied := [LearningStepAdvanced];
          assert Transition(card.Data(), applied) == LearningCardMove(config, before, quality);
        }
      }
      UpdateNextReview(card, later);
    }

    /** The Again branch of `handleReviewCard`: record a lapse, and suspend or tag a leech. */
    method RecordLapse(card: Card) returns (applied: seq<Rule>)
      modifies card
      ensures Transition(card.Data(), applied) == ReviewLapse(config, old(card.Data()))
    {
      card.state := Relearning;
      card.currentStep := 0;
      card.lapses := card.lapses + 1;
      card.easeFactor := Max(config.minEaseFactor, card.easeFactor + config.againPenalty);
      card.interval := Max(1.0, card.interval / 4.0);
      applied := [FailedIntervalReduced4x, EasePenaltyAgain, LapseRecorded];
      if card.lapses >= config.leechThreshold {
        applied := applied + [LeechDetected];
        if config.leechAction == Suspend {
          card.state := Suspended;
          applied := applied + [LeechSuspended];
        }
      }
    }

    /** The Hard, Good and Easy branches of `handleReviewCard`, before the interval modifier. */
    method RecordRecall(card: Card, quality: Quality) returns (applied: seq<Rule>)
      requires quality != Again
      modifies card
      ensures Transition(card.Data(), applied) == ReviewRecall(config, old(card.Data()), quality)
    {
      var oldInterval := card.interval;
      card.repetitions := card.repetitions + 1;
      if quality == Hard {
        card.easeFactor := Max(config.minEaseFactor, card.easeFactor + config.hardPenalty);
        card.interval := Max(1.0, Round(Times(oldInterval, config.hardIntervalMultiplier)) as real);
        applied := [EasePenaltyHard, HardIntervalMultiplier];
      } else if quality == Easy {
        card.easeFactor := Min(config.maxEaseFactor, card.easeFactor + config.easyBonusEase);
        card.interval := Round(Times(Times(oldInterval, card.easeFactor), config.easyBonus)) as real;
        applied := [EaseBonusEasy, EasyBonusMultiplier];
      } else {
        card.interval := Round(Times(oldInterval, card.easeFactor)) as real;
        applied := [GoodStandardProgression];
      }
    }

    method HandleReviewCard(card: Card, quality: Quality, later: real) returns (applied: seq<Rule>)
      modifies card
      ensures Transition(card.Data(), applied) == ReviewCardStep(config, old(card.Data()), quality, later)
    {
      ghost var before := card.Data();
      if quality == Again {
        applied := RecordLapse(card);
      } else {
        applied := RecordRecall(card, quality);
        card.interval := Max(1.0, Round(Times(card.interval, config.intervalModifier)) as real);
        if config.intervalModifier != 1.0 {
          applied := applied + [IntervalModifier];
        }
      }
      assert Transition(card.Data(), applied) == ReviewCardMove(config, before, quality);
      UpdateNextReview(card, later);
    }

    method HandleRelearningCard(card: Card, quality: Quality, later: real) returns (applied: seq<Rule>)
      requires RelearningReadsDefined(config, card.Data(), quality)
      modifies card
      ensures Transition(card.Data(), applied) == RelearningCardStep(config, old(card.Data()), quality, later)
    {
      ghost var before := card.Data();
      var steps := config.relearningSteps;
      if quality == Again {
        card.currentStep := 0;
        card.interval := Max(1.0, card.interval / 4.0);
        applied := [RelearningAgainReduced4x];
        assert Transition(card.Data(), applied) == RelearningCardMove(config, before, quality);
      } else if quality == Easy {
        card.state := Review;
        card.interval := Max(1.0, Round(Times(card.interval, config.easyBonus)) as real);
        card.easeFactor := Min(config.maxEaseFactor, card.easeFactor + config.easyBonusEase);
        applied := [RelearningEasyGraduation, EaseBonus];
        assert Transition(card.Data(), applied) == RelearningCardMove(config, before, quality);
      } else {
        card.currentStep := card.currentStep + 1;
        if card.currentStep >= |steps| {
          card.state := Review;
          card.interval := Max(1.0, Round(card.interval * 1.0) as real);
          applied := [RelearningGraduated];
          assert Transition(card.Data(), applied) == RelearningCardMove(config, before, quality);
        } else {
          card.interval := MinutesToDays(steps[card.currentStep]);
          applied := [RelearningStepAdvanced];
          assert Transition(card.Data(), applied) == RelearningCardMove(config, before, quality);
        }
      }
      UpdateNextReview(card, later);
    }

    /** `minutesToDays`: a step length in days, never below 0.001 days. */
    static function MinutesToDays(minutes: real): (days: real)
      ensures days >= 0.001
      ensures days * MinutesPerDay >= minutes
      ensures minutes >= 1.44 ==> days * MinutesPerDay == minutes
      ensures minutes <= 1.44 ==> days == 0.001
    {
      Max(0.001, minutes / MinutesPerDay)
    }

    /** `updateNextReview`: the next review falls `interval` days after the clock reading `at`. */
    method UpdateNextReview(card: Card, at: real)
      modifies card`nextReview
      ensures card.nextReview == Some(at + card.interval * MsPerDay)
    {
      card.nextReview := Some(at + card.interval * MsPerDay);
    }

    /** `isDue`: a card never scheduled is due only if New; otherwise when its review time has come. */
    static function IsDue(card: CardData, now: real): (due: bool)
      ensures card.nextReview.None? ==> (due <==> card.state == New)
      ensures card.nextReview.Some? ==> (due <==> card.nextReview.value <= now)
    {
      match card.nextReview
      case None => card.state == New
      case Some(t) => t <= now
    }

    /** The unit `getIntervalDescription` picks for an interval, with the rounded amount. */
    static function IntervalDescription(interval: real): (d: IntervalText)
      ensures d.unit == Minutes <==> interval < 1.0
      ensures d.unit == Days <==> 1.0 <= interval < 30.0
      ensures d.unit == Months <==> 30.0 <= interval < 365.0
      ensures d.unit == Minutes && interval >= 0.0 ==> 0 <= d.amount <= 1440
      ensures d.unit == Days ==> 1 <= d.amount <= 30
      ensures d.unit == Months ==> 1 <= d.amount <= 12
      ensures d.unit == Years ==> d.amount >= 1
    {
      if interval < 1.0 then IntervalText(Round(interval * 24.0 * 60.0), Minutes)
      else if interval < 30.0 then IntervalText(Round(interval), Days)
      else if interval < 365.0 then IntervalText(Round(interval / 30.44), Months)
      else IntervalText(Round(interval / 365.25), Years)
    }
  }

  datatype IntervalUnit = Minutes | Days | Months | Years

  /** A rendered interval: an amount and its unit (`"10m"`, `"4d"`, `"3mo"`, `"1y"`). */
  datatype IntervalText = IntervalText(amount: int, unit: IntervalUnit)
}
