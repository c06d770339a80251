/**
 * The legacy SM-2 update of lib/spaced-repetition.ts: a pure function from a
 * review record and a grade to the next record and the day it falls due.
 * The clock is a parameter: `today` is the calendar day the update runs on.
 */
module SpacedRepetition {
  import opened JsMath
  import opened AnkiConfig

  /** The three numbers SM-2 keeps per card. */
  datatype ReviewData = ReviewData(easeFactor: real, interval: real, repetitions: int)

  /** The updated record and the calendar day of the next review. */
  datatype NextReview = NextReview(data: ReviewData, nextReviewDay: int)

  /** The lowest ease factor SM-2 allows. */
  const MinEase: real := 1.3

  /** The ease change before the floor: `0.1 - (3 - q) * (0.08 + (3 - q) * 0.02)`. */
  function EaseDelta(q: Quality): (delta: real)
    ensures q == Easy ==> delta == 0.1
    ensures q == Good ==> delta == 0.0
    ensures q == Hard ==> delta == -0.14
    ensures q == Again ==> delta == -0.32
  {
    var missing := (3 - q.Value()) as real;
    0.1 - missing * (0.08 + missing * 0.02)
  }

  /** The interval, in whole days, of a recalled card with `repetitions` earlier recalls. */
  function RecallInterval(current: ReviewData): (days: int)
    ensures current.repetitions == 0 ==> days == 1
    ensures current.repetitions == 1 ==> days == 6
    ensures current.repetitions != 0 && current.repetitions != 1 ==>
              days as real <= current.interval * current.easeFactor + 0.5 < days as real + 1.0
  {
    if current.repetitions == 0 then 1
    else if current.repetitions == 1 then 6
    else Round(Times(current.interval, current.easeFactor))
  }

  /**
   * `calculateNextReview`: a failed answer (below Good) restarts the card at a
   * one-day interval; a recalled one gets 1, 6, then the rounded product of
   * interval and the old ease, and one more repetition. The ease moves by
   * `EaseDelta` on every answer, failures included, and never drops below
   * 1.3. The next review is `interval` days after `today`.
   */
  function CalculateNextReview(current: ReviewData, q: Quality, today: int): (r: NextReview)
    ensures q.Value() < Good.Value() ==> r.data.repetitions == 0 && r.data.interval == 1.0
    ensures q.Value() >= Good.Value() ==>
              r.data.repetitions == current.repetitions + 1 && r.data.interval == RecallInterval(current) as real
    ensures r.data.easeFactor >= MinEase
    ensures r.data.easeFactor == MinEase || r.data.easeFactor == current.easeFactor + EaseDelta(q)
    ensures current.easeFactor + EaseDelta(q) >= MinEase ==> r.data.easeFactor == current.easeFactor + EaseDelta(q)
    ensures r.nextReviewDay as real == today as real + r.data.interval
  {
    var days: int := if q.Value() < Good.Value() then 1 else RecallInterval(current);
    var repetitions := if q.Value() < Good.Value() then 0 else current.repetitions + 1;
    var easeFactor := Max(MinEase, current.easeFactor + EaseDelta(q));
    NextReview(ReviewData(easeFactor, days as real, repetitions), today + days)
  }

  /**
   * A record whose ease is at least 1.3 and whose interval is at least a
   * day, as every record the update produces is.
   */
  predicate Healthy(d: ReviewData)
  {
    d.easeFactor >= MinEase && d.interval >= 1.0 && d.repetitions >= 0
  }

  /** One update keeps a record healthy: the interval stays at least a day. */
  lemma UpdateKeepsHealthy(current: ReviewData, q: Quality, today: int)
    requires Healthy(current)
    ensures Healthy(CalculateNextReview(current, q, today).data)
  {
    if q.Value() >= Good.Value() && current.repetitions > 1 {
      assert current.interval * current.easeFactor >= 1.0 * MinEase by {
        ProductAtLeast(current.interval, 1.0, current.easeFactor, MinEase);
      }
    }
  }

  lemma ProductAtLeast(a: real, a0: real, b: real, b0: real)
    requires a >= a0 >= 0.0 && b >= b0 >= 0.0
    ensures a * b >= a0 * b0
  {
    assert a * b - a0 * b0 == (a - a0) * b + a0 * (b - b0);
  }

  /** The record after answering `qs` in order, one day apart starting on `today`. */
  function Replay(d: ReviewData, qs: seq<Quality>, today: int): (r: ReviewData)
    decreases |qs|
  {
    if |qs| == 0 then d
    else Replay(CalculateNextReview(d, qs[0], today).data, qs[1..], today + 1)
  }

  /** Any sequence of answers keeps a healthy record healthy. */
  lemma {:induction false} ReplayKeepsHealthy(d: ReviewData, qs: seq<Quality>, today: int)
    requires Healthy(d)
    ensures Healthy(Replay(d, qs, today))
    decreases |qs|
  {
    if |qs| > 0 {
      UpdateKeepsHealthy(d, qs[0], today);
      ReplayKeepsHealthy(CalculateNextReview(d, qs[0], today).data, qs[1..], today + 1);
    }
  }

  /** A better grade never leaves a lower ease. */
  lemma EaseNonDecreasingInGrade(current: ReviewData, p: Quality, q: Quality, today: int)
    requires p.Value() <= q.Value()
    ensures CalculateNextReview(current, p, today).data.easeFactor
            <= CalculateNextReview(current, q, today).data.easeFactor
  {
  }

  /** Good keeps the ease; Easy raises it by 0.1; Hard and Again lower it, down to 1.3. */
  lemma EaseChanges(current: ReviewData, today: int)
    requires current.easeFactor >= MinEase
    ensures CalculateNextReview(current, Good, today).data.easeFactor == current.easeFactor
    ensures CalculateNextReview(current, Easy, today).data.easeFactor == current.easeFactor + 0.1
    ensures CalculateNextReview(current, Hard, today).data.easeFactor == Max(MinEase, current.easeFactor - 0.14)
    ensures CalculateNextReview(current, Again, today).data.easeFactor == Max(MinEase, current.easeFactor - 0.32)
  {
  }

  /** After a failure, the next recall starts the 1, 6, ... progression over. */
  lemma FailureRestartsProgression(current: ReviewData, fail: Quality, pass: Quality, today: int)
    requires fail.Value() < Good.Value() <= pass.Value()
    ensures var failed := CalculateNextReview(current, fail, today);
      var passed := CalculateNextReview(failed.data, pass, today + 1);
      && passed.data.repetitions == 1
      && passed.data.interval == 1.0
      && passed.nextReviewDay == today + 2
  {
  }

  /** Three Good answers on a fresh card: 1 day, then 6, then round(6 * 2.5) = 15, at an unchanged ease. */
  lemma GoodProgressionFromFreshCard(today: int)
    ensures var r1 := CalculateNextReview(ReviewData(2.5, 1.0, 0), Good, today);
      var r2 := CalculateNextReview(r1.data, Good, r1.nextReviewDay);
      var r3 := CalculateNextReview(r2.data, Good, r2.nextReviewDay);
      && r1.data == ReviewData(2.5, 1.0, 1) && r1.nextReviewDay == today + 1
      && r2.data == ReviewData(2.5, 6.0, 2) && r2.nextReviewDay == today + 7
      && r3.data == ReviewData(2.5, 15.0, 3) && r3.nextReviewDay == today + 22
  {
    assert Times(6.0, 2.5) == 15.0;
    assert Round(15.0) == 15;
  }
}
