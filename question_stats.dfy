/**
 * The mastery classification of one question on the question statistics
 * page (app/api/questions/stats/route.ts). The database lookup is an input:
 * `None` when the user has no record for the question.
 */
module QuestionStats {
  import opened Wrappers
  import opened StatRecord

  /** The page's four mastery levels. */
  datatype MasteryLevel = New | Apprentice | Guru | Master

  /** The computed part of the page's response. */
  datatype QuestionMastery = QuestionMastery(
    masteryLevel: MasteryLevel,
    masteryPercentage: int,
    isNew: bool)

  /**
   * The level of an existing record: `new` while it has no successful
   * repetition, then master (three repetitions, ease at least 2.3, an
   * interval of three weeks or more), guru (the same without the interval),
   * and apprentice otherwise.
   */
  function LevelOf(s: QuestionStat): (l: MasteryLevel)
    ensures l == New <==> s.repetitions == 0
    ensures l == Master <==>
              s.repetitions != 0 && s.repetitions >= 3 && s.easeFactor >= 2.3 && s.interval >= 21.0
    ensures l == Guru <==>
              s.repetitions != 0 && s.repetitions >= 3 && s.easeFactor >= 2.3 && s.interval < 21.0
  {
    if s.repetitions == 0 then New
    else if s.repetitions >= 3 && s.easeFactor >= 2.3 && s.interval >= 21.0 then Master
    else if s.repetitions >= 3 && s.easeFactor >= 2.3 then Guru
    else Apprentice
  }

  /** The level, the right-answer percentage and whether the question is unseen. */
  function Mastery(stat: Option<QuestionStat>): (m: QuestionMastery)
    ensures m.isNew <==> stat.None?
    ensures stat.None? ==> m.masteryLevel == New && m.masteryPercentage == 0
    ensures stat.Some? ==> m.masteryLevel == LevelOf(stat.value)
    ensures stat.Some? ==> m.masteryPercentage == AnsweredPercent(stat.value)
  {
    match stat
    case None => QuestionMastery(New, 0, true)
    case Some(s) => QuestionMastery(LevelOf(s), AnsweredPercent(s), false)
  }

  /**
   * A question with a record but no successful repetition is shown as new,
   * yet not flagged as unseen, and its percentage still counts its answers.
   */
  lemma AnsweredButNew(s: QuestionStat)
    requires s.repetitions == 0 && s.timesAnswered > 0 && s.timesCorrect == s.timesAnswered
    ensures Mastery(Some(s)).masteryLevel == New
    ensures !Mastery(Some(s)).isNew
    ensures Mastery(Some(s)).masteryPercentage == 100
  {
    PercentEnds(s.timesAnswered);
  }

  /** The percentage shown is always between 0 and 100 for a consistent record. */
  lemma MasteryPercentageInRange(stat: Option<QuestionStat>)
    requires stat.Some? ==> 0 <= stat.value.timesCorrect <= stat.value.timesAnswered
    ensures 0 <= Mastery(stat).masteryPercentage <= 100
  {
    if stat.Some? {
      AnsweredPercentInRange(stat.value);
    }
  }

  /** More interval never lowers the level of a record, all else equal. */
  lemma LevelMonotoneInInterval(s: QuestionStat, longer: real)
    requires s.interval <= longer
    ensures var t := s.(interval := longer);
      (LevelOf(s) == Master ==> LevelOf(t) == Master)
      && (LevelOf(t) == Apprentice <==> LevelOf(s) == Apprentice)
  {
  }
}
