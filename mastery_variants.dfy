/**
 * How the three classifications of one review record relate: the dashboard
 * buckets (app/api/stats/route.ts), the question page levels
 * (app/api/questions/stats/route.ts) and the browse list statuses
 * (app/api/questions/all/route.ts).
 */
module MasteryVariants {
  import opened Wrappers
  import opened StatRecord
  import DashboardStats
  import QuestionStats
  import BrowseQuestions

  /** The question page's level for a dashboard bucket. */
  function PageLevel(l: DashboardStats.Level): QuestionStats.MasteryLevel
  {
    match l
    case Apprentice => QuestionStats.Apprentice
    case Guru => QuestionStats.Guru
    case Master => QuestionStats.Master
  }

  /**
   * The dashboard and the question page agree on every record with a
   * repetition; a record without one is an apprentice on the dashboard but
   * new on the question page.
   */
  lemma DashboardMatchesQuestionPage(s: QuestionStat)
    ensures s.repetitions != 0 ==>
              QuestionStats.LevelOf(s) == PageLevel(DashboardStats.LevelOf(s))
    ensures s.repetitions == 0 ==>
              QuestionStats.LevelOf(s) == QuestionStats.New
              && DashboardStats.LevelOf(s) == DashboardStats.Apprentice
  {
  }

  /**
   * The browse list's statuses against the dashboard buckets: a master is
   * mature and a guru is still learning, but a mature record is a master
   * only with three repetitions and an ease of at least 2.3, since the list
   * ignores both.
   */
  lemma BrowseStatusAgainstBuckets(s: QuestionStat)
    ensures DashboardStats.LevelOf(s) == DashboardStats.Master ==>
              BrowseQuestions.StatusOf(Some(s)) == BrowseQuestions.Mature
    ensures DashboardStats.LevelOf(s) == DashboardStats.Guru ==>
              BrowseQuestions.StatusOf(Some(s)) == BrowseQuestions.Learning
    ensures BrowseQuestions.StatusOf(Some(s)) == BrowseQuestions.Mature ==>
              (DashboardStats.LevelOf(s) == DashboardStats.Master <==> s.repetitions >= 3 && s.easeFactor >= 2.3)
  {
  }

  /** A mature record with a low ease: mature in the list, apprentice on the dashboard and page. */
  lemma MatureApprentice()
    ensures var s := QuestionStat(5, 1.3, 30.0, 5, 5);
      && BrowseQuestions.StatusOf(Some(s)) == BrowseQuestions.Mature
      && DashboardStats.LevelOf(s) == DashboardStats.Apprentice
      && QuestionStats.LevelOf(s) == QuestionStats.Apprentice
  {
  }

  /** The question page and the browse list show the same right-answer percentage. */
  lemma PercentagesAgree(q: BrowseQuestions.Question)
    ensures BrowseQuestions.Summarize(q).masteryLevel
            == QuestionStats.Mastery(BrowseQuestions.Progress(q)).masteryPercentage
  {
  }
}
