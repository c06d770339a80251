/**
 * The per-question record of the browse list (app/api/questions/all/route.ts):
 * a learning status, a mastery percentage and the answer line, built from a
 * question and the user's review record for it. The query result is an
 * input: each question carries the records the query attached to it.
 */
module BrowseQuestions {
  import opened Wrappers
  import opened StatRecord

  /** The browse list's three learning statuses. */
  datatype LearningStatus = New | Learning | Mature

  /** A question as the query returns it, with its user's records. */
  datatype Question = Question(
    id: int,
    refId: string,
    questionText: string,
    topicName: string,
    optionA: string,
    optionB: string,
    optionC: string,
    optionD: string,
    correctAnswer: string,
    explanation: Option<string>,
    stats: seq<QuestionStat>)

  /** One entry of the list. */
  datatype QuestionSummary = QuestionSummary(
    id: int,
    refId: string,
    question: string,
    answer: string,
    topic: string,
    learningStatus: LearningStatus,
    masteryLevel: int,
    repetitions: int,
    interval: real,
    timesCorrect: int,
    timesAnswered: int)

  /** The user's record for the question: the first one attached, if any. */
  function Progress(q: Question): (p: Option<QuestionStat>)
    ensures p.None? <==> |q.stats| == 0
    ensures p.Some? ==> p.value == q.stats[0]
  {
    if |q.stats| > 0 then Some(q.stats[0]) else None
  }

  /** New without a successful repetition, learning below 21 days, mature from there. */
  function StatusOf(progress: Option<QuestionStat>): (st: LearningStatus)
    ensures st == New <==> progress.None? || progress.value.repetitions == 0
    ensures st == Learning <==> progress.Some? && progress.value.repetitions != 0 && progress.value.interval < 21.0
    ensures st == Mature <==> progress.Some? && progress.value.repetitions != 0 && progress.value.interval >= 21.0
  {
    match progress
    case None => New
    case Some(s) =>
      if s.repetitions == 0 then New
      else if s.interval < 21.0 then Learning
      else Mature
  }

  /**
   * The text of the correct option: the option named by the letter when it
   * is one of A to D and its text is not empty, otherwise the letter itself.
   */
  function OptionText(q: Question): (text: string)
    ensures q.correctAnswer == "A" && q.optionA != "" ==> text == q.optionA
    ensures q.correctAnswer == "B" && q.optionB != "" ==> text == q.optionB
    ensures q.correctAnswer == "C" && q.optionC != "" ==> text == q.optionC
    ensures q.correctAnswer == "D" && q.optionD != "" ==> text == q.optionD
    ensures NamesEmptyOption(q) || q.correctAnswer !in ["A", "B", "C", "D"] ==> text == q.correctAnswer
  {
    var named :=
      if q.correctAnswer == "A" then q.optionA
      else if q.correctAnswer == "B" then q.optionB
      else if q.correctAnswer == "C" then q.optionC
      else if q.correctAnswer == "D" then q.optionD
      else "";
    if named != "" then named else q.correctAnswer
  }

  /** The letter picks one of the four options, and that option's text is empty. */
  predicate NamesEmptyOption(q: Question)
  {
    || (q.correctAnswer == "A" && q.optionA == "")
    || (q.correctAnswer == "B" && q.optionB == "")
    || (q.correctAnswer == "C" && q.optionC == "")
    || (q.correctAnswer == "D" && q.optionD == "")
  }

  /** `" - <explanation>"` when there is a non-empty explanation, else nothing. */
  function ExplanationSuffix(q: Question): (suffix: string)
    ensures suffix == "" <==> q.explanation.None? || q.explanation.value == ""
    ensures suffix != "" ==> suffix == " - " + q.explanation.value
  {
    if q.explanation.Some? && q.explanation.value != "" then " - " + q.explanation.value else ""
  }

  /** `"<letter>: <option text>"`, then the explanation suffix. */
  function Answer(q: Question): (a: string)
    ensures var head := q.correctAnswer + ": ";
      |a| >= |head| + |OptionText(q)| && a[..|head|] == head && a[|head|..|head| + |OptionText(q)|] == OptionText(q)
    ensures |a| == |q.correctAnswer| + 2 + |OptionText(q)| + |ExplanationSuffix(q)|
  {
    var head := q.correctAnswer + ": ";
    var a := head + OptionText(q) + ExplanationSuffix(q);
    assert a[..|head|] == head;
    assert a[|head|..|head| + |OptionText(q)|] == OptionText(q);
    a
  }

  /** The list entry of one question; counters default to 0 without a record. */
  function Summarize(q: Question): (r: QuestionSummary)
    ensures r.id == q.id && r.refId == q.refId && r.question == q.questionText && r.topic == q.topicName
    ensures r.learningStatus == StatusOf(Progress(q))
    ensures r.answer == Answer(q)
  {
    var progress := Progress(q);
    match progress
    case None =>
      QuestionSummary(q.id, q.refId, q.questionText, Answer(q), q.topicName, New, 0, 0, 0.0, 0, 0)
    case Some(s) =>
      QuestionSummary(q.id, q.refId, q.questionText, Answer(q), q.topicName,
        StatusOf(progress), AnsweredPercent(s), s.repetitions, s.interval, s.timesCorrect, s.timesAnswered)
  }

  /** `questions.map(...)`: one entry per question, in the query's order. */
  function SummarizeAll(qs: seq<Question>): (rs: seq<QuestionSummary>)
    ensures |rs| == |qs|
    ensures forall i | 0 <= i < |qs| :: rs[i] == Summarize(qs[i])
  {
    if |qs| == 0 then [] else [Summarize(qs[0])] + SummarizeAll(qs[1..])
  }

  /** Without a record a question is new, at 0 percent, with every counter 0. */
  lemma UnseenDefaults(q: Question)
    requires |q.stats| == 0
    ensures var r := Summarize(q);
      && r.learningStatus == New && r.masteryLevel == 0
      && r.repetitions == 0 && r.interval == 0.0 && r.timesCorrect == 0 && r.timesAnswered == 0
  {
  }

  /** With a record the counters are the record's, and the level its right-answer percentage. */
  lemma SeenReportsRecord(q: Question)
    requires |q.stats| > 0
    ensures var r := Summarize(q); var s := q.stats[0];
      && r.masteryLevel == AnsweredPercent(s)
      && r.repetitions == s.repetitions && r.interval == s.interval
      && r.timesCorrect == s.timesCorrect && r.timesAnswered == s.timesAnswered
  {
  }

  /**
   * The status depends on repetitions and interval only: two records that
   * agree on those get the same status, whatever their ease factors.
   */
  lemma StatusIgnoresEase(s: QuestionStat, t: QuestionStat)
    requires s.repetitions == t.repetitions && s.interval == t.interval
    ensures StatusOf(Some(s)) == StatusOf(Some(t))
  {
  }

  /** The three statuses, by repetitions and interval. */
  lemma StatusCases(s: QuestionStat)
    ensures StatusOf(Some(s)) == New <==> s.repetitions == 0
    ensures StatusOf(Some(s)) == Learning <==> s.repetitions != 0 && s.interval < 21.0
    ensures StatusOf(Some(s)) == Mature <==> s.repetitions != 0 && s.interval >= 21.0
  {
  }

  /**
   * The answer line starts with the letter and `": "`, names the option
   * text when the letter picks a non-empty option, and otherwise repeats the
   * letter; it ends with the explanation when there is one.
   */
  lemma AnswerShape(q: Question)
    ensures var a := Answer(q); var head := q.correctAnswer + ": ";
      && |a| >= |head| && a[..|head|] == head
      && (q.correctAnswer == "A" && q.optionA != "" ==> a[|head|..|head| + |q.optionA|] == q.optionA)
      && (q.correctAnswer == "B" && q.optionB != "" ==> a[|head|..|head| + |q.optionB|] == q.optionB)
      && (q.correctAnswer == "C" && q.optionC != "" ==> a[|head|..|head| + |q.optionC|] == q.optionC)
      && (q.correctAnswer == "D" && q.optionD != "" ==> a[|head|..|head| + |q.optionD|] == q.optionD)
      && (NamesEmptyOption(q) || q.correctAnswer !in ["A", "B", "C", "D"] ==>
            a[|head|..|head| + |q.correctAnswer|] == q.correctAnswer)
      && (q.explanation.Some? && q.explanation.value != "" ==>
            var e := " - " + q.explanation.value; |a| >= |e| && a[|a| - |e|..] == e)
      && ((q.explanation.None? || q.explanation.value == "") ==>
            a == head + OptionText(q))
  {
    var head := q.correctAnswer + ": ";
    var text := OptionText(q);
    var a := Answer(q);
    assert a == head + text + ExplanationSuffix(q);
    assert a[..|head|] == head;
    assert a[|head|..|head| + |text|] == text;
  }

  /** Examples: option B named, an empty option falling back to its letter, an unknown letter. */
  lemma AnswerExamples()
    ensures Answer(Question(1, "r", "q", "t", "x", "yes", "z", "w", "B", Some("why"), [])) == "B: yes - why"
    ensures Answer(Question(1, "r", "q", "t", "", "y", "z", "w", "A", None, [])) == "A: A"
    ensures Answer(Question(1, "r", "q", "t", "x", "y", "z", "w", "E", Some(""), [])) == "E: E"
  {
  }
}
