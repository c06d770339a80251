/**
 * The mastery counters of the dashboard statistics (app/api/stats/route.ts):
 * every review record is put in one of three buckets, globally and for its
 * topic, every topic's unseen questions are counted, and the progress,
 * mastery and accuracy percentages are derived. The database queries are
 * inputs: the user's records with their question's topic, the topics with
 * their question counts, and the total question count.
 */
module DashboardStats {
  import opened Wrappers
  import opened JsMath
  import opened StatRecord

  /** The bucket of a reviewed question. */
  datatype Level = Apprentice | Guru | Master

  /** One row of the records query: the record and its question's topic. */
  datatype StatRow = StatRow(stat: QuestionStat, topicId: int, topicName: string)

  /** A topic and the number of questions in it. */
  datatype TopicRow = TopicRow(id: int, name: string, questionCount: nat)

  /** The `{new, apprentice, guru, master}` counters; `unseen` is the source's `new`. */
  datatype Counts = Counts(unseen: int, apprentice: int, guru: int, master: int)
  {
    /** One more question in bucket `l`. */
    function Bump(l: Level): Counts
    {
      match l
      case Apprentice => this.(apprentice := apprentice + 1)
      case Guru => this.(guru := guru + 1)
      case Master => this.(master := master + 1)
    }
  }

  const Zero: Counts := Counts(0, 0, 0, 0)

  /** A record whose topic is not among the topics: the lookup fails and the route answers 500. */
  datatype StatsError = UnknownTopic(name: string)

  /** The computed part of the dashboard response. */
  datatype Dashboard = Dashboard(
    totalQuestions: nat,
    reviewedQuestions: nat,
    progressPercentage: Option<int>,
    masteryPercentage: int,
    masteryLevels: Counts,
    topicProgress: map<string, Counts>,
    correctAnswers: int,
    accuracy: Option<int>)

  /**
   * Master: three repetitions, ease at least 2.3, interval of three weeks or
   * more; guru: the same below three weeks; apprentice: everything else,
   * records without a repetition included.
   */
  function LevelOf(s: QuestionStat): (l: Level)
    ensures l == Master <==> s.repetitions >= 3 && s.easeFactor >= 2.3 && s.interval >= 21.0
    ensures l == Guru <==> s.repetitions >= 3 && s.easeFactor >= 2.3 && s.interval < 21.0
    ensures l == Apprentice <==> s.repetitions < 3 || s.easeFactor < 2.3
  {
    if s.repetitions >= 3 && s.easeFactor >= 2.3 && s.interval >= 21.0 then Master
    else if s.repetitions >= 3 && s.easeFactor >= 2.3 then Guru
    else Apprentice
  }

  /** The three buckets over `rows`: each row lands in exactly one, so they add up to the rows. */
  function Tally(rows: seq<StatRow>): (c: Counts)
    ensures c.unseen == 0
    ensures c.apprentice >= 0 && c.guru >= 0 && c.master >= 0
    ensures c.apprentice + c.guru + c.master == |rows|
  {
    if |rows| == 0 then Zero
    else Tally(rows[..|rows| - 1]).Bump(LevelOf(rows[|rows| - 1].stat))
  }

  /** The rows of topic `name`, in order. */
  function InTopic(rows: seq<StatRow>, name: string): seq<StatRow>
  {
    if |rows| == 0 then []
    else InTopic(rows[..|rows| - 1], name)
         + (if rows[|rows| - 1].topicName == name then [rows[|rows| - 1]] else [])
  }

  /** The names of the topics. */
  function TopicNames(topics: seq<TopicRow>): set<string>
  {
    set t | t in topics :: t.name
  }

  /** Every row's topic is one of the topics, so its counters exist. */
  predicate TopicsKnown(rows: seq<StatRow>, topics: seq<TopicRow>)
  {
    forall k | 0 <= k < |rows| :: rows[k].topicName in TopicNames(topics)
  }

  // ---------------------------------------------------------------------
  // Counting keys

  /** How often `k` occurs in `keys`. */
  function Count<K(==)>(keys: seq<K>, k: K): nat
  {
    if |keys| == 0 then 0
    else Count(keys[..|keys| - 1], k) + (if keys[|keys| - 1] == k then 1 else 0)
  }

  /** The occurrences in `keys` of each of `ks`, added up. */
  function CountSum<K(==)>(keys: seq<K>, ks: seq<K>): nat
  {
    if |ks| == 0 then 0 else CountSum(keys, ks[..|ks| - 1]) + Count(keys, ks[|ks| - 1])
  }

  predicate Distinct<K(==)>(ks: seq<K>)
  {
    forall i, j | 0 <= i < j < |ks| :: ks[i] != ks[j]
  }

  /** Adding a key adds one to the sum if it is among `ks`, once. */
  lemma {:induction false} CountSumStep<K>(keys: seq<K>, k: K, ks: seq<K>)
    requires Distinct(ks)
    ensures CountSum(keys + [k], ks) == CountSum(keys, ks) + (if k in ks then 1 else 0)
  {
    assert (keys + [k])[..|keys|] == keys;
    if |ks| > 0 {
      var init := ks[..|ks| - 1];
      assert Distinct(init);
      CountSumStep(keys, k, init);
      assert k in ks <==> k in init || k == ks[|ks| - 1];
      if k == ks[|ks| - 1] {
        assert k !in init;
      }
    }
  }

  /** Distinct keys that cover every key count each key once. */
  lemma {:induction false} CountSumCovers<K>(keys: seq<K>, ks: seq<K>)
    requires Distinct(ks)
    requires forall x | x in keys :: x in ks
    ensures CountSum(keys, ks) == |keys|
  {
    if |keys| == 0 {
      CountSumEmpty(ks);
    } else {
      var init := keys[..|keys| - 1];
      CountSumCovers(init, ks);
      CountSumStep(init, keys[|keys| - 1], ks);
      assert init + [keys[|keys| - 1]] == keys;
    }
  }

  lemma {:induction false} CountSumEmpty<K>(ks: seq<K>)
    ensures CountSum([], ks) == 0
  {
    if |ks| > 0 {
      CountSumEmpty(ks[..|ks| - 1]);
    }
  }

  function RowNames(rows: seq<StatRow>): seq<string>
  {
    seq(|rows|, i requires 0 <= i < |rows| => rows[i].topicName)
  }

  function RowIds(rows: seq<StatRow>): seq<int>
  {
    seq(|rows|, i requires 0 <= i < |rows| => rows[i].topicId)
  }

  function TopicIds(topics: seq<TopicRow>): seq<int>
  {
    seq(|topics|, i requires 0 <= i < |topics| => topics[i].id)
  }

  /** A topic's rows are as many as the occurrences of its name. */
  lemma {:induction false} InTopicSize(rows: seq<StatRow>, name: string)
    ensures |InTopic(rows, name)| == Count(RowNames(rows), name)
  {
    if |rows| > 0 {
      var init := rows[..|rows| - 1];
      InTopicSize(init, name);
      assert RowNames(rows)[..|rows| - 1] == RowNames(init);
    }
  }

  /**
   * Each record is counted in the buckets of its own topic only: over
   * distinct topic names that include every record's topic, the per-topic
   * buckets add up to all the records.
   */
  lemma TopicCountsCoverRows(rows: seq<StatRow>, names: seq<string>)
    requires Distinct(names)
    requires forall r | r in rows :: r.topicName in names
    ensures CountSum(RowNames(rows), names) == |rows|
    ensures forall name | name in names ::
              var c := Tally(InTopic(rows, name));
              c.apprentice + c.guru + c.master == Count(RowNames(rows), name)
  {
    forall x | x in RowNames(rows)
      ensures x in names
    {
      var i :| 0 <= i < |rows| && RowNames(rows)[i] == x;
      assert rows[i] in rows;
    }
    CountSumCovers(RowNames(rows), names);
    forall name | name in names
      ensures var c := Tally(InTopic(rows, name));
              c.apprentice + c.guru + c.master == Count(RowNames(rows), name)
    {
      InTopicSize(rows, name);
    }
  }

  // ---------------------------------------------------------------------
  // Unseen questions

  /** The records whose question belongs to topic `id`. */
  function Reviewed(rows: seq<StatRow>, id: int): nat
  {
    Count(RowIds(rows), id)
  }

  /** A topic's questions less its reviewed ones. */
  function NewIn(t: TopicRow, rows: seq<StatRow>): int
  {
    t.questionCount - Reviewed(rows, t.id)
  }

  /**
   * The global `new`: the per-topic differences, added up in topic order.
   * It never exceeds the topics' questions, and without records it is all
   * of them.
   */
  function TotalNew(topics: seq<TopicRow>, rows: seq<StatRow>): (n: int)
    ensures n <= QuestionSum(topics)
    ensures |rows| == 0 ==> n == QuestionSum(topics)
  {
    if |topics| == 0 then 0
    else TotalNew(topics[..|topics| - 1], rows) + NewIn(topics[|topics| - 1], rows)
  }

  /** A topic's `new`: that of the last topic of that name, 0 when there is none. */
  function TopicNew(topics: seq<TopicRow>, rows: seq<StatRow>, name: string): (n: int)
    ensures (forall k | 0 <= k < |topics| :: topics[k].name != name) ==> n == 0
    ensures forall k | 0 <= k < |topics| && topics[k].name == name && LastNamed(topics, k) ::
              n == NewIn(topics[k], rows)
  {
    if |topics| == 0 then 0
    else
      var last := |topics| - 1;
      if topics[last].name == name then
        assert forall k | 0 <= k < last && topics[k].name == name :: !LastNamed(topics, k);
        NewIn(topics[last], rows)
      else
        var init := topics[..last];
        assert forall k | 0 <= k < last && LastNamed(topics, k) :: LastNamed(init, k);
        TopicNew(init, rows, name)
  }

  /** No topic after position `k` has the name of `topics[k]`. */
  predicate LastNamed(topics: seq<TopicRow>, k: int)
    requires 0 <= k < |topics|
  {
    forall j | k < j < |topics| :: topics[j].name != topics[k].name
  }

  /** All questions of the topics. */
  function QuestionSum(topics: seq<TopicRow>): nat
  {
    if |topics| == 0 then 0 else QuestionSum(topics[..|topics| - 1]) + topics[|topics| - 1].questionCount
  }

  lemma {:induction false} TotalNewIsDifference(topics: seq<TopicRow>, rows: seq<StatRow>)
    ensures TotalNew(topics, rows) == QuestionSum(topics) - CountSum(RowIds(rows), TopicIds(topics))
  {
    if |topics| > 0 {
      var init := topics[..|topics| - 1];
      TotalNewIsDifference(init, rows);
      assert TopicIds(topics)[..|topics| - 1] == TopicIds(init);
    }
  }

  /**
   * When the topic ids are distinct and every record's question is in one of
   * the topics, the global `new` is the number of questions never reviewed.
   */
  lemma NewCountIsUnreviewed(topics: seq<TopicRow>, rows: seq<StatRow>)
    requires Distinct(TopicIds(topics))
    requires forall r | r in rows :: r.topicId in TopicIds(topics)
    ensures TotalNew(topics, rows) == QuestionSum(topics) - |rows|
  {
    TotalNewIsDifference(topics, rows);
    forall x | x in RowIds(rows)
      ensures x in TopicIds(topics)
    {
      var i :| 0 <= i < |rows| && RowIds(rows)[i] == x;
      assert rows[i] in rows;
    }
    CountSumCovers(RowIds(rows), TopicIds(topics));
  }

  // ---------------------------------------------------------------------
  // Percentages

  /**
   * `Math.round(reviewed / total * 100)` with no guard: with no questions
   * the quotient is NaN or Infinity, which the response carries as `null`.
   */
  function ProgressPercent(reviewed: nat, total: nat): (p: Option<int>)
    ensures p.None? <==> total == 0
  {
    if total == 0 then None else Some(Percent(reviewed, total))
  }

  /** Master and guru questions as a percentage of all, 0 without questions. */
  function MasteryPercent(mastered: int, total: nat): (p: int)
    ensures total == 0 ==> p == 0
  {
    if total > 0 then Percent(mastered, total) else 0
  }

  function SumCorrect(rows: seq<StatRow>): int
  {
    if |rows| == 0 then 0 else SumCorrect(rows[..|rows| - 1]) + rows[|rows| - 1].stat.timesCorrect
  }

  function SumAnswered(rows: seq<StatRow>): int
  {
    if |rows| == 0 then 0 else SumAnswered(rows[..|rows| - 1]) + rows[|rows| - 1].stat.timesAnswered
  }

  /**
   * Right answers as a percentage of all answers; 0 without records, and
   * `null` (NaN or Infinity) when records exist but none was answered.
   */
  function Accuracy(rows: seq<StatRow>): (a: Option<int>)
    ensures |rows| == 0 ==> a == Some(0)
    ensures a.None? <==> |rows| > 0 && SumAnswered(rows) == 0
  {
    if |rows| == 0 then Some(0)
    else if SumAnswered(rows) == 0 then None
    else Some(Percent(SumCorrect(rows), SumAnswered(rows)))
  }

  /** Record by record, right answers never exceed answers. */
  predicate Consistent(rows: seq<StatRow>)
  {
    forall r | r in rows :: 0 <= r.stat.timesCorrect <= r.stat.timesAnswered
  }

  lemma {:induction false} SumsOrdered(rows: seq<StatRow>)
    requires Consistent(rows)
    ensures 0 <= SumCorrect(rows) <= SumAnswered(rows)
  {
    if |rows| > 0 {
      var init := rows[..|rows| - 1];
      assert rows[|rows| - 1] in rows;
      assert Consistent(init) by {
        forall r | r in init ensures 0 <= r.stat.timesCorrect <= r.stat.timesAnswered {
          assert r in rows;
        }
      }
      SumsOrdered(init);
    }
  }

  /** With consistent records the accuracy, when defined, is a percentage. */
  lemma AccuracyInRange(rows: seq<StatRow>)
    requires Consistent(rows)
    ensures Accuracy(rows).Some? ==> 0 <= Accuracy(rows).value <= 100
  {
    SumsOrdered(rows);
    if |rows| > 0 && SumAnswered(rows) != 0 {
      PercentInRange(SumCorrect(rows), SumAnswered(rows));
    }
  }

  /**
   * The mastery percentage is a percentage as long as the mastered questions
   * are among all questions.
   */
  lemma MasteryPercentInRange(mastered: int, total: nat)
    requires 0 <= mastered <= total
    ensures 0 <= MasteryPercent(mastered, total) <= 100
  {
    if total > 0 {
      PercentInRange(mastered, total);
    }
  }

  // ---------------------------------------------------------------------
  // The route's counting

  /** Every topic name with its three buckets over `rows`. */
  function TopicTallies(rows: seq<StatRow>, names: set<string>): map<string, Counts>
  {
    map name | name in names :: Tally(InTopic(rows, name))
  }

  /** Every topic name with its buckets and its unseen count after the `topics` so far. */
  function TopicProgress(rows: seq<StatRow>, topics: seq<TopicRow>, names: set<string>): map<string, Counts>
  {
    map name | name in names :: Tally(InTopic(rows, name)).(unseen := TopicNew(topics, rows, name))
  }

  /** What the route computes from its query results when every topic is known. */
  function DashboardOf(totalQuestions: nat, rows: seq<StatRow>, topics: seq<TopicRow>): (d: Dashboard)
    ensures d.reviewedQuestions == |rows|
    ensures d.masteryLevels.apprentice + d.masteryLevels.guru + d.masteryLevels.master == |rows|
    ensures d.progressPercentage.None? <==> totalQuestions == 0
    ensures totalQuestions == 0 ==> d.masteryPercentage == 0
  {
    var levels := Tally(rows).(unseen := TotalNew(topics, rows));
    Dashboard(
      totalQuestions,
      |rows|,
      ProgressPercent(|rows|, totalQuestions),
      MasteryPercent(levels.master + levels.guru, totalQuestions),
      levels,
      TopicProgress(rows, topics, TopicNames(topics)),
      SumCorrect(rows),
      Accuracy(rows))
  }

  /** `topics.forEach(...)`: every topic name gets zero counters. */
  method InitProgress(topics: seq<TopicRow>) returns (progress: map<string, Counts>)
    ensures progress == TopicTallies([], TopicNames(topics))
  {
    progress := map[];
    var j := 0;
    while j < |topics|
      invariant 0 <= j <= |topics|
      invariant progress == TopicTallies([], TopicNames(topics[..j]))
    {
      assert TopicNames(topics[..j + 1]) == TopicNames(topics[..j]) + {topics[j].name} by {
        assert topics[..j + 1] == topics[..j] + [topics[j]];
      }
      progress := progress[topics[j].name := Zero];
      j := j + 1;
    }
    assert topics[..j] == topics;
  }

  /** A known topic for the next record extends a known prefix. */
  lemma TopicsKnownStep(rows: seq<StatRow>, i: nat, topics: seq<TopicRow>)
    requires i < |rows| && TopicsKnown(rows[..i], topics)
    requires rows[i].topicName in TopicNames(topics)
    ensures TopicsKnown(rows[..i + 1], topics)
  {
    var prefix := rows[..i + 1];
    forall k | 0 <= k < |prefix|
      ensures prefix[k].topicName in TopicNames(topics)
    {
      if k < i {
        assert prefix[k] == rows[..i][k];
      }
    }
  }

  /** One more record changes the tally of its own topic only, by its bucket. */
  lemma TallyInTopicStep(rows: seq<StatRow>, i: nat, name: string)
    requires i < |rows|
    ensures Tally(InTopic(rows[..i + 1], name)) ==
              if rows[i].topicName == name then Tally(InTopic(rows[..i], name)).Bump(LevelOf(rows[i].stat))
              else Tally(InTopic(rows[..i], name))
  {
    var prefix := rows[..i + 1];
    assert prefix[..i] == rows[..i];
    var before := InTopic(rows[..i], name);
    if rows[i].topicName == name {
      assert InTopic(prefix, name) == before + [rows[i]];
      assert (before + [rows[i]])[..|before|] == before;
    } else {
      assert InTopic(prefix, name) == before;
    }
  }

  lemma TopicTalliesStep(rows: seq<StatRow>, i: nat, names: set<string>)
    requires i < |rows| && rows[i].topicName in names
    ensures var before := TopicTallies(rows[..i], names); var name := rows[i].topicName;
      TopicTallies(rows[..i + 1], names) == before[name := before[name].Bump(LevelOf(rows[i].stat))]
  {
    var before := TopicTallies(rows[..i], names);
    var after := TopicTallies(rows[..i + 1], names);
    var updated := before[rows[i].topicName := before[rows[i].topicName].Bump(LevelOf(rows[i].stat))];
    forall name | name in names
      ensures after[name] == updated[name]
    {
      TallyInTopicStep(rows, i, name);
    }
    assert after.Keys == updated.Keys;
  }

  /**
   * `questionStats.forEach(...)`: bucket each record globally and under its
   * topic. The index of the first record whose topic has no counters is
   * returned in `unknown`; the route fails there.
   */
  method BucketRows(rows: seq<StatRow>, topics: seq<TopicRow>, start: map<string, Counts>)
    returns (levels: Counts, progress: map<string, Counts>, unknown: Option<nat>)
    requires start == TopicTallies([], TopicNames(topics))
    ensures unknown.None? <==> TopicsKnown(rows, topics)
    ensures unknown.Some? ==>
              unknown.value < |rows| && rows[unknown.value].topicName !in TopicNames(topics)
              && TopicsKnown(rows[..unknown.value], topics)
    ensures unknown.None? ==> levels == Tally(rows)
    ensures unknown.None? ==> progress == TopicTallies(rows, TopicNames(topics))
  {
    levels := Zero;
    progress := start;
    var i := 0;
    assert rows[..i] == [];
    while i < |rows|
      invariant 0 <= i <= |rows|
      invariant TopicsKnown(rows[..i], topics)
      invariant levels == Tally(rows[..i])
      invariant progress == TopicTallies(rows[..i], TopicNames(topics))
    {
      var row := rows[i];
      if row.topicName !in progress {
        return levels, progress, Some(i);
      }
      assert rows[..i + 1][..i] == rows[..i];
      var l := LevelOf(row.stat);
      levels := levels.Bump(l);
      progress := progress[row.topicName := progress[row.topicName].Bump(l)];
      TopicsKnownStep(rows, i, topics);
      TopicTalliesStep(rows, i, TopicNames(topics));
      i := i + 1;
    }
    assert rows[..i] == rows;
    unknown := None;
  }

  lemma TopicProgressStart(rows: seq<StatRow>, names: set<string>)
    ensures TopicProgress(rows, [], names) == TopicTallies(rows, names)
  {
  }

  lemma TopicProgressStep(rows: seq<StatRow>, topics: seq<TopicRow>, j: nat, names: set<string>)
    requires j < |topics| && topics[j].name in names
    ensures var before := TopicProgress(rows, topics[..j], names); var name := topics[j].name;
      TopicProgress(rows, topics[..j + 1], names)
      == before[name := before[name].(unseen := NewIn(topics[j], rows))]
  {
    assert topics[..j + 1][..j] == topics[..j];
  }

  lemma TotalNewStep(rows: seq<StatRow>, topics: seq<TopicRow>, j: nat)
    requires j < |topics|
    ensures TotalNew(topics[..j + 1], rows) == TotalNew(topics[..j], rows) + NewIn(topics[j], rows)
    ensures topics[j].name in TopicNames(topics)
  {
    assert topics[..j + 1][..j] == topics[..j];
    assert topics[j] in topics;
  }

  /**
   * `for (const topic of topics)`: each topic's unseen count is its
   * questions less its reviewed ones; it replaces the topic's `new` and is
   * added to the global one.
   */
  method CountNew(rows: seq<StatRow>, topics: seq<TopicRow>, bucketed: Counts, start: map<string, Counts>)
    returns (levels: Counts, progress: map<string, Counts>)
    requires bucketed == Tally(rows)
    requires start == TopicTallies(rows, TopicNames(topics))
    ensures levels == Tally(rows).(unseen := TotalNew(topics, rows))
    ensures progress == TopicProgress(rows, topics, TopicNames(topics))
  {
    levels := bucketed;
    progress := start;
    var j := 0;
    TopicProgressStart(rows, TopicNames(topics));
    assert topics[..j] == [];
    while j < |topics|
      invariant 0 <= j <= |topics|
      invariant levels == Tally(rows).(unseen := TotalNew(topics[..j], rows))
      invariant progress == TopicProgress(rows, topics[..j], TopicNames(topics))
    {
      var topic := topics[j];
      TotalNewStep(rows, topics, j);
      var newInTopic := NewIn(topic, rows);
      levels := levels.(unseen := levels.unseen + newInTopic);
      progress := progress[topic.name := progress[topic.name].(unseen := newInTopic)];
      TopicProgressStep(rows, topics, j, TopicNames(topics));
      j := j + 1;
    }
    assert topics[..j] == topics;
  }

  /**
   * The counting of the route: initialise every topic's counters, bucket each
   * record globally and under its topic, then set each topic's unseen count
   * and add it to the global one. A record of an unknown topic fails.
   */
  method ComputeDashboard(totalQuestions: nat, rows: seq<StatRow>, topics: seq<TopicRow>)
    returns (r: Result<Dashboard, StatsError>)
    ensures r.Success? <==> TopicsKnown(rows, topics)
    ensures r.Success? ==> r.value == DashboardOf(totalQuestions, rows, topics)
    ensures r.Failure? ==>
              exists k | 0 <= k < |rows| ::
                rows[k].topicName == r.error.name && r.error.name !in TopicNames(topics)
                && TopicsKnown(rows[..k], topics)
  {
    var progress := InitProgress(topics);
    var levels, unknown;
    levels, progress, unknown := BucketRows(rows, topics, progress);
    if unknown.Some? {
      return Failure(UnknownTopic(rows[unknown.value].topicName));
    }
    levels, progress := CountNew(rows, topics, levels, progress);
    var reviewed := |rows|;
    r := Success(Dashboard(
      totalQuestions,
      reviewed,
      ProgressPercent(reviewed, totalQuestions),
      MasteryPercent(levels.master + levels.guru, totalQuestions),
      levels,
      progress,
      SumCorrect(rows),
      Accuracy(rows)));
  }
}
