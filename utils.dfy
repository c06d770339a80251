/**
 * The two helpers of lib/utils.ts the study flow relies on: rendering a
 * duration as a clock string, and counting the run of consecutive study
 * days that ends today.
 */
module Utils {
  import opened Wrappers

  // ---------------------------------------------------------------------
  // Decimal digits

  predicate IsDigit(c: char)
  {
    '0' <= c <= '9'
  }

  predicate AllDigits(s: string)
  {
    forall i | 0 <= i < |s| :: IsDigit(s[i])
  }

  function DigitChar(d: nat): (c: char)
    requires d < 10
    ensures IsDigit(c)
  {
    "0123456789"[d]
  }

  function DigitValue(c: char): nat
    requires IsDigit(c)
  {
    (c as int - '0' as int) as nat
  }

  /** `n.toString()`: the decimal numeral of `n`, without leading zeros. */
  function NatToString(n: nat): (s: string)
    ensures 1 <= |s| && AllDigits(s)
    ensures |s| > 1 ==> s[0] != '0'
    decreases n
  {
    if n < 10 then [DigitChar(n)] else NatToString(n / 10) + [DigitChar(n % 10)]
  }

  /** The number a string of decimal digits denotes (the empty string denotes 0). */
  function DigitsValue(s: string): nat
    requires AllDigits(s)
    decreases |s|
  {
    if |s| == 0 then 0 else DigitsValue(s[..|s| - 1]) * 10 + DigitValue(s[|s| - 1])
  }

  /** Reading a numeral back gives the number. */
  lemma {:induction false} NatToStringRoundTrip(n: nat)
    ensures DigitsValue(NatToString(n)) == n
    decreases n
  {
    var s := NatToString(n);
    if n >= 10 {
      NatToStringRoundTrip(n / 10);
      assert s[..|s| - 1] == NatToString(n / 10);
    }
  }

  /** A leading zero does not change the value. */
  lemma {:induction false} LeadingZero(s: string)
    requires AllDigits(s)
    ensures AllDigits("0" + s) && DigitsValue("0" + s) == DigitsValue(s)
    decreases |s|
  {
    var t := "0" + s;
    assert AllDigits(t) by {
      forall i | 0 <= i < |t| ensures IsDigit(t[i]) {
        if i > 0 { assert t[i] == s[i - 1]; }
      }
    }
    if |s| > 0 {
      assert t[..|t| - 1] == "0" + s[..|s| - 1];
      LeadingZero(s[..|s| - 1]);
    }
  }

  /** `n.toString().padStart(2, '0')` for `n < 100`: exactly two digits. */
  function Pad2(n: nat): (s: string)
    requires n < 100
    ensures |s| == 2 && AllDigits(s) && DigitsValue(s) == n
  {
    NatToStringRoundTrip(n);
    if n < 10 then
      LeadingZero(NatToString(n));
      "0" + NatToString(n)
    else NatToString(n)
  }

  // ---------------------------------------------------------------------
  // formatTime

  /** The hours, minutes and seconds `formatTime` shows. */
  datatype Clock = Clock(hours: nat, minutes: nat, secs: nat)

  /** `Math.floor(s / 3600)`, `Math.floor((s % 3600) / 60)` and `s % 60`. */
  function Split(seconds: nat): (c: Clock)
    ensures c.hours * 3600 + c.minutes * 60 + c.secs == seconds
    ensures c.minutes < 60 && c.secs < 60
  {
    Clock(seconds / 3600, (seconds % 3600) / 60, seconds % 60)
  }

  /** A duration split into hours, minutes below 60 and seconds below 60 is split uniquely. */
  lemma SplitUnique(seconds: nat, c: Clock)
    requires c.hours * 3600 + c.minutes * 60 + c.secs == seconds
    requires c.minutes < 60 && c.secs < 60
    ensures c == Split(seconds)
  {
    var d := Split(seconds);
    assert (c.hours - d.hours) * 3600 == (d.minutes - c.minutes) * 60 + (d.secs - c.secs);
    assert c.hours == d.hours;
    assert (c.minutes - d.minutes) * 60 == d.secs - c.secs;
  }

  /** The clock string: `"h:mm:ss"` with at least an hour, else `"m:ss"` with the minutes unpadded. */
  function Render(c: Clock): (r: string)
    requires c.minutes < 60 && c.secs < 60
    ensures c.hours > 0 ==> |r| == |NatToString(c.hours)| + 6
    ensures c.hours == 0 ==> |r| == |NatToString(c.minutes)| + 3
  {
    if c.hours > 0 then NatToString(c.hours) + ":" + Pad2(c.minutes) + ":" + Pad2(c.secs)
    else NatToString(c.minutes) + ":" + Pad2(c.secs)
  }

  /**
   * `formatTime`: the duration split into hours, minutes and seconds,
   * rendered; the hours or the leading minutes take as many digits as they
   * need, every later field exactly two.
   */
  function FormatTime(seconds: nat): (r: string)
    ensures seconds >= 3600 ==> |r| == |NatToString(seconds / 3600)| + 6
    ensures seconds < 3600 ==> |r| == |NatToString(seconds / 60)| + 3
  {
    Render(Split(seconds))
  }

  /** The position of the first ':' in `s`, if any. */
  function FirstColon(s: string): (r: Option<nat>)
    ensures r.Some? ==> r.value < |s| && s[r.value] == ':'
  {
    if |s| == 0 then None
    else if s[0] == ':' then Some(0)
    else
      var r := FirstColon(s[1..]);
      if r.None? then None else Some(r.value + 1)
  }

  /** The first ':' is the one with none before it. */
  lemma {:induction false} FirstColonAt(s: string, k: nat)
    requires k < |s| && s[k] == ':' && ':' !in s[..k]
    ensures FirstColon(s) == Some(k)
    decreases k
  {
    if k > 0 {
      assert s[0] == s[..k][0];
      assert s[1..][..k - 1] == s[1..k];
      assert ':' !in s[1..][..k - 1] by {
        assert forall c | c in s[1..k] :: c in s[..k];
      }
      FirstColonAt(s[1..], k - 1);
    }
  }

  /** The ':'-separated fields of `s`. */
  function Fields(s: string): (fs: seq<string>)
    ensures |fs| >= 1
    decreases |s|
  {
    var i := FirstColon(s);
    if i.None? then [s] else [s[..i.value]] + Fields(s[i.value + 1..])
  }

  lemma FieldsOfJoin(a: string, rest: string)
    requires ':' !in a
    ensures Fields(a + ":" + rest) == [a] + Fields(rest)
  {
    var s := a + ":" + rest;
    assert s[..|a|] == a;
    FirstColonAt(s, |a|);
    assert s[|a| + 1..] == rest;
  }

  lemma DigitsHaveNoColon(s: string)
    requires AllDigits(s)
    ensures ':' !in s
  {
    forall i | 0 <= i < |s| ensures s[i] != ':' {
      assert IsDigit(s[i]);
    }
  }

  /** A non-empty string of decimal digits. */
  predicate Numeral(f: string)
  {
    |f| > 0 && AllDigits(f)
  }

  /** The seconds denoted by `[h, mm, ss]` or `[m, ss]`. */
  function ParseFields(fs: seq<string>): Option<nat>
  {
    if |fs| == 3 && Numeral(fs[0]) && Numeral(fs[1]) && Numeral(fs[2]) then
      Some(DigitsValue(fs[0]) * 3600 + DigitsValue(fs[1]) * 60 + DigitsValue(fs[2]))
    else if |fs| == 2 && Numeral(fs[0]) && Numeral(fs[1]) then
      Some(DigitsValue(fs[0]) * 60 + DigitsValue(fs[1]))
    else None
  }

  /** Reads a `"h:mm:ss"` or `"m:ss"` clock string back into seconds. */
  function ParseClock(s: string): Option<nat>
  {
    ParseFields(Fields(s))
  }

  lemma FieldsOfTwo(a: string, b: string)
    requires Numeral(a) && Numeral(b)
    ensures Fields(a + ":" + b) == [a, b]
  {
    DigitsHaveNoColon(a);
    DigitsHaveNoColon(b);
    FieldsOfJoin(a, b);
  }

  lemma FieldsOfThree(a: string, b: string, c: string)
    requires Numeral(a) && Numeral(b) && Numeral(c)
    ensures Fields(a + ":" + b + ":" + c) == [a, b, c]
  {
    DigitsHaveNoColon(a);
    FieldsOfTwo(b, c);
    assert a + ":" + b + ":" + c == a + ":" + (b + ":" + c);
    FieldsOfJoin(a, b + ":" + c);
  }

  lemma ParseFieldsTwo(a: string, b: string)
    requires Numeral(a) && Numeral(b)
    ensures ParseFields([a, b]) == Some(DigitsValue(a) * 60 + DigitsValue(b))
  {
  }

  lemma ParseFieldsThree(a: string, b: string, c: string)
    requires Numeral(a) && Numeral(b) && Numeral(c)
    ensures ParseFields([a, b, c]) == Some(DigitsValue(a) * 3600 + DigitsValue(b) * 60 + DigitsValue(c))
  {
  }

  lemma ParseTwo(a: string, b: string)
    requires Numeral(a) && Numeral(b)
    ensures ParseClock(a + ":" + b) == Some(DigitsValue(a) * 60 + DigitsValue(b))
  {
    FieldsOfTwo(a, b);
    ParseFieldsTwo(a, b);
  }

  lemma ParseThree(a: string, b: string, c: string)
    requires Numeral(a) && Numeral(b) && Numeral(c)
    ensures ParseClock(a + ":" + b + ":" + c) == Some(DigitsValue(a) * 3600 + DigitsValue(b) * 60 + DigitsValue(c))
  {
    FieldsOfThree(a, b, c);
    ParseFieldsThree(a, b, c);
  }

  lemma RenderHoursRoundTrip(c: Clock)
    requires c.hours > 0 && c.minutes < 60 && c.secs < 60
    ensures ParseClock(Render(c)) == Some(c.hours * 3600 + c.minutes * 60 + c.secs)
  {
    var h, m, sec := NatToString(c.hours), Pad2(c.minutes), Pad2(c.secs);
    NatToStringRoundTrip(c.hours);
    ParseThree(h, m, sec);
    assert ParseClock(h + ":" + m + ":" + sec) == Some(c.hours * 3600 + c.minutes * 60 + c.secs);
  }

  lemma RenderMinutesRoundTrip(c: Clock)
    requires c.hours == 0 && c.minutes < 60 && c.secs < 60
    ensures ParseClock(Render(c)) == Some(c.minutes * 60 + c.secs)
  {
    var m, sec := NatToString(c.minutes), Pad2(c.secs);
    NatToStringRoundTrip(c.minutes);
    ParseTwo(m, sec);
    assert ParseClock(m + ":" + sec) == Some(c.minutes * 60 + c.secs);
  }

  /** A rendered clock reads back as the seconds it stands for. */
  lemma RenderRoundTrip(c: Clock)
    requires c.minutes < 60 && c.secs < 60
    ensures ParseClock(Render(c)) == Some(c.hours * 3600 + c.minutes * 60 + c.secs)
  {
    if c.hours > 0 {
      RenderHoursRoundTrip(c);
    } else {
      RenderMinutesRoundTrip(c);
    }
  }

  /** `formatTime` loses nothing: its output reads back as the same number of seconds. */
  lemma FormatTimeRoundTrip(seconds: nat)
    ensures ParseClock(FormatTime(seconds)) == Some(seconds)
  {
    var c := Split(seconds);
    RenderRoundTrip(c);
  }

  /** From an hour up the output is `h:mm:ss`, minutes and seconds zero-padded to two digits. */
  lemma FormatTimeHoursShape(seconds: nat)
    requires seconds >= 3600
    ensures var fs := Fields(FormatTime(seconds));
      && |fs| == 3 && fs[0] == NatToString(seconds / 3600)
      && |fs[1]| == 2 && AllDigits(fs[1]) && DigitsValue(fs[1]) == seconds % 3600 / 60
      && |fs[2]| == 2 && AllDigits(fs[2]) && DigitsValue(fs[2]) == seconds % 60
  {
    var c := Split(seconds);
    FieldsOfThree(NatToString(c.hours), Pad2(c.minutes), Pad2(c.secs));
  }

  /** Below an hour the output is `m:ss`: the minutes unpadded, the seconds padded to two digits. */
  lemma FormatTimeMinutesShape(seconds: nat)
    requires seconds < 3600
    ensures var fs := Fields(FormatTime(seconds));
      && |fs| == 2 && fs[0] == NatToString(seconds / 60)
      && |fs[1]| == 2 && AllDigits(fs[1]) && DigitsValue(fs[1]) == seconds % 60
  {
    var c := Split(seconds);
    assert c.minutes == seconds / 60;
    FieldsOfTwo(NatToString(c.minutes), Pad2(c.secs));
  }

  /** Examples: 59 s, 61 s, an hour and a second. */
  lemma FormatTimeExamples()
    ensures FormatTime(59) == "0:59"
    ensures FormatTime(61) == "1:01"
    ensures FormatTime(3601) == "1:00:01"
  {
    assert Split(59) == Clock(0, 0, 59);
    assert Split(61) == Clock(0, 1, 1);
    assert Split(3601) == Clock(1, 0, 1);
    assert NatToString(59) == "59";
    assert Pad2(59) == "59" && Pad2(1) == "01" && Pad2(0) == "00";
  }

  // ---------------------------------------------------------------------
  // calculateStreak

  /** Milliseconds in a day. */
  const MsPerDay: int := 86400000

  /** The calendar day a timestamp (milliseconds) falls on. */
  function DayOf(t: int): int
  {
    t / MsPerDay
  }

  lemma DayOfMonotone(s: int, t: int)
    requires s <= t
    ensures DayOf(s) <= DayOf(t)
  {
  }

  /** Newest first. */
  predicate SortedDescending(s: seq<int>)
  {
    forall i, j | 0 <= i < j < |s| :: s[i] >= s[j]
  }

  /** Some timestamp of `s` falls on `day`. */
  predicate StudiedOn(s: seq<int>, day: int)
  {
    exists k | 0 <= k < |s| :: DayOf(s[k]) == day
  }

  /**
   * The `streak` days ending `today` all have a timestamp in `s`, and the day
   * before them has none.
   */
  predicate IsStreak(s: seq<int>, today: int, streak: nat)
  {
    && (forall day | today - streak < day <= today :: StudiedOn(s, day))
    && !StudiedOn(s, today - streak)
  }

  /** There is at most one streak length. */
  lemma StreakUnique(s: seq<int>, today: int, k1: nat, k2: nat)
    requires IsStreak(s, today, k1) && IsStreak(s, today, k2)
    ensures k1 == k2
  {
  }

  lemma InsertBounded(t: int, s: seq<int>, r: seq<int>, b: int)
    requires multiset(r) == multiset(s) + multiset{t}
    requires t <= b && forall k | 0 <= k < |s| :: s[k] <= b
    ensures forall k | 0 <= k < |r| :: r[k] <= b
  {
    forall k | 0 <= k < |r| ensures r[k] <= b {
      assert r[k] in multiset(r);
      if r[k] != t {
        assert r[k] in multiset(s);
        var j :| 0 <= j < |s| && s[j] == r[k];
      }
    }
  }

  /** `s` with `t` inserted before the first element not above it. */
  function InsertDescending(t: int, s: seq<int>): (r: seq<int>)
    requires SortedDescending(s)
    ensures SortedDescending(r)
    ensures multiset(r) == multiset(s) + multiset{t}
    decreases |s|
  {
    if |s| == 0 then [t]
    else if t >= s[0] then [t] + s
    else
      var rest := InsertDescending(t, s[1..]);
      assert s == [s[0]] + s[1..];
      InsertBounded(t, s[1..], rest, s[0]);
      [s[0]] + rest
  }

  /** `dates.sort((a, b) => b.getTime() - a.getTime())`: the timestamps, newest first. */
  function SortDescending(s: seq<int>): (r: seq<int>)
    ensures SortedDescending(r)
    ensures multiset(r) == multiset(s)
    decreases |s|
  {
    if |s| == 0 then []
    else
      assert s == [s[0]] + s[1..];
      InsertDescending(s[0], SortDescending(s[1..]))
  }

  /** Reordering the timestamps does not change the days studied. */
  lemma StudiedOnPermutation(s: seq<int>, r: seq<int>, day: int)
    requires multiset(s) == multiset(r)
    ensures StudiedOn(s, day) == StudiedOn(r, day)
  {
    if StudiedOn(s, day) {
      var k :| 0 <= k < |s| && DayOf(s[k]) == day;
      assert s[k] in multiset(r);
      var j :| 0 <= j < |r| && r[j] == s[k];
    }
    if StudiedOn(r, day) {
      var k :| 0 <= k < |r| && DayOf(r[k]) == day;
      assert r[k] in multiset(s);
      var j :| 0 <= j < |s| && s[j] == r[k];
    }
  }

  lemma StreakPermutation(s: seq<int>, r: seq<int>, today: int, streak: nat)
    requires multiset(s) == multiset(r)
    requires IsStreak(r, today, streak)
    ensures IsStreak(s, today, streak)
  {
    forall day | today - streak < day <= today ensures StudiedOn(s, day) {
      StudiedOnPermutation(s, r, day);
    }
    StudiedOnPermutation(s, r, today - streak);
  }

  /**
   * The loop of `calculateStreak` over timestamps already sorted newest
   * first: walk back from `today`, one match per day; a timestamp on a later
   * day than the one expected is skipped, one on an earlier day ends the walk.
   */
  method CountStreak(sorted: array<int>, today: int) returns (streak: nat)
    requires SortedDescending(sorted[..])
    ensures IsStreak(sorted[..], today, streak)
    ensures streak <= sorted.Length
  {
    streak := 0;
    var currentDay := today;
    var i := 0;
    while i < sorted.Length
      invariant 0 <= i <= sorted.Length
      invariant currentDay == today - streak
      invariant streak <= i
      invariant forall day | currentDay < day <= today :: StudiedOn(sorted[..], day)
      invariant forall k | 0 <= k < i :: DayOf(sorted[k]) > currentDay
    {
      var day := DayOf(sorted[i]);
      if day == currentDay {
        streak := streak + 1;
        currentDay := currentDay - 1;
      } else if day < currentDay {
        forall k | i <= k < sorted.Length ensures DayOf(sorted[k]) < currentDay {
          DayOfMonotone(sorted[k], sorted[i]);
        }
        return;
      }
      i := i + 1;
    }
  }

  /**
   * `calculateStreak`: 0 for no dates; otherwise sorts the caller's array in
   * place, newest first, and counts the run of days ending `today` on which
   * some timestamp falls.
   */
  method CalculateStreak(dates: array<int>, today: int) returns (streak: nat)
    modifies dates
    ensures dates[..] == SortDescending(old(dates[..]))
    ensures IsStreak(old(dates[..]), today, streak)
    ensures streak <= dates.Length
  {
    if dates.Length == 0 {
      return 0;
    }
    ghost var original := dates[..];
    var sorted := SortDescending(dates[..]);
    forall k | 0 <= k < dates.Length {
      dates[k] := sorted[k];
    }
    assert dates[..] == sorted;
    streak := CountStreak(dates, today);
    StreakPermutation(original, dates[..], today, streak);
  }
}
