/** The statistics of FocusApp/src/screens/ReportsScreen.tsx, computed from
    the session log. A session's calendar day is the abstract day number of
    `Session.day`; "today" is a parameter. */
module Reports {
  import opened Storage
  import opened JsText

  predicate NonNegativeDurations(ss: seq<Session>) {
    forall i :: 0 <= i < |ss| ==> ss[i].duration >= 0
  }

  predicate NoDuplicateDays(days: seq<int>) {
    forall i, j :: 0 <= i < j < |days| ==> days[i] != days[j]
  }

  /** `sessions.reduce((acc, curr) => acc + curr.duration, 0)`, a left fold. */
  function TotalDuration(ss: seq<Session>): int {
    if ss == [] then 0 else TotalDuration(ss[..|ss| - 1]) + ss[|ss| - 1].duration
  }

  /** `sessions.reduce((acc, curr) => acc + curr.distractionCount, 0)`. */
  function TotalDistractions(ss: seq<Session>): int {
    if ss == [] then 0 else TotalDistractions(ss[..|ss| - 1]) + ss[|ss| - 1].distractionCount
  }

  /** `sessions.filter(s => <day of s> === day)`, order kept. */
  function OnDay(ss: seq<Session>, day: int): (r: seq<Session>)
    ensures |r| <= |ss|
    ensures forall i :: 0 <= i < |r| ==> r[i].day == day && r[i] in ss
    ensures forall s :: s in ss && s.day == day ==> s in r
  {
    if ss == [] then []
    else OnDay(ss[..|ss| - 1], day) + (if ss[|ss| - 1].day == day then [ss[|ss| - 1]] else [])
  }

  /** The total duration of the sessions of one day. */
  function DayTotal(ss: seq<Session>, day: int): int {
    TotalDuration(OnDay(ss, day))
  }

  /** `todayDuration`. */
  function TodayDuration(ss: seq<Session>, today: int): int {
    DayTotal(ss, today)
  }

  /** `last7Days`: seven consecutive days, oldest first, ending with today. */
  function Last7Days(today: int): (r: seq<int>)
    ensures |r| == 7 && r[0] == today - 6 && r[6] == today
    ensures forall i :: 0 <= i < 6 ==> r[i + 1] == r[i] + 1
  {
    seq(7, i requires 0 <= i < 7 => today - (6 - i))
  }

  /** The per-day totals for a list of days, in the list's order. */
  function DayTotals(ss: seq<Session>, days: seq<int>): (r: seq<int>)
    ensures |r| == |days|
    ensures forall i :: 0 <= i < |days| ==> r[i] == DayTotal(ss, days[i])
  {
    if days == [] then [] else [DayTotal(ss, days[0])] + DayTotals(ss, days[1..])
  }

  /** The bar chart's data, in seconds: one total per day of the last week. */
  function BarTotals(ss: seq<Session>, today: int): (r: seq<int>)
    ensures |r| == 7
    ensures forall i :: 0 <= i < 7 ==> r[i] == DayTotal(ss, today - 6 + i)
  {
    DayTotals(ss, Last7Days(today))
  }

  function SumSeq(xs: seq<int>): int {
    if xs == [] then 0 else xs[0] + SumSeq(xs[1..])
  }

  /** The sum of durations of the sessions labelled `c` (the value
      `categoryStats[c]` ends with). */
  function CategorySum(ss: seq<Session>, c: string): int {
    if ss == [] then 0
    else CategorySum(ss[..|ss| - 1], c) + (if ss[|ss| - 1].category == c then ss[|ss| - 1].duration else 0)
  }

  /** The labels that occur in at least one session. */
  function Labels(ss: seq<Session>): set<string> {
    set i | 0 <= i < |ss| :: ss[i].category
  }

  /** The labels in the order of their first occurrence: the insertion order
      of the keys of `categoryStats`. */
  function FirstLabels(ss: seq<Session>): (r: seq<string>)
    ensures NoDuplicates(r)
    ensures forall c :: c in r <==> c in Labels(ss)
  {
    if ss == [] then []
    else
      var prefix := ss[..|ss| - 1];
      var c := ss[|ss| - 1].category;
      assert Labels(ss) == Labels(prefix) + {c} by {
        assert forall i :: 0 <= i < |prefix| ==> prefix[i] == ss[i];
      }
      if c in FirstLabels(prefix) then FirstLabels(prefix) else FirstLabels(prefix) + [c]
  }

  /** The sum of the values of `stats` over `keys`. */
  function StatsTotal(stats: map<string, int>, keys: seq<string>): int
    requires forall k :: k in keys ==> k in stats
  {
    if keys == [] then 0 else stats[keys[0]] + StatsTotal(stats, keys[1..])
  }

  /** `Math.round(x / 60)`: the whole number of minutes nearest to `x`
      seconds, halves rounded up. */
  function RoundMinutes(x: int): (r: int)
    ensures 60 * r - 30 <= x < 60 * r + 30
  {
    (x + 30) / 60
  }

  /** One slice of the pie chart: a label and its rounded minutes. */
  datatype PieSlice = PieSlice(name: string, population: int)

  /** `pieData`: one slice per key of `categoryStats`, in key order. */
  function PieData(stats: map<string, int>, keys: seq<string>): (r: seq<PieSlice>)
    requires forall k :: k in keys ==> k in stats
    ensures |r| == |keys|
    ensures forall i :: 0 <= i < |r| ==> r[i].name == keys[i]
    ensures forall i :: 0 <= i < |r| ==>
              60 * r[i].population - 30 <= stats[keys[i]] < 60 * r[i].population + 30
  {
    seq(|keys|, i requires 0 <= i < |keys| => PieSlice(keys[i], RoundMinutes(stats[keys[i]])))
  }

  /** `categoryStats`, built by the `forEach` loop: for each session, reset
      the entry to 0 when it is missing or 0, then add the duration. The keys'
      insertion order is returned beside the dictionary. */
  method CategoryStats(ss: seq<Session>) returns (stats: map<string, int>, keys: seq<string>)
    ensures stats.Keys == Labels(ss)
    ensures forall c :: c in stats ==> stats[c] == CategorySum(ss, c)
    ensures keys == FirstLabels(ss)
    ensures StatsTotal(stats, keys) == TotalDuration(ss)
  {
    stats, keys := map[], [];
    var i := 0;
    while i < |ss|
      invariant 0 <= i <= |ss|
      invariant stats.Keys == Labels(ss[..i])
      invariant forall c :: c in stats ==> stats[c] == CategorySum(ss[..i], c)
      invariant keys == FirstLabels(ss[..i])
    {
      var s := ss[i];
      ghost var before := stats;
      assert ss[..i + 1] == ss[..i] + [s];
      if s.category !in stats {
        keys := keys + [s.category];
      }
      if s.category !in stats || stats[s.category] == 0 {
        stats := stats[s.category := 0];
      }
      stats := stats[s.category := stats[s.category] + s.duration];
      assert stats == before[s.category := (if s.category in before then before[s.category] else 0) + s.duration];
      CategoryStep(ss[..i], s, before, stats);
      i := i + 1;
    }
    assert ss[..i] == ss;
    StatsTotalIsCategorySums(stats, keys, ss);
    CategorySumsCoverTotal(ss, keys);
  }

  /** One iteration of the `forEach` keeps the dictionary equal to the
      category sums of the sessions seen so far. */
  lemma CategoryStep(prefix: seq<Session>, s: Session, before: map<string, int>, after: map<string, int>)
    requires before.Keys == Labels(prefix)
    requires forall c :: c in before ==> before[c] == CategorySum(prefix, c)
    requires after == before[s.category := (if s.category in before then before[s.category] else 0) + s.duration]
    ensures after.Keys == Labels(prefix + [s])
    ensures forall c :: c in after ==> after[c] == CategorySum(prefix + [s], c)
  {
    var ss := prefix + [s];
    assert ss[..|ss| - 1] == prefix;
    LabelsSnoc(prefix, s);
    if s.category !in before {
      CategorySumOfAbsentLabel(prefix, s.category);
    }
  }

  lemma LabelsSnoc(prefix: seq<Session>, s: Session)
    ensures Labels(prefix + [s]) == Labels(prefix) + {s.category}
  {
    var ss := prefix + [s];
    forall c | c in Labels(ss) ensures c in Labels(prefix) + {s.category} {
      var k :| 0 <= k < |ss| && ss[k].category == c;
      if k < |prefix| { assert prefix[k] == ss[k]; }
    }
    forall c | c in Labels(prefix) ensures c in Labels(ss) {
      var k :| 0 <= k < |prefix| && prefix[k].category == c;
      assert ss[k] == prefix[k];
    }
    assert ss[|ss| - 1] == s;
  }

  /** A label that no session carries has sum 0. */
  lemma {:induction false} CategorySumOfAbsentLabel(ss: seq<Session>, c: string)
    requires c !in Labels(ss)
    ensures CategorySum(ss, c) == 0
  {
    if ss != [] {
      var prefix := ss[..|ss| - 1];
      assert Labels(prefix) <= Labels(ss) by {
        forall l | l in Labels(prefix) ensures l in Labels(ss) {
          var k :| 0 <= k < |prefix| && prefix[k].category == l;
          assert ss[k].category == l;
        }
      }
      assert ss[|ss| - 1].category in Labels(ss);
      CategorySumOfAbsentLabel(prefix, c);
    }
  }

  /** The sum over a list of labels of their category sums. */
  function CategorySums(ss: seq<Session>, labels: seq<string>): int {
    if labels == [] then 0 else CategorySum(ss, labels[0]) + CategorySums(ss, labels[1..])
  }

  lemma {:induction false} StatsTotalIsCategorySums(stats: map<string, int>, keys: seq<string>, ss: seq<Session>)
    requires forall k :: k in keys ==> k in stats
    requires forall c :: c in stats ==> stats[c] == CategorySum(ss, c)
    ensures StatsTotal(stats, keys) == CategorySums(ss, keys)
  {
    if keys != [] {
      StatsTotalIsCategorySums(stats, keys[1..], ss);
    }
  }

  lemma {:induction false} CategorySumsOfEmpty(labels: seq<string>)
    ensures CategorySums([], labels) == 0
  {
    if labels != [] {
      CategorySumsOfEmpty(labels[1..]);
    }
  }

  /** Appending one session adds its duration to the sums over a
      duplicate-free list of labels exactly when its label is listed. */
  lemma {:induction false} CategorySumsSnoc(ss: seq<Session>, x: Session, labels: seq<string>)
    requires NoDuplicates(labels)
    ensures CategorySums(ss + [x], labels) ==
            CategorySums(ss, labels) + (if x.category in labels then x.duration else 0)
  {
    if labels != [] {
      assert (ss + [x])[..|ss + [x]| - 1] == ss;
      CategorySumsSnoc(ss, x, labels[1..]);
    }
  }

  /** Summing the category sums over every label (each listed once) gives
      the total duration: `categoryStats` partitions `totalDuration`. */
  lemma {:induction false} CategorySumsCoverTotal(ss: seq<Session>, labels: seq<string>)
    requires NoDuplicates(labels)
    requires forall c :: c in Labels(ss) ==> c in labels
    ensures CategorySums(ss, labels) == TotalDuration(ss)
  {
    if ss == [] {
      CategorySumsOfEmpty(labels);
    } else {
      var prefix, x := ss[..|ss| - 1], ss[|ss| - 1];
      assert ss == prefix + [x];
      assert x.category in Labels(ss);
      forall c | c in Labels(prefix) ensures c in labels {
        var i :| 0 <= i < |prefix| && prefix[i].category == c;
        assert ss[i].category == c;
      }
      CategorySumsCoverTotal(prefix, labels);
      CategorySumsSnoc(prefix, x, labels);
    }
  }

  /** Appending one session adds its duration to the total of its own day. */
  lemma DayTotalSnoc(ss: seq<Session>, x: Session, day: int)
    ensures DayTotal(ss + [x], day) == DayTotal(ss, day) + (if x.day == day then x.duration else 0)
  {
    assert (ss + [x])[..|ss + [x]| - 1] == ss;
    var f := OnDay(ss, day);
    if x.day == day {
      assert (f + [x])[..|f + [x]| - 1] == f;
    } else {
      assert f + [] == f;
    }
  }

  /** Appending one session adds its duration to the totals over a
      duplicate-free list of days exactly when its day is listed. */
  lemma {:induction false} DayTotalsSnoc(ss: seq<Session>, x: Session, days: seq<int>)
    requires NoDuplicateDays(days)
    ensures SumSeq(DayTotals(ss + [x], days)) ==
            SumSeq(DayTotals(ss, days)) + (if x.day in days then x.duration else 0)
  {
    if days != [] {
      var d, rest := days[0], days[1..];
      NoDuplicateDaysTail(days);
      DayTotalSnoc(ss, x, d);
      DayTotalsSnoc(ss, x, rest);
      assert DayTotals(ss + [x], days) == [DayTotal(ss + [x], d)] + DayTotals(ss + [x], rest);
      assert DayTotals(ss, days) == [DayTotal(ss, d)] + DayTotals(ss, rest);
      assert x.day in days <==> x.day == d || x.day in rest;
    }
  }

  lemma NoDuplicateDaysTail(days: seq<int>)
    requires days != [] && NoDuplicateDays(days)
    ensures NoDuplicateDays(days[1..]) && days[0] !in days[1..]
  {
    forall i, j | 0 <= i < j < |days| - 1 ensures days[1..][i] != days[1..][j] {
      assert days[1..][i] == days[i + 1] && days[1..][j] == days[j + 1];
    }
  }

  lemma {:induction false} DayTotalsOfEmpty(days: seq<int>)
    ensures SumSeq(DayTotals([], days)) == 0
  {
    if days != [] {
      assert DayTotals([], days)[1..] == DayTotals([], days[1..]);
      DayTotalsOfEmpty(days[1..]);
    }
  }

  /** With non-negative durations, the totals of distinct days add up to at
      most the total duration (and are not negative). */
  lemma {:induction false} DayTotalsBounded(ss: seq<Session>, days: seq<int>)
    requires NonNegativeDurations(ss) && NoDuplicateDays(days)
    ensures 0 <= SumSeq(DayTotals(ss, days)) <= TotalDuration(ss)
  {
    if ss == [] {
      DayTotalsOfEmpty(days);
    } else {
      var prefix, x := ss[..|ss| - 1], ss[|ss| - 1];
      assert ss == prefix + [x];
      DayTotalsBounded(prefix, days);
      DayTotalsSnoc(prefix, x, days);
    }
  }

  /** The seven bars of the last week together hold at most the total duration. */
  lemma WeekAtMostTotal(ss: seq<Session>, today: int)
    requires NonNegativeDurations(ss)
    ensures 0 <= SumSeq(BarTotals(ss, today)) <= TotalDuration(ss)
  {
    DayTotalsBounded(ss, Last7Days(today));
  }

  /** Today's total is the sum of today's sessions and, with non-negative
      durations, lies between 0 and the total duration. */
  lemma TodayAtMostTotal(ss: seq<Session>, today: int)
    requires NonNegativeDurations(ss)
    ensures 0 <= TodayDuration(ss, today) <= TotalDuration(ss)
  {
    DayTotalsBounded(ss, [today]);
    assert DayTotals(ss, [today]) == [DayTotal(ss, today)];
  }

  /** Today's total equals the sum of the durations of the sessions whose day
      is today, written as a masked sum over the whole log. */
  lemma {:induction false} DayTotalIsMaskedSum(ss: seq<Session>, day: int)
    ensures DayTotal(ss, day) == MaskedDayTotal(ss, day)
  {
    if ss != [] {
      var prefix, x := ss[..|ss| - 1], ss[|ss| - 1];
      DayTotalIsMaskedSum(prefix, day);
      var f := OnDay(prefix, day);
      if x.day == day {
        assert (f + [x])[..|f + [x]| - 1] == f;
      } else {
        assert f + [] == f;
      }
    }
  }

  /** The reference definition: every session counts its duration if it is
      on `day` and 0 otherwise. */
  function MaskedDayTotal(ss: seq<Session>, day: int): int {
    if ss == [] then 0
    else MaskedDayTotal(ss[..|ss| - 1], day) + (if ss[|ss| - 1].day == day then ss[|ss| - 1].duration else 0)
  }

  /** With non-negative distraction counts the total is non-negative. */
  lemma {:induction false} TotalDistractionsNonNegative(ss: seq<Session>)
    requires forall i :: 0 <= i < |ss| ==> ss[i].distractionCount >= 0
    ensures TotalDistractions(ss) >= 0
  {
    if ss != [] {
      TotalDistractionsNonNegative(ss[..|ss| - 1]);
    }
  }

  /** Both totals are folds: the total of a concatenation is the sum of the totals. */
  lemma {:induction false} TotalsAppend(a: seq<Session>, b: seq<Session>)
    ensures TotalDuration(a + b) == TotalDuration(a) + TotalDuration(b)
    ensures TotalDistractions(a + b) == TotalDistractions(a) + TotalDistractions(b)
  {
    if b != [] {
      var b' := b[..|b| - 1];
      assert (a + b)[..|a + b| - 1] == a + b';
      TotalsAppend(a, b');
    } else {
      assert a + b == a;
    }
  }

  /** `formatDuration`'s two numbers: whole hours and the whole minutes
      left over, `Math.floor(s / 3600)` and `Math.floor((s % 3600) / 60)`
      with JavaScript's truncating `%`. */
  function DurationParts(seconds: int): (r: (int, int))
    ensures seconds >= 0 ==> 0 <= r.1 < 60 && 0 <= r.0
    ensures seconds >= 0 ==> 3600 * r.0 + 60 * r.1 <= seconds < 3600 * r.0 + 60 * r.1 + 60
    ensures seconds >= 0 ==> (r.0 > 0 <==> seconds >= 3600)
  {
    (seconds / 3600, JsRem(seconds, 3600) / 60)
  }

  /** `formatDuration`: "<h>s <m>dk", or "<m>dk" when there are no whole hours. */
  function FormatDuration(seconds: int): string {
    var (hrs, mins) := DurationParts(seconds);
    if hrs > 0 then IntToString(hrs) + "s " + IntToString(mins) + "dk" else IntToString(mins) + "dk"
  }

  /** The hours part ("<h>s ") is shown exactly when there is at least one
      whole hour; the text always ends in "dk" after the minutes, which read
      back as the whole minutes left over. */
  lemma FormatDurationShape(seconds: int)
    requires seconds >= 0
    ensures var r := FormatDuration(seconds);
      |r| >= 3 && r[|r| - 2..] == "dk" && ('s' in r <==> seconds >= 3600)
    ensures seconds < 3600 ==>
      var r := FormatDuration(seconds);
      AllDigits(r[..|r| - 2]) && ParseDecimal(r[..|r| - 2]) == seconds / 60
  {
    var (hrs, mins) := DurationParts(seconds);
    var r := FormatDuration(seconds);
    var m := IntToString(mins);
    assert r[|r| - 2..] == "dk";
    if hrs > 0 {
      var h := IntToString(hrs);
      assert r == h + "s " + m + "dk";
      assert r[|h|] == 's';
    } else {
      assert r == m + "dk" && r[..|r| - 2] == m;
      forall k | 0 <= k < |r| ensures r[k] != 's' {
        if k < |m| { assert IsDigit(m[k]); }
      }
    }
  }
}
