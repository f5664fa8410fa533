/** Interval Merger: maximal runs of `off` and of `possible` slots, formatted as
    "HH:MM" intervals and sorted by start (src/monitor.js, parseScheduleIntervals). */
module Intervals {
  import opened Wrappers
  import opened Strings
  import opened Payload
  import opened Slots

  /** A run of slots `[start, end)` of one kind, in slot indices. */
  datatype Run = Run(start: int, end: int, kind: Slot)

  /** An interval as the source emits it: `{ start: "HH:MM", end: "HH:MM", type }`. */
  datatype Interval = Interval(start: string, end: string, kind: Slot)

  /** The kinds that are reported as intervals; `on` and `unknown` never are. */
  predicate Reported(s: Slot)
  {
    s == Off || s == Possible
  }

  // ---------------------------------------------------------------------------
  // Runs of a timeline, as the two scans find them

  /** The exclusive end of the run of `k` that continues at slot `j`. */
  function RunEnd(t: seq<Slot>, k: Slot, j: int): (e: int)
    requires 0 <= j <= |t|
    ensures j <= e <= |t|
    ensures forall m :: j <= m < e ==> t[m] == k
    ensures e == |t| || t[e] != k
    decreases |t| - j
  {
    if j < |t| && t[j] == k then RunEnd(t, k, j + 1) else j
  }

  /** The runs of kind `k` that the scan `while (i < 48)` finds from slot `i` on. */
  function RunsOf(t: seq<Slot>, k: Slot, i: int): seq<Run>
    requires 0 <= i <= |t|
    decreases |t| - i
  {
    if i == |t| then []
    else if t[i] == k then
      var e := RunEnd(t, k, i + 1);
      [Run(i, e, k)] + RunsOf(t, k, e)
    else RunsOf(t, k, i + 1)
  }

  /** Every run of a reported kind from slot `i` on, in the order of the day:
      the reference the sorted result of the source is proved equal to. */
  function AllRuns(t: seq<Slot>, i: int): seq<Run>
    requires 0 <= i <= |t|
    decreases |t| - i
  {
    if i == |t| then []
    else if Reported(t[i]) then
      var e := RunEnd(t, t[i], i + 1);
      [Run(i, e, t[i])] + AllRuns(t, e)
    else AllRuns(t, i + 1)
  }

  /** `r` is a non-empty run of a reported kind inside the day, and it cannot
      be extended to either side. */
  ghost predicate IsMaximalRun(t: seq<Slot>, r: Run)
  {
    && Reported(r.kind)
    && 0 <= r.start < r.end <= |t|
    && (forall m :: r.start <= m < r.end ==> t[m] == r.kind)
    && (r.start == 0 || t[r.start - 1] != r.kind)
    && (r.end == |t| || t[r.end] != r.kind)
  }

  /** Each run ends before the next one starts. */
  ghost predicate Ordered(rs: seq<Run>)
  {
    forall p, q :: 0 <= p < q < |rs| ==> rs[p].end <= rs[q].start
  }

  /** Slot `m` lies in one of the runs. */
  ghost predicate Covers(rs: seq<Run>, m: int)
  {
    exists p :: 0 <= p < |rs| && rs[p].start <= m < rs[p].end
  }

  /** No run of a reported kind continues across position `i`. */
  ghost predicate Boundary(t: seq<Slot>, i: int)
    requires 0 <= i <= |t|
  {
    i == 0 || i == |t| || !Reported(t[i - 1]) || t[i] != t[i - 1]
  }

  /** The runs found from a boundary are maximal runs, in order. */
  lemma {:induction false} AllRunsSound(t: seq<Slot>, i: int)
    requires 0 <= i <= |t| && Boundary(t, i)
    ensures forall r :: r in AllRuns(t, i) ==> IsMaximalRun(t, r) && i <= r.start
    ensures Ordered(AllRuns(t, i))
    decreases |t| - i
  {
    if i < |t| {
      if Reported(t[i]) {
        var e := RunEnd(t, t[i], i + 1);
        AllRunsSound(t, e);
        var rs := AllRuns(t, i);
        assert rs == [Run(i, e, t[i])] + AllRuns(t, e);
        forall p | 1 <= p < |rs| ensures rs[p] == AllRuns(t, e)[p - 1] && rs[p] in AllRuns(t, e) {
        }
      } else {
        AllRunsSound(t, i + 1);
      }
    }
  }

  /** Every reported slot from `i` on lies in one of the runs. */
  lemma {:induction false} AllRunsComplete(t: seq<Slot>, i: int)
    requires 0 <= i <= |t|
    ensures forall m :: i <= m < |t| && Reported(t[m]) ==> Covers(AllRuns(t, i), m)
    decreases |t| - i
  {
    if i < |t| {
      var rs := AllRuns(t, i);
      if Reported(t[i]) {
        var e := RunEnd(t, t[i], i + 1);
        AllRunsComplete(t, e);
        var rest := AllRuns(t, e);
        assert rs == [Run(i, e, t[i])] + rest;
        forall m | i <= m < |t| && Reported(t[m]) ensures Covers(rs, m) {
          if m < e {
            assert rs[0].start <= m < rs[0].end;
          } else {
            var p :| 0 <= p < |rest| && rest[p].start <= m < rest[p].end;
            assert rs[p + 1] == rest[p];
          }
        }
      } else {
        AllRunsComplete(t, i + 1);
      }
    }
  }

  /** A stretch without reported slots yields no runs. */
  lemma {:induction false} NoRunsFrom(t: seq<Slot>, i: int)
    requires 0 <= i <= |t|
    requires forall m :: i <= m < |t| ==> !Reported(t[m])
    ensures AllRuns(t, i) == []
    decreases |t| - i
  {
    if i < |t| {
      NoRunsFrom(t, i + 1);
    }
  }

  /** The scan for `k` skips a stretch that holds no `k`. */
  lemma {:induction false} RunsOfSkip(t: seq<Slot>, k: Slot, i: int, j: int)
    requires 0 <= i <= j <= |t|
    requires forall m :: i <= m < j ==> t[m] != k
    ensures RunsOf(t, k, i) == RunsOf(t, k, j)
    decreases j - i
  {
    if i < j {
      RunsOfSkip(t, k, i + 1, j);
    }
  }

  // ---------------------------------------------------------------------------
  // Time of day

  /** `fmt` first clamps its argument to `0..48`. */
  function Clamp(slotIndex: int): (i: int)
    ensures 0 <= i <= SlotCount
    ensures 0 <= slotIndex <= SlotCount ==> i == slotIndex
    ensures slotIndex < 0 ==> i == 0
    ensures slotIndex > SlotCount ==> i == SlotCount
  {
    if slotIndex < 0 then 0 else if slotIndex > SlotCount then SlotCount else slotIndex
  }

  /** `String(n).padStart(2, "0")` for `n` below 100. */
  function Pad2(n: int): string
    requires 0 <= n <= 99
  {
    [Digit(n / 10), Digit(n % 10)]
  }

  /** `fmt`: the time of day at which slot `slotIndex` starts, "HH:MM". */
  function Fmt(slotIndex: int): (r: string)
    ensures |r| == 5 && r[2] == ':' && r[4] == '0'
    ensures '0' <= r[0] <= '9' && '0' <= r[1] <= '9'
    ensures r[3] == (if Clamp(slotIndex) % 2 == 0 then '0' else '3')
  {
    var i := Clamp(slotIndex);
    Pad2(i / 2) + ":" + (if i % 2 == 0 then "00" else "30")
  }

  /** The value of a decimal digit character. */
  function DigitValue(c: char): int
  {
    c as int - 48
  }

  /** Reads "HH:MM" back as a slot index: the inverse of `Fmt`. */
  function SlotOfTime(s: string): int
    requires |s| == 5
  {
    2 * (10 * DigitValue(s[0]) + DigitValue(s[1])) + (if s[3] == '3' then 1 else 0)
  }

  /** `Fmt` writes the hour `floor(i / 2)` and the half hour of its clamped
      index so that they can be read back. */
  lemma FmtRoundTrip(slotIndex: int)
    ensures SlotOfTime(Fmt(slotIndex)) == Clamp(slotIndex)
  {
    var i := Clamp(slotIndex);
    var h := i / 2;
    assert DigitValue(Digit(h / 10)) == h / 10;
    assert DigitValue(Digit(h % 10)) == h % 10;
    assert 10 * (h / 10) + h % 10 == h;
  }

  /** `Fmt` is strictly increasing on `0..48` for `<` on strings, so the
      lexical sort of the source is chronological. */
  lemma FmtMonotone(i: int, j: int)
    requires 0 <= i < j <= SlotCount
    ensures LexLess(Fmt(i), Fmt(j))
  {
    var a, b := Fmt(i), Fmt(j);
    var hi, hj := i / 2, j / 2;
    if hi / 10 < hj / 10 {
      LexLessAt(a, b, 0);
    } else if hi < hj {
      assert a[..1] == b[..1];
      LexLessAt(a, b, 1);
    } else {
      assert a[..3] == b[..3];
      LexLessAt(a, b, 3);
    }
  }

  // ---------------------------------------------------------------------------
  // Intervals

  /** The interval the source pushes for a run. */
  function RenderRun(r: Run): Interval
  {
    Interval(Fmt(r.start), Fmt(r.end), r.kind)
  }

  /** The intervals of a list of runs, element by element. */
  function Render(rs: seq<Run>): seq<Interval>
  {
    seq(|rs|, p requires 0 <= p < |rs| => RenderRun(rs[p]))
  }

  /** Starts strictly increase along the list. */
  ghost predicate StartsIncreasing(ivs: seq<Interval>)
  {
    forall p, q :: 0 <= p < q < |ivs| ==> LexLess(ivs[p].start, ivs[q].start)
  }

  /** No interval starts after a later one: the order `sort` leaves. */
  ghost predicate SortedByStart(ivs: seq<Interval>)
  {
    forall p, q :: 0 <= p < q < |ivs| ==> !LexLess(ivs[q].start, ivs[p].start)
  }

  /** The two scans together find the same runs as the single scan over both
      kinds, in another order. */
  lemma {:induction false} ScansArePermutation(t: seq<Slot>, i: int)
    requires 0 <= i <= |t|
    ensures multiset(AllRuns(t, i)) == multiset(RunsOf(t, Off, i)) + multiset(RunsOf(t, Possible, i))
    decreases |t| - i
  {
    if i < |t| {
      if Reported(t[i]) {
        var k := t[i];
        var e := RunEnd(t, k, i + 1);
        ScansArePermutation(t, e);
        if k == Off {
          RunsOfSkip(t, Possible, i, e);
        } else {
          RunsOfSkip(t, Off, i, e);
        }
      } else {
        ScansArePermutation(t, i + 1);
      }
    }
  }

  /** Rendering distributes over concatenation. */
  lemma RenderAppend(a: seq<Run>, b: seq<Run>)
    ensures Render(a + b) == Render(a) + Render(b)
  {
  }

  /** Rendering the same runs in another order gives the same intervals in
      another order. */
  lemma {:induction false} RenderPermutation(a: seq<Run>, b: seq<Run>)
    requires multiset(a) == multiset(b)
    ensures multiset(Render(a)) == multiset(Render(b))
    decreases |a|
  {
    if a == [] {
      assert |b| == |multiset(b)| == 0;
    } else {
      assert a[0] in multiset(b);
      var m :| 0 <= m < |b| && b[m] == a[0];
      var rest := b[..m] + b[m + 1..];
      assert b == b[..m] + [b[m]] + b[m + 1..];
      assert a == [a[0]] + a[1..];
      assert multiset(b) == multiset(b[..m]) + multiset{b[m]} + multiset(b[m + 1..]);
      assert multiset(a) == multiset{a[0]} + multiset(a[1..]);
      assert multiset(a[1..]) == multiset(a) - multiset{a[0]} == multiset(b) - multiset{b[m]} == multiset(rest);
      RenderPermutation(a[1..], rest);
      RenderAppend(b[..m] + [b[m]], b[m + 1..]);
      RenderAppend(b[..m], [b[m]]);
      RenderAppend(b[..m], b[m + 1..]);
      RenderAppend([a[0]], a[1..]);
    }
  }

  /** The single scan yields strictly increasing start times. */
  lemma AllRunsStartsIncreasing(t: seq<Slot>)
    requires |t| == SlotCount
    ensures StartsIncreasing(Render(AllRuns(t, 0)))
  {
    var rs := AllRuns(t, 0);
    AllRunsSound(t, 0);
    forall p, q | 0 <= p < q < |rs|
      ensures LexLess(Render(rs)[p].start, Render(rs)[q].start)
    {
      assert rs[p] in rs && rs[q] in rs;
      FmtMonotone(rs[p].start, rs[q].start);
    }
  }

  /** Dropping the first interval keeps both orders. */
  lemma OrdersOfTail(ivs: seq<Interval>)
    requires ivs != []
    ensures StartsIncreasing(ivs) ==> StartsIncreasing(ivs[1..])
    ensures SortedByStart(ivs) ==> SortedByStart(ivs[1..])
  {
    assert forall p :: 0 <= p < |ivs| - 1 ==> ivs[1..][p] == ivs[p + 1];
  }

  /** Two arrangements of the same elements, one with strictly increasing
      starts and one sorted, begin with the same interval. */
  lemma SameFirst(a: seq<Interval>, b: seq<Interval>)
    requires a != [] && multiset(a) == multiset(b)
    requires StartsIncreasing(a) && SortedByStart(b)
    ensures b != [] && a[0] == b[0]
  {
    assert a[0] in multiset(b);
    var m :| 0 <= m < |b| && b[m] == a[0];
    assert b[0] in multiset(a);
    var n :| 0 <= n < |a| && a[n] == b[0];
    LexLessAsymmetric(a[0].start, b[0].start);
    assert m == 0 || n == 0;
  }

  /** Equal multisets with equal first elements have equal tails. */
  lemma SameRest(a: seq<Interval>, b: seq<Interval>)
    requires a != [] && b != [] && a[0] == b[0] && multiset(a) == multiset(b)
    ensures multiset(a[1..]) == multiset(b[1..])
  {
    assert a == [a[0]] + a[1..] && b == [b[0]] + b[1..];
    assert multiset(a) == multiset{a[0]} + multiset(a[1..]);
    assert multiset(b) == multiset{b[0]} + multiset(b[1..]);
    assert multiset(a[1..]) == multiset(a) - multiset{a[0]} == multiset(b) - multiset{b[0]} == multiset(b[1..]);
  }

  /** A list with strictly increasing starts is the only sorted arrangement of
      its elements. */
  lemma {:induction false} SortedPermutationUnique(a: seq<Interval>, b: seq<Interval>)
    requires multiset(a) == multiset(b)
    requires StartsIncreasing(a) && SortedByStart(b)
    ensures a == b
    decreases |a|
  {
    if a == [] {
      assert |b| == |multiset(b)| == 0;
    } else {
      SameFirst(a, b);
      SameRest(a, b);
      OrdersOfTail(a);
      OrdersOfTail(b);
      SortedPermutationUnique(a[1..], b[1..]);
      assert a == [a[0]] + a[1..] && b == [b[0]] + b[1..];
    }
  }

  // ---------------------------------------------------------------------------
  // parseScheduleIntervals

  /** The hour map of queue `scheduleId` for the day `fact.today`, when the
      document has one. */
  function HourMapOf(response: Info, scheduleId: string): Option<HourMap>
  {
    if !HasToday(response) then None
    else
      var fact := response.fact.value;
      var todayKey := fact.today.value;
      if todayKey in fact.data && scheduleId in fact.data[todayKey]
      then Some(fact.data[todayKey][scheduleId])
      else None
  }

  /** What `parseScheduleIntervals` returns: no intervals without an hour map,
      otherwise every maximal off or possible run of the day, by start time. */
  function Schedule(response: Info, scheduleId: string): seq<Interval>
  {
    match HourMapOf(response, scheduleId)
    case None => []
    case Some(hourMap) => Render(AllRuns(Timeline(hourMap), 0))
  }

  /** Whatever sorted arrangement of the two scans' intervals the sort
      produces, it is the chronological list of all maximal runs. */
  lemma SortedScansAreSchedule(t: seq<Slot>, pushed: seq<Interval>, sorted: seq<Interval>)
    requires |t| == SlotCount
    requires pushed == Render(RunsOf(t, Off, 0)) + Render(RunsOf(t, Possible, 0))
    requires multiset(sorted) == multiset(pushed) && SortedByStart(sorted)
    ensures sorted == Render(AllRuns(t, 0))
  {
    ScansArePermutation(t, 0);
    RenderAppend(RunsOf(t, Off, 0), RunsOf(t, Possible, 0));
    RenderPermutation(AllRuns(t, 0), RunsOf(t, Off, 0) + RunsOf(t, Possible, 0));
    AllRunsStartsIncreasing(t);
    SortedPermutationUnique(Render(AllRuns(t, 0)), sorted);
  }

  /** Rendering one more run appends its interval. */
  lemma RenderSnoc(rs: seq<Run>, r: Run)
    ensures Render(rs + [r]) == Render(rs) + [RenderRun(r)]
  {
    assert |Render(rs + [r])| == |rs| + 1;
  }

  /** Taking the run of `kind` at `i` moves the scan from `i` to the end of
      that run, with the run found so far. */
  lemma RunsOfStep(t: seq<Slot>, kind: Slot, runs: seq<Run>, i: int, j: int)
    requires 0 <= i < |t| && t[i] == kind && j == RunEnd(t, kind, i + 1)
    ensures (runs + [Run(i, j, kind)]) + RunsOf(t, kind, j) == runs + RunsOf(t, kind, i)
  {
    assert RunsOf(t, kind, i) == [Run(i, j, kind)] + RunsOf(t, kind, j);
  }

  /** The inner loop of a scan: advance `j` from `i + 1` while the slots are
      of `kind`. */
  method ScanRun(slots: array<Slot>, kind: Slot, i: int) returns (j: int)
    requires 0 <= i < slots.Length
    ensures j == RunEnd(slots[..], kind, i + 1)
  {
    j := i + 1;
    while j < slots.Length && slots[j] == kind
      invariant i < j <= slots.Length
      invariant RunEnd(slots[..], kind, j) == RunEnd(slots[..], kind, i + 1)
    {
      j := j + 1;
    }
  }

  /** One scan of `parseScheduleIntervals`: push an interval for every maximal
      run of `kind`, in slot order. */
  method CollectRuns(slots: array<Slot>, kind: Slot, intervals: seq<Interval>) returns (result: seq<Interval>)
    requires slots.Length == SlotCount
    ensures result == intervals + Render(RunsOf(slots[..], kind, 0))
  {
    ghost var t := slots[..];
    ghost var runs: seq<Run> := [];
    result := intervals;
    var i := 0;
    while i < SlotCount
      invariant 0 <= i <= SlotCount
      invariant runs + RunsOf(t, kind, i) == RunsOf(t, kind, 0)
      invariant result == intervals + Render(runs)
    {
      if slots[i] == kind {
        var start := i;
        var j := ScanRun(slots, kind, i);
        ghost var run := Run(start, j, kind);
        RunsOfStep(t, kind, runs, i, j);
        RenderSnoc(runs, run);
        runs := runs + [run];
        result := result + [Interval(Fmt(start), Fmt(j), kind)];
        i := j;
        continue;
      }
      i := i + 1;
    }
    assert runs == RunsOf(t, kind, 0);
  }

  /** Positions `0..i` are sorted apart from position `j`, which holds the
      interval being moved into place. */
  ghost predicate SortedExcept(s: seq<Interval>, i: int, j: int)
    requires 0 <= j <= i < |s|
  {
    forall p, q :: 0 <= p < q <= i && p != j && q != j ==> !LexLess(s[q].start, s[p].start)
  }

  /** The interval at `j` starts before every interval after it up to `i`. */
  ghost predicate BelowRest(s: seq<Interval>, i: int, j: int)
    requires 0 <= j <= i < |s|
  {
    forall q :: j < q <= i ==> LexLess(s[j].start, s[q].start)
  }

  /** Inserting the interval at `i` into the sorted prefix starts from `j = i`. */
  lemma InsertStart(s: seq<Interval>, i: int)
    requires 0 <= i < |s| && SortedByStart(s[..i])
    ensures SortedExcept(s, i, i) && BelowRest(s, i, i)
  {
    assert forall p :: 0 <= p < i ==> s[..i][p] == s[p];
  }

  /** Swapping the moving interval with a neighbour that starts after it keeps
      the insertion invariant, one position to the left. */
  lemma InsertSwap(s: seq<Interval>, i: int, j: int)
    requires 0 < j <= i < |s|
    requires SortedExcept(s, i, j) && BelowRest(s, i, j) && LexLess(s[j].start, s[j - 1].start)
    ensures SortedExcept(s[j - 1 := s[j]][j := s[j - 1]], i, j - 1)
    ensures BelowRest(s[j - 1 := s[j]][j := s[j - 1]], i, j - 1)
    ensures multiset(s[j - 1 := s[j]][j := s[j - 1]]) == multiset(s)
  {
    var s' := s[j - 1 := s[j]][j := s[j - 1]];
    forall p, q | 0 <= p < q <= i && p != j - 1 && q != j - 1
      ensures !LexLess(s'[q].start, s'[p].start)
    {
      if q == j {
        assert s'[q] == s[j - 1] && s'[p] == s[p];
      } else if p == j {
        assert s'[p] == s[j - 1] && s'[q] == s[q];
      } else {
        assert s'[p] == s[p] && s'[q] == s[q];
      }
    }
    forall q | j - 1 < q <= i ensures LexLess(s'[j - 1].start, s'[q].start) {
      if q > j {
        assert s'[q] == s[q];
      }
    }
  }

  /** Once the moving interval does not start before its left neighbour, the
      first `i + 1` positions are sorted. */
  lemma InsertDone(s: seq<Interval>, i: int, j: int)
    requires 0 <= j <= i < |s|
    requires SortedExcept(s, i, j) && BelowRest(s, i, j)
    requires j == 0 || !LexLess(s[j].start, s[j - 1].start)
    ensures SortedByStart(s[..i + 1])
  {
    forall p, q | 0 <= p < q <= i
      ensures !LexLess(s[q].start, s[p].start)
    {
      if q == j {
        if p < j - 1 {
          NotLessTransitive(s[p].start, s[j - 1].start, s[j].start);
        }
      } else if p == j {
        LexLessAsymmetric(s[j].start, s[q].start);
      }
    }
    assert forall p :: 0 <= p <= i ==> s[..i + 1][p] == s[p];
  }

  /** `intervals.sort(...)` with the comparator on `start`: a stable sort,
      here an insertion sort that swaps only strictly greater neighbours. */
  method SortByStart(a: array<Interval>)
    modifies a
    ensures SortedByStart(a[..])
    ensures multiset(a[..]) == multiset(old(a[..]))
  {
    var i := 0;
    while i < a.Length
      invariant 0 <= i <= a.Length
      invariant SortedByStart(a[..i])
      invariant multiset(a[..]) == multiset(old(a[..]))
    {
      InsertAt(a, i);
      i := i + 1;
    }
    assert a[..] == a[..a.Length];
  }

  /** One pass of the insertion sort: move `a[i]` left past every neighbour
      that starts after it. */
  method InsertAt(a: array<Interval>, i: int)
    requires 0 <= i < a.Length && SortedByStart(a[..i])
    modifies a
    ensures SortedByStart(a[..i + 1])
    ensures multiset(a[..]) == multiset(old(a[..]))
  {
    InsertStart(a[..], i);
    var j := i;
    while j > 0 && LexLess(a[j].start, a[j - 1].start)
      invariant 0 <= j <= i
      invariant SortedExcept(a[..], i, j) && BelowRest(a[..], i, j)
      invariant multiset(a[..]) == multiset(old(a[..]))
    {
      InsertSwap(a[..], i, j);
      a[j - 1], a[j] := a[j], a[j - 1];
      j := j - 1;
    }
    InsertDone(a[..], i, j);
  }


  /** `intervals.sort(...)` by start, on a copy of the pushed intervals in an
      array. */
  method SortIntervals(pushed: seq<Interval>) returns (sorted: seq<Interval>)
    ensures SortedByStart(sorted) && multiset(sorted) == multiset(pushed)
  {
    var a := new Interval[|pushed|](k requires 0 <= k < |pushed| => pushed[k]);
    assert a[..] == pushed;
    SortByStart(a);
    sorted := a[..];
  }

  /** The body of `parseScheduleIntervals` once the hour map is found: build
      the slot array, scan it for off runs and then for possible runs, and
      sort what was pushed by start. */
  method DayIntervals(hourMap: HourMap) returns (intervals: seq<Interval>)
    ensures intervals == Render(AllRuns(Timeline(hourMap), 0))
  {
    var slots := BuildTimeline(hourMap);
    ghost var t := slots[..];
    var pushed := CollectRuns(slots, Off, []);
    pushed := CollectRuns(slots, Possible, pushed);
    assert pushed == Render(RunsOf(t, Off, 0)) + Render(RunsOf(t, Possible, 0));
    intervals := SortIntervals(pushed);
    SortedScansAreSchedule(t, pushed, intervals);
  }

  /** `parseScheduleIntervals(response, scheduleId)`: no intervals unless
      `fact.today` is set and its day lists the queue, otherwise the intervals
      of that queue's hour map. */
  method ParseScheduleIntervals(response: Info, scheduleId: string) returns (intervals: seq<Interval>)
    ensures intervals == Schedule(response, scheduleId)
  {
    if !HasToday(response) {
      return [];
    }
    var todayKey := response.fact.value.today.value;
    var days := response.fact.value.data;
    if todayKey !in days || scheduleId !in days[todayKey] {
      return [];
    }
    var hourMap := days[todayKey][scheduleId];
    intervals := DayIntervals(hourMap);
  }

  // ---------------------------------------------------------------------------
  // Properties of the result

  /** Without `fact.today`, without that day or without the queue under it,
      there are no intervals. */
  lemma ScheduleWithoutData(response: Info, scheduleId: string)
    requires !HasToday(response)
      || response.fact.value.today.value !in response.fact.value.data
      || scheduleId !in response.fact.value.data[response.fact.value.today.value]
    ensures Schedule(response, scheduleId) == []
  {
  }

  /** The intervals of a day are exactly its maximal off and possible runs:
      each is a maximal run of one reported kind, every off or possible slot
      lies in one of them, they are in chronological order without overlap,
      and their start strings strictly increase. */
  lemma ScheduleIsMaximalRuns(response: Info, scheduleId: string, hourMap: HourMap)
    requires HourMapOf(response, scheduleId) == Some(hourMap)
    ensures Schedule(response, scheduleId) == Render(AllRuns(Timeline(hourMap), 0))
    ensures forall r :: r in AllRuns(Timeline(hourMap), 0) ==> IsMaximalRun(Timeline(hourMap), r)
    ensures Ordered(AllRuns(Timeline(hourMap), 0))
    ensures forall m :: 0 <= m < SlotCount && Reported(Timeline(hourMap)[m]) ==> Covers(AllRuns(Timeline(hourMap), 0), m)
    ensures StartsIncreasing(Schedule(response, scheduleId))
  {
    var t := Timeline(hourMap);
    AllRunsSound(t, 0);
    AllRunsComplete(t, 0);
    AllRunsStartsIncreasing(t);
  }

  /** The times of day that the example days below use. */
  lemma FmtValues()
    ensures Fmt(0) == "00:00" && Fmt(1) == "00:30" && Fmt(3) == "01:30" && Fmt(4) == "02:00"
    ensures Fmt(SlotCount) == "24:00"
  {
  }

  /** A day that is "no" in every hour is one off interval 00:00 to 24:00. */
  lemma AllNoDay(response: Info, scheduleId: string, hourMap: HourMap)
    requires HourMapOf(response, scheduleId) == Some(hourMap)
    requires forall h :: 1 <= h <= 24 ==> CodeAt(hourMap, h) == "no"
    ensures Schedule(response, scheduleId) == [Interval("00:00", "24:00", Off)]
  {
    var t := Timeline(hourMap);
    UniformDay(hourMap, "no");
    assert HalfSlots("no") == (Off, Off);
    assert RunEnd(t, Off, 1) == SlotCount;
    assert AllRuns(t, 0) == [Run(0, SlotCount, Off)];
    FmtValues();
    assert Schedule(response, scheduleId) == Render([Run(0, SlotCount, Off)]);
  }

  /** A day that is "yes" in every hour has no intervals. */
  lemma AllYesDay(response: Info, scheduleId: string, hourMap: HourMap)
    requires HourMapOf(response, scheduleId) == Some(hourMap)
    requires forall h :: 1 <= h <= 24 ==> CodeAt(hourMap, h) == "yes"
    ensures Schedule(response, scheduleId) == []
  {
    var t := Timeline(hourMap);
    UniformDay(hourMap, "yes");
    assert HalfSlots("yes") == (On, On);
    NoRunsFrom(t, 0);
  }

  /** The runs of a timeline that is off in slots 0 and 3 and on elsewhere. */
  lemma RunsOfFirstThenSecond(t: seq<Slot>)
    requires |t| == SlotCount && t[0] == Off && t[1] == On && t[2] == On && t[3] == Off
    requires forall m :: 4 <= m < SlotCount ==> t[m] == On
    ensures AllRuns(t, 0) == [Run(0, 1, Off), Run(3, 4, Off)]
  {
    NoRunsFrom(t, 4);
    assert RunEnd(t, Off, 1) == 1 && RunEnd(t, Off, 4) == 4;
    assert AllRuns(t, 3) == [Run(3, 4, Off)];
    assert AllRuns(t, 1) == AllRuns(t, 2) == AllRuns(t, 3);
  }

  /** The slots of hour 1 "first", hour 2 "second" and every other hour "yes". */
  lemma FirstThenSecondTimeline(hourMap: HourMap)
    requires CodeAt(hourMap, 1) == "first" && CodeAt(hourMap, 2) == "second"
    requires forall h :: 3 <= h <= 24 ==> CodeAt(hourMap, h) == "yes"
    ensures var t := Timeline(hourMap);
      t[0] == Off && t[1] == On && t[2] == On && t[3] == Off && forall m :: 4 <= m < SlotCount ==> t[m] == On
  {
    var t := Timeline(hourMap);
    assert t[0] == Off && t[1] == On by {
      assert HalfSlots("first") == (Off, On);
    }
    assert t[2] == On && t[3] == Off by {
      assert HalfSlots("second") == (On, Off);
    }
    forall m | 4 <= m < SlotCount ensures t[m] == On {
      assert CodeAt(hourMap, m / 2 + 1) == "yes";
      assert HalfSlots("yes") == (On, On);
    }
  }

  /** Hour 1 "first", hour 2 "second" and every other hour "yes": off from
      00:00 to 00:30 and from 01:30 to 02:00, on from 00:30 to 01:30. */
  lemma FirstThenSecondDay(response: Info, scheduleId: string, hourMap: HourMap)
    requires HourMapOf(response, scheduleId) == Some(hourMap)
    requires CodeAt(hourMap, 1) == "first" && CodeAt(hourMap, 2) == "second"
    requires forall h :: 3 <= h <= 24 ==> CodeAt(hourMap, h) == "yes"
    ensures Timeline(hourMap)[1] == On && Timeline(hourMap)[2] == On
    ensures Schedule(response, scheduleId) == [Interval("00:00", "00:30", Off), Interval("01:30", "02:00", Off)]
  {
    var t := Timeline(hourMap);
    FirstThenSecondTimeline(hourMap);
    RunsOfFirstThenSecond(t);
    FmtValues();
    assert Schedule(response, scheduleId) == Render([Run(0, 1, Off), Run(3, 4, Off)]);
  }
}
