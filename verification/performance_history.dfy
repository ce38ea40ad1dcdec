/** The in-memory performance history: a capped window of high-resolution samples, last-of-minute rollups, and
    the reduction by minute that the analysis applies to both. Times are milliseconds. */
module PerformanceHistory {
  import opened Options
  import opened Sequences

  const MAX_HIGH_RES_SAMPLES: nat := 960
  const MAX_MEMORY_ROLLUPS: nat := 10080
  const MAX_MEMORY_LAG_SAMPLES: nat := 5000
  const MINUTE_MS := 60000

  datatype Sample = Sample(at: int, payload: nat)

  datatype Entry = SampleEntry(sample: Sample) | LagEntry(sample: Sample)

  datatype Store = Store(
    snapshots: seq<Sample>,
    rollups: seq<Sample>,
    lag: seq<Sample>,
    pending: Option<Sample>,
    queued: seq<Entry>)        // handed to persistence, in order

  const EMPTY := Store([], [], [], None, [])

  function Minute(x: Sample): int { x.at / MINUTE_MS }

  function DropOlder(s: seq<Sample>, cutoff: int): seq<Sample> {
    if s != [] && s[0].at < cutoff then DropOlder(s[1..], cutoff) else s
  }

  function Trim(st: Store, cutoff: int): Store {
    st.(snapshots := LastN(st.snapshots, MAX_HIGH_RES_SAMPLES),
        rollups := LastN(DropOlder(st.rollups, cutoff), MAX_MEMORY_ROLLUPS),
        lag := LastN(st.lag, MAX_MEMORY_LAG_SAMPLES))
  }

  function Record(st: Store, x: Sample, cutoff: int): Store {
    var trimmed := Trim(st.(snapshots := st.snapshots + [x]), cutoff);
    if st.pending.Some? && Minute(st.pending.value) != Minute(x) then
      trimmed.(rollups := trimmed.rollups + [st.pending.value], queued := st.queued + [SampleEntry(st.pending.value)],
               pending := Some(x))
    else trimmed.(pending := Some(x))
  }

  function RecordLag(st: Store, x: Sample, cutoff: int): Store {
    Trim(st.(lag := st.lag + [x], queued := st.queued + [LagEntry(x)]), cutoff)
  }

  function Flush(st: Store): Store {
    if st.pending.None? then st else st.(queued := st.queued + [SampleEntry(st.pending.value)], pending := None)
  }

  function Since(since: int): Sample -> bool { (x: Sample) => x.at >= since }

  /** The samples `getHistory` returns. */
  function History(st: Store, since: int): seq<Sample> {
    var recent := Filter(Since(since), st.snapshots);
    var older := (x: Sample) => x.at >= since && (recent == [] || x.at < recent[0].at);
    Filter(older, st.rollups) + recent
  }

  datatype Event = EvSnapshot(sample: Sample, cutoff: int) | EvLag(sample: Sample, cutoff: int)

  function Step(st: Store, e: Event): Store {
    match e
    case EvSnapshot(x, cutoff) => Record(st, x, cutoff)
    case EvLag(x, cutoff) => RecordLag(st, x, cutoff)
  }

  function Run(st: Store, events: seq<Event>): Store
    decreases |events|
  {
    if events == [] then st else Run(Step(st, events[0]), events[1..])
  }

  function RecordedBy(e: Event): seq<Sample> { if e.EvSnapshot? then [e.sample] else [] }

  function Recorded(events: seq<Event>): seq<Sample> {
    if events == [] then [] else RecordedBy(events[0]) + Recorded(events[1..])
  }

  // ----- the reduction by minute -----

  /** Setting a key of an insertion-ordered map: the minute keeps its place and takes the new sample. */
  function Put(m: seq<Sample>, x: Sample): seq<Sample> {
    if m == [] then [x]
    else if Minute(m[0]) == Minute(x) then [x] + m[1..]
    else [m[0]] + Put(m[1..], x)
  }

  /** The values of the map from minutes to their last sample. */
  function ReduceByMinute(s: seq<Sample>): seq<Sample> {
    if s == [] then [] else Put(ReduceByMinute(s[..|s| - 1]), s[|s| - 1])
  }

  /** A stable sort by time: every sample goes behind those that are not newer. */
  function InsertByTime(s: seq<Sample>, x: Sample): seq<Sample> {
    if s == [] || s[|s| - 1].at <= x.at then s + [x] else InsertByTime(s[..|s| - 1], x) + [s[|s| - 1]]
  }

  function SortByTime(s: seq<Sample>): seq<Sample> {
    if s == [] then [] else InsertByTime(SortByTime(s[..|s| - 1]), s[|s| - 1])
  }

  predicate Short(s: seq<Sample>) { |s| < 2 || s[|s| - 1].at - s[0].at < 5 * MINUTE_MS }

  /** What the analysis works on: the samples sorted, and reduced unless they span less than five minutes. */
  function Analyzed(s: seq<Sample>): seq<Sample> {
    var sorted := SortByTime(s);
    if Short(sorted) then sorted else ReduceByMinute(sorted)
  }

  /** Times never go back. A sample may be recorded twice, and two samples may share a time. */
  ghost predicate Sorted(s: seq<Sample>) {
    forall i, j :: 0 <= i < j < |s| ==> s[i].at <= s[j].at
  }

  ghost predicate MinutesIncrease(s: seq<Sample>) {
    forall i, j :: 0 <= i < j < |s| ==> Minute(s[i]) < Minute(s[j])
  }

  /** The last sample of a minute, if it has one. */
  function LastOf(s: seq<Sample>, minute: int): Option<Sample> {
    if s == [] then None
    else if Minute(s[|s| - 1]) == minute then Some(s[|s| - 1])
    else LastOf(s[..|s| - 1], minute)
  }

  lemma {:induction false} LastOfHas(s: seq<Sample>, minute: int)
    ensures LastOf(s, minute).Some? ==> LastOf(s, minute).value in s && Minute(LastOf(s, minute).value) == minute
    ensures LastOf(s, minute).None? ==> forall x <- s :: Minute(x) != minute
  {
    if s != [] {
      LastOfHas(s[..|s| - 1], minute);
      assert s == s[..|s| - 1] + [s[|s| - 1]];
    }
  }

  lemma {:induction false} LastOfConcat(a: seq<Sample>, b: seq<Sample>, minute: int)
    ensures LastOf(a + b, minute) == if LastOf(b, minute).Some? then LastOf(b, minute) else LastOf(a, minute)
  {
    if b == [] {
      assert a + b == a;
    } else {
      assert (a + b)[..|a + b| - 1] == a + b[..|b| - 1];
      LastOfConcat(a, b[..|b| - 1], minute);
    }
  }

  lemma LastOfAppend(s: seq<Sample>, x: Sample, minute: int)
    ensures LastOf(s + [x], minute) == if Minute(x) == minute then Some(x) else LastOf(s, minute)
  {
    assert (s + [x])[..|s|] == s;
  }

  /** Filtering keeps the last sample of a minute if it passes. */
  lemma {:induction false} LastOfFilter(p: Sample -> bool, s: seq<Sample>, minute: int)
    requires LastOf(s, minute).Some? && p(LastOf(s, minute).value)
    ensures LastOf(Filter(p, s), minute) == LastOf(s, minute)
  {
    var init, x := s[..|s| - 1], s[|s| - 1];
    assert s == init + [x];
    FilterSnoc(p, init, x);
    if Minute(x) == minute {
      LastOfAppend(Filter(p, init), x, minute);
    } else {
      LastOfFilter(p, init, minute);
      LastOfAppend(Filter(p, init), x, minute);
    }
  }

  lemma FilterSnoc(p: Sample -> bool, s: seq<Sample>, x: Sample)
    ensures Filter(p, s + [x]) == if p(x) then Filter(p, s) + [x] else Filter(p, s)
  {
    FilterConcat(p, s, [x]);
    assert Filter(p, [x]) == (if p([x][0]) then [[x][0]] else []) + Filter(p, [x][1..]);
  }

  lemma SortedParts(a: seq<Sample>, b: seq<Sample>)
    requires Sorted(a + b)
    ensures Sorted(a) && Sorted(b) && forall x <- a, y <- b :: x.at <= y.at
  {
    var s := a + b;
    forall i, j | 0 <= i < j < |a| ensures a[i].at <= a[j].at {
      assert s[i] == a[i] && s[j] == a[j];
    }
    forall i, j | 0 <= i < j < |b| ensures b[i].at <= b[j].at {
      assert s[|a| + i] == b[i] && s[|a| + j] == b[j];
    }
    forall x <- a, y <- b ensures x.at <= y.at {
      var i :| 0 <= i < |a| && a[i] == x;
      var j :| 0 <= j < |b| && b[j] == y;
      assert s[i] == x && s[|a| + j] == y;
    }
  }

  lemma SortedJoin(a: seq<Sample>, b: seq<Sample>)
    requires Sorted(a) && Sorted(b) && forall x <- a, y <- b :: x.at <= y.at
    ensures Sorted(a + b)
  {
    forall i, j | 0 <= i < j < |a + b| ensures (a + b)[i].at <= (a + b)[j].at {
      if i < |a| <= j {
        assert a[i] in a && b[j - |a|] in b;
      }
    }
  }

  /** The last sample of a minute is its newest. */
  lemma {:induction false} LastOfIsNewest(s: seq<Sample>, x: Sample)
    requires Sorted(s) && x in s
    ensures LastOf(s, Minute(x)).Some? && x.at <= LastOf(s, Minute(x)).value.at
  {
    var init, last := s[..|s| - 1], s[|s| - 1];
    assert s == init + [last];
    SortedParts(init, [last]);
    assert last in [last];
    if x in init && Minute(last) != Minute(x) {
      LastOfIsNewest(init, x);
    }
  }

  /** What stays of a reduction when a sample of the last or a later minute comes. */
  function Below(m: seq<Sample>, x: Sample): seq<Sample> {
    if m != [] && Minute(m[|m| - 1]) == Minute(x) then m[..|m| - 1] else m
  }

  lemma SplitFirst(s: seq<Sample>)
    requires MinutesIncrease(s) && s != []
    ensures MinutesIncrease(s[1..]) && forall y <- s[1..] :: Minute(s[0]) < Minute(y)
  {
    forall y <- s[1..] ensures Minute(s[0]) < Minute(y) {
      var i :| 0 <= i < |s| - 1 && s[1..][i] == y;
      assert s[i + 1] == y;
    }
  }

  lemma BelowFirst(x0: Sample, rest: seq<Sample>, x: Sample)
    requires rest != []
    ensures Below([x0] + rest, x) == [x0] + Below(rest, x)
  {
  }

  lemma {:induction false} PutAtEnd(m: seq<Sample>, x: Sample)
    requires MinutesIncrease(m) && forall y <- m :: Minute(y) <= Minute(x)
    ensures Put(m, x) == Below(m, x) + [x]
  {
    if |m| > 1 {
      var rest := m[1..];
      assert m == [m[0]] + rest && rest[0] in m;
      SplitFirst(m);
      PutAtEnd(rest, x);
      BelowFirst(m[0], rest, x);
      Assoc([m[0]], Below(rest, x), [x]);
    }
  }

  lemma MinutesAppend(base: seq<Sample>, x: Sample)
    requires MinutesIncrease(base) && forall y <- base :: Minute(y) < Minute(x)
    ensures MinutesIncrease(base + [x])
  {
    var s := base + [x];
    forall i, j | 0 <= i < j < |s| ensures Minute(s[i]) < Minute(s[j]) {
      assert base[i] in base;
    }
  }

  lemma FrontIsEarlier(front: seq<Sample>, last: Sample)
    requires MinutesIncrease(front + [last])
    ensures MinutesIncrease(front) && forall y <- front :: Minute(y) < Minute(last)
  {
    var m := front + [last];
    forall y <- front ensures Minute(y) < Minute(last) {
      var i :| 0 <= i < |front| && front[i] == y;
      assert m[i] == y && m[|front|] == last;
    }
    forall i, j | 0 <= i < j < |front| ensures Minute(front[i]) < Minute(front[j]) {
      assert m[i] == front[i] && m[j] == front[j];
    }
  }

  lemma BelowIsEarlier(m: seq<Sample>, x: Sample)
    requires MinutesIncrease(m) && forall y <- m :: Minute(y) <= Minute(x)
    ensures MinutesIncrease(Below(m, x)) && forall y <- Below(m, x) :: Minute(y) < Minute(x)
    ensures forall y :: y in Below(m, x) <==> y in m && Minute(y) != Minute(x)
  {
    if m != [] {
      var front, last := m[..|m| - 1], m[|m| - 1];
      assert m == front + [last] && last in m;
      FrontIsEarlier(front, last);
    }
  }

  /** One more sample: it replaces the entry of its own minute or opens a new one. */
  lemma PutStep(m: seq<Sample>, x: Sample)
    requires MinutesIncrease(m) && forall y <- m :: Minute(y) <= Minute(x)
    ensures Put(m, x) == Below(m, x) + [x] && MinutesIncrease(Put(m, x))
    ensures forall y :: y in Put(m, x) <==> y == x || (y in m && Minute(y) != Minute(x))
    ensures forall y <- Put(m, x) :: Minute(y) <= Minute(x)
  {
    PutAtEnd(m, x);
    BelowIsEarlier(m, x);
    MinutesAppend(Below(m, x), x);
  }

  /** `m` is the last sample of every minute of `s`, in order. */
  ghost predicate LatestOf(m: seq<Sample>, s: seq<Sample>) {
    MinutesIncrease(m) && forall x :: x in m <==> LastOf(s, Minute(x)) == Some(x)
  }

  lemma PutKeepsLatest(m: seq<Sample>, init: seq<Sample>, x: Sample)
    requires LatestOf(m, init) && forall y <- m :: Minute(y) <= Minute(x)
    ensures LatestOf(Put(m, x), init + [x])
  {
    PutStep(m, x);
    forall y ensures LastOf(init + [x], Minute(y)) == if Minute(x) == Minute(y) then Some(x)
        else LastOf(init, Minute(y)) {
      LastOfAppend(init, x, Minute(y));
    }
  }

  /** On samples in order the reduction is exactly the last sample of every minute, in order. */
  lemma {:induction false} ReduceIsLatest(s: seq<Sample>)
    requires Sorted(s)
    ensures LatestOf(ReduceByMinute(s), s)
    ensures s != [] ==> forall x <- ReduceByMinute(s) :: Minute(x) <= Minute(s[|s| - 1])
  {
    if s != [] {
      var init, x := s[..|s| - 1], s[|s| - 1];
      assert s == init + [x];
      SortedParts(init, [x]);
      ReduceIsLatest(init);
      ReducedAreEarlier(init, x);
      PutKeepsLatest(ReduceByMinute(init), init, x);
      PutStep(ReduceByMinute(init), x);
    }
  }

  lemma ReducedAreEarlier(init: seq<Sample>, x: Sample)
    requires Sorted(init + [x])
    requires init != [] ==> forall y <- ReduceByMinute(init) :: Minute(y) <= Minute(init[|init| - 1])
    ensures forall y <- ReduceByMinute(init) :: Minute(y) <= Minute(x)
  {
    if init != [] {
      SortedParts(init, [x]);
      assert init[|init| - 1] in init && x in [x];
    }
  }

  lemma ReduceSnoc(all: seq<Sample>, x: Sample)
    requires Sorted(all + [x])
    ensures ReduceByMinute(all + [x]) == Put(ReduceByMinute(all), x)
    ensures MinutesIncrease(ReduceByMinute(all)) && forall y <- ReduceByMinute(all) :: Minute(y) <= Minute(x)
  {
    SortedParts(all, [x]);
    ReduceIsLatest(all);
    ReducedAreEarlier(all, x);
    assert (all + [x])[..|all|] == all;
  }

  /** Two sequences with one sample a minute and the same samples are equal. */
  lemma {:induction false} MinutesUnique(a: seq<Sample>, b: seq<Sample>)
    requires MinutesIncrease(a) && MinutesIncrease(b)
    requires forall x :: x in a <==> x in b
    ensures a == b
  {
    assert a == [] || a[0] in b;
    assert b == [] || b[0] in a;
    if a != [] {
      SplitFirst(a);
      SplitFirst(b);
      assert a == [a[0]] + a[1..] && b == [b[0]] + b[1..];
      forall x ensures x in a[1..] <==> x in b[1..] {
        assert x in a <==> x == a[0] || x in a[1..];
        assert x in b <==> x == b[0] || x in b[1..];
      }
      MinutesUnique(a[1..], b[1..]);
    }
  }

  lemma {:induction false} FilterMinutes(p: Sample -> bool, s: seq<Sample>)
    requires MinutesIncrease(s)
    ensures MinutesIncrease(Filter(p, s))
  {
    if s != [] {
      SplitFirst(s);
      FilterMinutes(p, s[1..]);
      FilterHas(p, s[1..]);
    }
  }

  lemma {:induction false} FilterSorted(p: Sample -> bool, s: seq<Sample>)
    requires Sorted(s)
    ensures Sorted(Filter(p, s))
  {
    if s != [] {
      assert s == [s[0]] + s[1..];
      SortedParts([s[0]], s[1..]);
      FilterSorted(p, s[1..]);
      FilterHas(p, s[1..]);
      SortedJoin(if p(s[0]) then [s[0]] else [], Filter(p, s[1..]));
    }
  }

  // ----- reductions of suffixes -----

  ghost predicate IsSuffix(a: seq<Sample>, b: seq<Sample>) { |a| <= |b| && a == b[|b| - |a|..] }

  lemma SuffixTrans(a: seq<Sample>, b: seq<Sample>, c: seq<Sample>)
    requires IsSuffix(a, b) && IsSuffix(b, c)
    ensures IsSuffix(a, c)
  {
  }

  lemma SuffixAppend(a: seq<Sample>, b: seq<Sample>, x: Sample)
    requires IsSuffix(a, b)
    ensures IsSuffix(a + [x], b + [x])
  {
  }

  lemma SuffixHas(a: seq<Sample>, b: seq<Sample>)
    requires IsSuffix(a, b)
    ensures forall x <- a :: x in b
  {
  }

  lemma BelowKeepsSuffix(a: seq<Sample>, b: seq<Sample>, x: Sample)
    requires IsSuffix(a, b)
    ensures IsSuffix(Below(a, x), Below(b, x))
  {
  }

  lemma SuffixMinutes(a: seq<Sample>, b: seq<Sample>)
    requires IsSuffix(a, b) && MinutesIncrease(b)
    ensures MinutesIncrease(a)
  {
  }

  /** Of two reductions, one a suffix of the other, the same sample makes two such reductions again. */
  lemma PutKeepsSuffix(a: seq<Sample>, b: seq<Sample>, x: Sample)
    requires IsSuffix(a, b) && MinutesIncrease(b) && forall y <- b :: Minute(y) <= Minute(x)
    ensures IsSuffix(Put(a, x), Put(b, x))
  {
    SuffixHas(a, b);
    SuffixMinutes(a, b);
    PutStep(b, x);
    PutStep(a, x);
    BelowKeepsSuffix(a, b, x);
    SuffixAppend(Below(a, x), Below(b, x), x);
  }

  lemma {:induction false} ReduceDropFirst(s: seq<Sample>)
    requires Sorted(s) && s != []
    ensures IsSuffix(ReduceByMinute(s[1..]), ReduceByMinute(s))
  {
    if |s| > 1 {
      var init, x := s[..|s| - 1], s[|s| - 1];
      assert s == init + [x] && s[1..] == init[1..] + [x] && init == [init[0]] + init[1..];
      SortedParts(init, [x]);
      SortedParts([s[0]], init[1..] + [x]) by {
        assert s == [s[0]] + (init[1..] + [x]);
      }
      ReduceDropFirst(init);
      ReduceSnoc(init, x);
      ReduceSnoc(init[1..], x);
      PutKeepsSuffix(ReduceByMinute(init[1..]), ReduceByMinute(init), x);
    }
  }

  lemma {:induction false} ReduceDrop(s: seq<Sample>, k: nat)
    requires Sorted(s) && k <= |s|
    ensures IsSuffix(ReduceByMinute(s[k..]), ReduceByMinute(s)) && Sorted(s[k..])
    decreases k
  {
    assert s == s[..k] + s[k..];
    SortedParts(s[..k], s[k..]);
    if k == 0 {
      assert s[0..] == s;
    } else {
      assert s == s[..k - 1] + s[k - 1..];
      SortedParts(s[..k - 1], s[k - 1..]);
      ReduceDrop(s, k - 1);
      ReduceDropFirst(s[k - 1..]);
      assert s[k - 1..][1..] == s[k..];
      SuffixTrans(ReduceByMinute(s[k..]), ReduceByMinute(s[k - 1..]), ReduceByMinute(s));
    }
  }

  /** A second sample of the same minute takes the place of the first. */
  lemma PutTwice(m: seq<Sample>, p: Sample, x: Sample)
    requires MinutesIncrease(m) && Minute(p) == Minute(x) && forall y <- m :: Minute(y) <= Minute(x)
    ensures Put(Put(m, p), x) == Put(m, x)
  {
    PutStep(m, p);
    PutStep(m, x);
    PutAtEnd(Put(m, p), x);
    assert (Below(m, p) + [p])[..|Below(m, p)|] == Below(m, p);
  }

  // ----- the store against the full record -----

  function Opt(pending: Option<Sample>): seq<Sample> { if pending.Some? then [pending.value] else [] }

  /** The snapshots are the newest samples of `all`, and the pending rollup is the newest of them. */
  ghost predicate WindowInv(snapshots: seq<Sample>, pending: Option<Sample>, all: seq<Sample>) {
    && IsSuffix(snapshots, all)
    && |snapshots| <= MAX_HIGH_RES_SAMPLES
    && (if pending.Some? then snapshots != [] && pending.value == all[|all| - 1] else snapshots == [])
  }

  /** The rollups and the pending sample reduce to the newest part of the reduction of everything. */
  ghost predicate RollupInv(rollups: seq<Sample>, pending: Option<Sample>, all: seq<Sample>) {
    && |rollups| <= MAX_MEMORY_ROLLUPS + 1
    && Sorted(rollups + Opt(pending))
    && IsSuffix(ReduceByMinute(rollups + Opt(pending)), ReduceByMinute(all))
  }

  /** The store `st` after everything in `all` was recorded, before or after the program was last started. */
  ghost predicate HistInv(st: Store, all: seq<Sample>) {
    Sorted(all) && WindowInv(st.snapshots, st.pending, all) && RollupInv(st.rollups, st.pending, all)
  }

  lemma {:induction false} DropOlderSuffix(s: seq<Sample>, cutoff: int) returns (k: nat)
    ensures k <= |s| && DropOlder(s, cutoff) == s[k..]
    ensures (forall x <- s :: cutoff <= x.at) ==> k == 0
  {
    k := 0;
    if s != [] && s[0].at < cutoff {
      var rest := DropOlderSuffix(s[1..], cutoff);
      k := rest + 1;
      assert s[0] in s;
    }
  }

  lemma {:induction false} FilterKeepsAll(s: seq<Sample>, since: int)
    requires forall x <- s :: x.at >= since
    ensures Filter(Since(since), s) == s
  {
    if s != [] {
      assert s[0] in s && forall x <- s[1..] :: x in s;
      FilterKeepsAll(s[1..], since);
    }
  }

  /** On samples in order, filtering by a time takes a suffix. */
  lemma {:induction false} SinceIsSuffix(s: seq<Sample>, since: int) returns (k: nat)
    requires Sorted(s)
    ensures k <= |s| && Filter(Since(since), s) == s[k..]
    ensures forall x <- s[..k] :: x.at < since
  {
    if s == [] {
      k := 0;
    } else {
      assert s == [s[0]] + s[1..];
      SortedParts([s[0]], s[1..]);
      if s[0].at < since {
        var rest := SinceIsSuffix(s[1..], since);
        k := rest + 1;
        assert s[..k] == [s[0]] + s[1..][..rest];
      } else {
        k := 0;
        assert s[0] in [s[0]];
        FilterKeepsAll(s, since);
      }
    }
  }

  /** On samples in order, dropping expired ones from the front is filtering by the cutoff. */
  lemma {:induction false} DropOlderIsFilter(s: seq<Sample>, cutoff: int)
    requires Sorted(s)
    ensures DropOlder(s, cutoff) == Filter(Since(cutoff), s)
  {
    if s != [] {
      assert s == [s[0]] + s[1..];
      SortedParts([s[0]], s[1..]);
      assert s[0] in [s[0]];
      if s[0].at < cutoff {
        DropOlderIsFilter(s[1..], cutoff);
      } else {
        FilterKeepsAll(s, cutoff);
      }
    }
  }

  lemma TrimmedRollups(s: seq<Sample>, cutoff: int) returns (k: nat)
    ensures k <= |s| && LastN(DropOlder(s, cutoff), MAX_MEMORY_ROLLUPS) == s[k..]
    ensures (forall x <- s :: cutoff <= x.at) && |s| <= MAX_MEMORY_ROLLUPS ==> k == 0
  {
    k := DropOlderSuffix(s, cutoff);
    if |s| - k > MAX_MEMORY_ROLLUPS {
      k := |s| - MAX_MEMORY_ROLLUPS;
    }
  }

  /** Trimming keeps the invariant: what it takes from the rollups is a prefix. */
  lemma TrimKeepsRollups(rollups: seq<Sample>, pending: Option<Sample>, all: seq<Sample>, k: nat)
    requires RollupInv(rollups, pending, all) && k <= |rollups|
    ensures RollupInv(rollups[k..], pending, all)
  {
    var whole := rollups + Opt(pending);
    ReduceDrop(whole, k);
    assert whole[k..] == rollups[k..] + Opt(pending);
    SuffixTrans(ReduceByMinute(whole[k..]), ReduceByMinute(whole), ReduceByMinute(all));
  }

  lemma TrimKeepsInv(st: Store, all: seq<Sample>, cutoff: int)
    requires HistInv(st, all)
    ensures HistInv(Trim(st, cutoff), all) && |Trim(st, cutoff).rollups| <= MAX_MEMORY_ROLLUPS
  {
    var k := TrimmedRollups(st.rollups, cutoff);
    TrimKeepsRollups(st.rollups, st.pending, all, k);
  }

  /** The pending sample is rolled over if the new one is of another minute. */
  function Rolled(rollups: seq<Sample>, pending: Option<Sample>, x: Sample): seq<Sample> {
    if pending.Some? && Minute(pending.value) != Minute(x) then rollups + [pending.value] else rollups
  }

  /** Rolled over or replaced, the reduction of what is kept takes the new sample in. */
  lemma RolledReduces(rollups: seq<Sample>, pending: Option<Sample>, x: Sample)
    requires Sorted(rollups + Opt(pending) + [x])
    ensures Sorted(Rolled(rollups, pending, x) + [x])
    ensures ReduceByMinute(Rolled(rollups, pending, x) + [x]) == Put(ReduceByMinute(rollups + Opt(pending)), x)
  {
    var whole := rollups + Opt(pending);
    ReduceSnoc(whole, x);
    if pending.Some? && Minute(pending.value) == Minute(x) {
      var p := pending.value;
      SortedParts(whole, [x]);
      assert p in whole && forall y <- rollups :: y in whole;
      SortedParts(rollups, [p]);
      SortedJoin(rollups, [x]);
      ReduceSnoc(rollups, p);
      ReduceSnoc(rollups, x);
      PutTwice(ReduceByMinute(rollups), p, x);
    } else if pending.None? {
      assert whole == rollups;
    }
  }

  lemma RollKeepsSuffix(rollups: seq<Sample>, pending: Option<Sample>, all: seq<Sample>, x: Sample)
    requires IsSuffix(ReduceByMinute(rollups + Opt(pending)), ReduceByMinute(all))
    requires Sorted(all + [x]) && Sorted(rollups + Opt(pending) + [x])
    ensures Sorted(Rolled(rollups, pending, x) + [x])
    ensures IsSuffix(ReduceByMinute(Rolled(rollups, pending, x) + [x]), ReduceByMinute(all + [x]))
  {
    RolledReduces(rollups, pending, x);
    ReduceSnoc(all, x);
    PutKeepsSuffix(ReduceByMinute(rollups + Opt(pending)), ReduceByMinute(all), x);
  }

  lemma RollKeepsRollups(rollups: seq<Sample>, pending: Option<Sample>, all: seq<Sample>, x: Sample)
    requires RollupInv(rollups, pending, all) && |rollups| <= MAX_MEMORY_ROLLUPS
    requires Sorted(all + [x]) && Sorted(rollups + Opt(pending) + [x])
    ensures RollupInv(Rolled(rollups, pending, x), Some(x), all + [x])
  {
    RollKeepsSuffix(rollups, pending, all, x);
    assert Opt(Some(x)) == [x];
  }

  lemma LastIsRecorded(s: seq<Sample>, all: seq<Sample>)
    requires Sorted(s) && s != [] && Sorted(all) && IsSuffix(ReduceByMinute(s), ReduceByMinute(all))
    ensures s[|s| - 1] in all
  {
    var last := s[|s| - 1];
    assert LastOf(s, Minute(last)) == Some(last);
    KeptIsLatest(s, all, last);
    LastOfHas(all, Minute(last));
  }

  /** Nothing kept is newer than everything recorded. */
  lemma ReducedIsOld(s: seq<Sample>, all: seq<Sample>, rest: seq<Sample>)
    requires Sorted(s) && IsSuffix(ReduceByMinute(s), ReduceByMinute(all)) && Sorted(all + rest)
    ensures Sorted(s + rest)
  {
    SortedParts(all, rest);
    if s != [] {
      LastIsRecorded(s, all);
      var last := s[|s| - 1];
      forall y <- s, x <- rest ensures y.at <= x.at {
        assert y.at <= last.at <= x.at;
      }
    }
    SortedJoin(s, rest);
  }

  lemma RecordKeepsWindow(st: Store, all: seq<Sample>, x: Sample)
    requires WindowInv(st.snapshots, st.pending, all)
    ensures WindowInv(LastN(st.snapshots + [x], MAX_HIGH_RES_SAMPLES), Some(x), all + [x])
  {
    SuffixAppend(st.snapshots, all, x);
    assert IsSuffix(LastN(st.snapshots + [x], MAX_HIGH_RES_SAMPLES), st.snapshots + [x]);
    SuffixTrans(LastN(st.snapshots + [x], MAX_HIGH_RES_SAMPLES), st.snapshots + [x], all + [x]);
  }

  lemma RecordKeepsInv(st: Store, all: seq<Sample>, x: Sample, cutoff: int)
    requires HistInv(st, all) && Sorted(all + [x])
    ensures HistInv(Record(st, x, cutoff), all + [x])
  {
    var trimmed := Trim(st, cutoff).rollups;
    TrimKeepsInv(st, all, cutoff);
    ReducedIsOld(trimmed + Opt(st.pending), all, [x]);
    RollKeepsRollups(trimmed, st.pending, all, x);
    RecordKeepsWindow(st, all, x);
    RecordRolls(st, x, cutoff);
  }

  lemma RecordRolls(st: Store, x: Sample, cutoff: int)
    ensures var r := Record(st, x, cutoff);
            && r.rollups == Rolled(Trim(st, cutoff).rollups, st.pending, x)
            && r.snapshots == LastN(st.snapshots + [x], MAX_HIGH_RES_SAMPLES)
            && r.pending == Some(x)
  {
  }

  /** The rollups exceed their limit, by one, exactly when a minute ends with as many unexpired rollups as the limit
      allows. */
  lemma RollupsExceedExactly(st: Store, x: Sample, cutoff: int)
    ensures var n := |Record(st, x, cutoff).rollups|;
            && n <= MAX_MEMORY_ROLLUPS + 1
            && (n == MAX_MEMORY_ROLLUPS + 1 <==>
                && st.pending.Some? && Minute(st.pending.value) != Minute(x)
                && |DropOlder(st.rollups, cutoff)| >= MAX_MEMORY_ROLLUPS)
  {
  }

  const WEEK_MS := 7 * 24 * 60 * MINUTE_MS

  /** A sample a minute: no more of them than minutes. */
  lemma {:induction false} MinutesFit(s: seq<Sample>, lo: int, hi: int)
    requires MinutesIncrease(s) && lo <= hi && forall x <- s :: lo <= Minute(x) < hi
    ensures |s| <= hi - lo
  {
    if s != [] {
      var init, x := s[..|s| - 1], s[|s| - 1];
      assert s == init + [x] && x in s;
      FrontIsEarlier(init, x);
      MinutesFit(init, lo, Minute(x));
    }
  }

  lemma MinutesAreSorted(s: seq<Sample>)
    requires MinutesIncrease(s)
    ensures Sorted(s)
  {
    forall i, j | 0 <= i < j < |s| ensures s[i].at <= s[j].at {
      assert Minute(s[i]) < Minute(s[j]);
    }
  }

  lemma UnexpiredFit(kept: seq<Sample>, x: Sample, cutoff: int)
    requires MinutesIncrease(kept) && (forall r <- kept :: cutoff <= r.at && Minute(r) < Minute(x))
    requires cutoff >= x.at - WEEK_MS
    ensures |kept| <= MAX_MEMORY_ROLLUPS
  {
    forall r <- kept ensures Minute(x) - MAX_MEMORY_ROLLUPS <= Minute(r) {
      assert r.at >= x.at - MAX_MEMORY_ROLLUPS * MINUTE_MS;
    }
    MinutesFit(kept, Minute(x) - MAX_MEMORY_ROLLUPS, Minute(x));
  }

  /** The rollups before the sample, with the pending one, hold a sample a minute. */
  ghost predicate OneAMinute(st: Store) { MinutesIncrease(st.rollups + Opt(st.pending)) }

  lemma WithinLimitTrim(rollups: seq<Sample>, pending: Option<Sample>, k: nat)
    requires MinutesIncrease(rollups + Opt(pending)) && k <= |rollups|
    ensures MinutesIncrease(rollups[k..] + Opt(pending))
    ensures pending.None? ==> MinutesIncrease(rollups[k..])
    ensures forall r <- rollups[k..] :: r in rollups
  {
    var whole := rollups + Opt(pending);
    assert whole[k..] == rollups[k..] + Opt(pending);
    SuffixMinutes(whole[k..], whole);
    assert pending.None? ==> rollups[k..] + Opt(pending) == rollups[k..];
  }

  lemma RecordStaysWithinLimit(st: Store, x: Sample, cutoff: int)
    requires OneAMinute(st) && |st.rollups| <= MAX_MEMORY_ROLLUPS && cutoff >= x.at - WEEK_MS
    requires (forall r <- st.rollups :: Minute(r) < Minute(x)) && (forall p <- Opt(st.pending) :: p.at <= x.at)
    ensures var r := Record(st, x, cutoff);
            && |r.rollups| <= MAX_MEMORY_ROLLUPS && OneAMinute(r)
            && forall y <- r.rollups :: Minute(y) < Minute(x) && y in st.rollups + Opt(st.pending)
  {
    var k := TrimmedRollups(st.rollups, cutoff);
    var kept := st.rollups[k..];
    RecordRolls(st, x, cutoff);
    var rolled := Record(st, x, cutoff).rollups;
    WithinLimitTrim(st.rollups, st.pending, k);
    if st.pending.Some? {
      var p := st.pending.value;
      assert p in Opt(st.pending) && Minute(p) <= Minute(x);
      FrontIsEarlier(kept, p);
      if Minute(p) != Minute(x) {
        assert rolled == kept + [p];
        RolledFits(st.rollups, p, k, x, cutoff);
      }
    }
    MinutesAppend(rolled, x);
  }

  lemma UnexpiredKept(rollups: seq<Sample>, k: nat, cutoff: int)
    requires Sorted(rollups) && k <= |rollups|
    requires rollups[k..] == LastN(DropOlder(rollups, cutoff), MAX_MEMORY_ROLLUPS)
    ensures forall r <- rollups[k..] :: cutoff <= r.at
  {
    var unexpired := DropOlder(rollups, cutoff);
    DropOlderIsFilter(rollups, cutoff);
    FilterHas(Since(cutoff), rollups);
    assert forall r <- LastN(unexpired, MAX_MEMORY_ROLLUPS) :: r in unexpired;
  }

  lemma KeptFit(kept: seq<Sample>, p: Sample, x: Sample, cutoff: int)
    requires kept != [] && MinutesIncrease(kept + [p]) && (forall r <- kept :: cutoff <= r.at)
    requires Minute(p) < Minute(x) && cutoff >= x.at - WEEK_MS
    ensures |kept + [p]| <= MAX_MEMORY_ROLLUPS
  {
    MinutesAreSorted(kept + [p]);
    SortedParts(kept, [p]);
    FrontIsEarlier(kept, p);
    assert kept[0] in kept && p in [p];
    UnexpiredFit(kept + [p], x, cutoff);
  }

  /** With the pending sample, the unexpired rollups still fit. */
  lemma RolledFits(rollups: seq<Sample>, p: Sample, k: nat, x: Sample, cutoff: int)
    requires k <= |rollups| && rollups[k..] == LastN(DropOlder(rollups, cutoff), MAX_MEMORY_ROLLUPS)
    requires MinutesIncrease(rollups + [p]) && MinutesIncrease(rollups[k..] + [p])
    requires Minute(p) < Minute(x) && cutoff >= x.at - WEEK_MS
    ensures |rollups[k..] + [p]| <= MAX_MEMORY_ROLLUPS
  {
    FrontIsEarlier(rollups, p);
    MinutesAreSorted(rollups);
    UnexpiredKept(rollups, k, cutoff);
    if rollups[k..] != [] {
      KeptFit(rollups[k..], p, x, cutoff);
    }
  }

  /** A snapshot is taken no more than its retention after the time it is trimmed for. */
  predicate ClockInTime(e: Event) { e.EvSnapshot? ==> e.cutoff >= e.sample.at - WEEK_MS }

  /** With the application's retention of a week, a clock that is not behind the samples, and minutes that do not
      repeat, the rollups never exceed their limit, over any run. */
  lemma {:induction false} RollupsStayWithinLimit(st: Store, events: seq<Event>)
    requires OneAMinute(st) && |st.rollups| <= MAX_MEMORY_ROLLUPS && forall e <- events :: ClockInTime(e)
    requires Sorted(Opt(st.pending) + Recorded(events))
    requires forall r <- st.rollups, x <- Recorded(events) :: Minute(r) < Minute(x)
    ensures |Run(st, events).rollups| <= MAX_MEMORY_ROLLUPS
    decreases |events|
  {
    if events != [] {
      var e, first, rest := events[0], RecordedBy(events[0]), Recorded(events[1..]);
      assert ClockInTime(e) && forall f <- events[1..] :: f in events;
      assert forall x <- first :: x in first + rest;
      assert forall x <- rest :: x in first + rest;
      Assoc(Opt(st.pending), first, rest);
      SortedParts(Opt(st.pending) + first, rest);
      SortedParts(Opt(st.pending), first);
      if e.EvSnapshot? {
        assert e.sample in first;
        RecordStaysWithinLimit(st, e.sample, e.cutoff);
        LaterMinutes(st, e.sample, e.cutoff, rest);
        SortedTail(Opt(st.pending), e.sample, rest);
      } else {
        LagStaysWithinLimit(st, e.sample, e.cutoff);
        assert first + rest == rest;
      }
      RollupsStayWithinLimit(Step(st, e), events[1..]);
    }
  }

  lemma SortedTail(a: seq<Sample>, x: Sample, rest: seq<Sample>)
    requires Sorted(a + [x] + rest)
    ensures Sorted([x] + rest)
  {
    Assoc(a, [x], rest);
    SortedParts(a, [x] + rest);
  }

  lemma LaterMinutes(st: Store, x: Sample, cutoff: int, rest: seq<Sample>)
    requires forall y <- Record(st, x, cutoff).rollups :: Minute(y) < Minute(x)
    requires Sorted(Opt(st.pending) + [x] + rest)
    ensures forall r <- Record(st, x, cutoff).rollups, y <- rest :: Minute(r) < Minute(y)
  {
    SortedParts(Opt(st.pending) + [x], rest);
    assert x in Opt(st.pending) + [x];
  }

  lemma LagStaysWithinLimit(st: Store, x: Sample, cutoff: int)
    requires OneAMinute(st) && |st.rollups| <= MAX_MEMORY_ROLLUPS
    ensures var r := RecordLag(st, x, cutoff);
            OneAMinute(r) && |r.rollups| <= MAX_MEMORY_ROLLUPS && forall y <- r.rollups :: y in st.rollups
  {
    var k := TrimmedRollups(st.rollups, cutoff);
    var whole := st.rollups + Opt(st.pending);
    assert whole[k..] == st.rollups[k..] + Opt(st.pending);
    SuffixMinutes(whole[k..], whole);
  }

  /** A week of a sample a minute, as read back from disk. */
  function FullWeek(): (s: seq<Sample>)
    ensures |s| == MAX_MEMORY_ROLLUPS && forall i :: 0 <= i < |s| ==> s[i] == Sample(i * MINUTE_MS, 0)
  {
    seq(MAX_MEMORY_ROLLUPS, i => Sample(i * MINUTE_MS, 0))
  }

  /** Where a minute repeats, because a restart fell into it, the limit is exceeded, with the application's retention
      and a clock that is never behind. */
  lemma RepeatedMinuteExceeds()
    ensures var x, y := Sample((MAX_MEMORY_ROLLUPS - 1) * MINUTE_MS + 1, 0), Sample(MAX_MEMORY_ROLLUPS * MINUTE_MS, 0);
            var events := [EvSnapshot(x, x.at - WEEK_MS), EvSnapshot(y, y.at - WEEK_MS)];
            && Sorted(FullWeek() + Recorded(events)) && OneAMinute(EMPTY.(rollups := FullWeek()))
            && (forall e <- events :: ClockInTime(e))
            && |Run(EMPTY.(rollups := FullWeek()), events).rollups| == MAX_MEMORY_ROLLUPS + 1
  {
    var week := FullWeek();
    var x, y := Sample((MAX_MEMORY_ROLLUPS - 1) * MINUTE_MS + 1, 0), Sample(MAX_MEMORY_ROLLUPS * MINUTE_MS, 0);
    var events := [EvSnapshot(x, x.at - WEEK_MS), EvSnapshot(y, y.at - WEEK_MS)];
    var st := EMPTY.(rollups := week);
    assert week + [] == week;
    FullWeekInOrder();
    assert events[1..] == [EvSnapshot(y, y.at - WEEK_MS)] && events[1..][1..] == [];
    assert Recorded(events) == [x] + ([y] + []) by {
      assert Recorded(events[1..]) == [y] + [];
    }
    assert [x] + ([y] + []) == [x, y];
    SortedJoin(week, [x, y]);
    assert Run(st, events) == Record(Record(st, x, x.at - WEEK_MS), y, y.at - WEEK_MS) by {
      assert Run(Step(st, events[0]), events[1..]) == Step(Step(st, events[0]), events[1]);
    }
    var once := Record(st, x, x.at - WEEK_MS);
    assert week[0].at == 0 && DropOlder(week, x.at - WEEK_MS) == week && DropOlder(week, y.at - WEEK_MS) == week;
    assert once.rollups == week && once.pending == Some(x);
    assert Minute(x) == MAX_MEMORY_ROLLUPS - 1 && Minute(y) == MAX_MEMORY_ROLLUPS;
  }

  lemma FullWeekInOrder()
    ensures var week := FullWeek(); MinutesIncrease(week) && Sorted(week)
    ensures forall x <- FullWeek() :: x.at <= (MAX_MEMORY_ROLLUPS - 1) * MINUTE_MS
  {
    var week := FullWeek();
    forall i, j | 0 <= i < j < |week| ensures Minute(week[i]) < Minute(week[j]) {
      assert Minute(week[i]) == i && Minute(week[j]) == j;
    }
    MinutesAreSorted(week);
  }

  lemma StepKeepsInv(st: Store, all: seq<Sample>, e: Event, rest: seq<Sample>)
    requires HistInv(st, all) && Sorted(all + RecordedBy(e) + rest)
    ensures HistInv(Step(st, e), all + RecordedBy(e))
  {
    SortedParts(all + RecordedBy(e), rest);
    if e.EvSnapshot? {
      RecordKeepsInv(st, all, e.sample, e.cutoff);
    } else {
      TrimKeepsInv(st, all, e.cutoff);
      assert all + [] == all;
    }
  }

  /** Any run of samples whose times do not go back, with lag samples in between and whatever the clock does to the
      cutoffs, keeps the store in agreement with the full record. */
  lemma {:induction false} RunKeepsInv(st: Store, all: seq<Sample>, events: seq<Event>)
    requires HistInv(st, all) && Sorted(all + Recorded(events))
    ensures HistInv(Run(st, events), all + Recorded(events))
    decreases |events|
  {
    if events == [] {
      assert all + [] == all;
    } else {
      var first, rest := RecordedBy(events[0]), Recorded(events[1..]);
      Assoc(all, first, rest);
      StepKeepsInv(st, all, events[0], rest);
      RunKeepsInv(Step(st, events[0]), all + first, events[1..]);
    }
  }

  // ----- the history against the full record -----

  predicate Kept(st: Store, x: Sample) { x in st.rollups || x in st.snapshots }

  function Recent(st: Store, since: int): seq<Sample> { Filter(Since(since), st.snapshots) }

  function Older(st: Store, since: int): Sample -> bool {
    var recent := Recent(st, since);
    (x: Sample) => x.at >= since && (recent == [] || x.at < recent[0].at)
  }

  lemma SuffixSplits(a: seq<Sample>, b: seq<Sample>) returns (before: seq<Sample>)
    requires IsSuffix(a, b)
    ensures b == before + a
  {
    before := b[..|b| - |a|];
  }

  lemma SplitBehind(outside: seq<Sample>, s: seq<Sample>, k: nat)
    requires k <= |s|
    ensures outside + s == (outside + s[..k]) + s[k..]
  {
  }

  /** The high-resolution part is a suffix of everything recorded. */
  lemma RecentIsSuffix(st: Store, all: seq<Sample>, since: int) returns (before: seq<Sample>)
    requires HistInv(st, all)
    ensures all == before + Recent(st, since)
  {
    var outside := SuffixSplits(st.snapshots, all);
    SortedParts(outside, st.snapshots);
    var k := SinceIsSuffix(st.snapshots, since);
    before := outside + st.snapshots[..k];
    SplitBehind(outside, st.snapshots, k);
  }

  lemma RecentInOrder(st: Store, all: seq<Sample>, since: int)
    requires HistInv(st, all)
    ensures Sorted(Recent(st, since)) && forall y <- Recent(st, since) :: Recent(st, since)[0].at <= y.at
  {
    var before := RecentIsSuffix(st, all, since);
    SortedParts(before, Recent(st, since));
  }

  /** The history is in order, so a stable sort changes nothing, and no rollup overlaps the high-resolution part. */
  lemma HistoryInOrder(st: Store, all: seq<Sample>, since: int)
    requires HistInv(st, all)
    ensures Sorted(History(st, since))
    ensures forall x <- Filter(Older(st, since), st.rollups), y <- Recent(st, since) :: x.at < y.at
  {
    var recent, older := Recent(st, since), Filter(Older(st, since), st.rollups);
    RecentInOrder(st, all, since);
    SortedParts(st.rollups, Opt(st.pending));
    FilterSorted(Older(st, since), st.rollups);
    FilterHas(Older(st, since), st.rollups);
    forall x <- older, y <- recent ensures x.at < y.at {
      assert Older(st, since)(x);
    }
    SortedJoin(older, recent);
    HistoryParts(st, since);
  }

  lemma HistoryParts(st: Store, since: int)
    ensures History(st, since) == Filter(Older(st, since), st.rollups) + Recent(st, since)
  {
    var recent := Recent(st, since);
    var older := (x: Sample) => x.at >= since && (recent == [] || x.at < recent[0].at);
    SameFilter(older, Older(st, since), st.rollups);
  }

  lemma {:induction false} SameFilter(p: Sample -> bool, q: Sample -> bool, s: seq<Sample>)
    requires forall x :: p(x) == q(x)
    ensures Filter(p, s) == Filter(q, s)
  {
    if s != [] {
      SameFilter(p, q, s[1..]);
    }
  }

  /** The last sample the history shows of a minute is the last ever recorded in it. */
  lemma ShownIsLatest(st: Store, all: seq<Sample>, since: int, minute: int)
    requires HistInv(st, all) && LastOf(History(st, since), minute).Some?
    ensures LastOf(History(st, since), minute) == LastOf(all, minute)
    ensures var x := LastOf(all, minute).value; x.at >= since && Kept(st, x)
  {
    var recent, older := Recent(st, since), Filter(Older(st, since), st.rollups);
    HistoryParts(st, since);
    LastOfConcat(older, recent, minute);
    FilterHas(Since(since), st.snapshots);
    FilterHas(Older(st, since), st.rollups);
    if LastOf(recent, minute).Some? {
      RecentLatest(st, all, since, minute);
      LastOfHas(recent, minute);
    } else {
      LastOfHas(older, minute);
      OlderLatest(st, all, since, minute);
    }
  }

  lemma RecentLatest(st: Store, all: seq<Sample>, since: int, minute: int)
    requires HistInv(st, all) && LastOf(Recent(st, since), minute).Some?
    ensures LastOf(all, minute) == LastOf(Recent(st, since), minute)
  {
    var before := RecentIsSuffix(st, all, since);
    LastOfConcat(before, Recent(st, since), minute);
  }

  /** If the high-resolution part has nothing of a minute, the last rollup shown of it is the last kept, and so the
      last recorded. */
  lemma OlderLatest(st: Store, all: seq<Sample>, since: int, minute: int)
    requires HistInv(st, all) && LastOf(Recent(st, since), minute).None?
    requires LastOf(Filter(Older(st, since), st.rollups), minute).Some?
    ensures LastOf(Filter(Older(st, since), st.rollups), minute) == LastOf(all, minute)
  {
    var recent, older := Recent(st, since), Filter(Older(st, since), st.rollups);
    var z := LastOf(older, minute).value;
    LastOfHas(older, minute);
    LastOfHas(recent, minute);
    FilterHas(Older(st, since), st.rollups);
    SortedParts(st.rollups, Opt(st.pending));
    LastOfIsNewest(st.rollups, z);
    var w := LastOf(st.rollups, minute).value;
    LastOfHas(st.rollups, minute);
    assert Older(st, since)(w) by {
      if recent != [] && w.at >= recent[0].at {
        SameMinute(z, recent[0], w);
      }
    }
    LastOfFilter(Older(st, since), st.rollups, minute);
    PendingElsewhere(st, all, since, w);
    LastOfConcat(st.rollups, Opt(st.pending), minute);
    LastOfHas(Opt(st.pending), minute);
    KeptIsLatest(st.rollups + Opt(st.pending), all, w);
  }

  lemma SameMinute(a: Sample, b: Sample, c: Sample)
    requires a.at <= b.at <= c.at && Minute(a) == Minute(c)
    ensures Minute(b) == Minute(a)
  {
  }

  lemma PendingElsewhere(st: Store, all: seq<Sample>, since: int, w: Sample)
    requires HistInv(st, all) && w in st.rollups && w.at >= since && LastOf(Recent(st, since), Minute(w)).None?
    ensures forall p <- Opt(st.pending) :: Minute(p) != Minute(w)
  {
    SortedParts(st.rollups, Opt(st.pending));
    FilterHas(Since(since), st.snapshots);
    LastOfHas(Recent(st, since), Minute(w));
    if st.pending.Some? {
      assert st.pending.value == st.snapshots[|st.snapshots| - 1];
      assert st.pending.value in Opt(st.pending);
    }
  }

  lemma KeptIsLatest(kept: seq<Sample>, all: seq<Sample>, w: Sample)
    requires Sorted(kept) && Sorted(all) && IsSuffix(ReduceByMinute(kept), ReduceByMinute(all))
    requires LastOf(kept, Minute(w)) == Some(w)
    ensures LastOf(all, Minute(w)) == Some(w)
  {
    ReduceIsLatest(kept);
    ReduceIsLatest(all);
    SuffixHas(ReduceByMinute(kept), ReduceByMinute(all));
  }

  /** The last sample recorded in a minute is shown, if either memory still holds it. */
  lemma LatestIsShown(st: Store, all: seq<Sample>, since: int, minute: int)
    requires HistInv(st, all) && LastOf(all, minute).Some?
    requires var x := LastOf(all, minute).value; x.at >= since && Kept(st, x)
    ensures LastOf(History(st, since), minute) == LastOf(all, minute)
  {
    var recent, older := Recent(st, since), Filter(Older(st, since), st.rollups);
    var x := LastOf(all, minute).value;
    HistoryParts(st, since);
    LastOfConcat(older, recent, minute);
    LastOfHas(all, minute);
    LastOfHas(recent, minute);
    LastOfHas(older, minute);
    if LastOf(recent, minute).Some? {
      RecentLatest(st, all, since, minute);
    } else {
      FilterHas(Since(since), st.snapshots);
      FilterHas(Older(st, since), st.rollups);
      BeforeRecent(st, all, since, x);
      assert x in older;
      OlderLatest(st, all, since, minute);
    }
  }

  lemma BeforeRecent(st: Store, all: seq<Sample>, since: int, x: Sample)
    requires HistInv(st, all) && x in all && x.at >= since && forall y <- Recent(st, since) :: Minute(y) != Minute(x)
    ensures Older(st, since)(x)
  {
    var before := RecentIsSuffix(st, all, since);
    EarlierMinute(before, Recent(st, since), x);
  }

  lemma EarlierMinute(before: seq<Sample>, recent: seq<Sample>, x: Sample)
    requires Sorted(before + recent) && x in before + recent && forall y <- recent :: Minute(y) != Minute(x)
    ensures recent != [] ==> x.at < recent[0].at
  {
    SortedParts(before, recent);
    if recent != [] {
      assert x in before && recent[0] in recent;
    }
  }

  /** Reducing what `getHistory(since)` returns gives, minute by minute, exactly the reduction of everything ever
      recorded, filtered to `since` and to the samples that at least one of the two memories still holds. */
  lemma HistoryReduces(st: Store, all: seq<Sample>, since: int)
    requires HistInv(st, all)
    ensures ReduceByMinute(History(st, since)) == Filter(Visible(st, since), ReduceByMinute(all))
  {
    var history, reduced := History(st, since), ReduceByMinute(all);
    HistoryInOrder(st, all, since);
    ReduceIsLatest(history);
    ReduceIsLatest(all);
    FilterHas(Visible(st, since), reduced);
    FilterMinutes(Visible(st, since), reduced);
    forall x ensures x in ReduceByMinute(history) <==> x in Filter(Visible(st, since), reduced) {
      if LastOf(history, Minute(x)) == Some(x) {
        ShownIsLatest(st, all, since, Minute(x));
      }
      if LastOf(all, Minute(x)) == Some(x) && Visible(st, since)(x) {
        LatestIsShown(st, all, since, Minute(x));
      }
    }
    MinutesUnique(ReduceByMinute(history), Filter(Visible(st, since), reduced));
  }

  function Visible(st: Store, since: int): Sample -> bool { (x: Sample) => x.at >= since && Kept(st, x) }

  lemma HistoryShows(st: Store, since: int)
    ensures forall x <- History(st, since) :: x.at >= since && Kept(st, x)
    ensures forall x <- st.snapshots :: x.at >= since ==> x in History(st, since)
  {
    HistoryParts(st, since);
    FilterHas(Since(since), st.snapshots);
    FilterHas(Older(st, since), st.rollups);
  }

  lemma HistoryAgrees(st: Store, all: seq<Sample>, since: int)
    ensures HistInv(st, all) ==>
              && Sorted(History(st, since))
              && ReduceByMinute(History(st, since)) == Filter(Visible(st, since), ReduceByMinute(all))
  {
    if HistInv(st, all) {
      HistoryInOrder(st, all, since);
      HistoryReduces(st, all, since);
    }
  }

  lemma FrontInOrder(init: seq<Sample>, x: Sample)
    requires Sorted(init + [x])
    ensures Sorted(init) && (init != [] ==> init[|init| - 1].at <= x.at)
  {
    SortedParts(init, [x]);
    assert x in [x] && (init != [] ==> init[|init| - 1] in init);
  }

  lemma SortAppend(s: seq<Sample>, x: Sample)
    ensures SortByTime(s + [x]) == InsertByTime(SortByTime(s), x)
  {
    assert (s + [x])[..|s|] == s;
  }

  /** Sorting changes nothing in what is in order. */
  lemma {:induction false} SortedStays(s: seq<Sample>)
    requires Sorted(s)
    ensures SortByTime(s) == s
  {
    if s != [] {
      var init, x := s[..|s| - 1], s[|s| - 1];
      assert s == init + [x];
      FrontInOrder(init, x);
      SortedStays(init);
      SortAppend(init, x);
    }
  }

  /** Restored rollups start a store that agrees with what they were restored from. */
  lemma RestoredAgrees(restored: seq<Sample>)
    requires Sorted(restored) && |restored| <= MAX_MEMORY_ROLLUPS
    ensures HistInv(EMPTY.(rollups := restored), restored)
  {
    assert restored + [] == restored;
  }

  /** In every run, also one that continues restored rollups and records samples twice: reducing the history from
      `since` on equals reducing everything ever recorded, filtered to `since` and to what the two memories still
      hold; and that is what the analysis works on, unless the history spans less than five minutes. */
  lemma RollupAgreement(restored: seq<Sample>, events: seq<Event>, since: int)
    requires Sorted(restored + Recorded(events)) && |restored| <= MAX_MEMORY_ROLLUPS
    ensures var st := Run(EMPTY.(rollups := restored), events);
            var visible := Filter(Visible(st, since), ReduceByMinute(restored + Recorded(events)));
            && ReduceByMinute(History(st, since)) == visible
            && Analyzed(History(st, since)) == if Short(History(st, since)) then History(st, since) else visible
  {
    var st := Run(EMPTY.(rollups := restored), events);
    SortedParts(restored, Recorded(events));
    RestoredAgrees(restored);
    RunKeepsInv(EMPTY.(rollups := restored), restored, events);
    HistoryAgrees(st, restored + Recorded(events), since);
    SortedStays(History(st, since));
  }

  // ----- when nothing is lost -----

  /** The memories still hold the last sample of every minute. */
  ghost predicate Exact(st: Store, all: seq<Sample>) {
    ReduceByMinute(st.rollups + Opt(st.pending)) == ReduceByMinute(all)
  }

  lemma RecordKeepsExact(st: Store, all: seq<Sample>, x: Sample, cutoff: int)
    requires HistInv(st, all) && Exact(st, all) && Sorted(all + [x])
    requires (forall y <- st.rollups :: cutoff <= y.at) && |st.rollups| <= MAX_MEMORY_ROLLUPS
    ensures Exact(Record(st, x, cutoff), all + [x])
    ensures Record(st, x, cutoff).rollups == Rolled(st.rollups, st.pending, x)
  {
    var k := TrimmedRollups(st.rollups, cutoff);
    ReducedIsOld(st.rollups + Opt(st.pending), all, [x]);
    RolledReduces(st.rollups, st.pending, x);
    ReduceSnoc(all, x);
  }

  /** How many minutes the samples fall into that begin with a change of minute, the pending sample's counted. */
  function Minutes(pending: Option<Sample>, samples: seq<Sample>): nat
    decreases |samples|
  {
    if samples == [] then (if pending.Some? then 1 else 0)
    else (if pending.Some? && Minute(pending.value) != Minute(samples[0]) then 1 else 0)
         + Minutes(Some(samples[0]), samples[1..])
  }

  ghost predicate Unexpired(st: Store, oldest: int) {
    (forall y <- st.rollups :: oldest <= y.at) && (st.pending.Some? ==> oldest <= st.pending.value.at)
  }

  /** While nothing kept expires, and the minutes to come do not outgrow the rollups by more than the pending one, no
      minute is lost: the history from `since` on reduces to the reduction of everything recorded from `since` on. */
  lemma {:induction false} NothingLost(st: Store, all: seq<Sample>, events: seq<Event>, oldest: int, since: int)
    requires HistInv(st, all) && Exact(st, all) && Sorted(all + Recorded(events)) && Unexpired(st, oldest)
    requires (forall e <- events :: e.cutoff <= oldest) && (forall y <- Recorded(events) :: oldest <= y.at)
    requires |st.rollups| + Minutes(st.pending, Recorded(events)) <= MAX_MEMORY_ROLLUPS + 1
    requires |st.rollups| <= MAX_MEMORY_ROLLUPS
    ensures Exact(Run(st, events), all + Recorded(events))
    ensures ReduceByMinute(History(Run(st, events), since)) ==
            Filter(Since(since), ReduceByMinute(all + Recorded(events)))
    decreases |events|
  {
    if events == [] {
      assert all + [] == all;
      ExactShowsAll(st, all, since);
    } else {
      var e, first, rest := events[0], RecordedBy(events[0]), Recorded(events[1..]);
      Assoc(all, first, rest);
      assert e in events && forall f <- events[1..] :: f in events;
      StepKeepsInv(st, all, e, rest);
      StepLosesNothing(st, all, e, rest, oldest);
      NothingLost(Step(st, e), all + first, events[1..], oldest, since);
    }
  }

  lemma StepLosesNothing(st: Store, all: seq<Sample>, e: Event, rest: seq<Sample>, oldest: int)
    requires HistInv(st, all) && Exact(st, all) && Sorted(all + RecordedBy(e) + rest) && Unexpired(st, oldest)
    requires e.cutoff <= oldest && forall y <- RecordedBy(e) :: oldest <= y.at
    requires |st.rollups| + Minutes(st.pending, RecordedBy(e) + rest) <= MAX_MEMORY_ROLLUPS + 1
    requires |st.rollups| <= MAX_MEMORY_ROLLUPS
    ensures var next := Step(st, e);
            && Exact(next, all + RecordedBy(e)) && Unexpired(next, oldest)
            && |next.rollups| + Minutes(next.pending, rest) <= MAX_MEMORY_ROLLUPS + 1
            && |next.rollups| <= MAX_MEMORY_ROLLUPS
  {
    if e.EvSnapshot? {
      var x := e.sample;
      SortedParts(all + [x], rest);
      assert x in RecordedBy(e) && ([x] + rest)[1..] == rest;
      RecordKeepsExact(st, all, x, e.cutoff);
      RecordRolls(st, x, e.cutoff);
      MinutesPositive(x, rest);
    } else {
      var k := TrimmedRollups(st.rollups, e.cutoff);
      assert all + [] == all && [] + rest == rest;
    }
  }

  lemma {:induction false} MinutesPositive(x: Sample, samples: seq<Sample>)
    ensures Minutes(Some(x), samples) >= 1
    decreases |samples|
  {
    if samples != [] {
      MinutesPositive(samples[0], samples[1..]);
    }
  }

  lemma ExactShowsAll(st: Store, all: seq<Sample>, since: int)
    requires HistInv(st, all) && Exact(st, all)
    ensures ReduceByMinute(History(st, since)) == Filter(Since(since), ReduceByMinute(all))
  {
    HistoryReduces(st, all, since);
    var whole := st.rollups + Opt(st.pending);
    ReduceIsLatest(whole);
    forall x <- ReduceByMinute(all) ensures Visible(st, since)(x) == Since(since)(x) {
      LastOfHas(whole, Minute(x));
      if x !in st.rollups {
        assert st.pending == Some(x) && x == st.snapshots[|st.snapshots| - 1];
      }
    }
    FilterAgrees(Visible(st, since), Since(since), ReduceByMinute(all));
  }

  lemma {:induction false} FilterAgrees(p: Sample -> bool, q: Sample -> bool, s: seq<Sample>)
    requires forall x <- s :: p(x) == q(x)
    ensures Filter(p, s) == Filter(q, s)
  {
    if s != [] {
      assert s[0] in s && forall x <- s[1..] :: x in s;
      FilterAgrees(p, q, s[1..]);
    }
  }

  // ----- what reaches persistence -----

  function Samples(entries: seq<Entry>): seq<Sample> {
    if entries == [] then []
    else (if entries[0].SampleEntry? then [entries[0].sample] else []) + Samples(entries[1..])
  }

  lemma {:induction false} SamplesAppend(entries: seq<Entry>, e: Entry)
    ensures Samples(entries + [e]) == Samples(entries) + (if e.SampleEntry? then [e.sample] else [])
  {
    if entries == [] {
      assert entries + [e] == [e];
    } else {
      var longer, own := entries + [e], if e.SampleEntry? then [e.sample] else [];
      var head := if entries[0].SampleEntry? then [entries[0].sample] else [];
      assert longer[0] == entries[0] && longer[1..] == entries[1..] + [e];
      SamplesAppend(entries[1..], e);
      Assoc(head, Samples(entries[1..]), own);
    }
  }

  ghost predicate Persisting(st: Store, all: seq<Sample>) {
    && (st.pending.None? <==> all == [])
    && (st.pending.Some? ==> st.pending.value == all[|all| - 1])
    && Samples(Flush(st).queued) == ReduceByMinute(all)
  }

  /** A reduction ends with the newest sample. */
  lemma ReductionEnds(all: seq<Sample>)
    requires Sorted(all) && all != []
    ensures var r := ReduceByMinute(all); r != [] && r[|r| - 1] == all[|all| - 1]
  {
    var init, x := all[..|all| - 1], all[|all| - 1];
    assert all == init + [x];
    ReduceSnoc(init, x);
    PutStep(ReduceByMinute(init), x);
  }

  lemma RecordKeepsPersisting(st: Store, all: seq<Sample>, x: Sample, cutoff: int)
    requires Persisting(st, all) && Sorted(all + [x])
    ensures Persisting(Record(st, x, cutoff), all + [x])
  {
    var next, m := Record(st, x, cutoff), ReduceByMinute(all);
    SortedParts(all, [x]);
    ReduceSnoc(all, x);
    PutAtEnd(m, x);
    SamplesAppend(next.queued, SampleEntry(x));
    if st.pending.Some? {
      ReductionEnds(all);
      SamplesAppend(st.queued, SampleEntry(st.pending.value));
      assert m == Samples(st.queued) + [st.pending.value];
      assert m[..|m| - 1] == Samples(st.queued);
    }
  }

  lemma LagKeepsPersisting(st: Store, all: seq<Sample>, x: Sample, cutoff: int)
    requires Persisting(st, all)
    ensures Persisting(RecordLag(st, x, cutoff), all)
  {
    var next := RecordLag(st, x, cutoff);
    SamplesAppend(st.queued, LagEntry(x));
    if st.pending.Some? {
      SamplesAppend(st.queued, SampleEntry(st.pending.value));
      SamplesAppend(next.queued, SampleEntry(st.pending.value));
    }
  }

  /** Over any run followed by a flush, whatever was trimmed from memory meanwhile, the samples handed to
      persistence are exactly the reduction by minute of everything recorded. */
  lemma {:induction false} PersistedIsReduction(st: Store, all: seq<Sample>, events: seq<Event>)
    requires Persisting(st, all) && Sorted(all + Recorded(events))
    ensures Samples(Flush(Run(st, events)).queued) == ReduceByMinute(all + Recorded(events))
    decreases |events|
  {
    if events == [] {
      assert all + [] == all;
    } else {
      var e, first, rest := events[0], RecordedBy(events[0]), Recorded(events[1..]);
      Assoc(all, first, rest);
      SortedParts(all + first, rest);
      if e.EvSnapshot? {
        RecordKeepsPersisting(st, all, e.sample, e.cutoff);
      } else {
        LagKeepsPersisting(st, all, e.sample, e.cutoff);
        assert all + [] == all;
      }
      PersistedIsReduction(Step(st, e), all + first, events[1..]);
    }
  }

  // ----- flushing in the middle of a run -----

  /** No rollup is of the pending minute, or of a later one. */
  ghost predicate RolledBefore(st: Store) {
    if st.pending.Some? then forall r <- st.rollups :: Minute(r) < Minute(st.pending.value) else st.rollups == []
  }

  lemma RolledStaysBefore(st: Store, all: seq<Sample>, x: Sample, cutoff: int)
    requires HistInv(st, all) && RolledBefore(st) && Sorted(all + [x])
    ensures RolledBefore(Record(st, x, cutoff))
  {
    var k := TrimmedRollups(st.rollups, cutoff);
    assert forall r <- st.rollups[k..] :: r in st.rollups;
    RecordRolls(st, x, cutoff);
    if st.pending.Some? {
      SortedParts(all, [x]);
      assert all[|all| - 1] in all && x in [x];
      assert st.pending.value.at <= x.at;
    }
  }

  lemma StepKeepsRolledBefore(st: Store, all: seq<Sample>, e: Event, rest: seq<Sample>)
    requires HistInv(st, all) && RolledBefore(st) && Sorted(all + RecordedBy(e) + rest)
    ensures RolledBefore(Step(st, e))
  {
    if e.EvSnapshot? {
      SortedParts(all + [e.sample], rest);
      RolledStaysBefore(st, all, e.sample, e.cutoff);
    } else {
      var k := TrimmedRollups(st.rollups, e.cutoff);
      assert forall r <- st.rollups[k..] :: r in st.rollups;
    }
  }

  lemma {:induction false} RunKeepsRolledBefore(st: Store, all: seq<Sample>, events: seq<Event>)
    requires HistInv(st, all) && RolledBefore(st) && Sorted(all + Recorded(events))
    ensures RolledBefore(Run(st, events))
    decreases |events|
  {
    if events != [] {
      var first, rest := RecordedBy(events[0]), Recorded(events[1..]);
      Assoc(all, first, rest);
      StepKeepsInv(st, all, events[0], rest);
      StepKeepsRolledBefore(st, all, events[0], rest);
      RunKeepsRolledBefore(Step(st, events[0]), all + first, events[1..]);
    }
  }

  /** The pending sample of a run is its newest, and no rollup. */
  lemma PendingIsNewest(before: seq<Event>)
    requires Sorted(Recorded(before)) && Run(EMPTY, before).pending.Some?
    ensures var st, all := Run(EMPTY, before), Recorded(before);
            && HistInv(st, all) && RolledBefore(st)
            && st.snapshots != [] && st.snapshots[|st.snapshots| - 1] == st.pending.value
            && LastOf(all, Minute(st.pending.value)) == st.pending
  {
    assert [] + Recorded(before) == Recorded(before);
    RestoredAgrees([]);
    RunKeepsInv(EMPTY, [], before);
    RunKeepsRolledBefore(EMPTY, [], before);
  }

  lemma LatestStays(all: seq<Sample>, later: seq<Sample>, p: Sample)
    requires LastOf(all, Minute(p)) == Some(p) && forall x <- later :: Minute(x) != Minute(p)
    ensures LastOf(all + later, Minute(p)) == Some(p) && p !in later
  {
    LastOfConcat(all, later, Minute(p));
    LastOfHas(later, Minute(p));
  }

  /** The flushed sample is kept exactly as long as the window holds it. */
  lemma FlushedIsForgotten(st: Store, after: seq<Event>, p: Sample)
    requires st.pending == Some(p) && RolledBefore(st) && |st.snapshots| <= MAX_HIGH_RES_SAMPLES
    requires st.snapshots != [] && st.snapshots[|st.snapshots| - 1] == p && p !in Recorded(after)
    ensures var last := Run(Flush(st), after);
            SampleEntry(p) in last.queued && (!Kept(last, p) <==> |Recorded(after)| >= MAX_HIGH_RES_SAMPLES)
  {
    AfterFlush(Flush(st), after, p);
    WindowSlides(Flush(st), after);
    WindowHas(st.snapshots, Recorded(after), p);
  }

  /** A flush in the middle of a run writes the pending sample out and forgets it. If no later sample falls into its
      minute, memory loses the minute exactly when as many samples follow as the high-resolution window holds;
      without the flush it would have become a rollup. */
  lemma FlushLosesMinuteExactly(before: seq<Event>, after: seq<Event>)
    requires Sorted(Recorded(before) + Recorded(after)) && Run(EMPTY, before).pending.Some?
    requires var p := Run(EMPTY, before).pending.value; forall x <- Recorded(after) :: Minute(x) != Minute(p)
    ensures var st := Run(EMPTY, before);
            var p, last := st.pending.value, Run(Flush(st), after);
            && LastOf(Recorded(before) + Recorded(after), Minute(p)) == Some(p)
            && SampleEntry(p) in last.queued
            && (!Kept(last, p) <==> |Recorded(after)| >= MAX_HIGH_RES_SAMPLES)
  {
    var p := Run(EMPTY, before).pending.value;
    SortedParts(Recorded(before), Recorded(after));
    PendingIsNewest(before);
    LatestStays(Recorded(before), Recorded(after), p);
    FlushedIsForgotten(Run(EMPTY, before), after, p);
  }

  /** The last element of a window is pushed out by as many others as the window holds. */
  lemma WindowHas(window: seq<Sample>, later: seq<Sample>, p: Sample)
    requires window != [] && window[|window| - 1] == p && p !in later
    ensures p in LastN(window + later, MAX_HIGH_RES_SAMPLES) <==> |later| < MAX_HIGH_RES_SAMPLES
  {
    var whole := window + later;
    var n := LastN(whole, MAX_HIGH_RES_SAMPLES);
    if |later| >= MAX_HIGH_RES_SAMPLES {
      assert n == LastN(later, MAX_HIGH_RES_SAMPLES);
    } else {
      assert whole[|window| - 1] == p;
      assert n[|n| - |later| - 1] == p;
    }
  }

  lemma StepForgets(st: Store, e: Event, p: Sample)
    requires p !in st.rollups && st.pending != Some(p) && SampleEntry(p) in st.queued
    requires e.EvSnapshot? ==> e.sample != p
    ensures var next := Step(st, e); p !in next.rollups && next.pending != Some(p) && SampleEntry(p) in next.queued
  {
    var k := TrimmedRollups(st.rollups, e.cutoff);
    assert forall r <- st.rollups[k..] :: r in st.rollups;
  }

  lemma {:induction false} AfterFlush(st: Store, events: seq<Event>, p: Sample)
    requires p !in st.rollups && st.pending != Some(p) && SampleEntry(p) in st.queued && p !in Recorded(events)
    ensures p !in Run(st, events).rollups && SampleEntry(p) in Run(st, events).queued
    decreases |events|
  {
    if events != [] {
      var first, rest := RecordedBy(events[0]), Recorded(events[1..]);
      assert forall x :: x in first + rest <==> x in first || x in rest;
      StepForgets(st, events[0], p);
      AfterFlush(Step(st, events[0]), events[1..], p);
    }
  }

  /** The high-resolution window is the newest samples of the run. */
  lemma {:induction false} WindowSlides(st: Store, events: seq<Event>)
    requires |st.snapshots| <= MAX_HIGH_RES_SAMPLES
    ensures Run(st, events).snapshots == LastN(st.snapshots + Recorded(events), MAX_HIGH_RES_SAMPLES)
    decreases |events|
  {
    var window := st.snapshots;
    if events == [] {
      assert window + [] == window;
    } else {
      var first, rest := RecordedBy(events[0]), Recorded(events[1..]);
      assert window + [] == window;
      assert Step(st, events[0]).snapshots == LastN(window + first, MAX_HIGH_RES_SAMPLES);
      WindowSlides(Step(st, events[0]), events[1..]);
      LastNTwice(window + first, rest);
      Assoc(window, first, rest);
    }
  }

  lemma LastNTwice(a: seq<Sample>, b: seq<Sample>)
    ensures LastN(LastN(a, MAX_HIGH_RES_SAMPLES) + b, MAX_HIGH_RES_SAMPLES) == LastN(a + b, MAX_HIGH_RES_SAMPLES)
  {
  }

  // ----- the store itself -----

  class PerformanceHistoryStore {
    var snapshots: seq<Sample>
    var rollups: seq<Sample>
    var lagSamples: seq<Sample>
    var pendingRollup: Option<Sample>
    var queued: seq<Entry>

    function View(): Store
      reads this
    {
      Store(snapshots, rollups, lagSamples, pendingRollup, queued)
    }

    constructor ()
      ensures View() == EMPTY
    {
      snapshots, rollups, lagSamples, pendingRollup, queued := [], [], [], None, [];
    }

    method TrimMemory(cutoff: int)
      modifies this`snapshots, this`rollups, this`lagSamples
      ensures View() == Trim(old(View()), cutoff)
    {
      if |snapshots| > MAX_HIGH_RES_SAMPLES {
        snapshots := snapshots[|snapshots| - MAX_HIGH_RES_SAMPLES..];
      }
      while |rollups| > 0 && rollups[0].at < cutoff
        invariant DropOlder(rollups, cutoff) == DropOlder(old(rollups), cutoff)
        invariant snapshots == LastN(old(snapshots), MAX_HIGH_RES_SAMPLES) && lagSamples == old(lagSamples)
        decreases |rollups|
      {
        rollups := rollups[1..];
      }
      if |rollups| > MAX_MEMORY_ROLLUPS {
        rollups := rollups[|rollups| - MAX_MEMORY_ROLLUPS..];
      }
      if |lagSamples| > MAX_MEMORY_LAG_SAMPLES {
        lagSamples := lagSamples[|lagSamples| - MAX_MEMORY_LAG_SAMPLES..];
      }
    }

    method RecordSnapshot(snapshot: Sample, cutoff: int)
      modifies this
      ensures View() == Record(old(View()), snapshot, cutoff)
    {
      snapshots := snapshots + [snapshot];
      TrimMemory(cutoff);
      if pendingRollup.Some? && Minute(pendingRollup.value) != Minute(snapshot) {
        rollups := rollups + [pendingRollup.value];
        queued := queued + [SampleEntry(pendingRollup.value)];
      }
      pendingRollup := Some(snapshot);
    }

    method RecordLagSample(sample: Sample, cutoff: int)
      modifies this
      ensures View() == RecordLag(old(View()), sample, cutoff)
    {
      lagSamples := lagSamples + [sample];
      TrimMemory(cutoff);
      queued := queued + [LagEntry(sample)];
    }

    /** What a caller gets, if the store agrees with the record `all`: samples in order, from `since` on, rollups
        before the high-resolution part, and minute by minute what was recorded last and is still kept. */
    method GetHistory(since: int, ghost all: seq<Sample>) returns (samples: seq<Sample>)
      ensures samples == History(View(), since)
      ensures forall x <- samples :: x.at >= since && Kept(View(), x)
      ensures forall x <- snapshots :: x.at >= since ==> x in samples
      ensures HistInv(View(), all) ==>
                Sorted(samples) && ReduceByMinute(samples) == Filter(Visible(View(), since), ReduceByMinute(all))
    {
      var highResolution := Filter(Since(since), snapshots);
      var kept := (x: Sample) => x.at >= since && (highResolution == [] || x.at < highResolution[0].at);
      samples := Filter(kept, rollups) + highResolution;
      HistoryShows(View(), since);
      HistoryAgrees(View(), all, since);
    }

    method FlushPending()
      modifies this`queued, this`pendingRollup
      ensures View() == Flush(old(View()))
    {
      if pendingRollup.Some? {
        queued := queued + [SampleEntry(pendingRollup.value)];
        pendingRollup := None;
      }
    }

    /** Adds the entries read from disk, oldest first, to whatever was recorded while they were being read. */
    method Initialize(entries: seq<Entry>, cutoff: int)
      modifies this`snapshots, this`rollups, this`lagSamples
      ensures View() == Restore(old(View()), entries, cutoff)
    {
      assert old(rollups) + [] == old(rollups) && old(lagSamples) + [] == old(lagSamples);
      for i := 0 to |entries|
        invariant snapshots == old(snapshots) && pendingRollup == old(pendingRollup) && queued == old(queued)
        invariant rollups == old(rollups) + Live(entries[..i], cutoff, true)
        invariant lagSamples == old(lagSamples) + Live(entries[..i], cutoff, false)
      {
        LiveAppend(entries[..i], entries[i], cutoff);
        assert entries[..i + 1] == entries[..i] + [entries[i]];
        if entries[i].sample.at >= cutoff {
          if entries[i].SampleEntry? {
            rollups := rollups + [entries[i].sample];
          } else {
            lagSamples := lagSamples + [entries[i].sample];
          }
        }
      }
      assert entries[..|entries|] == entries;
      TrimMemory(cutoff);
    }
  }

  /** The unexpired samples of one kind among stored entries. */
  function Live(entries: seq<Entry>, cutoff: int, snapshots: bool): seq<Sample> {
    if entries == [] then []
    else
      (if entries[0].SampleEntry? == snapshots && entries[0].sample.at >= cutoff then [entries[0].sample] else [])
      + Live(entries[1..], cutoff, snapshots)
  }

  lemma {:induction false} LiveAppend(entries: seq<Entry>, e: Entry, cutoff: int)
    ensures forall kind ::
              Live(entries + [e], cutoff, kind) ==
              Live(entries, cutoff, kind) + (if e.SampleEntry? == kind && e.sample.at >= cutoff then [e.sample] else [])
  {
    if entries == [] {
      assert entries + [e] == [e];
    } else {
      assert (entries + [e])[1..] == entries[1..] + [e];
      LiveAppend(entries[1..], e, cutoff);
    }
  }

  function Restore(st: Store, entries: seq<Entry>, cutoff: int): Store {
    Trim(st.(rollups := st.rollups + Live(entries, cutoff, true), lag := st.lag + Live(entries, cutoff, false)), cutoff)
  }
}
