/** The arithmetic of power reports: weighted averages over exact reals, timelines without repetitions, and metrics
    grouped by process. */
module PowerSummary {
  import opened Options
  import opened Sequences

  datatype Workload = Workload(
    activeAgents: nat,
    activeTerminals: nat,
    browserSessions: nat,
    activeBrowserSessions: nat,
    browserRecordings: nat,
    indexing: bool)

  /** A process is identified by its type, id and creation time together. */
  datatype ProcessKey = ProcessKey(processType: string, pid: int, creationTimeMs: int)

  datatype Metric = Metric(key: ProcessKey, cpu: real, wakeups: real, memory: int)

  datatype Snapshot = Snapshot(
    at: int,
    cpu: real,
    wakeups: real,
    memory: int,
    visible: bool,
    workload: Workload,
    processes: seq<Metric>)

  // ----- time-weighted averages -----

  /** A value read from a snapshot, and when it was captured. */
  datatype Reading = Reading(at: int, value: real)

  function Gap(a: Reading, b: Reading): nat { if b.at < a.at then 0 else b.at - a.at }

  function TotalMs(s: seq<Reading>): nat {
    if |s| < 2 then 0 else TotalMs(s[..|s| - 1]) + Gap(s[|s| - 2], s[|s| - 1])
  }

  function WeightedTotal(s: seq<Reading>): real {
    if |s| < 2 then 0.0
    else WeightedTotal(s[..|s| - 1]) + s[|s| - 1].value * (Gap(s[|s| - 2], s[|s| - 1]) as real)
  }

  function Sum(s: seq<Reading>): real {
    if s == [] then 0.0 else Sum(s[..|s| - 1]) + s[|s| - 1].value
  }

  function TimeWeightedAverage(s: seq<Reading>): real
    requires s != []
  {
    if |s| < 2 then s[0].value
    else if TotalMs(s) == 0 then Sum(s) / (|s| as real)
    else WeightedTotal(s) / (TotalMs(s) as real)
  }

  predicate Sorted(s: seq<Reading>) { forall i :: 0 <= i < |s| - 1 ==> s[i].at <= s[i + 1].at }

  predicate Within(lo: real, s: seq<Reading>, hi: real) { forall r <- s :: lo <= r.value <= hi }

  /** The weights add up to the time from first to last exactly when the samples are in order; otherwise to more. */
  lemma {:induction false} WeightsTelescope(s: seq<Reading>)
    requires s != []
    ensures TotalMs(s) >= s[|s| - 1].at - s[0].at
    ensures TotalMs(s) == s[|s| - 1].at - s[0].at <==> Sorted(s)
  {
    if |s| >= 2 {
      var init := s[..|s| - 1];
      WeightsTelescope(init);
      assert Sorted(s) <==> Sorted(init) && s[|s| - 2].at <= s[|s| - 1].at;
    }
  }

  /** The last two of `a`, `x` and `b` are the last two of `x` and `b`. */
  lemma SharedEnd(a: seq<Reading>, x: Reading, b: seq<Reading>)
    requires b != []
    ensures var whole, right := a + [x] + b, [x] + b;
            && whole[..|whole| - 1] == a + [x] + b[..|b| - 1] && right[..|b|] == [x] + b[..|b| - 1]
            && whole[|whole| - 1] == right[|b|] && whole[|whole| - 2] == right[|b| - 1]
  {
  }

  lemma {:induction false} MsSplit(a: seq<Reading>, x: Reading, b: seq<Reading>)
    ensures TotalMs(a + [x] + b) == TotalMs(a + [x]) + TotalMs([x] + b)
    decreases |b|
  {
    if b == [] {
      assert a + [x] + b == a + [x] && [x] + b == [x];
    } else {
      MsSplit(a, x, b[..|b| - 1]);
      SharedEnd(a, x, b);
    }
  }

  lemma {:induction false} WeightsSplit(a: seq<Reading>, x: Reading, b: seq<Reading>)
    ensures WeightedTotal(a + [x] + b) == WeightedTotal(a + [x]) + WeightedTotal([x] + b)
    decreases |b|
  {
    if b == [] {
      assert a + [x] + b == a + [x] && [x] + b == [x];
    } else {
      WeightsSplit(a, x, b[..|b| - 1]);
      SharedEnd(a, x, b);
    }
  }

  /** Both totals split at a sample shared by the two parts. */
  lemma TotalsSplit(a: seq<Reading>, x: Reading, b: seq<Reading>)
    ensures TotalMs(a + [x] + b) == TotalMs(a + [x]) + TotalMs([x] + b)
    ensures WeightedTotal(a + [x] + b) == WeightedTotal(a + [x]) + WeightedTotal([x] + b)
  {
    MsSplit(a, x, b);
    WeightsSplit(a, x, b);
  }

  lemma MulBounds(lo: real, v: real, hi: real, w: real)
    requires lo <= v <= hi && w >= 0.0
    ensures lo * w <= v * w <= hi * w
  {
  }

  lemma BoundsAdd(lo: real, hi: real, total: real, w: real, v: real, more: real)
    requires lo * w <= total <= hi * w && lo <= v <= hi && more >= 0.0
    ensures lo * (w + more) <= total + v * more <= hi * (w + more)
  {
    MulBounds(lo, v, hi, more);
    assert lo * (w + more) == lo * w + lo * more;
    assert hi * (w + more) == hi * w + hi * more;
  }

  ghost predicate Between(lo: real, total: real, hi: real, w: nat) { lo * (w as real) <= total <= hi * (w as real) }

  lemma BetweenAdd(lo: real, hi: real, total: real, w: nat, v: real, more: nat)
    requires Between(lo, total, hi, w) && lo <= v <= hi
    ensures Between(lo, total + v * (more as real), hi, w + more)
  {
    assert (w + more) as real == w as real + more as real;
    BoundsAdd(lo, hi, total, w as real, v, more as real);
  }

  lemma TotalAdds(s: seq<Reading>)
    requires |s| >= 2
    ensures var init, last := s[..|s| - 1], s[|s| - 1];
            var gap := Gap(s[|s| - 2], last);
            WeightedTotal(s) == WeightedTotal(init) + last.value * (gap as real) && TotalMs(s) == TotalMs(init) + gap
  {
  }

  lemma BetweenSum(lo: real, hi: real, total: real, w: nat, v: real, more: nat, sum: real, weight: nat)
    requires Between(lo, total, hi, w) && lo <= v <= hi && sum == total + v * (more as real) && weight == w + more
    ensures Between(lo, sum, hi, weight)
  {
    BetweenAdd(lo, hi, total, w, v, more);
  }

  lemma {:induction false} TotalBounded(lo: real, s: seq<Reading>, hi: real)
    requires Within(lo, s, hi)
    ensures Between(lo, WeightedTotal(s), hi, TotalMs(s))
  {
    if |s| >= 2 {
      var init, last := s[..|s| - 1], s[|s| - 1];
      assert last in s && forall r <- init :: r in s;
      TotalBounded(lo, init, hi);
      TotalAdds(s);
      BetweenSum(lo, hi, WeightedTotal(init), TotalMs(init), last.value, Gap(s[|s| - 2], last), WeightedTotal(s),
                 TotalMs(s));
    }
  }

  lemma {:induction false} SumBounded(lo: real, s: seq<Reading>, hi: real)
    requires Within(lo, s, hi)
    ensures Between(lo, Sum(s), hi, |s|)
  {
    if s != [] {
      var init, last := s[..|s| - 1], s[|s| - 1];
      assert last in s && forall r <- init :: r in s;
      SumBounded(lo, init, hi);
      BetweenAdd(lo, hi, Sum(init), |init|, last.value, 1);
    }
  }

  lemma QuotientBounded(lo: real, total: real, hi: real, w: real)
    requires w > 0.0 && lo * w <= total <= hi * w
    ensures lo <= total / w <= hi
  {
    var q := total / w;
    QuotientTimes(total, w);
    if q < lo {
      MulStrict(q, lo, w);
    }
    if q > hi {
      MulStrict(hi, q, w);
    }
  }

  lemma MulStrict(x: real, y: real, w: real)
    requires x < y && w > 0.0
    ensures x * w < y * w
  {
  }

  lemma MeanBetween(lo: real, total: real, hi: real, w: nat)
    requires Between(lo, total, hi, w) && w > 0
    ensures lo <= total / (w as real) <= hi
  {
    QuotientBounded(lo, total, hi, w as real);
  }

  /** The average lies between the smallest and the largest value, in and out of order. */
  lemma AverageBetween(lo: real, s: seq<Reading>, hi: real)
    requires s != [] && Within(lo, s, hi)
    ensures lo <= TimeWeightedAverage(s) <= hi
  {
    if |s| < 2 {
      assert s[0] in s;
    } else if TotalMs(s) == 0 {
      SumBounded(lo, s, hi);
      MeanBetween(lo, Sum(s), hi, |s|);
    } else {
      TotalBounded(lo, s, hi);
      MeanBetween(lo, WeightedTotal(s), hi, TotalMs(s));
    }
  }

  /** The average times the duration is the weighted total. */
  lemma AverageTimesDuration(s: seq<Reading>)
    requires TotalMs(s) > 0
    ensures TimeWeightedAverage(s) * (TotalMs(s) as real) == WeightedTotal(s)
  {
    QuotientTimes(WeightedTotal(s), TotalMs(s) as real);
  }

  lemma TotalsCombine(left: seq<Reading>, right: seq<Reading>, whole: seq<Reading>)
    requires TotalMs(left) > 0 && TotalMs(right) > 0 && TotalMs(whole) > 0
    requires WeightedTotal(whole) == WeightedTotal(left) + WeightedTotal(right)
    ensures TimeWeightedAverage(whole) * (TotalMs(whole) as real)
         == TimeWeightedAverage(left) * (TotalMs(left) as real) + TimeWeightedAverage(right) * (TotalMs(right) as real)
  {
    AverageTimesDuration(left);
    AverageTimesDuration(right);
    AverageTimesDuration(whole);
  }

  /** Two recordings that share a sample combine by their durations. */
  lemma AveragesCombine(a: seq<Reading>, x: Reading, b: seq<Reading>)
    requires TotalMs(a + [x]) > 0 && TotalMs([x] + b) > 0
    ensures var left, right, whole := a + [x], [x] + b, a + [x] + b;
            && TotalMs(whole) == TotalMs(left) + TotalMs(right)
            && TimeWeightedAverage(whole) * (TotalMs(whole) as real)
            == TimeWeightedAverage(left) * (TotalMs(left) as real)
                + TimeWeightedAverage(right) * (TotalMs(right) as real)
  {
    TotalsSplit(a, x, b);
    TotalsCombine(a + [x], [x] + b, a + [x] + b);
  }

  lemma QuotientTimes(total: real, w: real)
    requires w != 0.0
    ensures total / w * w == total
  {
  }

  /** The loop over neighbouring samples. */
  method ComputeTimeWeightedAverage(s: seq<Reading>) returns (r: real)
    requires s != []
    ensures r == TimeWeightedAverage(s)
  {
    if |s| < 2 {
      return s[0].value;
    }
    var weightedTotal, totalMs := 0.0, 0;
    var index := 1;
    while index < |s|
      invariant 1 <= index <= |s|
      invariant weightedTotal == WeightedTotal(s[..index]) && totalMs == TotalMs(s[..index])
    {
      var gap := if s[index].at < s[index - 1].at then 0 else s[index].at - s[index - 1].at;
      assert s[..index + 1][..index] == s[..index];
      weightedTotal := weightedTotal + s[index].value * (gap as real);
      totalMs := totalMs + gap;
      index := index + 1;
    }
    assert s[..|s|] == s;
    if totalMs != 0 {
      return weightedTotal / (totalMs as real);
    }
    var total := 0.0;
    index := 0;
    while index < |s|
      invariant 0 <= index <= |s|
      invariant total == Sum(s[..index])
    {
      assert s[..index + 1][..index] == s[..index];
      total := total + s[index].value;
      index := index + 1;
    }
    return total / (|s| as real);
  }

  // ----- summaries -----

  /** Rounding half up to three digits. */
  function Round(v: real): real { (v * 1000.0 + 0.5).Floor as real / 1000.0 }

  lemma RoundMonotone(x: real, y: real)
    requires x <= y
    ensures Round(x) <= Round(y)
  {
    var i, j := (x * 1000.0 + 0.5).Floor, (y * 1000.0 + 0.5).Floor;
    assert i <= j;
    QuotientMonotone(i as real, j as real);
  }

  lemma QuotientMonotone(x: real, y: real)
    requires x <= y
    ensures x / 1000.0 <= y / 1000.0
  {
  }

  function Peak(s: seq<Reading>): (r: real)
    requires s != []
    ensures (forall x <- s :: x.value <= r) && exists x <- s :: x.value == r
  {
    var last := s[|s| - 1];
    if |s| == 1 then
      assert last in s;
      last.value
    else
      var rest := Peak(s[..|s| - 1]);
      assert s == s[..|s| - 1] + [last];
      assert last in s;
      if rest < last.value then last.value else rest
  }

  /** What a summary reports of one quantity. */
  datatype Figures = Figures(average: real, peak: real)

  function Summarize(s: seq<Reading>): Option<Figures> {
    if s == [] then None else Some(Figures(Round(TimeWeightedAverage(s)), Round(Peak(s))))
  }

  /** After rounding, the average is still at most the peak, and at least the rounded minimum. */
  lemma SummaryIsConsistent(s: seq<Reading>, lo: real)
    requires s != [] && forall r <- s :: lo <= r.value
    ensures Summarize(s).Some? && Round(lo) <= Summarize(s).value.average <= Summarize(s).value.peak
  {
    AverageBetween(lo, s, Peak(s));
    RoundMonotone(TimeWeightedAverage(s), Peak(s));
    RoundMonotone(lo, TimeWeightedAverage(s));
  }

  /** A quantity that never changes is reported as it is, whatever the timestamps. */
  lemma ConstantIsItsAverage(s: seq<Reading>, v: real)
    requires s != [] && forall r <- s :: r.value == v
    ensures TimeWeightedAverage(s) == v && Peak(s) == v
  {
    AverageBetween(v, s, v);
  }

  // ----- timelines without repetitions -----

  /** A point of a timeline: `value` is compared, `payload` goes along with it. */
  datatype Point<V, P> = Point(at: int, value: V, payload: P)

  /** `transitions` and `workloadTimeline`: points whose value differs from that of the last point kept. */
  function Changes<V(==), P>(s: seq<Point<V, P>>): seq<Point<V, P>> {
    if s == [] then []
    else
      var kept := Changes(s[..|s| - 1]);
      if kept != [] && kept[|kept| - 1].value == s[|s| - 1].value then kept else kept + [s[|s| - 1]]
  }

  method KeepChanges<V(==), P>(s: seq<Point<V, P>>) returns (r: seq<Point<V, P>>)
    ensures r == Changes(s)
  {
    r := [];
    var previous: Option<V> := None;
    var i := 0;
    while i < |s|
      invariant 0 <= i <= |s|
      invariant r == Changes(s[..i])
      invariant previous == if r == [] then None else Some(r[|r| - 1].value)
    {
      assert s[..i + 1][..i] == s[..i];
      if previous != Some(s[i].value) {
        r := r + [s[i]];
        previous := Some(s[i].value);
      }
      i := i + 1;
    }
    assert s[..|s|] == s;
  }

  ghost predicate NoRepeats<V(!new), P(!new)>(s: seq<Point<V, P>>) {
    forall i :: 0 < i < |s| ==> s[i - 1].value != s[i].value
  }

  lemma NoRepeatsAppend<V(!new), P(!new)>(s: seq<Point<V, P>>, p: Point<V, P>)
    requires NoRepeats(s) && (s != [] ==> s[|s| - 1].value != p.value)
    ensures NoRepeats(s + [p])
  {
  }

  lemma ChangesSnoc<V, P>(init: seq<Point<V, P>>, p: Point<V, P>)
    ensures var kept := Changes(init);
            Changes(init + [p]) == if kept != [] && kept[|kept| - 1].value == p.value then kept else kept + [p]
  {
    assert (init + [p])[..|init|] == init;
  }

  /** Neighbours differ, the first point is kept, and the last kept value is the latest value. */
  lemma {:induction false} ChangesShape<V(!new), P(!new)>(s: seq<Point<V, P>>)
    ensures NoRepeats(Changes(s))
    ensures s != [] ==>
      Changes(s) != [] && Changes(s)[0] == s[0] && Changes(s)[|Changes(s)| - 1].value == s[|s| - 1].value
    ensures forall p <- Changes(s) :: p in s
  {
    if s != [] {
      var init, last := s[..|s| - 1], s[|s| - 1];
      var kept := Changes(init);
      assert s == init + [last];
      ChangesShape(init);
      ChangesSnoc(init, last);
      if kept == [] || kept[|kept| - 1].value != last.value {
        NoRepeatsAppend(kept, last);
      }
    }
  }

  /** Compressing twice changes nothing more. */
  lemma {:induction false} ChangesIdempotent<V(!new), P(!new)>(s: seq<Point<V, P>>)
    requires NoRepeats(s)
    ensures Changes(s) == s
  {
    if s != [] {
      var init := s[..|s| - 1];
      assert NoRepeats(init);
      ChangesIdempotent(init);
      assert s == init + [s[|s| - 1]];
    }
  }

  /** The value in force at a time: that of the last point at or before it. */
  function ValueAt<V, P>(s: seq<Point<V, P>>, t: int): Option<V> {
    if s == [] then None
    else if s[|s| - 1].at <= t then Some(s[|s| - 1].value)
    else ValueAt(s[..|s| - 1], t)
  }

  ghost predicate Ordered<V(!new), P(!new)>(s: seq<Point<V, P>>) {
    forall i, j :: 0 <= i < j < |s| ==> s[i].at <= s[j].at
  }

  /** Samples captured at the same time agree. */
  ghost predicate Agree<V(!new), P(!new)>(s: seq<Point<V, P>>) {
    forall i, j :: 0 <= i < j < |s| && s[i].at == s[j].at ==> s[i].value == s[j].value
  }

  ghost predicate Recovers<V(!new), P(!new)>(points: seq<Point<V, P>>, s: seq<Point<V, P>>) {
    forall i :: 0 <= i < |s| ==> ValueAt(points, s[i].at) == Some(s[i].value)
  }

  /** The compressed timeline answers every question about time as the full one does. */
  lemma {:induction false} ChangesKeepValues<V(!new), P(!new)>(s: seq<Point<V, P>>, t: int)
    requires Ordered(s)
    ensures ValueAt(Changes(s), t) == ValueAt(s, t)
  {
    if s != [] {
      var init, last := s[..|s| - 1], s[|s| - 1];
      ChangesKeepValues(init, t);
      ChangesShape(init);
      ChangesShape(s);
      if last.at <= t && Changes(s) == Changes(init) {
        var k := |Changes(s)| - 1;
        assert Changes(s)[k] in s;
        assert Changes(s)[k].at <= last.at;
      } else if last.at <= t {
        assert Changes(s) == Changes(init) + [last];
      } else if Changes(s) != Changes(init) {
        assert Changes(s)[..|Changes(s)| - 1] == Changes(init);
      }
    }
  }

  /** The value at every sample is recovered from the compressed timeline exactly when samples of the same time
      agree; so always, when times increase. */
  lemma RecoveredExactlyWhenAgreeing<V(!new), P(!new)>(s: seq<Point<V, P>>)
    requires Ordered(s)
    ensures Recovers(Changes(s), s) <==> Agree(s)
  {
    if Agree(s) {
      forall i | 0 <= i < |s| ensures ValueAt(Changes(s), s[i].at) == Some(s[i].value) {
        ChangesKeepValues(s, s[i].at);
        SameTimeSameValue(s, i);
      }
    }
  }

  lemma {:induction false} SameTimeSameValue<V(!new), P(!new)>(s: seq<Point<V, P>>, i: nat)
    requires Ordered(s) && Agree(s) && i < |s|
    ensures ValueAt(s, s[i].at) == Some(s[i].value)
  {
    if i < |s| - 1 && s[|s| - 1].at > s[i].at {
      assert s[..|s| - 1][i] == s[i];
      SameTimeSameValue(s[..|s| - 1], i);
    }
  }

  // ----- metrics by process -----

  datatype Item = Item(at: int, metric: Metric)

  function ItemsOf(at: int, processes: seq<Metric>): seq<Item> {
    seq(|processes|, i requires 0 <= i < |processes| => Item(at, processes[i]))
  }

  /** Every process metric of every snapshot, in order. */
  function AllItems(snapshots: seq<Snapshot>): seq<Item> {
    if snapshots == [] then []
    else
      var last := snapshots[|snapshots| - 1];
      AllItems(snapshots[..|snapshots| - 1]) + ItemsOf(last.at, last.processes)
  }

  function Of(key: ProcessKey): Item -> bool { (item: Item) => item.metric.key == key }

  /** A `Map` with its keys in insertion order. */
  datatype Groups = Groups(keys: seq<ProcessKey>, items: map<ProcessKey, seq<Item>>)

  function Insert(g: Groups, x: Item): Groups {
    var key := x.metric.key;
    if key in g.items then g.(items := g.items[key := g.items[key] + [x]])
    else Groups(g.keys + [key], g.items[key := [x]])
  }

  function CountItems(g: Groups, keys: seq<ProcessKey>): nat {
    if keys == [] then 0
    else (if keys[0] in g.items then |g.items[keys[0]]| else 0) + CountItems(g, keys[1..])
  }

  /** Every group is exactly the items of its key, in order. */
  ghost predicate Sorts(items: map<ProcessKey, seq<Item>>, all: seq<Item>) {
    && (forall key: ProcessKey :: Filter(Of(key), all) == if key in items then items[key] else [])
    && (forall key <- items :: items[key] != [])
  }

  /** Every key is listed once. */
  ghost predicate Lists(keys: seq<ProcessKey>, items: map<ProcessKey, seq<Item>>) {
    && (forall i, j :: 0 <= i < j < |keys| ==> keys[i] != keys[j])
    && (forall key: ProcessKey :: key in keys <==> key in items)
  }

  /** The groups partition the items: their sizes add up. */
  ghost predicate GroupsOf(g: Groups, all: seq<Item>) {
    Sorts(g.items, all) && Lists(g.keys, g.items) && CountItems(g, g.keys) == |all|
  }

  lemma {:induction false} CountAppend(g: Groups, keys: seq<ProcessKey>, key: ProcessKey)
    requires key in g.items
    ensures CountItems(g, keys + [key]) == CountItems(g, keys) + |g.items[key]|
  {
    if keys == [] {
      assert CountItems(g, [key][1..]) == 0;
    } else {
      assert (keys + [key])[1..] == keys[1..] + [key];
      CountAppend(g, keys[1..], key);
    }
  }

  lemma {:induction false} CountElsewhere(g: Groups, h: Groups, keys: seq<ProcessKey>)
    requires forall key <- keys :: key in g.items && key in h.items && g.items[key] == h.items[key]
    ensures CountItems(g, keys) == CountItems(h, keys)
  {
    if keys != [] {
      assert keys[0] in keys;
      CountElsewhere(g, h, keys[1..]);
    }
  }

  /** Growing one listed group by one item grows the count by one. */
  lemma {:induction false} CountGrown(g: Groups, h: Groups, keys: seq<ProcessKey>, i: nat)
    requires i < |keys| && (forall a, b :: 0 <= a < b < |keys| ==> keys[a] != keys[b])
    requires forall key <- keys :: key in g.items && key in h.items
    requires forall key <- keys :: |h.items[key]| == |g.items[key]| + if key == keys[i] then 1 else 0
    ensures CountItems(h, keys) == CountItems(g, keys) + 1
    decreases |keys|
  {
    assert keys[0] in keys;
    if i == 0 {
      CountSame(g, h, keys[1..]);
    } else {
      assert keys[0] != keys[i];
      CountGrown(g, h, keys[1..], i - 1);
    }
  }

  lemma {:induction false} CountSame(g: Groups, h: Groups, keys: seq<ProcessKey>)
    requires forall key <- keys :: key in g.items && key in h.items && |g.items[key]| == |h.items[key]|
    ensures CountItems(g, keys) == CountItems(h, keys)
  {
    if keys != [] {
      assert keys[0] in keys;
      CountSame(g, h, keys[1..]);
    }
  }

  lemma InsertCounts(g: Groups, all: seq<Item>, x: Item)
    requires Lists(g.keys, g.items) && CountItems(g, g.keys) == |all|
    ensures CountItems(Insert(g, x), Insert(g, x).keys) == |all| + 1
  {
    var key, h := x.metric.key, Insert(g, x);
    if key in g.items {
      var i :| 0 <= i < |g.keys| && g.keys[i] == key;
      CountGrown(g, h, g.keys, i);
    } else {
      CountAppend(h, g.keys, key);
      CountElsewhere(g, h, g.keys);
    }
  }

  lemma FilterAppend(key: ProcessKey, all: seq<Item>, x: Item)
    ensures Filter(Of(key), all + [x]) == Filter(Of(key), all) + if x.metric.key == key then [x] else []
  {
    FilterConcat(Of(key), all, [x]);
    assert Filter(Of(key), [x]) == (if Of(key)(x) then [x] else []) + Filter(Of(key), [x][1..]);
  }

  lemma InsertKeepsSorts(g: Groups, all: seq<Item>, x: Item)
    requires Sorts(g.items, all)
    ensures Sorts(Insert(g, x).items, all + [x])
  {
    var items := Insert(g, x).items;
    forall key: ProcessKey ensures Filter(Of(key), all + [x]) == if key in items then items[key] else [] {
      FilterAppend(key, all, x);
      assert Filter(Of(key), all) == if key in g.items then g.items[key] else [];
    }
  }

  lemma InsertKeepsLists(g: Groups, x: Item)
    requires Lists(g.keys, g.items)
    ensures Lists(Insert(g, x).keys, Insert(g, x).items)
  {
  }

  lemma InsertKeepsGroups(g: Groups, all: seq<Item>, x: Item)
    requires GroupsOf(g, all)
    ensures GroupsOf(Insert(g, x), all + [x])
  {
    InsertCounts(g, all, x);
    InsertKeepsSorts(g, all, x);
    InsertKeepsLists(g, x);
  }

  lemma NextItem(all: seq<Item>, at: int, processes: seq<Metric>, j: nat)
    requires j < |processes|
    ensures all + ItemsOf(at, processes[..j + 1]) == all + ItemsOf(at, processes[..j]) + [Item(at, processes[j])]
  {
    assert ItemsOf(at, processes[..j + 1]) == ItemsOf(at, processes[..j]) + [Item(at, processes[j])];
  }

  lemma InsertNext(g: Groups, all: seq<Item>, at: int, processes: seq<Metric>, j: nat)
    requires j < |processes| && GroupsOf(g, all + ItemsOf(at, processes[..j]))
    ensures GroupsOf(Insert(g, Item(at, processes[j])), all + ItemsOf(at, processes[..j + 1]))
  {
    InsertKeepsGroups(g, all + ItemsOf(at, processes[..j]), Item(at, processes[j]));
    NextItem(all, at, processes, j);
  }

  method InsertItem(g: Groups, x: Item) returns (r: Groups)
    ensures r == Insert(g, x)
  {
    var key := x.metric.key;
    var items := if key in g.items then g.items[key] else [];
    var keys := if key in g.items then g.keys else g.keys + [key];
    assert [] + [x] == [x];
    r := Groups(keys, g.items[key := items + [x]]);
  }

  /** The inner loop, over one snapshot. */
  method AddProcesses(g: Groups, at: int, processes: seq<Metric>, ghost all: seq<Item>) returns (r: Groups)
    requires GroupsOf(g, all)
    ensures GroupsOf(r, all + ItemsOf(at, processes))
  {
    r := g;
    var j := 0;
    assert all + ItemsOf(at, processes[..0]) == all;
    while j < |processes|
      invariant 0 <= j <= |processes|
      invariant GroupsOf(r, all + ItemsOf(at, processes[..j]))
    {
      InsertNext(r, all, at, processes, j);
      r := InsertItem(r, Item(at, processes[j]));
      j := j + 1;
    }
    assert processes[..|processes|] == processes;
  }

  /** The grouping loops of `processReports`: the groups partition all process metrics. */
  method GroupByProcess(snapshots: seq<Snapshot>) returns (g: Groups)
    ensures GroupsOf(g, AllItems(snapshots))
  {
    g := Groups([], map[]);
    var i := 0;
    while i < |snapshots|
      invariant 0 <= i <= |snapshots|
      invariant GroupsOf(g, AllItems(snapshots[..i]))
    {
      g := AddProcesses(g, snapshots[i].at, snapshots[i].processes, AllItems(snapshots[..i]));
      assert snapshots[..i + 1][..i] == snapshots[..i];
      i := i + 1;
    }
    assert snapshots[..|snapshots|] == snapshots;
  }
}
