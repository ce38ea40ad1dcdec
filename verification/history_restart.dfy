/** The performance history across restarts: what earlier sessions wrote to the rotating files is read back while the
    next session is already recording, and the history it then shows still agrees with everything ever recorded. */
module HistoryRestart {
  import opened Options
  import opened Sequences
  import opened PerformanceHistory
  import R = HistoryRotation

  // ----- many sessions -----

  /** A session of the program: what it records before the files are read back, what is read back, and what it records
      until it quits. */
  datatype Session = Session(early: seq<Event>, read: seq<Entry>, cutoff: int, later: seq<Event>)

  function RecordedIn(s: Session): seq<Sample> { Recorded(s.early) + Recorded(s.later) }

  /** The store of a session, with the flush when the program quits. */
  function Ended(s: Session): Store { Flush(Run(Restore(Run(EMPTY, s.early), s.read, s.cutoff), s.later)) }

  /** What all sessions record, in order. */
  function AllRecorded(sessions: seq<Session>): seq<Sample> {
    if sessions == [] then [] else AllRecorded(sessions[..|sessions| - 1]) + RecordedIn(sessions[|sessions| - 1])
  }

  /** What all sessions hand to persistence, in order. */
  function AllEntries(sessions: seq<Session>): seq<Entry> {
    if sessions == [] then [] else AllEntries(sessions[..|sessions| - 1]) + Ended(sessions[|sessions| - 1]).queued
  }

  lemma {:induction false} RunConcat(st: Store, a: seq<Event>, b: seq<Event>)
    ensures Run(st, a + b) == Run(Run(st, a), b)
    decreases |a|
  {
    if a == [] {
      assert a + b == b;
    } else {
      assert (a + b)[1..] == a[1..] + b;
      RunConcat(Step(st, a[0]), a[1..], b);
    }
  }

  lemma {:induction false} RecordedConcat(a: seq<Event>, b: seq<Event>)
    ensures Recorded(a + b) == Recorded(a) + Recorded(b)
  {
    if a == [] {
      assert a + b == b;
    } else {
      assert (a + b)[1..] == a[1..] + b;
      RecordedConcat(a[1..], b);
      Assoc(RecordedBy(a[0]), Recorded(a[1..]), Recorded(b));
    }
  }

  /** What is persisted does not depend on what was restored or trimmed. */
  lemma {:induction false} EntriesIgnoreMemory(a: Store, b: Store, events: seq<Event>)
    requires a.pending == b.pending && a.queued == b.queued
    ensures Run(a, events).pending == Run(b, events).pending && Run(a, events).queued == Run(b, events).queued
    decreases |events|
  {
    if events != [] {
      EntriesIgnoreMemory(Step(a, events[0]), Step(b, events[0]), events[1..]);
    }
  }

  /** A session persists the reduction of what it records, whatever it read back, and whenever it did. */
  lemma SessionPersists(s: Session)
    requires Sorted(RecordedIn(s))
    ensures Samples(Ended(s).queued) == ReduceByMinute(RecordedIn(s))
  {
    var st := Run(EMPTY, s.early);
    EntriesIgnoreMemory(Restore(st, s.read, s.cutoff), st, s.later);
    RunConcat(EMPTY, s.early, s.later);
    RecordedConcat(s.early, s.later);
    assert [] + RecordedIn(s) == RecordedIn(s);
    PersistedIsReduction(EMPTY, [], s.early + s.later);
  }

  lemma {:induction false} SamplesConcat(a: seq<Entry>, b: seq<Entry>)
    ensures Samples(a + b) == Samples(a) + Samples(b)
  {
    if a == [] {
      assert a + b == b;
    } else {
      var whole, head := a + b, if a[0].SampleEntry? then [a[0].sample] else [];
      assert whole[0] == a[0] && whole[1..] == a[1..] + b;
      SamplesConcat(a[1..], b);
      Assoc(head, Samples(a[1..]), Samples(b));
    }
  }

  /** Reducing a reduction finds the same last samples. */
  lemma LastOfReduced(s: seq<Sample>, minute: int)
    requires Sorted(s)
    ensures LastOf(ReduceByMinute(s), minute) == LastOf(s, minute)
  {
    var r := ReduceByMinute(s);
    ReduceIsLatest(s);
    LastOfHas(r, minute);
    LastOfHas(s, minute);
    if LastOf(s, minute).Some? {
      assert LastOf(s, minute).value in r;
    }
  }

  lemma ReductionIsSorted(s: seq<Sample>)
    requires Sorted(s)
    ensures Sorted(ReduceByMinute(s)) && forall x <- ReduceByMinute(s) :: x in s
  {
    ReduceIsLatest(s);
    forall x <- ReduceByMinute(s) ensures x in s {
      LastOfHas(s, Minute(x));
    }
  }

  lemma WholeIsSuffix(a: seq<Sample>)
    ensures IsSuffix(a, a)
  {
  }

  /** Persisting the reduction of each session loses nothing of the reduction of all. */
  lemma ReduceConcat(persisted: seq<Sample>, all: seq<Sample>, recorded: seq<Sample>)
    requires Sorted(persisted) && Sorted(all + recorded) && ReduceByMinute(persisted) == ReduceByMinute(all)
    ensures Sorted(persisted + ReduceByMinute(recorded))
    ensures ReduceByMinute(persisted + ReduceByMinute(recorded)) == ReduceByMinute(all + recorded)
  {
    var whole := persisted + ReduceByMinute(recorded);
    SortedParts(all, recorded);
    ReductionIsSorted(recorded);
    WholeIsSuffix(ReduceByMinute(all));
    ReducedIsOld(persisted, all, recorded);
    SortedParts(persisted, recorded);
    SortedJoin(persisted, ReduceByMinute(recorded));
    ReduceIsLatest(whole);
    ReduceIsLatest(all + recorded);
    forall x ensures x in ReduceByMinute(whole) <==> x in ReduceByMinute(all + recorded) {
      LastOfConcat(persisted, ReduceByMinute(recorded), Minute(x));
      LastOfConcat(all, recorded, Minute(x));
      LastOfReduced(recorded, Minute(x));
      LastOfReduced(persisted, Minute(x));
      LastOfReduced(all, Minute(x));
    }
    MinutesUnique(ReduceByMinute(whole), ReduceByMinute(all + recorded));
  }

  /** The samples all sessions persist reduce to the reduction of everything they recorded. */
  lemma {:induction false} SessionsPersist(sessions: seq<Session>)
    requires Sorted(AllRecorded(sessions))
    ensures Sorted(Samples(AllEntries(sessions)))
    ensures ReduceByMinute(Samples(AllEntries(sessions))) == ReduceByMinute(AllRecorded(sessions))
    decreases |sessions|
  {
    if sessions != [] {
      var earlier, last := sessions[..|sessions| - 1], sessions[|sessions| - 1];
      SortedParts(AllRecorded(earlier), RecordedIn(last));
      SessionsPersist(earlier);
      SessionPersists(last);
      SamplesConcat(AllEntries(earlier), Ended(last).queued);
      ReduceConcat(Samples(AllEntries(earlier)), AllRecorded(earlier), RecordedIn(last));
    }
  }

  // ----- reading back -----

  /** The entries of the lines read, each decoded as it was encoded. */
  function Decoded(decode: R.Line -> Entry, lines: seq<R.Line>): seq<Entry> {
    seq(|lines|, i requires 0 <= i < |lines| => decode(lines[i]))
  }

  /** What is live of the entries is a suffix of their samples. */
  lemma {:induction false} LiveIsFilter(entries: seq<Entry>, cutoff: int)
    ensures Live(entries, cutoff, true) == Filter(Since(cutoff), Samples(entries))
  {
    if entries != [] {
      LiveIsFilter(entries[1..], cutoff);
      if entries[0].SampleEntry? {
        assert Samples(entries)[1..] == Samples(entries[1..]);
      } else {
        assert [] + Live(entries[1..], cutoff, true) == Live(entries[1..], cutoff, true);
        assert [] + Samples(entries[1..]) == Samples(entries[1..]);
      }
    }
  }

  /** The rollups a restoration leaves are a suffix of the persisted samples. */
  lemma RestoredRollups(entries: seq<Entry>, cutoff: int) returns (k: nat)
    requires Sorted(Samples(entries))
    ensures k <= |Samples(entries)|
    ensures LastN(DropOlder(Live(entries, cutoff, true), cutoff), MAX_MEMORY_ROLLUPS) == Samples(entries)[k..]
  {
    var samples := Samples(entries);
    LiveIsFilter(entries, cutoff);
    var a := SinceIsSuffix(samples, cutoff);
    var b := TrimmedRollups(samples[a..], cutoff);
    k := a + b;
    assert samples[a..][b..] == samples[k..];
  }

  /** Samples of a single minute reduce, behind others, like the last of them. */
  lemma {:induction false} OneMinuteReduces(earlier: seq<Sample>, s: seq<Sample>)
    requires Sorted(earlier + s) && s != [] && forall x <- s :: Minute(x) == Minute(s[|s| - 1])
    ensures ReduceByMinute(earlier + s) == Put(ReduceByMinute(earlier), s[|s| - 1])
    decreases |s|
  {
    var init, x := s[..|s| - 1], s[|s| - 1];
    assert s == init + [x];
    Assoc(earlier, init, [x]);
    ReduceSnoc(earlier + init, x);
    if init == [] {
      assert earlier + init == earlier;
    } else {
      SortedParts(earlier + init, [x]);
      assert init[|init| - 1] in s;
      OneMinuteReduces(earlier, init);
      EarlierMinutes(earlier, s);
      PutTwice(ReduceByMinute(earlier), init[|init| - 1], x);
    }
  }

  lemma EarlierMinutes(earlier: seq<Sample>, s: seq<Sample>)
    requires Sorted(earlier + s) && s != []
    ensures MinutesIncrease(ReduceByMinute(earlier))
    ensures forall y <- ReduceByMinute(earlier) :: Minute(y) <= Minute(s[|s| - 1])
  {
    SortedParts(earlier, s);
    ReductionIsSorted(earlier);
    ReduceIsLatest(earlier);
    assert s[|s| - 1] in s;
  }

  /** While the first minute lasts, nothing has been rolled over. */
  lemma {:induction false} NothingRolledYet(st: Store, events: seq<Event>, minute: int)
    requires st.rollups == [] && (forall p <- Opt(st.pending) :: Minute(p) == minute)
    requires forall x <- Recorded(events) :: Minute(x) == minute
    ensures Run(st, events).rollups == []
    decreases |events|
  {
    if events != [] {
      if events[0].EvSnapshot? {
        assert events[0].sample in Recorded(events);
      }
      assert forall x <- Recorded(events[1..]) :: x in Recorded(events);
      NothingRolledYet(Step(st, events[0]), events[1..], minute);
    }
  }

  lemma {:induction false} PendingIffRecorded(st: Store, events: seq<Event>)
    ensures Run(st, events).pending.None? <==> st.pending.None? && Recorded(events) == []
    decreases |events|
  {
    if events != [] {
      PendingIffRecorded(Step(st, events[0]), events[1..]);
    }
  }

  lemma EarlyAgrees(early: seq<Event>)
    requires Sorted(Recorded(early))
    ensures var st := Run(EMPTY, early);
            HistInv(st, Recorded(early)) && (st.pending.None? <==> Recorded(early) == [])
  {
    assert [] + Recorded(early) == Recorded(early);
    RestoredAgrees([]);
    RunKeepsInv(EMPTY, [], early);
    PendingIffRecorded(EMPTY, early);
  }

  lemma EarlyStore(early: seq<Event>)
    requires Sorted(Recorded(early))
    requires forall x, y | x in Recorded(early) && y in Recorded(early) :: Minute(x) == Minute(y)
    ensures var st := Run(EMPTY, early);
            HistInv(st, Recorded(early)) && st.rollups == [] && (st.pending.None? <==> Recorded(early) == [])
  {
    EarlyAgrees(early);
    var all := Recorded(early);
    NothingRolledYet(EMPTY, early, if all == [] then 0 else Minute(all[0]));
  }

  /** Restoring what earlier sessions persisted, into a store that has not finished its first minute. */
  lemma RestoreKeepsInv(st: Store, all: seq<Sample>, entries: seq<Entry>, cutoff: int, earlier: seq<Sample>)
    requires HistInv(st, all) && st.rollups == [] && Sorted(earlier + all)
    requires (st.pending.None? <==> all == []) && forall x, y | x in all && y in all :: Minute(x) == Minute(y)
    requires Sorted(Samples(entries)) && IsSuffix(ReduceByMinute(Samples(entries)), ReduceByMinute(earlier))
    ensures HistInv(Restore(st, entries, cutoff), earlier + all)
  {
    var k := RestoredRollups(entries, cutoff);
    var kept := Samples(entries)[k..];
    SortedParts(earlier, all);
    ReduceDrop(Samples(entries), k);
    SuffixTrans(ReduceByMinute(kept), ReduceByMinute(Samples(entries)), ReduceByMinute(earlier));
    assert [] + Live(entries, cutoff, true) == Live(entries, cutoff, true);
    RestoredWindow(st, all, earlier);
    ReducedIsOld(kept, earlier, all);
    if all == [] {
      assert earlier + all == earlier && kept + Opt(st.pending) == kept;
    } else {
      RestoredReduces(kept, all, earlier);
    }
  }

  lemma RestoredWindow(st: Store, all: seq<Sample>, earlier: seq<Sample>)
    requires WindowInv(st.snapshots, st.pending, all) && (st.pending.None? <==> all == [])
    ensures WindowInv(st.snapshots, st.pending, earlier + all)
    ensures LastN(st.snapshots, MAX_HIGH_RES_SAMPLES) == st.snapshots
  {
    var before := SuffixSplits(st.snapshots, all);
    Assoc(earlier, before, st.snapshots);
  }

  lemma RestoredReduces(kept: seq<Sample>, all: seq<Sample>, earlier: seq<Sample>)
    requires Sorted(kept + all) && Sorted(earlier + all) && all != []
    requires forall x <- all :: Minute(x) == Minute(all[|all| - 1])
    requires IsSuffix(ReduceByMinute(kept), ReduceByMinute(earlier))
    ensures var p := all[|all| - 1];
            Sorted(kept + [p]) && IsSuffix(ReduceByMinute(kept + [p]), ReduceByMinute(earlier + all))
  {
    var p := all[|all| - 1];
    SortedParts(kept, all);
    assert p in all;
    SortedJoin(kept, [p]);
    ReduceSnoc(kept, p);
    OneMinuteReduces(earlier, all);
    EarlierMinutes(earlier, all);
    PutKeepsSuffix(ReduceByMinute(kept), ReduceByMinute(earlier), p);
  }

  // ----- read back late -----

  /** Nothing older than an unexpired sample in front is dropped. */
  lemma OlderBehindStay(rollups: seq<Sample>, live: seq<Sample>, cutoff: int)
    requires live != [] && (forall x <- live :: cutoff <= x.at) && forall x <- live, r <- rollups :: x.at < r.at
    ensures DropOlder(rollups + live, cutoff) == rollups + live
  {
    assert live[0] in live && (rollups != [] ==> rollups[0] in rollups);
  }

  /** What was read back goes behind the session's own rollups. With samples that never go back this leaves the rollups
      in order exactly if there is nothing on one side, or so much was read that only that fits. */
  lemma RestoredInOrderExactly(st: Store, entries: seq<Entry>, cutoff: int)
    requires Sorted(st.rollups) && Sorted(Samples(entries))
    requires forall x <- Samples(entries), r <- st.rollups :: x.at < r.at
    ensures var live := Live(entries, cutoff, true);
            Sorted(Restore(st, entries, cutoff).rollups) <==>
            st.rollups == [] || live == [] || |live| >= MAX_MEMORY_ROLLUPS
  {
    LiveIsFilter(entries, cutoff);
    FilterSorted(Since(cutoff), Samples(entries));
    FilterHas(Since(cutoff), Samples(entries));
    LateInOrderExactly(st.rollups, Live(entries, cutoff, true), cutoff);
  }

  lemma LateInOrderExactly(rollups: seq<Sample>, live: seq<Sample>, cutoff: int)
    requires Sorted(rollups) && Sorted(live) && (forall x <- live :: cutoff <= x.at)
    requires forall x <- live, r <- rollups :: x.at < r.at
    ensures Sorted(LastN(DropOlder(rollups + live, cutoff), MAX_MEMORY_ROLLUPS)) <==>
            rollups == [] || live == [] || |live| >= MAX_MEMORY_ROLLUPS
  {
    var whole := rollups + live;
    if rollups == [] || live == [] {
      assert whole == if rollups == [] then live else rollups;
      var k := TrimmedRollups(whole, cutoff);
      assert whole == whole[..k] + whole[k..];
      SortedParts(whole[..k], whole[k..]);
    } else {
      OlderBehindStay(rollups, live, cutoff);
      if |live| < MAX_MEMORY_ROLLUPS {
        OutOfOrder(rollups, live);
      } else {
        var j := |live| - MAX_MEMORY_ROLLUPS;
        assert LastN(whole, MAX_MEMORY_ROLLUPS) == live[j..];
        assert live == live[..j] + live[j..];
        SortedParts(live[..j], live[j..]);
      }
    }
  }

  lemma OutOfOrder(rollups: seq<Sample>, live: seq<Sample>)
    requires rollups != [] && live != [] && |live| < MAX_MEMORY_ROLLUPS && forall x <- live, r <- rollups :: x.at < r.at
    ensures !Sorted(LastN(rollups + live, MAX_MEMORY_ROLLUPS))
  {
    var s := LastN(rollups + live, MAX_MEMORY_ROLLUPS);
    var n := |s| - |live|;
    assert s[n - 1] == rollups[|rollups| - 1] && s[n] == live[0];
    assert rollups[|rollups| - 1] in rollups && live[0] in live;
  }

  /** Two snapshots of different minutes before the files are read are enough. */
  lemma LateRestoreMisorders()
    ensures var early := [EvSnapshot(Sample(MINUTE_MS, 0), 0), EvSnapshot(Sample(2 * MINUTE_MS, 0), 0)];
            var st := Restore(Run(EMPTY, early), [SampleEntry(Sample(0, 0))], 0);
            st.rollups == [Sample(MINUTE_MS, 0), Sample(0, 0)] && !Sorted(st.rollups)
  {
    var x, y, stored := Sample(MINUTE_MS, 0), Sample(2 * MINUTE_MS, 0), SampleEntry(Sample(0, 0));
    var early := [EvSnapshot(x, 0), EvSnapshot(y, 0)];
    TwoMinutes(early, x, y);
    assert Live([stored], 0, true) == [stored.sample] + Live([stored][1..], 0, true) == [stored.sample];
    var st := Restore(Run(EMPTY, early), [stored], 0);
    assert [x] + [stored.sample] == [x, stored.sample];
    assert st.rollups[0].at > st.rollups[1].at;
  }

  lemma TwoMinutes(early: seq<Event>, x: Sample, y: Sample)
    requires early == [EvSnapshot(x, 0), EvSnapshot(y, 0)] && Minute(x) != Minute(y)
    ensures Run(EMPTY, early).rollups == [x]
  {
    assert early[1..] == [EvSnapshot(y, 0)] && early[1..][1..] == [];
    var once := Record(EMPTY, x, 0);
    assert Run(EMPTY, early) == Run(once, early[1..]) == Record(once, y, 0);
    assert [] + [x] == [x];
  }

  lemma LaterInSuffix(a: seq<Sample>, b: seq<Sample>, l: Sample, q: Sample)
    requires IsSuffix(a, b) && MinutesIncrease(b) && l in a && q in b && Minute(l) < Minute(q)
    ensures q in a
  {
    var n := |b| - |a|;
    var i :| 0 <= i < |a| && a[i] == l;
    var j :| 0 <= j < |b| && b[j] == q;
    assert b[n + i] == l;
    assert n + i < j;
    assert a[j - n] == q;
  }

  /** If rollups that end with an older sample are put before a sample of a later minute, a whole minute in between is
      hidden. */
  lemma OlderLastBreaks(rollups: seq<Sample>, p: Sample, earlier: seq<Sample>, all: seq<Sample>)
    requires rollups != [] && Sorted(earlier + all) && all != [] && p == all[|all| - 1] && Minute(all[0]) < Minute(p)
    requires forall y <- all :: rollups[|rollups| - 1].at < y.at
    ensures !RollupInv(rollups, Some(p), earlier + all)
  {
    var l, whole, reduced := rollups[|rollups| - 1], rollups + [p], ReduceByMinute(earlier + all);
    SortedParts(earlier, all);
    assert all[0] in all && p in all;
    if RollupInv(rollups, Some(p), earlier + all) {
      assert Opt(Some(p)) == [p];
      LastOfAppend(rollups, p, Minute(l));
      KeptIsLatest(whole, earlier + all, l);
      LastOfConcat(earlier, all, Minute(l));
      LastOfHas(all, Minute(l));
      var minute := Minute(all[0]);
      LastOfConcat(earlier, all, minute);
      LastOfHas(all, minute);
      var q := LastOf(all, minute).value;
      ReduceIsLatest(earlier + all);
      ReduceIsLatest(whole);
      LaterInSuffix(ReduceByMinute(whole), reduced, l, q);
      LastOfHas(whole, minute);
      SortedParts(rollups, [p]);
      NewestIsLast(rollups, q);
      assert false;
    }
  }

  lemma NewestIsLast(s: seq<Sample>, x: Sample)
    requires Sorted(s) && x in s
    ensures x.at <= s[|s| - 1].at
  {
  }

  /** What was read back late is in agreement with the record exactly if nothing unexpired was read, or the first minute
      had not ended: in particular not if so much was read that the rollups are in order. */
  lemma LateRestoreAgreesExactly(early: seq<Event>, entries: seq<Entry>, cutoff: int, earlier: seq<Sample>)
    requires Sorted(earlier + Recorded(early))
    requires Sorted(Samples(entries)) && forall x <- Samples(entries), y <- Recorded(early) :: x.at < y.at
    requires IsSuffix(ReduceByMinute(Samples(entries)), ReduceByMinute(earlier))
    ensures var all := Recorded(early);
            HistInv(Restore(Run(EMPTY, early), entries, cutoff), earlier + all) <==>
            Live(entries, cutoff, true) == [] || all == [] || Minute(all[0]) == Minute(all[|all| - 1])
  {
    var all := Recorded(early);
    SortedParts(earlier, all);
    EarlyAgrees(early);
    if all == [] || Minute(all[0]) == Minute(all[|all| - 1]) {
      OneMinute(all);
      EarlyStore(early);
      RestoreKeepsInv(Run(EMPTY, early), all, entries, cutoff, earlier);
    } else if Live(entries, cutoff, true) == [] {
      NothingRestored(Run(EMPTY, early), all, entries, cutoff, earlier);
    } else {
      LateRestoreBreaks(Run(EMPTY, early), entries, cutoff, earlier, all);
    }
  }

  lemma LateRestoreBreaks(st: Store, entries: seq<Entry>, cutoff: int, earlier: seq<Sample>, all: seq<Sample>)
    requires Live(entries, cutoff, true) != [] && all != [] && Sorted(earlier + all)
    requires Minute(all[0]) != Minute(all[|all| - 1]) && st.pending == Some(all[|all| - 1])
    requires forall x <- Samples(entries), y <- all :: x.at < y.at
    ensures !HistInv(Restore(st, entries, cutoff), earlier + all)
  {
    var live := Live(entries, cutoff, true);
    LiveIsFilter(entries, cutoff);
    FilterHas(Since(cutoff), Samples(entries));
    var k := TrimmedRollups(st.rollups + live, cutoff);
    LastStays(st.rollups, live, cutoff, k);
    SortedParts(earlier, all);
    assert live[|live| - 1] in live && all[0] in all;
    assert all[0].at <= all[|all| - 1].at;
    OlderLastBreaks((st.rollups + live)[k..], all[|all| - 1], earlier, all);
  }

  /** The newest of what was read back is never trimmed. */
  lemma LastStays(rollups: seq<Sample>, live: seq<Sample>, cutoff: int, k: nat)
    requires live != [] && (forall x <- live :: cutoff <= x.at) && k <= |rollups + live|
    requires LastN(DropOlder(rollups + live, cutoff), MAX_MEMORY_ROLLUPS) == (rollups + live)[k..]
    ensures var kept := (rollups + live)[k..]; kept != [] && kept[|kept| - 1] == live[|live| - 1]
  {
    DropKeepsLast(rollups + live, cutoff);
  }

  lemma {:induction false} DropKeepsLast(s: seq<Sample>, cutoff: int)
    requires s != [] && cutoff <= s[|s| - 1].at
    ensures DropOlder(s, cutoff) != []
  {
    if s[0].at < cutoff {
      DropKeepsLast(s[1..], cutoff);
    }
  }

  lemma OneMinute(s: seq<Sample>)
    requires Sorted(s) && (s != [] ==> Minute(s[0]) == Minute(s[|s| - 1]))
    ensures forall x, y | x in s && y in s :: Minute(x) == Minute(y)
  {
    forall x <- s ensures Minute(x) == Minute(s[0]) {
      SameMinute(s[0], x, s[|s| - 1]);
    }
  }

  lemma NothingRestored(st: Store, all: seq<Sample>, entries: seq<Entry>, cutoff: int, earlier: seq<Sample>)
    requires HistInv(st, all) && (st.pending.None? <==> all == []) && Sorted(earlier + all)
    requires Live(entries, cutoff, true) == []
    ensures HistInv(Restore(st, entries, cutoff), earlier + all)
  {
    assert st.rollups + [] == st.rollups;
    var k := TrimmedRollups(st.rollups, cutoff);
    TrimKeepsRollups(st.rollups, st.pending, all, k);
    RestoredWindow(st, all, earlier);
    assert (earlier + all)[|earlier|..] == all;
    ReduceDrop(earlier + all, |earlier|);
    SuffixTrans(ReduceByMinute(st.rollups[k..] + Opt(st.pending)), ReduceByMinute(all), ReduceByMinute(earlier + all));
  }

  /** Whatever was rolled over was also handed to persistence. */
  lemma {:induction false} RollupsAreQueued(st: Store, events: seq<Event>)
    requires forall r <- st.rollups :: SampleEntry(r) in st.queued
    ensures forall r <- Run(st, events).rollups :: SampleEntry(r) in Run(st, events).queued
    decreases |events|
  {
    if events != [] {
      var k := TrimmedRollups(st.rollups, events[0].cutoff);
      assert forall r <- st.rollups[k..] :: r in st.rollups;
      RollupsAreQueued(Step(st, events[0]), events[1..]);
    }
  }

  /** A rollup is of an earlier minute than the pending sample, and so than everything recorded later. */
  lemma RolledIsPast(early: seq<Event>, rest: seq<Sample>, p: Sample)
    requires Sorted(Recorded(early) + rest) && p in Run(EMPTY, early).rollups
    ensures Run(EMPTY, early).pending != Some(p) && p !in rest
  {
    var all := Recorded(early);
    SortedParts(all, rest);
    EarlyAgrees(early);
    assert [] + all == all;
    RunKeepsRolledBefore(EMPTY, [], early);
    assert all[|all| - 1] in all;
  }

  /** Where as much is read late as memory holds, the session's own rollups are cut off: none of them is ever shown
      again, once the high-resolution window has moved on. */
  lemma LateRestoreForgetsExactly(s: Session, p: Sample)
    requires Sorted(RecordedIn(s)) && p in Run(EMPTY, s.early).rollups
    requires |Live(s.read, s.cutoff, true)| >= MAX_MEMORY_ROLLUPS
    requires forall x <- Samples(s.read), r <- Run(EMPTY, s.early).rollups :: x.at < r.at
    ensures var last := Run(Restore(Run(EMPTY, s.early), s.read, s.cutoff), s.later);
            && SampleEntry(p) in last.queued
            && (Kept(last, p) <==> p in LastN(RecordedIn(s), MAX_HIGH_RES_SAMPLES))
  {
    var st, live := Run(EMPTY, s.early), Live(s.read, s.cutoff, true);
    var restored := Restore(st, s.read, s.cutoff);
    RollupsAreQueued(EMPTY, s.early);
    RolledIsPast(s.early, Recorded(s.later), p);
    OwnRollupsGo(st, s.read, s.cutoff, p);
    AfterFlush(restored, s.later, p);
    WindowSlides(EMPTY, s.early);
    WindowSlides(restored, s.later);
    assert [] + Recorded(s.early) == Recorded(s.early);
    LastNTwice(Recorded(s.early), Recorded(s.later));
  }

  lemma OwnRollupsGo(st: Store, entries: seq<Entry>, cutoff: int, p: Sample)
    requires |Live(entries, cutoff, true)| >= MAX_MEMORY_ROLLUPS && p in st.rollups
    requires forall x <- Samples(entries), r <- st.rollups :: x.at < r.at
    ensures p !in Restore(st, entries, cutoff).rollups
  {
    var live := Live(entries, cutoff, true);
    LiveIsFilter(entries, cutoff);
    FilterHas(Since(cutoff), Samples(entries));
    OlderBehindStay(st.rollups, live, cutoff);
    assert LastN(st.rollups + live, MAX_MEMORY_ROLLUPS) == LastN(live, MAX_MEMORY_ROLLUPS);
    assert forall x <- LastN(live, MAX_MEMORY_ROLLUPS) :: x in live;
  }

  // ----- sorted again by the analysis -----

  /** The samples that a change of minute rolls over. */
  function RolledOver(pending: Option<Sample>, samples: seq<Sample>): seq<Sample>
    decreases |samples|
  {
    if samples == [] then []
    else Rolled([], pending, samples[0]) + RolledOver(Some(samples[0]), samples[1..])
  }

  /** What of the rollups a history from `since` on can show. */
  function Shown(since: int, s: seq<Sample>): seq<Sample> { Filter(Since(since), s) }

  lemma {:induction false} TrimShows(s: seq<Sample>, cutoff: int, since: int)
    requires cutoff <= since
    ensures Shown(since, DropOlder(s, cutoff)) == Shown(since, s) && |DropOlder(s, cutoff)| <= |s|
  {
    if s != [] && s[0].at < cutoff {
      TrimShows(s[1..], cutoff, since);
      assert [] + Filter(Since(since), s[1..]) == Filter(Since(since), s[1..]);
    }
  }

  /** While the rollups fit, a run adds those it rolls over, and loses none that is not expired. */
  lemma {:induction false} RunShows(st: Store, events: seq<Event>, since: int)
    requires forall e <- events :: e.cutoff <= since
    requires |st.rollups| + |RolledOver(st.pending, Recorded(events))| <= MAX_MEMORY_ROLLUPS
    ensures var last, rolled := Run(st, events), RolledOver(st.pending, Recorded(events));
            && Shown(since, last.rollups) == Shown(since, st.rollups) + Shown(since, rolled)
            && |last.rollups| <= |st.rollups| + |rolled|
    decreases |events|
  {
    if events == [] {
      assert Shown(since, st.rollups) + [] == Shown(since, st.rollups);
    } else {
      var e, rest := events[0], Recorded(events[1..]);
      assert e in events && forall f <- events[1..] :: f in events;
      TrimShows(st.rollups, e.cutoff, since);
      if e.EvSnapshot? {
        var first := Rolled([], st.pending, e.sample);
        var whole := [e.sample] + rest;
        assert whole[0] == e.sample && whole[1..] == rest;
        assert Record(st, e.sample, e.cutoff).rollups == DropOlder(st.rollups, e.cutoff) + first;
        FilterConcat(Since(since), DropOlder(st.rollups, e.cutoff), first);
        RunShows(Step(st, e), events[1..], since);
        FilterConcat(Since(since), first, RolledOver(Some(e.sample), rest));
        Assoc(Shown(since, st.rollups), Shown(since, first), Shown(since, RolledOver(Some(e.sample), rest)));
      } else {
        assert [] + rest == rest;
        RunShows(Step(st, e), events[1..], since);
      }
    }
  }

  lemma {:induction false} RolledOverFrom(pending: Option<Sample>, samples: seq<Sample>)
    ensures forall x <- RolledOver(pending, samples) :: x in Opt(pending) || x in samples
    decreases |samples|
  {
    if samples != [] {
      assert samples == [samples[0]] + samples[1..];
      RolledOverFrom(Some(samples[0]), samples[1..]);
    }
  }

  lemma {:induction false} RolledOverConcat(pending: Option<Sample>, a: seq<Sample>, b: seq<Sample>)
    ensures RolledOver(pending, a + b) ==
            RolledOver(pending, a) + RolledOver(if a == [] then pending else Some(a[|a| - 1]), b)
    decreases |a|
  {
    if a == [] {
      assert a + b == b;
    } else {
      assert (a + b)[0] == a[0] && (a + b)[1..] == a[1..] + b;
      RolledOverConcat(Some(a[0]), a[1..], b);
      var last := if a[1..] == [] then Some(a[0]) else Some(a[1..][|a[1..]| - 1]);
      assert last == Some(a[|a| - 1]);
      Assoc(Rolled([], pending, a[0]), RolledOver(Some(a[0]), a[1..]), RolledOver(last, b));
    }
  }

  /** Inserted behind what is not newer, before what is. */
  lemma {:induction false} InsertBefore(front: seq<Sample>, newer: seq<Sample>, x: Sample)
    requires (forall y <- front :: y.at <= x.at) && forall y <- newer :: x.at < y.at
    ensures InsertByTime(front + newer, x) == front + [x] + newer
    decreases |newer|
  {
    var s := front + newer;
    if newer == [] {
      assert s == front && front + [x] + newer == front + [x];
      assert front != [] ==> front[|front| - 1] in front;
    } else {
      var init, last := newer[..|newer| - 1], newer[|newer| - 1];
      assert newer == init + [last] && last in newer;
      assert s[|s| - 1] == last && s[..|s| - 1] == front + init;
      InsertBefore(front, init, x);
      Assoc(front + [x], init, [last]);
    }
  }

  /** A stable sort puts a block that belongs in front there. */
  lemma {:induction false} SortSwaps(a: seq<Sample>, b: seq<Sample>, c: seq<Sample>)
    requires Sorted(b + a + c) && forall x <- a, y <- b :: y.at < x.at
    ensures SortByTime(a + b + c) == b + a + c
    decreases |b| + |c|
  {
    if c != [] {
      var init, x := c[..|c| - 1], c[|c| - 1];
      assert c == init + [x];
      Assoc(a + b, init, [x]);
      Assoc(b + a, init, [x]);
      SortedParts(b + a + init, [x]);
      SortSwaps(a, b, init);
      SortAppend(a + b + init, x);
      InsertBefore(b + a + init, [], x);
      assert b + a + init + [] == b + a + init && b + a + init + [x] + [] == b + a + init + [x];
    } else if b != [] {
      var init, x := b[..|b| - 1], b[|b| - 1];
      assert b == init + [x] && x in b;
      assert b + a + c == init + ([x] + a) && b + a == init + ([x] + a);
      SortedParts(init, [x] + a);
      SortedParts([x], a);
      SortedJoin(init, a);
      assert init + a + [] == init + a && a + init + [] == a + init && a + b + c == a + init + [x];
      SortSwaps(a, init, []);
      SortAppend(a + init, x);
      InsertBefore(init, a, x);
      assert init + [x] + a == b + a + c;
    } else {
      assert a + b + c == a && b + a + c == a;
      SortedStays(a);
    }
  }

  lemma {:induction false} FilterTwice(p: Sample -> bool, q: Sample -> bool, s: seq<Sample>)
    requires forall x <- s :: p(x) ==> q(x)
    ensures Filter(p, Filter(q, s)) == Filter(p, s)
  {
    if s != [] {
      assert s[0] in s && forall x <- s[1..] :: x in s;
      FilterTwice(p, q, s[1..]);
      FilterConcat(p, if q(s[0]) then [s[0]] else [], Filter(q, s[1..]));
      assert Filter(p, [s[0]]) == (if p(s[0]) then [s[0]] else []) + Filter(p, [s[0]][1..]);
      assert [] + Filter(p, s[1..]) == Filter(p, s[1..]);
    }
  }

  /** A history depends on the rollups only through those from `since` on. */
  lemma HistoryOfShown(st: Store, since: int)
    ensures History(st, since) == Filter(Older(st, since), Shown(since, st.rollups)) + Recent(st, since)
  {
    HistoryParts(st, since);
    FilterTwice(Older(st, since), Since(since), st.rollups);
  }

  /** What was read back early and late shows the same, once it is sorted. */
  lemma SortedHistories(a: Store, b: Store, own: seq<Sample>, read: seq<Sample>, later: seq<Sample>, since: int)
    requires a.snapshots == b.snapshots && Sorted(History(b, since))
    requires Shown(since, a.rollups) == own + read + later && Shown(since, b.rollups) == read + own + later
    requires forall x <- own, y <- read :: y.at < x.at
    ensures SortByTime(History(a, since)) == History(b, since)
    ensures forall x: Sample :: x.at >= since ==> (Kept(a, x) <==> Kept(b, x))
  {
    var older, recent := Older(b, since), Recent(b, since);
    HistoryOfShown(a, since);
    HistoryOfShown(b, since);
    SameFilter(Older(a, since), older, own + read + later);
    FilterThree(older, own, read, later);
    FilterThree(older, read, own, later);
    FilterHas(older, own);
    FilterHas(older, read);
    var f, g, h := Filter(older, own), Filter(older, read), Filter(older, later);
    Assoc(f + g, h, recent);
    Assoc(g + f, h, recent);
    SortSwaps(f, g, h + recent);
    FilterHas(Since(since), a.rollups);
    FilterHas(Since(since), b.rollups);
  }

  lemma FilterThree(p: Sample -> bool, a: seq<Sample>, b: seq<Sample>, c: seq<Sample>)
    ensures Filter(p, a + b + c) == Filter(p, a) + Filter(p, b) + Filter(p, c)
  {
    FilterConcat(p, a + b, c);
    FilterConcat(p, a, b);
  }

  /** Restoring adds what was read, and loses nothing that is not expired, while the rollups fit. */
  lemma RestoreShows(st: Store, entries: seq<Entry>, cutoff: int, since: int)
    requires cutoff <= since && |st.rollups| + |Samples(entries)| <= MAX_MEMORY_ROLLUPS
    ensures var r := Restore(st, entries, cutoff).rollups;
            && Shown(since, r) == Shown(since, st.rollups) + Shown(since, Samples(entries))
            && |r| <= |st.rollups| + |Samples(entries)|
  {
    var live := Live(entries, cutoff, true);
    LiveIsFilter(entries, cutoff);
    FilterTwice(Since(since), Since(cutoff), Samples(entries));
    FilterShorter(Since(cutoff), Samples(entries));
    FilterConcat(Since(since), st.rollups, live);
    TrimShows(st.rollups + live, cutoff, since);
  }

  lemma {:induction false} FilterShorter(p: Sample -> bool, s: seq<Sample>)
    ensures |Filter(p, s)| <= |s|
  {
    if s != [] {
      FilterShorter(p, s[1..]);
    }
  }

  /** The pending sample of a run is the last recorded. */
  lemma {:induction false} PendingIsLast(st: Store, events: seq<Event>)
    ensures var all := Recorded(events);
            Run(st, events).pending == if all == [] then st.pending else Some(all[|all| - 1])
    decreases |events|
  {
    if events != [] {
      PendingIsLast(Step(st, events[0]), events[1..]);
    }
  }

  predicate RollupsFit(read: seq<Sample>, recorded: seq<Sample>) {
    |read| + |RolledOver(None, recorded)| <= MAX_MEMORY_ROLLUPS
  }

  /** What the rollups of a session show from `since` on: its own of the time before the files were read, what was read,
      and its own of later. */
  lemma LateShows(s: Session, since: int) returns (own: seq<Sample>, later: seq<Sample>)
    requires s.cutoff <= since && forall e <- s.early + s.later :: e.cutoff <= since
    requires RollupsFit(Samples(s.read), RecordedIn(s))
    ensures var read := Shown(since, Samples(s.read));
            && Shown(since, Run(Restore(Run(EMPTY, s.early), s.read, s.cutoff), s.later).rollups) == own + read + later
            && Shown(since, RolledOver(None, RecordedIn(s))) == own + later
    ensures forall x <- own :: x in Recorded(s.early)
  {
    var st, first, second := Run(EMPTY, s.early), Recorded(s.early), Recorded(s.later);
    PendingIsLast(EMPTY, s.early);
    RolledOverConcat(None, first, second);
    var rolled, next := RolledOver(None, first), RolledOver(st.pending, second);
    own, later := Shown(since, rolled), Shown(since, next);
    FilterConcat(Since(since), rolled, next);
    RolledOverFrom(None, first);
    FilterHas(Since(since), rolled);
    EarlyShows(s.early, since) by {
      assert forall e <- s.early :: e in s.early + s.later;
    }
    RestoreShows(st, s.read, s.cutoff, since);
    RunShows(Restore(st, s.read, s.cutoff), s.later, since) by {
      assert forall e <- s.later :: e in s.early + s.later;
    }
  }

  lemma EarlyShows(early: seq<Event>, since: int)
    requires (forall e <- early :: e.cutoff <= since) && |RolledOver(None, Recorded(early))| <= MAX_MEMORY_ROLLUPS
    ensures var st, rolled := Run(EMPTY, early), RolledOver(None, Recorded(early));
            Shown(since, st.rollups) == Shown(since, rolled) && |st.rollups| <= |rolled|
  {
    RunShows(EMPTY, early, since);
    assert [] + Shown(since, RolledOver(None, Recorded(early))) == Shown(since, RolledOver(None, Recorded(early)));
  }

  lemma IdealShows(s: Session, since: int)
    requires s.cutoff <= since && forall e <- s.early + s.later :: e.cutoff <= since
    requires RollupsFit(Samples(s.read), RecordedIn(s))
    ensures Shown(since, Run(Restore(EMPTY, s.read, s.cutoff), s.early + s.later).rollups) ==
            Shown(since, Samples(s.read)) + Shown(since, RolledOver(None, RecordedIn(s)))
  {
    RecordedConcat(s.early, s.later);
    RestoreShows(EMPTY, s.read, s.cutoff, since);
    assert [] + Shown(since, Samples(s.read)) == Shown(since, Samples(s.read));
    RunShows(Restore(EMPTY, s.read, s.cutoff), s.early + s.later, since);
  }

  lemma SameWindows(s: Session)
    ensures Run(Restore(Run(EMPTY, s.early), s.read, s.cutoff), s.later).snapshots ==
            Run(Restore(EMPTY, s.read, s.cutoff), s.early + s.later).snapshots
  {
    var first, second := Recorded(s.early), Recorded(s.later);
    RecordedConcat(s.early, s.later);
    assert [] + first == first && [] + (first + second) == first + second;
    WindowSlides(EMPTY, s.early);
    WindowSlides(Restore(Run(EMPTY, s.early), s.read, s.cutoff), s.later);
    WindowSlides(Restore(EMPTY, s.read, s.cutoff), s.early + s.later);
    LastNTwice(first, second);
  }

  /** However late the files are read: as long as the rollups fit, and nothing asked for has expired, the history sorted
      by time, as the analysis sorts it, is the one shown if the files had been read first; so it still reduces to the
      reduction of everything recorded, filtered to `since` and to what the memories hold. */
  lemma LateHistoryAgrees(s: Session, earlier: seq<Sample>, since: int)
    requires Sorted(earlier + RecordedIn(s))
    requires Sorted(Samples(s.read)) && IsSuffix(ReduceByMinute(Samples(s.read)), ReduceByMinute(earlier))
    requires forall x <- Samples(s.read), y <- Recorded(s.early) :: x.at < y.at
    requires s.cutoff <= since && forall e <- s.early + s.later :: e.cutoff <= since
    requires RollupsFit(Samples(s.read), RecordedIn(s))
    ensures var st, ideal := Run(Restore(Run(EMPTY, s.early), s.read, s.cutoff), s.later),
                             Run(Restore(EMPTY, s.read, s.cutoff), s.early + s.later);
            && SortByTime(History(st, since)) == History(ideal, since)
            && ReduceByMinute(SortByTime(History(st, since))) ==
               Filter(Visible(st, since), ReduceByMinute(earlier + RecordedIn(s)))
  {
    var st := Run(Restore(Run(EMPTY, s.early), s.read, s.cutoff), s.later);
    var ideal := Run(Restore(EMPTY, s.read, s.cutoff), s.early + s.later);
    var all := earlier + RecordedIn(s);
    IdealAgrees(s, earlier);
    HistoryAgrees(ideal, all, since);
    SameWindows(s);
    var own, later := LateShows(s, since);
    IdealShows(s, since);
    var read := Shown(since, Samples(s.read));
    FilterHas(Since(since), Samples(s.read));
    Assoc(read, own, later);
    SortedHistories(st, ideal, own, read, later, since);
    FilterAgrees(Visible(st, since), Visible(ideal, since), ReduceByMinute(all));
  }

  /** Read first, the files leave the store in agreement with everything. */
  lemma IdealAgrees(s: Session, earlier: seq<Sample>)
    requires Sorted(earlier + RecordedIn(s))
    requires Sorted(Samples(s.read)) && IsSuffix(ReduceByMinute(Samples(s.read)), ReduceByMinute(earlier))
    ensures HistInv(Run(Restore(EMPTY, s.read, s.cutoff), s.early + s.later), earlier + RecordedIn(s))
  {
    SortedParts(earlier, RecordedIn(s));
    assert earlier + [] == earlier;
    EarlyStore([]);
    RestoreKeepsInv(EMPTY, [], s.read, s.cutoff, earlier);
    RecordedConcat(s.early, s.later);
    RunKeepsInv(Restore(EMPTY, s.read, s.cutoff), earlier, s.early + s.later);
  }

  // ----- the whole way round -----

  lemma ReadBackIsSuffix(sessions: seq<Session>, decode: R.Line -> Entry, files: R.Files, attempts: seq<R.Attempt>,
                         maxBytes: nat)
    requires |files| >= 2 && R.ReadBack(files) == [] && R.Ready(files, attempts) && R.Succeeds(attempts)
    requires Decoded(decode, R.Lines(attempts)) == AllEntries(sessions) && Sorted(AllRecorded(sessions))
    ensures var read := Samples(Decoded(decode, R.ReadBack(R.Run(files, attempts, maxBytes))));
            Sorted(read) && IsSuffix(ReduceByMinute(read), ReduceByMinute(AllRecorded(sessions)))
  {
    var lines, entries := R.Lines(attempts), AllEntries(sessions);
    var k := R.RunReadsSuffix(files, attempts, maxBytes);
    assert R.ReadBack(files) + lines == lines;
    assert Decoded(decode, lines[k..]) == entries[k..];
    SessionsPersist(sessions);
    var n := SamplesOfSuffix(entries, k);
    ReduceDrop(Samples(entries), n);
  }

  lemma SamplesOfSuffix(entries: seq<Entry>, k: nat) returns (n: nat)
    requires k <= |entries|
    ensures n <= |Samples(entries)| && Samples(entries[k..]) == Samples(entries)[n..]
  {
    n := |Samples(entries[..k])|;
    assert entries == entries[..k] + entries[k..];
    SamplesConcat(entries[..k], entries[k..]);
  }

  /** Over any number of sessions, each of which may itself have read anything back at any time, written to at least two
      rotating files, and read back while the next session records its first minute: reducing its history from `since`
      on equals reducing everything ever recorded, by all sessions, filtered to `since` and to what its memories
      hold. */
  lemma RestartAgreement(sessions: seq<Session>, decode: R.Line -> Entry, files: R.Files, attempts: seq<R.Attempt>,
                         maxBytes: nat, early: seq<Event>, cutoff: int, later: seq<Event>, since: int)
    requires |files| >= 2 && R.ReadBack(files) == [] && R.Ready(files, attempts) && R.Succeeds(attempts)
    requires Decoded(decode, R.Lines(attempts)) == AllEntries(sessions)
    requires Sorted(AllRecorded(sessions) + Recorded(early) + Recorded(later))
    requires forall x, y | x in Recorded(early) && y in Recorded(early) :: Minute(x) == Minute(y)
    ensures var read := Decoded(decode, R.ReadBack(R.Run(files, attempts, maxBytes)));
            var st := Run(Restore(Run(EMPTY, early), read, cutoff), later);
            ReduceByMinute(History(st, since)) ==
            Filter(Visible(st, since), ReduceByMinute(AllRecorded(sessions) + Recorded(early) + Recorded(later)))
  {
    var before, first := AllRecorded(sessions), Recorded(early);
    var read := Decoded(decode, R.ReadBack(R.Run(files, attempts, maxBytes)));
    SortedParts(before + first, Recorded(later));
    SortedParts(before, first);
    ReadBackIsSuffix(sessions, decode, files, attempts, maxBytes);
    EarlyStore(early);
    RestoreKeepsInv(Run(EMPTY, early), first, read, cutoff, before);
    var restored := Restore(Run(EMPTY, early), read, cutoff);
    RunKeepsInv(restored, before + first, later);
    HistoryReduces(Run(restored, later), before + first + Recorded(later), since);
  }

  /** The same, however late the files are read, as long as the rollups fit and nothing asked for has expired: what the
      analysis works on, after sorting, is the reduction of everything ever recorded, filtered to `since` and to what
      the memories hold, or a history of less than five minutes as it is. */
  lemma LateRestartAgreement(sessions: seq<Session>, decode: R.Line -> Entry, files: R.Files, attempts: seq<R.Attempt>,
                             maxBytes: nat, s: Session, since: int)
    requires |files| >= 2 && R.ReadBack(files) == [] && R.Ready(files, attempts) && R.Succeeds(attempts)
    requires Decoded(decode, R.Lines(attempts)) == AllEntries(sessions)
    requires s.read == Decoded(decode, R.ReadBack(R.Run(files, attempts, maxBytes)))
    requires Sorted(AllRecorded(sessions) + RecordedIn(s))
    requires forall x <- Samples(s.read), y <- Recorded(s.early) :: x.at < y.at
    requires s.cutoff <= since && forall e <- s.early + s.later :: e.cutoff <= since
    requires RollupsFit(Samples(s.read), RecordedIn(s))
    ensures var st := Run(Restore(Run(EMPTY, s.early), s.read, s.cutoff), s.later);
            var sorted := SortByTime(History(st, since));
            Analyzed(History(st, since)) ==
            if Short(sorted) then sorted
            else Filter(Visible(st, since), ReduceByMinute(AllRecorded(sessions) + RecordedIn(s)))
  {
    SortedParts(AllRecorded(sessions), RecordedIn(s));
    ReadBackIsSuffix(sessions, decode, files, attempts, maxBytes);
    LateHistoryAgrees(s, AllRecorded(sessions), since);
  }
}
