/** The power monitor: samples on an interval that follows what the program is doing, one hour of samples kept, and
    recordings that end on a timer, by hand, or at the first sample after their time. Reading the clock and taking a
    sample are the environment's; taking a sample may fail, and an interval may fire at any time while it is set. */
module PowerMonitor {
  import opened Options
  import opened PowerSummary
  import opened Sequences

  const FOREGROUND_MS: nat := 15000
  const IDLE_MS: nat := 60000
  const RECORDING_MS: nat := 5000
  const RETENTION_MS: nat := 3600000
  const DURATIONS := {5, 15, 30}

  datatype Active = Active(id: string, startedAt: int, endsAt: int, minutes: nat, snapshots: seq<Snapshot>)

  datatype Stored = Stored(id: string, minutes: nat, snapshots: seq<Snapshot>)

  datatype Sampling = Sampling(started: bool, timer: Option<nat>, interval: Option<nat>)

  datatype Recorder = Recorder(timer: Option<nat>, active: Option<Active>, latest: Option<Stored>)

  /** The timers that are live: intervals with their periods, and timeouts. */
  datatype Timers = Timers(intervals: map<nat, nat>, timeouts: set<nat>, next: nat)

  /** `taken` is every sample ever pushed; the program keeps only `recent`. */
  datatype Monitor = Monitor(
    recent: seq<Snapshot>,
    sampling: Sampling,
    recorder: Recorder,
    timers: Timers,
    taken: seq<Snapshot>)

  const NEW := Monitor([], Sampling(false, None, None), Recorder(None, None, None), Timers(map[], {}, 0), [])

  predicate Busy(w: Workload) {
    w.activeAgents > 0 || w.activeTerminals > 0 || w.activeBrowserSessions > 0 || w.browserRecordings > 0 || w.indexing
  }

  /** `normalSampleInterval`, for the latest sample that is kept. */
  function NormalInterval(kept: seq<Snapshot>): nat {
    if kept == [] then FOREGROUND_MS
    else
      var last := kept[|kept| - 1];
      if last.visible || Busy(last.workload) then FOREGROUND_MS else IDLE_MS
  }

  function WantedInterval(m: Monitor): nat {
    if m.recorder.active.Some? then RECORDING_MS else NormalInterval(m.recent)
  }

  function ClearInterval(m: Monitor): Monitor {
    m.(timers := if m.sampling.timer.Some? then m.timers.(intervals := m.timers.intervals - {m.sampling.timer.value})
                 else m.timers,
       sampling := Sampling(m.sampling.started, None, None))
  }

  function SetInterval(m: Monitor, period: nat): Monitor {
    var h := m.timers.next;
    m.(timers := m.timers.(intervals := m.timers.intervals[h := period], next := h + 1),
       sampling := Sampling(m.sampling.started, Some(h), Some(period)))
  }

  function ScheduleSamples(m: Monitor): Monitor {
    if !m.sampling.started then ClearInterval(m) else SetInterval(ClearInterval(m), WantedInterval(m))
  }

  function ClearTimeout(m: Monitor): Monitor {
    if m.recorder.timer.None? then m
    else m.(timers := m.timers.(timeouts := m.timers.timeouts - {m.recorder.timer.value}),
            recorder := m.recorder.(timer := None))
  }

  function Complete(m: Monitor): Monitor
    requires m.recorder.active.Some?
  {
    var active := m.recorder.active.value;
    var cleared := ClearTimeout(m);
    ScheduleSamples(
      cleared.(recorder := cleared.recorder.(active := None,
          latest := Some(Stored(active.id, active.minutes, active.snapshots)))))
  }

  function DropExpired(s: seq<Snapshot>, cutoff: int): seq<Snapshot> {
    if s != [] && s[0].at < cutoff then DropExpired(s[1..], cutoff) else s
  }

  function Keep(m: Monitor, x: Snapshot, now: int): Monitor {
    m.(recent := DropExpired(m.recent + [x], now - RETENTION_MS), taken := m.taken + [x])
  }

  function AddToActive(m: Monitor, x: Snapshot): Monitor
    requires m.recorder.active.Some?
  {
    var a := m.recorder.active.value;
    m.(recorder := m.recorder.(active := Some(a.(snapshots := a.snapshots + [x]))))
  }

  /** `sampleNow`, when the sample could be taken. */
  function Record(m: Monitor, x: Snapshot, now: int): Monitor {
    var kept := Keep(m, x, now);
    if kept.recorder.active.Some? then
      var added := AddToActive(kept, x);
      if now >= added.recorder.active.value.endsAt then Complete(added) else added
    else if kept.sampling.started && kept.sampling.interval != Some(NormalInterval([x])) then ScheduleSamples(kept)
    else kept
  }

  function SampleNow(m: Monitor, x: Option<Snapshot>, now: int): Monitor {
    if x.None? then m else Record(m, x.value, now)
  }

  function Start(m: Monitor, x: Option<Snapshot>, now: int): Monitor {
    if m.sampling.started then m else SampleNow(m.(sampling := m.sampling.(started := true)), x, now)
  }

  function Stop(m: Monitor): Monitor {
    var unstarted := m.(sampling := m.sampling.(started := false));
    ClearTimeout(if m.sampling.timer.Some? then ClearInterval(unstarted) else unstarted)
  }

  /** The part of `startRecording` up to its first sample. */
  function OpenRecording(m: Monitor, id: string, minutes: nat, startedAt: int): Monitor {
    ScheduleSamples(
      m.(recorder := m.recorder.(active := Some(Active(id, startedAt, startedAt + minutes * 60 * 1000, minutes, [])))))
  }

  function SetTimeout(m: Monitor): Monitor {
    var h := m.timers.next;
    m.(timers := m.timers.(timeouts := m.timers.timeouts + {h}, next := h + 1),
        recorder := m.recorder.(timer := Some(h)))
  }

  predicate Refuses(m: Monitor, minutes: nat) { m.recorder.active.Some? || minutes !in DURATIONS }

  /** The clock is read once when the recording starts and once by its first sample. */
  function StartRecording(m: Monitor, id: string, minutes: nat, startedAt: int, x: Option<Snapshot>,
      now: int): Monitor {
    if Refuses(m, minutes) then m
    else if x.None? then OpenRecording(m, id, minutes, startedAt)
    else SetTimeout(Record(OpenRecording(m, id, minutes, startedAt), x.value, now))
  }

  /** `extra` is the sample taken when the recording has none. */
  function StopRecording(m: Monitor, extra: Option<Snapshot>): Monitor {
    if m.recorder.active.None? then m
    else if m.recorder.active.value.snapshots != [] then Complete(m)
    else if extra.None? then m
    else Complete(AddToActive(m, extra.value))
  }

  datatype Event =
    | EvStart(x: Option<Snapshot>, now: int)
    | EvStop
    | EvInterval(handle: nat, x: Option<Snapshot>, now: int)
    | EvSample(x: Option<Snapshot>, now: int)
    | EvStartRecording(id: string, minutes: nat, startedAt: int, x: Option<Snapshot>, now: int)
    | EvStopRecording(extra: Option<Snapshot>)
    | EvTimeout(handle: nat, extra: Option<Snapshot>)

  function Step(m: Monitor, e: Event): Monitor {
    match e
    case EvStart(x, now) => Start(m, x, now)
    case EvStop => Stop(m)
    case EvInterval(handle, x, now) => if handle in m.timers.intervals then SampleNow(m, x, now) else m
    case EvSample(x, now) => SampleNow(m, x, now)
    case EvStartRecording(id, minutes, startedAt, x, now) => StartRecording(m, id, minutes, startedAt, x, now)
    case EvStopRecording(extra) => StopRecording(m, extra)
    case EvTimeout(handle, extra) =>
      if handle in m.timers.timeouts
      then StopRecording(m.(timers := m.timers.(timeouts := m.timers.timeouts - {handle})), extra)
      else m
  }

  function Run(m: Monitor, events: seq<Event>): Monitor
    decreases |events|
  {
    if events == [] then m else Run(Step(m, events[0]), events[1..])
  }

  // ----- one interval -----

  /** The only live interval is the one in the field, with the period in the field. */
  ghost predicate OneInterval(m: Monitor) {
    && m.timers.intervals == (if m.sampling.timer.Some? && m.sampling.interval.Some?
                              then map[m.sampling.timer.value := m.sampling.interval.value] else map[])
    && (m.sampling.timer.Some? <==> m.sampling.interval.Some?)
    && (m.sampling.timer.Some? ==> m.sampling.started)
  }

  lemma ScheduleKeepsOneInterval(m: Monitor)
    requires m.timers.intervals == (if m.sampling.timer.Some? && m.sampling.interval.Some?
                                    then map[m.sampling.timer.value := m.sampling.interval.value] else map[])
    requires m.sampling.timer.Some? <==> m.sampling.interval.Some?
    ensures OneInterval(ScheduleSamples(m))
    ensures m.sampling.started ==> ScheduleSamples(m).sampling.interval == Some(WantedInterval(m))
  {
    assert ClearInterval(m).timers.intervals == map[];
  }

  lemma RecordKeepsOneInterval(m: Monitor, x: Snapshot, now: int)
    requires OneInterval(m)
    ensures OneInterval(Record(m, x, now))
  {
    var kept := Keep(m, x, now);
    if kept.recorder.active.Some? {
      CompleteKeepsOneInterval(AddToActive(kept, x));
    } else {
      ScheduleKeepsOneInterval(kept);
    }
  }

  lemma CompleteKeepsOneInterval(m: Monitor)
    requires OneInterval(m) && m.recorder.active.Some?
    ensures OneInterval(Complete(m)) && Complete(m).recorder.active.None?
    ensures m.sampling.started ==> Complete(m).sampling.interval == Some(NormalInterval(m.recent))
  {
    var a, cleared := m.recorder.active.value, ClearTimeout(m);
    ScheduleKeepsOneInterval(
      cleared.(recorder := cleared.recorder.(active := None, latest := Some(Stored(a.id, a.minutes, a.snapshots)))));
  }

  lemma StartRecordingKeepsOneInterval(m: Monitor, id: string, minutes: nat, startedAt: int, x: Option<Snapshot>,
      now: int)
    requires OneInterval(m)
    ensures OneInterval(StartRecording(m, id, minutes, startedAt, x, now))
  {
    ScheduleKeepsOneInterval(
      m.(recorder := m.recorder.(active := Some(Active(id, startedAt, startedAt + minutes * 60 * 1000, minutes, [])))));
    if !Refuses(m, minutes) && x.Some? {
      RecordKeepsOneInterval(OpenRecording(m, id, minutes, startedAt), x.value, now);
    }
  }

  lemma StopRecordingKeepsOneInterval(m: Monitor, extra: Option<Snapshot>)
    requires OneInterval(m)
    ensures OneInterval(StopRecording(m, extra))
  {
    if m.recorder.active.Some? {
      CompleteKeepsOneInterval(m);
      if extra.Some? {
        CompleteKeepsOneInterval(AddToActive(m, extra.value));
      }
    }
  }

  lemma StartKeepsOneInterval(m: Monitor, x: Option<Snapshot>, now: int)
    requires OneInterval(m)
    ensures OneInterval(Start(m, x, now))
  {
    if !m.sampling.started && x.Some? {
      RecordKeepsOneInterval(m.(sampling := m.sampling.(started := true)), x.value, now);
    }
  }

  lemma StepKeepsOneInterval(m: Monitor, e: Event)
    requires OneInterval(m)
    ensures OneInterval(Step(m, e))
  {
    match e
    case EvStart(x, now) => StartKeepsOneInterval(m, x, now);
    case EvStop =>
    case EvInterval(_, x, now) => if x.Some? { RecordKeepsOneInterval(m, x.value, now); }
    case EvSample(x, now) => if x.Some? { RecordKeepsOneInterval(m, x.value, now); }
    case EvStartRecording(id, minutes, startedAt, x, now) =>
      StartRecordingKeepsOneInterval(m, id, minutes, startedAt, x, now);
    case EvStopRecording(extra) => StopRecordingKeepsOneInterval(m, extra);
    case EvTimeout(handle, extra) =>
      StopRecordingKeepsOneInterval(m.(timers := m.timers.(timeouts := m.timers.timeouts - {handle})), extra);
  }

  /** Over any run, at most one interval is live, it is the one the monitor would clear, and a stopped monitor has
      none. */
  lemma {:induction false} RunKeepsOneInterval(m: Monitor, events: seq<Event>)
    requires OneInterval(m)
    ensures OneInterval(Run(m, events)) && |Run(m, events).timers.intervals| <= 1
    decreases |events|
  {
    if events != [] {
      StepKeepsOneInterval(m, events[0]);
      RunKeepsOneInterval(Step(m, events[0]), events[1..]);
    }
  }

  // ----- the right interval -----

  /** While the monitor runs, the interval is the one its mode and its latest sample call for. */
  predicate RightInterval(m: Monitor) { m.sampling.started ==> m.sampling.interval == Some(WantedInterval(m)) }

  /** The sample the event takes, and the time it is taken at. */
  function SampleOf(e: Event): Option<Snapshot> {
    match e
    case EvStart(x, _) => x
    case EvInterval(_, x, _) => x
    case EvSample(x, _) => x
    case EvStartRecording(_, _, _, x, _) => x
    case _ => None
  }

  function NowOf(e: Event): int
    requires SampleOf(e).Some?
  {
    e.now
  }

  /** What is kept ends with the newest sample, unless nothing is kept. */
  lemma {:induction false} LatestIsKept(s: seq<Snapshot>, x: Snapshot, cutoff: int)
    ensures var kept := DropExpired(s + [x], cutoff); kept != [] ==> kept[|kept| - 1] == x
  {
    if s != [] && s[0].at < cutoff {
      assert (s + [x])[1..] == s[1..] + [x];
      LatestIsKept(s[1..], x, cutoff);
    } else if s == [] {
      assert s + [x] == [x];
      assert [x][1..] == [];
    }
  }

  /** A sample older than an hour, like all before it, finds the idle interval set and calls for it. Nothing is kept
      that would call for it again. */
  predicate IdlesOnExpired(m: Monitor, x: Snapshot, now: int) {
    && m.sampling.started && m.recorder.active.None? && m.sampling.interval == Some(IDLE_MS)
    && NormalInterval([x]) == IDLE_MS
    && DropExpired(m.recent + [x], now - RETENTION_MS) == []
  }

  lemma RecordKeepsRight(m: Monitor, x: Snapshot, now: int)
    requires OneInterval(m)
    requires RightInterval(m) || m.sampling.interval.None?
    requires RightInterval(m) || m.recorder.active.None? || now >= m.recorder.active.value.endsAt
    ensures RightInterval(Record(m, x, now)) <==> !IdlesOnExpired(m, x, now)
  {
    var kept := Keep(m, x, now);
    LatestIsKept(m.recent, x, now - RETENTION_MS);
    assert kept.recent != [] ==> NormalInterval(kept.recent) == NormalInterval([x]);
    if kept.recorder.active.Some? {
      CompleteKeepsOneInterval(AddToActive(kept, x));
    } else {
      ScheduleKeepsOneInterval(kept);
    }
  }

  /** Starting the monitor sets no interval if its first sample cannot be taken, or if a recording is under way that
      this sample does not end. */
  predicate StartsWithoutInterval(m: Monitor, e: Event) {
    && e.EvStart? && !m.sampling.started
    && (e.x.None? || (m.recorder.active.Some? && e.now < m.recorder.active.value.endsAt))
  }

  /** A running monitor takes such an expired sample. */
  predicate TakesExpired(m: Monitor, e: Event) {
    match e
    case EvInterval(handle, x, now) => handle in m.timers.intervals && x.Some? && IdlesOnExpired(m, x.value, now)
    case EvSample(x, now) => x.Some? && IdlesOnExpired(m, x.value, now)
    case _ => false
  }

  lemma StartRight(m: Monitor, x: Option<Snapshot>, now: int)
    requires OneInterval(m) && RightInterval(m)
    ensures RightInterval(Start(m, x, now)) <==> !StartsWithoutInterval(m, EvStart(x, now))
  {
    if !m.sampling.started && x.Some? {
      var on := m.(sampling := m.sampling.(started := true));
      assert on.sampling.interval.None?;
      if on.recorder.active.None? || now >= on.recorder.active.value.endsAt {
        RecordKeepsRight(on, x.value, now);
      }
    }
  }

  lemma StartRecordingRight(m: Monitor, id: string, minutes: nat, startedAt: int, x: Option<Snapshot>, now: int)
    requires OneInterval(m) && RightInterval(m)
    ensures RightInterval(StartRecording(m, id, minutes, startedAt, x, now))
  {
    if !Refuses(m, minutes) {
      var recording := m.(recorder := m.recorder.(active :=
        Some(Active(id, startedAt, startedAt + minutes * 60 * 1000, minutes, []))));
      ScheduleKeepsOneInterval(recording);
      if x.Some? {
        RecordKeepsRight(OpenRecording(m, id, minutes, startedAt), x.value, now);
      }
    }
  }

  lemma StopRecordingRight(m: Monitor, extra: Option<Snapshot>)
    requires OneInterval(m) && RightInterval(m)
    ensures RightInterval(StopRecording(m, extra))
  {
    if m.recorder.active.Some? {
      CompleteKeepsOneInterval(m);
      if extra.Some? {
        CompleteKeepsOneInterval(AddToActive(m, extra.value));
      }
    }
  }

  /** The interval stays right through every step but two: starting the monitor while a recording is under way or when
      the first sample fails, and taking an expired idle sample with nothing newer. */
  lemma IntervalStaysRightExactly(m: Monitor, e: Event)
    requires OneInterval(m) && RightInterval(m)
    ensures RightInterval(Step(m, e)) <==> !StartsWithoutInterval(m, e) && !TakesExpired(m, e)
  {
    match e
    case EvStart(x, now) => StartRight(m, x, now);
    case EvStop =>
    case EvInterval(_, x, now) => if x.Some? { RecordKeepsRight(m, x.value, now); }
    case EvSample(x, now) => if x.Some? { RecordKeepsRight(m, x.value, now); }
    case EvStartRecording(id, minutes, startedAt, x, now) => StartRecordingRight(m, id, minutes, startedAt, x, now);
    case EvStopRecording(extra) => StopRecordingRight(m, extra);
    case EvTimeout(handle, extra) =>
      StopRecordingRight(m.(timers := m.timers.(timeouts := m.timers.timeouts - {handle})), extra);
  }

  predicate WellStarted(m: Monitor, events: seq<Event>)
    decreases |events|
  {
    events == []
    || (!StartsWithoutInterval(m, events[0]) && !TakesExpired(m, events[0])
        && WellStarted(Step(m, events[0]), events[1..]))
  }

  /** Over such runs a started monitor samples every five seconds while it records; otherwise every minute exactly if
      at its latest sample the window was hidden and nothing was going on, and else every fifteen seconds. */
  lemma IntervalFollowsDemand(events: seq<Event>)
    requires WellStarted(NEW, events)
    ensures
      var m := Run(NEW, events);
      m.sampling.started ==>
        if m.recorder.active.Some? then m.sampling.interval == Some(5000)
        else if m.recent == [] then m.sampling.interval == Some(15000)
        else
          var last := m.recent[|m.recent| - 1];
          var w := last.workload;
          var quiet := !last.visible && !w.indexing
                       && w.activeAgents == w.activeTerminals == w.activeBrowserSessions == w.browserRecordings == 0;
          m.sampling.interval == Some(if quiet then 60000 else 15000)
  {
    IntervalIsAlwaysRight(NEW, events);
  }

  lemma {:induction false} IntervalIsAlwaysRight(m: Monitor, events: seq<Event>)
    requires OneInterval(m) && RightInterval(m) && WellStarted(m, events)
    ensures RightInterval(Run(m, events))
    decreases |events|
  {
    if events != [] {
      StepKeepsOneInterval(m, events[0]);
      IntervalStaysRightExactly(m, events[0]);
      IntervalIsAlwaysRight(Step(m, events[0]), events[1..]);
    }
  }

  // ----- the timer of a recording -----

  /** The live timeouts are the one that will end the recording under way, or none. */
  predicate OneTimeout(m: Monitor) {
    && m.timers.timeouts == (if m.recorder.timer.Some? then {m.recorder.timer.value} else {})
    && (m.recorder.timer.Some? ==> m.recorder.active.Some? && m.recorder.active.value.snapshots != [])
  }

  /** The first sample of a recording is taken at or after its end: the clock jumped between the two readings. */
  predicate Crosses(m: Monitor, e: Event) {
    e.EvStartRecording? && !Refuses(m, e.minutes) && e.x.Some? && e.now >= e.startedAt + e.minutes * 60 * 1000
  }

  lemma CompleteKeepsOneTimeout(m: Monitor)
    requires m.recorder.active.Some?
    requires m.timers.timeouts <= (if m.recorder.timer.Some? then {m.recorder.timer.value} else {})
    ensures OneTimeout(Complete(m)) && Complete(m).recorder.timer.None?
  {
  }

  lemma RecordKeepsOneTimeout(m: Monitor, x: Snapshot, now: int)
    requires OneTimeout(m)
    ensures OneTimeout(Record(m, x, now))
  {
    var kept := Keep(m, x, now);
    if kept.recorder.active.Some? {
      CompleteKeepsOneTimeout(AddToActive(kept, x));
    }
  }

  lemma StartRecordingTimes(m: Monitor, e: Event)
    requires OneTimeout(m) && e.EvStartRecording?
    ensures OneTimeout(Step(m, e)) <==> !Crosses(m, e)
  {
    if !Refuses(m, e.minutes) && e.x.Some? {
      var begun := OpenRecording(m, e.id, e.minutes, e.startedAt);
      var kept := Keep(begun, e.x.value, e.now);
      CompleteKeepsOneTimeout(AddToActive(kept, e.x.value));
    }
  }

  lemma StopRecordingKeepsOneTimeout(m: Monitor, extra: Option<Snapshot>)
    requires OneTimeout(m)
    ensures OneTimeout(StopRecording(m, extra))
  {
    if m.recorder.active.Some? {
      CompleteKeepsOneTimeout(m);
      if extra.Some? {
        CompleteKeepsOneTimeout(AddToActive(m, extra.value));
      }
    }
  }

  /** A live timeout belongs to the recording under way, and ends it when it fires, after every step but one: starting
      a recording whose first sample is already past its end. */
  lemma TimeoutsStayOwnedExactly(m: Monitor, e: Event)
    requires OneTimeout(m)
    ensures OneTimeout(Step(m, e)) <==> !Crosses(m, e)
    ensures e.EvTimeout? && e.handle in m.timers.timeouts ==>
              m.recorder.active.Some? && Step(m, e).recorder.active.None?
  {
    match e
    case EvStart(x, now) =>
      if !m.sampling.started && x.Some? {
        RecordKeepsOneTimeout(m.(sampling := m.sampling.(started := true)), x.value, now);
      }
    case EvStop =>
    case EvInterval(_, x, now) => if x.Some? { RecordKeepsOneTimeout(m, x.value, now); }
    case EvSample(x, now) => if x.Some? { RecordKeepsOneTimeout(m, x.value, now); }
    case EvStartRecording(_, _, _, _, _) => StartRecordingTimes(m, e);
    case EvStopRecording(extra) => StopRecordingKeepsOneTimeout(m, extra);
    case EvTimeout(handle, extra) =>
      if handle in m.timers.timeouts {
        CompleteKeepsOneTimeout(m.(timers := m.timers.(timeouts := m.timers.timeouts - {handle})));
      }
  }

  predicate NeverCrosses(m: Monitor, events: seq<Event>)
    decreases |events|
  {
    events == [] || (!Crosses(m, events[0]) && NeverCrosses(Step(m, events[0]), events[1..]))
  }

  lemma {:induction false} RunKeepsOneTimeout(m: Monitor, events: seq<Event>)
    requires OneTimeout(m) && NeverCrosses(m, events)
    ensures OneTimeout(Run(m, events))
    decreases |events|
  {
    if events != [] {
      TimeoutsStayOwnedExactly(m, events[0]);
      RunKeepsOneTimeout(Step(m, events[0]), events[1..]);
    }
  }

  /** A recording that crosses its end leaves a timeout behind, which ends the next recording whenever it fires. */
  lemma LeftoverTimeoutEndsTheNext(m: Monitor, first: Event, second: Event)
    requires OneTimeout(m) && Crosses(m, first)
    requires second.EvStartRecording? && second.minutes in DURATIONS && second.x.Some?
        && !Crosses(Step(m, first), second)
    ensures
      var crossed := Step(m, first);
      var leftover := crossed.recorder.timer;
      && leftover.Some?
      && Step(Step(crossed, second), EvTimeout(leftover.value, None)).recorder.latest
         == Some(Stored(second.id, second.minutes, [second.x.value]))
  {
    var crossed := Step(m, first);
    var begun := OpenRecording(m, first.id, first.minutes, first.startedAt);
    var added := AddToActive(Keep(begun, first.x.value, first.now), first.x.value);
    assert Complete(added).recorder.active.None?;
    assert crossed.recorder.active.None? && crossed.recorder.timer.value in crossed.timers.timeouts;
    var again := OpenRecording(crossed, second.id, second.minutes, second.startedAt);
    assert again.recorder.active.value.snapshots + [second.x.value] == [second.x.value];
  }

  // ----- an hour of samples -----

  function Since(cutoff: int): Snapshot -> bool { (x: Snapshot) => x.at >= cutoff }

  lemma {:induction false} FilterKeepsAll(s: seq<Snapshot>, cutoff: int)
    ensures |Filter(Since(cutoff), s)| <= |s|
    ensures Filter(Since(cutoff), s) == s <==> forall x <- s :: x.at >= cutoff
  {
    if s != [] {
      FilterKeepsAll(s[1..], cutoff);
      assert s == [s[0]] + s[1..];
      if s[0].at < cutoff {
        assert s[0] in s;
      }
    }
  }

  /** No expired sample behind one that is not. */
  ghost predicate ExpiredFirst(s: seq<Snapshot>, cutoff: int) {
    forall i, j :: 0 <= i < j < |s| && s[i].at >= cutoff ==> s[j].at >= cutoff
  }

  /** Dropping expired samples from the front is filtering exactly when no expired sample hides behind a fresh one. */
  lemma {:induction false} DroppingIsFilteringExactly(s: seq<Snapshot>, cutoff: int)
    ensures DropExpired(s, cutoff) == Filter(Since(cutoff), s) <==> ExpiredFirst(s, cutoff)
  {
    if s != [] {
      if s[0].at < cutoff {
        DroppingIsFilteringExactly(s[1..], cutoff);
        assert ExpiredFirst(s[1..], cutoff) ==> ExpiredFirst(s, cutoff) by {
          if ExpiredFirst(s[1..], cutoff) {
            forall i, j | 0 <= i < j < |s| && s[i].at >= cutoff ensures s[j].at >= cutoff {
              assert s[1..][i - 1] == s[i] && s[1..][j - 1] == s[j];
            }
          }
        }
      } else {
        FilterKeepsAll(s, cutoff);
        assert (forall x <- s :: x.at >= cutoff) <==> ExpiredFirst(s, cutoff) by {
          if ExpiredFirst(s, cutoff) {
            forall x <- s ensures x.at >= cutoff {
              var j :| 0 <= j < |s| && s[j] == x;
            }
          }
        }
      }
    }
  }

  ghost predicate InOrder(s: seq<Snapshot>) { forall i, j :: 0 <= i < j < |s| ==> s[i].at <= s[j].at }

  /** The samples kept are those of the last hour, as of the last sample. */
  ghost predicate KeepsLastHour(m: Monitor, now: int) {
    InOrder(m.taken) && m.recent == Filter(Since(now - RETENTION_MS), m.taken)
  }

  lemma {:induction false} FilterTwice(s: seq<Snapshot>, a: int, b: int)
    requires a <= b
    ensures Filter(Since(b), Filter(Since(a), s)) == Filter(Since(b), s)
  {
    if s != [] {
      FilterTwice(s[1..], a, b);
      var head := if Since(a)(s[0]) then [s[0]] else [];
      FilterConcat(Since(b), head, Filter(Since(a), s[1..]));
      if Since(a)(s[0]) {
        assert Filter(Since(b), [s[0]]) == (if Since(b)(s[0]) then [s[0]] else []) + Filter(Since(b), [s[0]][1..]);
      }
    }
  }

  lemma {:induction false} FilterInOrder(s: seq<Snapshot>, cutoff: int)
    requires InOrder(s)
    ensures InOrder(Filter(Since(cutoff), s))
  {
    if s != [] {
      FilterInOrder(s[1..], cutoff);
      FilterHas(Since(cutoff), s[1..]);
      assert forall x <- s[1..] :: s[0].at <= x.at;
    }
  }

  lemma AppendInOrder(recent: seq<Snapshot>, taken: seq<Snapshot>, x: Snapshot)
    requires InOrder(recent) && InOrder(taken + [x]) && forall y <- recent :: y in taken
    ensures InOrder(recent + [x])
  {
    forall y <- taken ensures y.at <= x.at {
      var i :| 0 <= i < |taken| && taken[i] == y;
      assert (taken + [x])[i].at <= (taken + [x])[|taken|].at;
    }
  }

  lemma KeepKeepsLastHour(m: Monitor, x: Snapshot, before: int, now: int)
    requires KeepsLastHour(m, before) && before <= now && InOrder(m.taken + [x])
    ensures KeepsLastHour(Keep(m, x, now), now)
  {
    var a, b := before - RETENTION_MS, now - RETENTION_MS;
    FilterInOrder(m.taken, a);
    FilterHas(Since(a), m.taken);
    AppendInOrder(m.recent, m.taken, x);
    DroppingIsFilteringExactly(m.recent + [x], b);
    FilterConcat(Since(b), m.recent, [x]);
    FilterTwice(m.taken, a, b);
    FilterConcat(Since(b), m.taken, [x]);
  }

  lemma RecordOnlyKeeps(m: Monitor, x: Snapshot, now: int)
    ensures Record(m, x, now).recent == Keep(m, x, now).recent && Record(m, x, now).taken == m.taken + [x]
  {
  }

  lemma StopOnlyEnds(m: Monitor, extra: Option<Snapshot>)
    ensures StopRecording(m, extra).recent == m.recent && StopRecording(m, extra).taken == m.taken
  {
  }

  /** Whether the event takes a sample, which it does unless it is refused or the sample fails. */
  predicate Takes(m: Monitor, e: Event) {
    match e
    case EvStart(x, _) => x.Some? && !m.sampling.started
    case EvInterval(handle, x, _) => x.Some? && handle in m.timers.intervals
    case EvSample(x, _) => x.Some?
    case EvStartRecording(_, minutes, _, x, _) => x.Some? && !Refuses(m, minutes)
    case _ => false
  }

  lemma StepTakes(m: Monitor, e: Event)
    ensures Takes(m, e) ==>
      && Step(m, e).taken == m.taken + [SampleOf(e).value]
      && Step(m, e).recent == DropExpired(m.recent + [SampleOf(e).value], NowOf(e) - RETENTION_MS)
    ensures !Takes(m, e) ==> Step(m, e).taken == m.taken && Step(m, e).recent == m.recent
  {
    match e
    case EvStart(x, now) =>
      if Takes(m, e) { RecordOnlyKeeps(m.(sampling := m.sampling.(started := true)), x.value, now); }
    case EvStop =>
    case EvInterval(_, x, now) => if x.Some? { RecordOnlyKeeps(m, x.value, now); }
    case EvSample(x, now) => if x.Some? { RecordOnlyKeeps(m, x.value, now); }
    case EvStartRecording(id, minutes, startedAt, x, now) =>
      if Takes(m, e) { RecordOnlyKeeps(OpenRecording(m, id, minutes, startedAt), x.value, now); }
    case EvStopRecording(extra) => StopOnlyEnds(m, extra);
    case EvTimeout(handle, extra) =>
      StopOnlyEnds(m.(timers := m.timers.(timeouts := m.timers.timeouts - {handle})), extra);
  }

  /** The clock and the capture times never go back. */
  ghost predicate Steady(m: Monitor, now: int, events: seq<Event>)
    decreases |events|
  {
    events == []
    || (if Takes(m, events[0])
        then InOrder(m.taken + [SampleOf(events[0]).value]) && now <= NowOf(events[0])
             && Steady(Step(m, events[0]), NowOf(events[0]), events[1..])
        else Steady(Step(m, events[0]), now, events[1..]))
  }

  function LastNow(m: Monitor, now: int, events: seq<Event>): int
    decreases |events|
  {
    if events == [] then now
    else LastNow(Step(m, events[0]), if Takes(m, events[0]) then NowOf(events[0]) else now, events[1..])
  }

  lemma StepKeepsLastHour(m: Monitor, before: int, e: Event)
    requires KeepsLastHour(m, before)
    requires Takes(m, e) ==> InOrder(m.taken + [SampleOf(e).value]) && before <= NowOf(e)
    ensures KeepsLastHour(Step(m, e), if Takes(m, e) then NowOf(e) else before)
  {
    StepTakes(m, e);
    if Takes(m, e) {
      KeepKeepsLastHour(m, SampleOf(e).value, before, NowOf(e));
    }
  }

  /** Over any run whose times never go back, the recent samples are all samples ever taken, filtered to the hour
      before the last one was. */
  lemma {:induction false} RecentIsLastHour(m: Monitor, now: int, events: seq<Event>)
    requires KeepsLastHour(m, now) && Steady(m, now, events)
    ensures KeepsLastHour(Run(m, events), LastNow(m, now, events))
    decreases |events|
  {
    if events != [] {
      StepKeepsLastHour(m, now, events[0]);
      RecentIsLastHour(Step(m, events[0]), if Takes(m, events[0]) then NowOf(events[0]) else now, events[1..]);
    }
  }

  // ----- what a recording holds -----

  /** A step while a recording is under way and stays so adds to it exactly what the step samples. */
  lemma StepCollects(m: Monitor, e: Event)
    requires m.recorder.active.Some? && Step(m, e).recorder.active.Some?
    ensures
      var r := Step(m, e);
      var a := m.recorder.active.value;
      && m.taken <= r.taken
      && r.recorder.active == Some(a.(snapshots := a.snapshots + r.taken[|m.taken|..]))
  {
    var a := m.recorder.active.value;
    StepTakes(m, e);
    assert m.taken[|m.taken|..] == [] && a.snapshots + [] == a.snapshots;
    if Takes(m, e) {
      assert (m.taken + [SampleOf(e).value])[|m.taken|..] == [SampleOf(e).value];
    }
  }

  /** The sample `stopRecording` would take for a recording that has none. */
  function ExtraOf(e: Event): Option<Snapshot> {
    match e
    case EvStopRecording(extra) => extra
    case EvTimeout(_, extra) => extra
    case _ => None
  }

  /** A step that ends the recording stores it with the sample the step took; with one extra sample if it had none. */
  lemma StepFinishes(m: Monitor, e: Event)
    requires m.recorder.active.Some? && Step(m, e).recorder.active.None?
    ensures
      var r := Step(m, e);
      var a := m.recorder.active.value;
      && m.taken <= r.taken
      && r.recorder.latest.Some?
      && r.recorder.latest.value.id == a.id && r.recorder.latest.value.minutes == a.minutes
      && var all := a.snapshots + r.taken[|m.taken|..];
         if all != [] then r.recorder.latest.value.snapshots == all
         else ExtraOf(e).Some? && r.recorder.latest.value.snapshots == [ExtraOf(e).value]
  {
    var a := m.recorder.active.value;
    StepTakes(m, e);
    assert m.taken[|m.taken|..] == [] && a.snapshots + [] == a.snapshots;
    if Takes(m, e) {
      assert (m.taken + [SampleOf(e).value])[|m.taken|..] == [SampleOf(e).value];
    }
  }

  /** A recording is under way from before the first event to after the last. */
  predicate Recording(m: Monitor, events: seq<Event>)
    decreases |events|
  {
    m.recorder.active.Some? && (events == [] || Recording(Step(m, events[0]), events[1..]))
  }

  lemma {:induction false} RunCollects(m: Monitor, events: seq<Event>)
    requires Recording(m, events)
    ensures
      var r := Run(m, events);
      var a := m.recorder.active.value;
      && m.taken <= r.taken
      && r.recorder.active == Some(a.(snapshots := a.snapshots + r.taken[|m.taken|..]))
    decreases |events|
  {
    var a := m.recorder.active.value;
    if events == [] {
      assert a.snapshots + m.taken[|m.taken|..] == a.snapshots;
    } else {
      var n := Step(m, events[0]);
      StepCollects(m, events[0]);
      RunCollects(n, events[1..]);
      var r := Run(n, events[1..]);
      CollectsCompose(a.snapshots, m.taken, n.taken, r.taken);
    }
  }

  lemma CollectsCompose(s: seq<Snapshot>, a: seq<Snapshot>, b: seq<Snapshot>, c: seq<Snapshot>)
    requires a <= b <= c
    ensures (s + b[|a|..]) + c[|b|..] == s + c[|a|..]
  {
    assert b == c[..|b|];
    assert c[|a|..] == c[|a|..|b|] + c[|b|..];
  }

  lemma SuffixJoin(a: seq<Snapshot>, b: seq<Snapshot>, c: seq<Snapshot>)
    requires a <= b <= c
    ensures b[|a|..] + c[|b|..] == c[|a|..]
    ensures c[|a|..] == [] <==> c == a
  {
    assert b == c[..|b|];
    assert a == c[..|a|] && c == c[..|a|] + c[|a|..];
  }

  lemma OpeningCollects(m: Monitor, id: string, minutes: nat, startedAt: int, x: Option<Snapshot>, now: int)
    requires !Refuses(m, minutes)
    ensures
      var r := StartRecording(m, id, minutes, startedAt, x, now);
      var own := if x.Some? then [x.value] else [];
      && r.taken == m.taken + own
      && (if x.Some? && now >= startedAt + minutes * 60 * 1000
          then r.recorder.active.None? && r.recorder.latest == Some(Stored(id, minutes, own))
          else r.recorder.active == Some(Active(id, startedAt, startedAt + minutes * 60 * 1000, minutes, own)))
  {
    var begun := OpenRecording(m, id, minutes, startedAt);
    if x.Some? {
      assert begun.recorder.active.value.snapshots + [x.value] == [x.value];
    }
  }

  /** A finished recording is, under its own id and duration, exactly the contiguous run of samples taken from the
      call of `startRecording` to its end; never empty, because one is taken if there was none. */
  lemma RecordingIsContiguous(
    m: Monitor, id: string, minutes: nat, startedAt: int, x: Option<Snapshot>, now: int, events: seq<Event>,
        last: Event)
    requires !Refuses(m, minutes)
    requires Recording(StartRecording(m, id, minutes, startedAt, x, now), events)
    requires Step(Run(StartRecording(m, id, minutes, startedAt, x, now), events), last).recorder.active.None?
    ensures
      var r := Step(Run(StartRecording(m, id, minutes, startedAt, x, now), events), last);
      && m.taken <= r.taken
      && r.recorder.latest.Some?
      && r.recorder.latest.value.id == id && r.recorder.latest.value.minutes == minutes
      && if r.taken != m.taken then r.recorder.latest.value.snapshots == r.taken[|m.taken|..]
         else ExtraOf(last).Some? && r.recorder.latest.value.snapshots == [ExtraOf(last).value]
  {
    var begun := StartRecording(m, id, minutes, startedAt, x, now);
    var late := Run(begun, events);
    OpeningCollects(m, id, minutes, startedAt, x, now);
    RunCollects(begun, events);
    StepFinishes(late, last);
    assert begun.recorder.active.value.snapshots == begun.taken[|m.taken|..];
    SuffixJoin(m.taken, begun.taken, late.taken);
    SuffixJoin(m.taken, late.taken, Step(late, last).taken);
  }

  /** The monitor. The environment's timers are a field too, so that what is left running can be seen. */
  class PowerMeasurementMonitor {
    var recentSnapshots: seq<Snapshot>
    var sampleTimer: Option<nat>
    var recordingTimer: Option<nat>
    var scheduledIntervalMs: Option<nat>
    var activeRecording: Option<Active>
    var latestRecording: Option<Stored>
    var started: bool
    var timers: Timers
    ghost var taken: seq<Snapshot>

    constructor ()
      ensures View() == NEW
    {
      recentSnapshots, sampleTimer, recordingTimer, scheduledIntervalMs := [], None, None, None;
      activeRecording, latestRecording, started := None, None, false;
      timers, taken := Timers(map[], {}, 0), [];
    }

    ghost function View(): Monitor
      reads this
    {
      Monitor(recentSnapshots, Sampling(started, sampleTimer, scheduledIntervalMs),
              Recorder(recordingTimer, activeRecording, latestRecording), timers, taken)
    }

    method ScheduleNextSamples()
      modifies `timers, `sampleTimer, `scheduledIntervalMs
      ensures View() == ScheduleSamples(old(View()))
    {
      if sampleTimer.Some? {
        timers := timers.(intervals := timers.intervals - {sampleTimer.value});
        sampleTimer := None;
      }
      scheduledIntervalMs := None;
      if !started {
        return;
      }
      var period := if activeRecording.None? then NormalInterval(recentSnapshots) else RECORDING_MS;
      scheduledIntervalMs := Some(period);
      sampleTimer := Some(timers.next);
      timers := timers.(intervals := timers.intervals[timers.next := period], next := timers.next + 1);
    }

    method ClearRecordingTimer()
      modifies `timers, `recordingTimer
      ensures View() == ClearTimeout(old(View()))
    {
      if recordingTimer.Some? {
        timers := timers.(timeouts := timers.timeouts - {recordingTimer.value});
        recordingTimer := None;
      }
    }

    method CompleteRecording()
      requires activeRecording.Some?
      modifies this
      ensures View() == Complete(old(View()))
    {
      var active := activeRecording.value;
      ClearRecordingTimer();
      latestRecording := Some(Stored(active.id, active.minutes, active.snapshots));
      activeRecording := None;
      ScheduleNextSamples();
    }

    /** The shifting loop over the recent samples. */
    method DropExpiredSamples(cutoff: int)
      modifies `recentSnapshots
      ensures View() == old(View()).(recent := DropExpired(old(recentSnapshots), cutoff))
    {
      while recentSnapshots != [] && recentSnapshots[0].at < cutoff
        invariant DropExpired(recentSnapshots, cutoff) == DropExpired(old(recentSnapshots), cutoff)
        decreases |recentSnapshots|
      {
        recentSnapshots := recentSnapshots[1..];
      }
    }

    method SampleAt(x: Snapshot, now: int)
      modifies this
      ensures View() == Record(old(View()), x, now)
    {
      recentSnapshots := recentSnapshots + [x];
      taken := taken + [x];
      DropExpiredSamples(now - RETENTION_MS);
      if activeRecording.Some? {
        var a := activeRecording.value;
        activeRecording := Some(a.(snapshots := a.snapshots + [x]));
        if now >= a.endsAt {
          CompleteRecording();
        }
        return;
      }
      if started && scheduledIntervalMs != Some(NormalInterval([x])) {
        ScheduleNextSamples();
      }
    }

    method StartMonitor(x: Option<Snapshot>, now: int)
      modifies this
      ensures View() == Start(old(View()), x, now)
    {
      if started {
        return;
      }
      started := true;
      if x.Some? {
        SampleAt(x.value, now);
      }
    }

    method StopMonitor()
      modifies this
      ensures View() == Stop(old(View()))
    {
      started := false;
      if sampleTimer.Some? {
        timers := timers.(intervals := timers.intervals - {sampleTimer.value});
        sampleTimer, scheduledIntervalMs := None, None;
      }
      ClearRecordingTimer();
    }

    method BeginRecording(id: string, minutes: nat, startedAt: int, x: Option<Snapshot>, now: int) returns (ok: bool)
      modifies this
      ensures ok <==> !Refuses(old(View()), minutes) && x.Some?
      ensures View() == StartRecording(old(View()), id, minutes, startedAt, x, now)
    {
      if activeRecording.Some? || minutes !in DURATIONS {
        return false;
      }
      activeRecording := Some(Active(id, startedAt, startedAt + minutes * 60 * 1000, minutes, []));
      ScheduleNextSamples();
      if x.None? {
        return false;
      }
      SampleAt(x.value, now);
      recordingTimer := Some(timers.next);
      timers := timers.(timeouts := timers.timeouts + {timers.next}, next := timers.next + 1);
      return true;
    }

    method EndRecording(extra: Option<Snapshot>) returns (recording: Option<Stored>)
      modifies this
      ensures View() == StopRecording(old(View()), extra)
      ensures recording == if old(activeRecording).Some? && activeRecording.None? then latestRecording else None
    {
      if activeRecording.None? {
        return None;
      }
      var a := activeRecording.value;
      if a.snapshots == [] {
        if extra.None? {
          return None;
        }
        activeRecording := Some(a.(snapshots := a.snapshots + [extra.value]));
      }
      CompleteRecording();
      return latestRecording;
    }
  }
}
