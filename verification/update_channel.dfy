/** The update channel coordinator: one promise chain on which feed operations (checks and downloads) and
    channel switches run one at a time. A requested switch revokes install eligibility at once, but is
    persisted only when its turn comes. */
module UpdateChannel {
  import opened Options
  import opened Sequences

  datatype Channel = Stable | Preview

  datatype Job = Operation(id: nat) | Switch(channel: Channel)

  datatype Outcome = Skipped | Succeeded | Failed

  datatype Settled = Settled(job: Job, outcome: Outcome)

  datatype Coordinator = Coordinator(
    channel: Channel,
    switches: int,
    tail: seq<Job>,           // on the promise chain, not yet started
    running: Option<Job>,
    cancel: bool,             // the cancel callback of the running operation is installed
    cancelled: bool,          // ... and has been called
    log: seq<Settled>)        // what has settled, in order

  function Start(channel: Channel): Coordinator {
    Coordinator(channel, 0, [], None, false, false, [])
  }

  predicate Switching(c: Coordinator) { c.switches > 0 }

  function Enqueue(c: Coordinator, job: Job): Coordinator { c.(tail := c.tail + [job]) }

  function RunOperation(c: Coordinator, id: nat): Coordinator { Enqueue(c, Operation(id)) }

  /** `None` stands for a value that is no channel: the call is rejected and nothing changes. */
  function SetChannel(c: Coordinator, value: Option<Channel>): Coordinator {
    if value.None? then c
    else Enqueue(c.(switches := c.switches + 1, cancelled := c.cancelled || c.cancel), Switch(value.value))
  }

  /** The chain starts its next job. An operation that meets a pending switch returns without running. */
  function Begin(c: Coordinator): Coordinator {
    if c.running.Some? || c.tail == [] then c
    else
      var job, rest := c.tail[0], c.tail[1..];
      if job.Switch? then c.(tail := rest, running := Some(job))
      else if Switching(c) then c.(tail := rest, log := c.log + [Settled(job, Skipped)])
      else c.(tail := rest, running := Some(job), cancel := true, cancelled := false)
  }

  /** The running job settles: an operation's body, or the persisting of a switch. */
  function Settle(c: Coordinator, succeeded: bool): Coordinator {
    if c.running.None? then c
    else
      var job := c.running.value;
      var done := c.(running := None, log := c.log + [Settled(job, if succeeded then Succeeded else Failed)]);
      if job.Operation? then done.(cancel := false)
      else done.(channel := if succeeded then job.channel else c.channel, switches := c.switches - 1)
  }

  datatype Event = EvRun(id: nat) | EvSet(value: Option<Channel>) | EvBegin | EvSettle(succeeded: bool)

  function Step(c: Coordinator, e: Event): Coordinator {
    match e
    case EvRun(id) => RunOperation(c, id)
    case EvSet(value) => SetChannel(c, value)
    case EvBegin => Begin(c)
    case EvSettle(ok) => Settle(c, ok)
  }

  function Run(c: Coordinator, events: seq<Event>): Coordinator
    decreases |events|
  {
    if events == [] then c else Run(Step(c, events[0]), events[1..])
  }

  // ----- what the chain promises -----

  function SubmittedBy(e: Event): seq<Job> {
    match e
    case EvRun(id) => [Operation(id)]
    case EvSet(Some(channel)) => [Switch(channel)]
    case _ => []
  }

  /** The jobs a sequence of calls submits, in order. */
  function Submitted(events: seq<Event>): seq<Job> {
    if events == [] then [] else SubmittedBy(events[0]) + Submitted(events[1..])
  }

  function Jobs(log: seq<Settled>): seq<Job> {
    if log == [] then [] else [log[0].job] + Jobs(log[1..])
  }

  function Switches(jobs: seq<Job>): nat {
    if jobs == [] then 0 else (if jobs[0].Switch? then 1 else 0) + Switches(jobs[1..])
  }

  /** Replays a settled history with a serial executor: only a successful switch changes the channel. */
  function Replay(channel: Channel, log: seq<Settled>): Channel
    decreases |log|
  {
    if log == [] then channel
    else Replay(if log[0].job.Switch? && log[0].outcome.Succeeded? then log[0].job.channel else channel, log[1..])
  }

  function Unstarted(c: Coordinator): seq<Job> {
    (if c.running.Some? then [c.running.value] else []) + c.tail
  }

  /** The coordinator is a serial first-in-first-out executor of `jobs` that began at `origin`. */
  ghost predicate Serial(c: Coordinator, origin: Channel, jobs: seq<Job>) {
    && Jobs(c.log) + Unstarted(c) == jobs
    && c.channel == Replay(origin, c.log)
    && c.switches == Switches(Unstarted(c))
    && (c.cancel <==> c.running.Some? && c.running.value.Operation?)
    && (c.cancel && Switching(c) ==> c.cancelled)
  }

  lemma {:induction false} JobsAppend(log: seq<Settled>, s: Settled)
    ensures Jobs(log + [s]) == Jobs(log) + [s.job]
  {
    if log != [] {
      assert (log + [s])[1..] == log[1..] + [s];
      JobsAppend(log[1..], s);
    }
  }

  lemma {:induction false} SwitchesAppend(jobs: seq<Job>, job: Job)
    ensures Switches(jobs + [job]) == Switches(jobs) + if job.Switch? then 1 else 0
  {
    if jobs == [] {
      assert jobs + [job] == [job];
    } else {
      assert (jobs + [job])[1..] == jobs[1..] + [job];
      SwitchesAppend(jobs[1..], job);
    }
  }

  lemma SwitchesFirst(job: Job, jobs: seq<Job>)
    ensures Switches([job] + jobs) == Switches(jobs) + if job.Switch? then 1 else 0
  {
    assert ([job] + jobs)[1..] == jobs;
  }

  lemma {:induction false} ReplayAppend(channel: Channel, log: seq<Settled>, s: Settled)
    ensures Replay(channel, log + [s]) ==
            if s.job.Switch? && s.outcome.Succeeded? then s.job.channel else Replay(channel, log)
    decreases |log|
  {
    if log == [] {
      assert log + [s] == [s];
    } else {
      assert (log + [s])[1..] == log[1..] + [s];
      ReplayAppend(if log[0].job.Switch? && log[0].outcome.Succeeded? then log[0].job.channel else channel, log[1..],
          s);
    }
  }

  /** The part of `Serial` that speaks of the present only. */
  ghost predicate Counted(c: Coordinator) {
    && c.switches == Switches(Unstarted(c))
    && (c.cancel <==> c.running.Some? && c.running.value.Operation?)
  }

  lemma StepKeepsCounted(c: Coordinator, e: Event)
    requires Counted(c)
    ensures Counted(Step(c, e))
  {
    var d := Step(c, e);
    if |d.tail| > |c.tail| {
      assert Unstarted(d) == Unstarted(c) + [d.tail[|c.tail|]];
      SwitchesAppend(Unstarted(c), d.tail[|c.tail|]);
    } else if |d.log| > |c.log| {
      assert Unstarted(c) == [d.log[|c.log|].job] + Unstarted(d);
    } else {
      assert Unstarted(d) == Unstarted(c);
    }
  }

  lemma SubmitKeepsSerial(c: Coordinator, e: Event, origin: Channel, jobs: seq<Job>)
    requires Serial(c, origin, jobs) && (e.EvRun? || e.EvSet?)
    ensures Serial(Step(c, e), origin, jobs + SubmittedBy(e))
  {
    var d := Step(c, e);
    if SubmittedBy(e) == [] {
      assert jobs + [] == jobs;
    } else {
      var job := if e.EvRun? then Operation(e.id) else Switch(e.value.value);
      var pending := Unstarted(c);
      assert Unstarted(d) == pending + [job];
      SwitchesAppend(pending, job);
      assert Jobs(c.log) + (pending + [job]) == (Jobs(c.log) + pending) + [job];
    }
  }

  lemma TurnKeepsSerial(c: Coordinator, e: Event, origin: Channel, jobs: seq<Job>)
    requires Serial(c, origin, jobs) && (e.EvBegin? || e.EvSettle?)
    ensures Serial(Step(c, e), origin, jobs)
  {
    var d := Step(c, e);
    if |d.log| > |c.log| {
      var s := d.log[|c.log|];
      assert d.log == c.log + [s];
      assert Unstarted(c) == [s.job] + Unstarted(d);
      Assoc(Jobs(c.log), [s.job], Unstarted(d));
      SwitchesFirst(s.job, Unstarted(d));
      JobsAppend(c.log, s);
      ReplayAppend(origin, c.log, s);
    } else {
      assert Unstarted(d) == Unstarted(c);
    }
  }

  lemma StepKeepsSerial(c: Coordinator, e: Event, origin: Channel, jobs: seq<Job>)
    requires Serial(c, origin, jobs)
    ensures Serial(Step(c, e), origin, jobs + SubmittedBy(e))
  {
    if e.EvRun? || e.EvSet? {
      SubmitKeepsSerial(c, e, origin, jobs);
    } else {
      TurnKeepsSerial(c, e, origin, jobs);
      assert jobs + [] == jobs;
    }
  }

  /** Whatever the interleaving and whichever jobs fail, the settled jobs followed by the unsettled ones are the
      submitted jobs in order, `switches` counts the unsettled switches, and the channel is the last one persisted. */
  lemma {:induction false} RunIsSerial(c: Coordinator, events: seq<Event>, origin: Channel, jobs: seq<Job>)
    requires Serial(c, origin, jobs)
    ensures Serial(Run(c, events), origin, jobs + Submitted(events))
    decreases |events|
  {
    if events == [] {
      assert jobs + Submitted(events) == jobs;
    } else {
      StepKeepsSerial(c, events[0], origin, jobs);
      var first, rest := SubmittedBy(events[0]), Submitted(events[1..]);
      RunIsSerial(Step(c, events[0]), events[1..], origin, jobs + first);
      assert jobs + first + rest == jobs + (first + rest);
    }
  }

  lemma {:induction false} NoSwitchInside(jobs: seq<Job>)
    ensures Switches(jobs) == 0 <==> forall job <- jobs :: job.Operation?
  {
    if jobs != [] {
      NoSwitchInside(jobs[1..]);
      assert jobs[0] in jobs;
      assert forall job <- jobs[1..] :: job in jobs;
      assert forall job <- jobs :: job == jobs[0] || job in jobs[1..];
    }
  }

  /** In every run, a job that starts running as an operation does so with no switch unsettled, and until it
      settles the channel it started under stays the channel, whatever else is requested meanwhile. */
  lemma OperationsRunBetweenSwitches(origin: Channel, before: seq<Event>, during: seq<Event>)
    requires var c := Run(Start(origin), before);
             c.running.None? && Begin(c).running.Some? && Begin(c).running.value.Operation?
    requires forall e <- during :: !e.EvSettle?
    ensures var c := Run(Start(origin), before);
            && (forall job <- Unstarted(c) :: job.Operation?)
            && Run(Begin(c), during).channel == c.channel
            && Run(Begin(c), during).running == Begin(c).running
  {
    var c := Run(Start(origin), before);
    RunIsSerial(Start(origin), before, origin, []);
    NoSwitchInside(Unstarted(c));
    RunningStays(Begin(c), during);
  }

  lemma {:induction false} RunningStays(c: Coordinator, events: seq<Event>)
    requires c.running.Some?
    requires forall e <- events :: !e.EvSettle?
    ensures Run(c, events).running == c.running && Run(c, events).channel == c.channel
    decreases |events|
  {
    if events != [] {
      assert events[0] in events;
      RunningStays(Step(c, events[0]), events[1..]);
    }
  }

  /** Runs the chain until nothing is left, the i-th settling with the i-th outcome. */
  function Drain(c: Coordinator, outcomes: seq<bool>): Coordinator
    decreases |outcomes|
  {
    if outcomes == [] then c else Drain(Settle(Begin(c), outcomes[0]), outcomes[1..])
  }

  /** Failures never break the chain: from any reachable state, as many turns as there are unsettled jobs settle
      all of them in submission order and end every switch, whatever succeeds or fails. */
  lemma {:induction false} DrainSettlesEverything(c: Coordinator, outcomes: seq<bool>, origin: Channel, jobs: seq<Job>)
    requires Serial(c, origin, jobs) && |outcomes| == |Unstarted(c)|
    ensures var d := Drain(c, outcomes);
            Jobs(d.log) == jobs && Unstarted(d) == [] && !Switching(d) && d.channel == Replay(origin, d.log)
    decreases |outcomes|
  {
    if outcomes == [] {
      assert Jobs(c.log) + [] == Jobs(c.log);
    } else {
      TurnKeepsSerial(c, EvBegin, origin, jobs);
      TurnKeepsSerial(Begin(c), EvSettle(outcomes[0]), origin, jobs);
      DrainSettlesEverything(Settle(Begin(c), outcomes[0]), outcomes[1..], origin, jobs);
    }
  }

  class UpdateChannelCoordinator {
    var channel: Channel
    var switches: int
    var tail: seq<Job>
    var running: Option<Job>
    var cancel: bool
    var cancelled: bool
    var log: seq<Settled>

    function View(): Coordinator
      reads this
    {
      Coordinator(channel, switches, tail, running, cancel, cancelled, log)
    }

    constructor (preference: Channel)
      ensures View() == Start(preference)
    {
      channel, switches, tail, running := preference, 0, [], None;
      cancel, cancelled, log := false, false, [];
    }

    method EnqueueJob(job: Job)
      modifies this`tail
      ensures View() == Enqueue(old(View()), job)
    {
      tail := tail + [job];
    }

    method RunJob(id: nat)
      modifies this`tail
      ensures View() == RunOperation(old(View()), id)
    {
      EnqueueJob(Operation(id));
    }

    /** Returns whether the value was accepted; the caller then revokes install eligibility. */
    method SetChannelTo(value: Option<Channel>) returns (accepted: bool)
      modifies this`switches, this`cancelled, this`tail
      ensures View() == SetChannel(old(View()), value)
      ensures accepted <==> value.Some?
    {
      if value.None? {
        return false;
      }
      switches := switches + 1;
      if cancel {
        cancelled := true;
      }
      EnqueueJob(Switch(value.value));
      return true;
    }

    method BeginNext()
      modifies this`tail, this`running, this`cancel, this`cancelled, this`log
      ensures View() == Begin(old(View()))
    {
      if running.Some? || tail == [] {
        return;
      }
      var job := tail[0];
      tail := tail[1..];
      if job.Operation? && switches > 0 {
        log := log + [Settled(job, Skipped)];
        return;
      }
      running := Some(job);
      if job.Operation? {
        cancel, cancelled := true, false;
      }
    }

    method SettleRunning(succeeded: bool)
      modifies this`running, this`cancel, this`channel, this`switches, this`log
      ensures View() == Settle(old(View()), succeeded)
    {
      if running.None? {
        return;
      }
      log := log + [Settled(running.value, if succeeded then Succeeded else Failed)];
      match running.value {
        case Operation(_) =>
          cancel := false;
        case Switch(requested) =>
          if succeeded {
            channel := requested;
          }
          switches := switches - 1;
      }
      running := None;
    }
  }
}
