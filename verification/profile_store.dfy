/** The profile store: changes are queued, made in memory, written to a temporary file, renamed over the old one, and
    taken back in memory when any of that fails. The file is modelled by the profiles it holds. */
module ProfileStore {
  import opened Options
  import opened Sequences

  type Profiles = map<string, string>

  datatype Op = Put(id: string, profile: string) | Remove(id: string)

  function Apply(m: Profiles, op: Op): Profiles {
    match op
    case Put(id, profile) => m[id := profile]
    case Remove(id) => m - {id}
  }

  /** What a change is waiting for: the directory, the temporary file, the rename, and then the permissions and the
      removal of the temporary file. */
  datatype Phase = Directory | Writing | Renaming | Securing

  datatype Change = Change(op: Op, previous: Profiles, phase: Phase)

  datatype Outcome = Committed | Failed | FailedLate

  datatype Finished = Finished(op: Op, outcome: Outcome)

  datatype Store = Store(
    memory: Profiles,
    disk: Profiles,
    running: Option<Change>,
    queue: seq<Op>,
    finished: seq<Finished>)    // since the store was last loaded

  function Loaded(disk: Profiles): Store { Store(disk, disk, None, [], []) }

  function Submit(s: Store, op: Op): Store { s.(queue := s.queue + [op]) }

  function Begin(s: Store): Store {
    if s.running.Some? || s.queue == [] then s
    else s.(memory := Apply(s.memory, s.queue[0]), running := Some(Change(s.queue[0], s.memory, Directory)),
            queue := s.queue[1..])
  }

  function Finish(s: Store, outcome: Outcome): Store
    requires s.running.Some?
  {
    var c := s.running.value;
    s.(memory := if outcome == Committed then s.memory else c.previous, running := None,
       finished := s.finished + [Finished(c.op, outcome)])
  }

  /** The change under way gets past what it is waiting for, or fails there. */
  function Proceed(s: Store, ok: bool): Store {
    if s.running.None? then s
    else
      match s.running.value.phase
      case Directory => if ok then s.(running := Some(s.running.value.(phase := Writing))) else Finish(s, Failed)
      case Writing => if ok then s.(running := Some(s.running.value.(phase := Renaming))) else Finish(s, Failed)
      case Renaming =>
        if ok then s.(running := Some(s.running.value.(phase := Securing)), disk := s.memory) else Finish(s, Failed)
      case Securing => Finish(s, if ok then Committed else FailedLate)
  }

  datatype Event = EvSubmit(op: Op) | EvBegin | EvProceed(ok: bool) | EvRestart

  /** A restart loses memory and loads the file. */
  function Step(s: Store, e: Event): Store {
    match e
    case EvSubmit(op) => Submit(s, op)
    case EvBegin => Begin(s)
    case EvProceed(ok) => Proceed(s, ok)
    case EvRestart => Loaded(s.disk)
  }

  function Run(s: Store, events: seq<Event>): Store
    decreases |events|
  {
    if events == [] then s else Run(Step(s, events[0]), events[1..])
  }

  // ----- the simple form -----

  function Fold(base: Profiles, ops: seq<Op>): Profiles {
    if ops == [] then base else Apply(Fold(base, ops[..|ops| - 1]), ops[|ops| - 1])
  }

  /** The operations whose persist succeeded, in submission order. */
  function CommittedOps(finished: seq<Finished>): seq<Op> {
    if finished == [] then []
    else
      var last := finished[|finished| - 1];
      CommittedOps(finished[..|finished| - 1]) + if last.outcome == Committed then [last.op] else []
  }

  function MemoryAfter(base: Profiles, finished: seq<Finished>): Profiles { Fold(base, CommittedOps(finished)) }

  /** The file holds what was last renamed into place, even if the change failed after that. */
  function DiskAfter(base: Profiles, finished: seq<Finished>): Profiles {
    if finished == [] then base
    else
      var init, last := finished[..|finished| - 1], finished[|finished| - 1];
      if last.outcome == Failed then DiskAfter(base, init) else Apply(MemoryAfter(base, init), last.op)
  }

  lemma CommittedAppend(base: Profiles, finished: seq<Finished>, f: Finished)
    ensures MemoryAfter(base, finished + [f]) ==
            if f.outcome == Committed then Apply(MemoryAfter(base, finished), f.op) else MemoryAfter(base, finished)
    ensures DiskAfter(base, finished + [f]) ==
            if f.outcome == Failed then DiskAfter(base, finished) else Apply(MemoryAfter(base, finished), f.op)
  {
    var longer := finished + [f];
    assert longer[..|longer| - 1] == finished;
    var ops := CommittedOps(finished);
    if f.outcome == Committed {
      assert (ops + [f.op])[..|ops|] == ops;
    } else {
      assert ops + [] == ops;
    }
  }

  // ----- invariant -----

  /** `base` is what was loaded. */
  ghost predicate StoreInv(s: Store, base: Profiles) {
    var memory := MemoryAfter(base, s.finished);
    match s.running
    case None => s.memory == memory && s.disk == DiskAfter(base, s.finished)
    case Some(c) =>
      && c.previous == memory
      && s.memory == Apply(memory, c.op)
      && s.disk == if c.phase == Securing then s.memory else DiskAfter(base, s.finished)
  }

  lemma FinishKeepsInv(s: Store, base: Profiles, outcome: Outcome)
    requires StoreInv(s, base) && s.running.Some?
    requires outcome == Failed <==> s.running.value.phase != Securing
    ensures StoreInv(Finish(s, outcome), base)
  {
    CommittedAppend(base, s.finished, Finished(s.running.value.op, outcome));
  }

  lemma StepKeepsInv(s: Store, base: Profiles, e: Event)
    requires StoreInv(s, base) && !e.EvRestart?
    ensures StoreInv(Step(s, e), base)
  {
    if e.EvProceed? && s.running.Some? {
      if s.running.value.phase == Securing {
        FinishKeepsInv(s, base, if e.ok then Committed else FailedLate);
      } else {
        FinishKeepsInv(s, base, Failed);
      }
    }
  }

  /** What the store was last loaded from: each restart loads what is on disk by then. */
  function Base(s: Store, base: Profiles, events: seq<Event>): Profiles
    decreases |events|
  {
    if events == [] then base
    else Base(Step(s, events[0]), if events[0].EvRestart? then s.disk else base, events[1..])
  }

  lemma {:induction false} RunKeepsInv(s: Store, base: Profiles, events: seq<Event>)
    requires StoreInv(s, base)
    ensures StoreInv(Run(s, events), Base(s, base, events))
    decreases |events|
  {
    if events != [] {
      if events[0].EvRestart? {
        RunKeepsInv(Loaded(s.disk), s.disk, events[1..]);
      } else {
        StepKeepsInv(s, base, events[0]);
        RunKeepsInv(Step(s, events[0]), base, events[1..]);
      }
    }
  }

  /** For every interleaving, every failure and every restart: between changes, memory is what was last loaded with
      exactly the operations folded in whose persist succeeded since, in submission order, and so it is underneath a
      change under way. */
  lemma MemoryIsFoldOfCommitted(disk: Profiles, events: seq<Event>)
    ensures
      var s := Run(Loaded(disk), events);
      var committed := Fold(Base(Loaded(disk), disk, events), CommittedOps(s.finished));
      match s.running
      case None => s.memory == committed
      case Some(c) => c.previous == committed && s.memory == Apply(committed, c.op)
  {
    RunKeepsInv(Loaded(disk), disk, events);
  }

  /** A reader sees only committed profiles, unless a change that makes a difference is under way. */
  lemma ReadsAreCommittedExactly(disk: Profiles, events: seq<Event>)
    ensures
      var s := Run(Loaded(disk), events);
      s.memory == Fold(Base(Loaded(disk), disk, events), CommittedOps(s.finished))
      <==> s.running.None? || Apply(s.running.value.previous, s.running.value.op) == s.running.value.previous
  {
    MemoryIsFoldOfCommitted(disk, events);
  }

  // ----- memory and file -----

  /** No change since the last committed one failed after its rename, unless it made no difference. */
  predicate Synced(base: Profiles, finished: seq<Finished>) {
    if finished == [] then true
    else
      var init, last := finished[..|finished| - 1], finished[|finished| - 1];
      match last.outcome
      case Committed => true
      case Failed => Synced(base, init)
      case FailedLate => Apply(MemoryAfter(base, init), last.op) == MemoryAfter(base, init)
  }

  lemma {:induction false} SyncedMeansEqual(base: Profiles, finished: seq<Finished>)
    ensures DiskAfter(base, finished) == MemoryAfter(base, finished) <==> Synced(base, finished)
  {
    if finished != [] {
      var init, last := finished[..|finished| - 1], finished[|finished| - 1];
      assert finished == init + [last];
      CommittedAppend(base, init, last);
      SyncedMeansEqual(base, init);
    }
  }

  /** Between changes the file holds what memory holds, exactly when no change since the last committed one failed
      after its rename with effect. */
  lemma FileMatchesExactlyWhenSynced(disk: Profiles, events: seq<Event>)
    requires Run(Loaded(disk), events).running.None?
    ensures var s := Run(Loaded(disk), events);
            s.disk == s.memory <==> Synced(Base(Loaded(disk), disk, events), s.finished)
  {
    RunKeepsInv(Loaded(disk), disk, events);
    SyncedMeansEqual(Base(Loaded(disk), disk, events), Run(Loaded(disk), events).finished);
  }

  /** Whenever the program dies, after any run, what it loads next is one whole state: with the operation under way if
      that has been renamed into place; else exactly the committed operations, if and only if no change since the
      last committed one failed after its rename with effect; and otherwise the state of that failed change. */
  lemma RestartLoadsExactly(disk: Profiles, events: seq<Event>)
    ensures
      var s, base := Run(Loaded(disk), events), Base(Loaded(disk), disk, events);
      var committed, next := Fold(base, CommittedOps(s.finished)), Step(s, EvRestart).memory;
      if s.running.Some? && s.running.value.phase == Securing
      then next == Apply(committed, s.running.value.op)
      else next == DiskAfter(base, s.finished) && (next == committed <==> Synced(base, s.finished))
  {
    RunKeepsInv(Loaded(disk), disk, events);
    SyncedMeansEqual(Base(Loaded(disk), disk, events), Run(Loaded(disk), events).finished);
  }

  /** A change that gets as far as its rename. */
  function Renamed(s: Store, op: Op): Store { Proceed(Proceed(Proceed(Begin(Submit(s, op)), true), true), true) }

  lemma RenamedIs(s: Store, op: Op)
    requires s.running.None? && s.queue == []
    ensures Renamed(s, op) ==
            Store(Apply(s.memory, op), Apply(s.memory, op), Some(Change(op, s.memory, Securing)), [], s.finished)
  {
    var begun := Begin(Submit(s, op));
    assert begun == Store(Apply(s.memory, op), s.disk, Some(Change(op, s.memory, Directory)), [], s.finished);
    var written := Proceed(Proceed(begun, true), true);
    assert written.running == Some(Change(op, s.memory, Renaming)) && written.memory == begun.memory;
  }

  /** A change whose permissions fail after the rename, at any time: it is reported as failed and undone in memory, and
      comes back with a restart. If it removes a committed profile, that restart loses it. */
  lemma FailedChangeReturns(s: Store, base: Profiles, op: Op)
    requires StoreInv(s, base) && s.running.None? && s.queue == []
    ensures
      var failed := Proceed(Renamed(s, op), false);
      && StoreInv(failed, base) && failed.finished == s.finished + [Finished(op, FailedLate)]
      && failed.memory == s.memory && Step(failed, EvRestart).memory == Apply(s.memory, op)
      && (op.Remove? && op.id in s.memory ==>
            op.id in failed.memory && op.id !in Step(failed, EvRestart).memory)
  {
    RenamedIs(s, op);
    FinishKeepsInv(Renamed(s, op), base, FailedLate);
  }

  // ----- order -----

  function Submitted(events: seq<Event>): seq<Op> {
    if events == [] then []
    else (if events[0].EvSubmit? then [events[0].op] else []) + Submitted(events[1..])
  }

  function OpsOf(finished: seq<Finished>): seq<Op> { seq(|finished|, i requires 0 <= i < |finished| => finished[i].op) }

  /** Everything accepted: finished, under way, and waiting. */
  function Accepted(s: Store): seq<Op> {
    OpsOf(s.finished) + (if s.running.Some? then [s.running.value.op] else []) + s.queue
  }

  lemma OpsAppend(finished: seq<Finished>, f: Finished)
    ensures OpsOf(finished + [f]) == OpsOf(finished) + [f.op]
  {
  }

  lemma FinishAccepts(s: Store, outcome: Outcome)
    requires s.running.Some?
    ensures Accepted(Finish(s, outcome)) == Accepted(s)
  {
    var done, op := OpsOf(s.finished), s.running.value.op;
    OpsAppend(s.finished, Finished(op, outcome));
    assert (done + [op]) + [] == done + [op];
  }

  lemma StepAccepts(s: Store, e: Event)
    requires !e.EvRestart?
    ensures Accepted(Step(s, e)) == Accepted(s) + if e.EvSubmit? then [e.op] else []
  {
    match e
    case EvSubmit(op) =>
      var before := OpsOf(s.finished) + if s.running.Some? then [s.running.value.op] else [];
      Assoc(before, s.queue, [op]);
    case EvBegin =>
      if s.running.None? && s.queue != [] {
        var done, op, rest := OpsOf(s.finished), s.queue[0], s.queue[1..];
        assert s.queue == [op] + rest && done + [] == done;
        Assoc(done, [op], rest);
      }
    case EvProceed(ok) =>
      if s.running.Some? {
        FinishAccepts(s, Failed);
        FinishAccepts(s, Committed);
        FinishAccepts(s, FailedLate);
      }
    case EvRestart =>
  }

  predicate NoRestart(events: seq<Event>) { forall e <- events :: !e.EvRestart? }

  /** Operations are taken up one at a time in submission order; a failure does not stop the ones behind it. */
  lemma {:induction false} ServedInOrder(s: Store, events: seq<Event>)
    requires NoRestart(events)
    ensures Accepted(Run(s, events)) == Accepted(s) + Submitted(events)
    decreases |events|
  {
    if events != [] {
      assert events[0] in events;
      var own := if events[0].EvSubmit? then [events[0].op] else [];
      StepAccepts(s, events[0]);
      ServedInOrder(Step(s, events[0]), events[1..]);
      Assoc(Accepted(s), own, Submitted(events[1..]));
    }
  }

  class AtomicProfileStore {
    var profiles: Profiles
    var file: Profiles
    var change: Option<Change>
    var writeTail: seq<Op>
    ghost var finished: seq<Finished>

    /** `load`, on a readable file. */
    constructor (disk: Profiles)
      ensures View() == Loaded(disk)
    {
      profiles, file, change, writeTail, finished := disk, disk, None, [], [];
    }

    ghost function View(): Store
      reads this
    {
      Store(profiles, file, change, writeTail, finished)
    }

    method Mutate(op: Op)
      modifies `writeTail
      ensures View() == Submit(old(View()), op)
    {
      writeTail := writeTail + [op];
    }

    method StartNext()
      modifies `profiles, `change, `writeTail
      ensures View() == Begin(old(View()))
    {
      if change.Some? || writeTail == [] {
        return;
      }
      var op, previous := writeTail[0], profiles;
      match op {
        case Put(id, profile) => profiles := profiles[id := profile];
        case Remove(id) => profiles := profiles - {id};
      }
      change := Some(Change(op, previous, Directory));
      writeTail := writeTail[1..];
    }

    method PersistProceeds(ok: bool) returns (settled: Option<bool>)
      modifies `profiles, `file, `change, `finished
      ensures View() == Proceed(old(View()), ok)
      ensures settled == if old(change).Some? && change.None?
                         then Some(finished[|finished| - 1].outcome == Committed) else None
    {
      if change.None? {
        return None;
      }
      var c := change.value;
      if !ok {
        profiles := c.previous;
        change := None;
        finished := finished + [Finished(c.op, if c.phase == Securing then FailedLate else Failed)];
        return Some(false);
      }
      match c.phase {
        case Directory => change := Some(c.(phase := Writing));
        case Writing => change := Some(c.(phase := Renaming));
        case Renaming =>
          file := profiles;
          change := Some(c.(phase := Securing));
        case Securing =>
          change := None;
          finished := finished + [Finished(c.op, Committed)];
          return Some(true);
      }
      return None;
    }
  }
}
