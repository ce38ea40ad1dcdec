/** The bounded log queue of one file: lines are queued up to a line and a byte limit, the oldest are dropped and
    counted when there is no room, and a single drain writes them out in batches. A writer is one such queue for
    every path. */
module BatchedLogWriter {
  import opened Sequences

  datatype Line = Line(text: nat, bytes: nat)

  datatype RawLimits = Limits(maxPendingLines: nat, maxPendingBytes: nat, maxLineBytes: nat, batchSize: nat)
  type Limits = l: RawLimits | l.maxPendingLines > 0 && l.batchSize > 0 && l.maxLineBytes <= l.maxPendingBytes
    witness Limits(1, 1, 1, 1)

  /** Lines waiting to be written, and what was dropped and not yet reported. */
  datatype Backlog = Backlog(
    pending: seq<Line>,
    pendingBytes: int,
    droppedLines: nat,
    droppedBytes: nat,
    dropped: seq<Line>)        // the lines behind droppedLines

  const NOTHING := Backlog([], 0, 0, 0, [])

  /** Where the drain stands: none, waiting for a `writeBatch` of some lines and perhaps a record of dropped ones, or
      past its loop with `finally` still to come. */
  datatype Drain = Idle | Writing(batch: seq<Line>, reporting: seq<Line>) | Exited

  /** The past of the file. */
  datatype Trail = Trail(
    appended: seq<Line>,
    settled: seq<Line>,        // lines whose writeBatch has settled, well or badly
    reported: seq<Line>,       // dropped lines whose record has settled
    emittedLines: nat,         // what the drop records handed to writeBatch add up to
    emittedBytes: nat)

  datatype Queue = Queue(
    known: bool,               // the queue is in the writer's map
    backlog: Backlog,
    drain: Drain,
    outstanding: nat,          // writeBatch calls that have not settled
    generation: nat,           // how often the queue was removed from the map
    trail: Trail)

  const FRESH := Queue(false, NOTHING, Idle, 0, 0, Trail([], [], [], 0, 0))

  function Bytes(lines: seq<Line>): nat {
    if lines == [] then 0 else lines[0].bytes + Bytes(lines[1..])
  }

  predicate HasWork(b: Backlog) { b.pending != [] || b.droppedLines > 0 }

  function BatchLength(b: Backlog, l: Limits): nat {
    if l.batchSize <= |b.pending| then l.batchSize else |b.pending|
  }

  /** One turn of the drain loop: take the next batch, with a record of what was dropped, or leave the loop. */
  function Turn(q: Queue, l: Limits): Queue {
    var b, n := q.backlog, BatchLength(q.backlog, l);
    if !HasWork(b) then q.(drain := Exited)
    else
      q.(backlog := Backlog(b.pending[n..], b.pendingBytes - Bytes(b.pending[..n]), 0, 0, []),
         drain := Writing(b.pending[..n], b.dropped),
         outstanding := q.outstanding + 1,
         trail := q.trail.(emittedLines := q.trail.emittedLines + b.droppedLines,
                           emittedBytes := q.trail.emittedBytes + b.droppedBytes))
  }

  function StartDrain(q: Queue, l: Limits): Queue {
    if q.drain != Idle then q else Turn(q, l)
  }

  predicate Full(b: Backlog, bytes: nat, l: Limits) {
    b.pending != [] && (|b.pending| >= l.maxPendingLines || b.pendingBytes + bytes > l.maxPendingBytes)
  }

  function Lose(b: Backlog, line: Line): Backlog {
    b.(droppedLines := b.droppedLines + 1, droppedBytes := b.droppedBytes + line.bytes, dropped := b.dropped + [line])
  }

  function DropFirst(b: Backlog): Backlog
    requires b.pending != []
  {
    Lose(b, b.pending[0]).(pending := b.pending[1..], pendingBytes := b.pendingBytes - b.pending[0].bytes)
  }

  function MakeRoom(b: Backlog, bytes: nat, l: Limits): Backlog
    decreases |b.pending|
  {
    if !Full(b, bytes, l) then b else MakeRoom(DropFirst(b), bytes, l)
  }

  function TakeIn(b: Backlog, line: Line, l: Limits): Backlog {
    if line.bytes > l.maxLineBytes then Lose(b, line)
    else
      var room := MakeRoom(b, line.bytes, l);
      room.(pending := room.pending + [line], pendingBytes := room.pendingBytes + line.bytes)
  }

  /** The queue with the line taken in, before the drain is started. */
  function Accept(q: Queue, line: Line, l: Limits): Queue {
    q.(known := true, backlog := TakeIn(q.backlog, line, l), trail := q.trail.(appended := q.trail.appended + [line]))
  }

  function Append(q: Queue, line: Line, l: Limits): Queue { StartDrain(Accept(q, line, l), l) }

  /** The outstanding write has settled; the loop is about to go on. */
  function Written(q: Queue): Queue
    requires q.drain.Writing? && q.outstanding > 0
  {
    q.(outstanding := q.outstanding - 1, drain := Exited,
       trail := q.trail.(settled := q.trail.settled + q.drain.batch, reported := q.trail.reported + q.drain.reporting))
  }

  function WriteSettles(q: Queue, l: Limits): Queue {
    if !q.drain.Writing? || q.outstanding == 0 then q else Turn(Written(q), l)
  }

  /** The drain's `finally`: start over if lines came in meanwhile, else forget the queue. */
  function DrainEnds(q: Queue, l: Limits): Queue {
    if q.drain != Exited then q
    else if HasWork(q.backlog) then Turn(q, l)
    else q.(drain := Idle, known := false, generation := q.generation + 1)
  }

  datatype Event = EvAppend(line: Line) | EvWriteSettles | EvDrainEnds | EvFlush

  function Step(q: Queue, e: Event, l: Limits): Queue {
    match e
    case EvAppend(line) => Append(q, line, l)
    case EvWriteSettles => WriteSettles(q, l)
    case EvDrainEnds => DrainEnds(q, l)
    case EvFlush => if q.known then StartDrain(q, l) else q
  }

  function Run(q: Queue, events: seq<Event>, l: Limits): Queue
    decreases |events|
  {
    if events == [] then q else Run(Step(q, events[0], l), events[1..], l)
  }

  /** A flush that captured the queue in `generation` finds no drain to wait for any more. */
  predicate FlushResolves(q: Queue, generation: nat) { q.generation != generation || q.drain == Idle }

  // ----- invariant -----

  function InBatch(q: Queue): seq<Line> { if q.drain.Writing? then q.drain.batch else [] }

  function InReport(q: Queue): seq<Line> { if q.drain.Writing? then q.drain.reporting else [] }

  /** The counters are exact and the limits hold. */
  ghost predicate Bounded(b: Backlog, l: Limits) {
    && b.pendingBytes == Bytes(b.pending)
    && b.droppedLines == |b.dropped| && b.droppedBytes == Bytes(b.dropped)
    && |b.pending| <= l.maxPendingLines && b.pendingBytes <= l.maxPendingBytes
  }

  /** The lines of `all` are those of `written` followed by `pending`, and those lost, in some order. */
  ghost predicate Accounted(all: seq<Line>, written: seq<Line>, pending: seq<Line>, reported: seq<Line>,
                            dropped: seq<Line>)
  {
    multiset(all) == multiset(written) + multiset(pending) + multiset(reported) + multiset(dropped)
  }

  function Handed(q: Queue): seq<Line> { q.trail.settled + InBatch(q) }

  function Emitted(q: Queue): seq<Line> { q.trail.reported + InReport(q) }

  /** Every appended line is in exactly one place. */
  ghost predicate Conserved(q: Queue) {
    Accounted(q.trail.appended, Handed(q), q.backlog.pending, Emitted(q), q.backlog.dropped)
  }

  /** The lines handed over and pending are in the order they were appended in. */
  ghost predicate Ordered(q: Queue) {
    IsSubsequence(Handed(q) + q.backlog.pending, q.trail.appended)
  }

  predicate SingleWrite(q: Queue) { q.outstanding == (if q.drain.Writing? then 1 else 0) }

  /** One write at most is outstanding; a known queue is being drained, no work waits without a drain, and the drop
      records handed over add up to the lines they stand for. */
  ghost predicate Draining(q: Queue) {
    && SingleWrite(q)
    && (q.known <==> q.drain != Idle)
    && (q.drain == Idle ==> !HasWork(q.backlog))
    && q.trail.emittedLines == |Emitted(q)|
    && q.trail.emittedBytes == Bytes(Emitted(q))
  }

  ghost predicate QueueInv(q: Queue, l: Limits) {
    Bounded(q.backlog, l) && Conserved(q) && Ordered(q) && Draining(q)
  }

  lemma {:induction false} BytesConcat(a: seq<Line>, b: seq<Line>)
    ensures Bytes(a + b) == Bytes(a) + Bytes(b)
  {
    if a == [] {
      assert a + b == b;
    } else {
      assert (a + b)[1..] == a[1..] + b;
      BytesConcat(a[1..], b);
    }
  }

  lemma SplitPending(s: seq<Line>, n: nat)
    requires n <= |s|
    ensures s == s[..n] + s[n..] && Bytes(s) == Bytes(s[..n]) + Bytes(s[n..])
    ensures multiset(s) == multiset(s[..n]) + multiset(s[n..])
  {
    assert s == s[..n] + s[n..];
    BytesConcat(s[..n], s[n..]);
  }

  lemma MoveToBatch(all: seq<Line>, written: seq<Line>, pending: seq<Line>, n: nat, reported: seq<Line>,
      dropped: seq<Line>)
    requires Accounted(all, written, pending, reported, dropped) && n <= |pending|
    ensures Accounted(all, written + pending[..n], pending[n..], reported + dropped, [])
  {
    SplitPending(pending, n);
  }

  lemma TurnKeepsBacklog(q: Queue, l: Limits)
    requires Bounded(q.backlog, l) && Conserved(q) && Ordered(q) && !q.drain.Writing? && HasWork(q.backlog)
    ensures var r := Turn(q, l); Bounded(r.backlog, l) && Conserved(r) && Ordered(r)
  {
    var t, b, n := q.trail, q.backlog, BatchLength(q.backlog, l);
    assert Handed(q) == t.settled && Emitted(q) == t.reported;
    MoveToBatch(t.appended, t.settled, b.pending, n, t.reported, b.dropped);
    SplitPending(b.pending, n);
    Assoc(t.settled, b.pending[..n], b.pending[n..]);
  }

  lemma TurnDrains(q: Queue, l: Limits)
    requires !q.drain.Writing? && q.known && q.outstanding == 0
    requires q.trail.emittedLines == |q.trail.reported| && q.trail.emittedBytes == Bytes(q.trail.reported)
    requires q.backlog.droppedLines == |q.backlog.dropped| && q.backlog.droppedBytes == Bytes(q.backlog.dropped)
    ensures Draining(Turn(q, l))
  {
    BytesConcat(q.trail.reported, q.backlog.dropped);
    assert q.trail.reported + [] == q.trail.reported;
  }

  /** A turn taken between two batches. */
  lemma TurnKeepsInv(q: Queue, l: Limits)
    requires Bounded(q.backlog, l) && Conserved(q) && Ordered(q) && !q.drain.Writing? && q.known && q.outstanding == 0
    requires q.trail.emittedLines == |q.trail.reported| && q.trail.emittedBytes == Bytes(q.trail.reported)
    ensures QueueInv(Turn(q, l), l)
  {
    TurnDrains(q, l);
    if HasWork(q.backlog) {
      TurnKeepsBacklog(q, l);
    } else {
      var r := Turn(q, l);
      assert r.backlog == q.backlog && Handed(r) == Handed(q) && Emitted(r) == Emitted(q);
    }
  }

  /** Making room drops the shortest prefix of the pending lines after which the new line fits, and accounts for
      every line of it. */
  lemma {:induction false} MakeRoomDropsPrefix(b: Backlog, bytes: nat, l: Limits) returns (k: nat)
    requires Bounded(b, l)
    ensures var r := MakeRoom(b, bytes, l);
            && k <= |b.pending| && r.pending == b.pending[k..] && r.dropped == b.dropped + b.pending[..k]
            && Bounded(r, l) && !Full(r, bytes, l)
    ensures forall j :: 0 <= j < k ==>
              |b.pending| - j >= l.maxPendingLines || Bytes(b.pending[j..]) + bytes > l.maxPendingBytes
    decreases |b.pending|
  {
    k := 0;
    if Full(b, bytes, l) {
      var next := DropFirst(b);
      BytesConcat(b.dropped, [b.pending[0]]);
      var rest := MakeRoomDropsPrefix(next, bytes, l);
      k := rest + 1;
      Assoc(b.dropped, [b.pending[0]], next.pending[..rest]);
      assert b.pending[..k] == [b.pending[0]] + next.pending[..rest];
      assert b.pending[0..] == b.pending;
      forall j | 0 < j < k
        ensures |b.pending| - j >= l.maxPendingLines || Bytes(b.pending[j..]) + bytes > l.maxPendingBytes
      {
        assert next.pending[j - 1..] == b.pending[j..];
      }
    }
  }

  /** What taking a line in does: a prefix `lost` of the pending lines, or the line itself, is dropped. */
  lemma TakeInShape(b: Backlog, line: Line, l: Limits) returns (k: nat)
    requires Bounded(b, l)
    ensures k <= |b.pending| && Bounded(TakeIn(b, line, l), l) && HasWork(TakeIn(b, line, l))
    ensures var r := TakeIn(b, line, l);
            if line.bytes > l.maxLineBytes then r.pending == b.pending && r.dropped == b.dropped + [line]
            else r.pending == b.pending[k..] + [line] && r.dropped == b.dropped + b.pending[..k]
  {
    k := 0;
    if line.bytes > l.maxLineBytes {
      BytesConcat(b.dropped, [line]);
    } else {
      k := MakeRoomDropsPrefix(b, line.bytes, l);
      BytesConcat(MakeRoom(b, line.bytes, l).pending, [line]);
    }
  }

  /** Leaving out a stretch of the pending lines and adding a newly appended one keeps the order. */
  lemma OrderAfterDrop(handed: seq<Line>, pending: seq<Line>, k: nat, appended: seq<Line>, line: Line)
    requires k <= |pending| && IsSubsequence(handed + pending, appended)
    ensures IsSubsequence(handed + (pending[k..] + [line]), appended + [line])
  {
    SubsequenceRefl(handed);
    SubsequenceSuffix(pending, k);
    SubsequenceConcat(handed, handed, pending[k..], pending);
    SubsequenceTrans(handed + pending[k..], handed + pending, appended);
    SubsequenceRefl([line]);
    SubsequenceConcat(handed + pending[k..], appended, [line], [line]);
    Assoc(handed, pending[k..], [line]);
  }

  lemma OrderAfterLoss(kept: seq<Line>, appended: seq<Line>, line: Line)
    requires IsSubsequence(kept, appended)
    ensures IsSubsequence(kept, appended + [line])
  {
    assert IsSubsequence([], [line]);
    SubsequenceConcat(kept, appended, [], [line]);
    assert kept + [] == kept;
  }

  lemma AccountForLine(all: seq<Line>, written: seq<Line>, pending: seq<Line>, k: nat, reported: seq<Line>,
      dropped: seq<Line>,
                       line: Line)
    requires Accounted(all, written, pending, reported, dropped) && k <= |pending|
    ensures Accounted(all + [line], written, pending[k..] + [line], reported, dropped + pending[..k])
    ensures Accounted(all + [line], written, pending, reported, dropped + [line])
  {
    SplitPending(pending, k);
  }

  lemma AcceptKeepsInv(q: Queue, line: Line, l: Limits)
    requires Bounded(q.backlog, l) && Conserved(q) && Ordered(q)
    ensures var r := Accept(q, line, l); Bounded(r.backlog, l) && HasWork(r.backlog) && Conserved(r) && Ordered(r)
  {
    var k := TakeInShape(q.backlog, line, l);
    AccountForLine(q.trail.appended, Handed(q), q.backlog.pending, k, Emitted(q), q.backlog.dropped, line);
    OrderAfterLoss(Handed(q) + q.backlog.pending, q.trail.appended, line);
    OrderAfterDrop(Handed(q), q.backlog.pending, k, q.trail.appended, line);
  }

  lemma AppendKeepsInv(q: Queue, line: Line, l: Limits)
    requires QueueInv(q, l)
    ensures QueueInv(Append(q, line, l), l)
  {
    AcceptKeepsInv(q, line, l);
    if q.drain == Idle {
      assert Emitted(q) == q.trail.reported;
      TurnKeepsInv(Accept(q, line, l), l);
    }
  }

  lemma WrittenMovesOn(q: Queue)
    requires q.drain.Writing? && q.outstanding > 0
    ensures var w := Written(q);
            Handed(w) == Handed(q) == w.trail.settled && Emitted(w) == Emitted(q) == w.trail.reported
  {
  }

  lemma WrittenKeeps(q: Queue, l: Limits)
    requires QueueInv(q, l) && q.drain.Writing?
    ensures var w := Written(q);
            && Conserved(w) && Ordered(w) && w.outstanding == 0
            && w.trail.emittedLines == |w.trail.reported| && w.trail.emittedBytes == Bytes(w.trail.reported)
  {
    WrittenMovesOn(q);
  }

  lemma WriteKeepsInv(q: Queue, l: Limits)
    requires QueueInv(q, l)
    ensures QueueInv(WriteSettles(q, l), l)
  {
    if q.drain.Writing? {
      WrittenKeeps(q, l);
      TurnKeepsInv(Written(q), l);
    }
  }

  lemma EndKeepsInv(q: Queue, l: Limits)
    requires QueueInv(q, l)
    ensures QueueInv(DrainEnds(q, l), l)
  {
    if q.drain == Exited && HasWork(q.backlog) {
      assert Emitted(q) == q.trail.reported;
      TurnKeepsInv(q, l);
    }
  }

  lemma StepKeepsInv(q: Queue, e: Event, l: Limits)
    requires QueueInv(q, l)
    ensures QueueInv(Step(q, e, l), l)
  {
    match e
    case EvAppend(line) => AppendKeepsInv(q, line, l);
    case EvWriteSettles => WriteKeepsInv(q, l);
    case EvDrainEnds => EndKeepsInv(q, l);
    case EvFlush =>
  }

  /** In every run: no line is lost or duplicated unaccounted for, order is kept, both limits hold, one write at most
      is outstanding, and work never waits without a drain, also when a line comes in between a drain's last turn
      and its `finally`. */
  lemma {:induction false} RunKeepsInv(q: Queue, events: seq<Event>, l: Limits)
    requires QueueInv(q, l)
    ensures QueueInv(Run(q, events, l), l)
    decreases |events|
  {
    if events != [] {
      StepKeepsInv(q, events[0], l);
      RunKeepsInv(Step(q, events[0], l), events[1..], l);
    }
  }

  lemma SplitAt(b: seq<Line>, i: nat)
    requires i < |b|
    ensures b == b[..i] + ([b[i]] + b[i + 1..])
  {
  }

  lemma LinesOfSplit(before: seq<Line>, x: Line, after: seq<Line>)
    ensures multiset(before + after) == multiset(before + ([x] + after)) - multiset{x}
  {
    assert multiset([x] + after) == multiset{x} + multiset(after);
  }

  lemma BytesOfSplit(before: seq<Line>, x: Line, after: seq<Line>)
    ensures Bytes(before + ([x] + after)) == x.bytes + Bytes(before + after)
  {
    assert ([x] + after)[1..] == after;
    BytesConcat(before, after);
    BytesConcat(before, [x] + after);
  }

  lemma {:induction false} SameLinesSameBytes(a: seq<Line>, b: seq<Line>)
    requires multiset(a) == multiset(b)
    ensures |a| == |b| && Bytes(a) == Bytes(b)
    decreases |a|
  {
    assert |multiset(a)| == |a| && |multiset(b)| == |b|;
    if a != [] {
      assert a[0] in multiset(a);
      assert a[0] in b;
      var i :| 0 <= i < |b| && b[i] == a[0];
      var rest := b[..i] + b[i + 1..];
      SplitAt(b, i);
      LinesOfSplit(b[..i], b[i], b[i + 1..]);
      BytesOfSplit(b[..i], b[i], b[i + 1..]);
      assert a == [a[0]] + a[1..];
      SameLinesSameBytes(a[1..], rest);
    }
  }

  /** At any time of any run, appended lines and bytes equal those handed to `writeBatch`, plus those pending, plus
      those dropped and not yet reported, plus those the emitted drop records add up to. */
  lemma Conservation(events: seq<Event>, l: Limits)
    ensures var q := Run(FRESH, events, l);
            && |q.trail.appended| == |Handed(q)| + |q.backlog.pending| + q.backlog.droppedLines + q.trail.emittedLines
            && Bytes(q.trail.appended) ==
               Bytes(Handed(q)) + q.backlog.pendingBytes + q.backlog.droppedBytes + q.trail.emittedBytes
  {
    RunKeepsInv(FRESH, events, l);
    var q := Run(FRESH, events, l);
    CountAccounted(q.trail.appended, Handed(q), q.backlog.pending, Emitted(q), q.backlog.dropped);
  }

  lemma CountAccounted(all: seq<Line>, written: seq<Line>, pending: seq<Line>, reported: seq<Line>, dropped: seq<Line>)
    requires Accounted(all, written, pending, reported, dropped)
    ensures |all| == |written| + |pending| + |reported| + |dropped|
    ensures Bytes(all) == Bytes(written) + Bytes(pending) + Bytes(reported) + Bytes(dropped)
  {
    SameLinesSameBytes(all, (written + pending) + (reported + dropped));
    BytesConcat(written + pending, reported + dropped);
    BytesConcat(written, pending);
    BytesConcat(reported, dropped);
  }

  // ----- flushing -----

  /** Every line is in a settled batch or counted in a settled drop record. */
  ghost predicate Settled(lines: seq<Line>, t: Trail) {
    multiset(lines) <= multiset(t.settled) + multiset(t.reported)
  }

  ghost predicate Extends(t: Trail, u: Trail) {
    t.appended <= u.appended && t.settled <= u.settled && t.reported <= u.reported
  }

  lemma StepExtends(q: Queue, e: Event, l: Limits)
    ensures Extends(q.trail, Step(q, e, l).trail)
    ensures Step(q, e, l).generation != q.generation ==> Step(q, e, l).drain == Idle
  {
  }

  lemma PrefixMultiset(a: seq<Line>, b: seq<Line>)
    requires a <= b
    ensures multiset(a) <= multiset(b)
  {
    assert b == a + b[|a|..];
  }

  lemma {:induction false} SettledStays(lines: seq<Line>, q: Queue, events: seq<Event>, l: Limits)
    requires Settled(lines, q.trail)
    ensures Settled(lines, Run(q, events, l).trail)
    decreases |events|
  {
    if events != [] {
      var r := Step(q, events[0], l);
      StepExtends(q, events[0], l);
      PrefixMultiset(q.trail.settled, r.trail.settled);
      PrefixMultiset(q.trail.reported, r.trail.reported);
      SettledStays(lines, r, events[1..], l);
    }
  }

  lemma IdleIsSettled(q: Queue, l: Limits)
    requires QueueInv(q, l) && q.drain == Idle
    ensures Settled(q.trail.appended, q.trail)
  {
  }

  /** When a flush resolves, every line appended before it was called is in a settled batch or counted in a settled
      drop record, whatever was appended meanwhile. */
  lemma {:induction false} FlushCovers(lines: seq<Line>, q: Queue, events: seq<Event>, l: Limits, generation: nat)
    requires QueueInv(q, l) && multiset(lines) <= multiset(q.trail.appended) && q.generation == generation
    requires FlushResolves(Run(q, events, l), generation)
    ensures Settled(lines, Run(q, events, l).trail)
    decreases |events|
  {
    if events == [] {
      IdleIsSettled(q, l);
    } else {
      var r := Step(q, events[0], l);
      StepKeepsInv(q, events[0], l);
      StepExtends(q, events[0], l);
      PrefixMultiset(q.trail.appended, r.trail.appended);
      if r.generation == generation {
        FlushCovers(lines, r, events[1..], l, generation);
      } else {
        IdleIsSettled(r, l);
        SettledStays(lines, r, events[1..], l);
      }
    }
  }

  /** What the drain itself does next. */
  function PumpOnce(q: Queue, l: Limits): Queue { DrainEnds(WriteSettles(q, l), l) }

  function Pump(q: Queue, turns: nat, l: Limits): Queue
    decreases turns
  {
    if turns == 0 then q else Pump(PumpOnce(q, l), turns - 1, l)
  }

  /** A bound on the writes still to settle before the drain is over. */
  function Turns(q: Queue): nat {
    if q.drain == Idle then 0
    else 1 + |q.backlog.pending| + (if q.backlog.droppedLines > 0 then 1 else 0) + (if q.drain == Exited then 1 else 0)
  }

  lemma TurnShrinks(q: Queue, l: Limits)
    requires q.drain == Exited
    ensures Turns(Turn(q, l)) <= Turns(q)
    ensures HasWork(q.backlog) ==> Turns(Turn(q, l)) < Turns(q)
    ensures !HasWork(q.backlog) ==> Turn(q, l) == q
  {
  }

  lemma PumpProgress(q: Queue, l: Limits)
    requires SingleWrite(q)
    ensures SingleWrite(PumpOnce(q, l))
    ensures Turns(q) > 0 ==> Turns(PumpOnce(q, l)) < Turns(q)
    ensures Turns(q) == 0 ==> PumpOnce(q, l) == q
  {
    if q.drain.Writing? {
      TurnShrinks(Written(q), l);
    } else if q.drain == Exited {
      TurnShrinks(q, l);
    }
  }

  /** A flush resolves after boundedly many settled writes: with nothing appended meanwhile, the drain ends. */
  lemma {:induction false} DrainFinishes(q: Queue, turns: nat, l: Limits)
    requires SingleWrite(q) && turns >= Turns(q)
    ensures Turns(Pump(q, turns, l)) == 0 && Pump(q, turns, l).drain == Idle
    decreases turns
  {
    if turns > 0 {
      PumpProgress(q, l);
      DrainFinishes(PumpOnce(q, l), turns - 1, l);
    }
  }

  // ----- many files -----

  type Writer = map<string, Queue>

  function QueueOf(w: Writer, path: string): Queue { if path in w then w[path] else FRESH }

  datatype FileEvent = FileEvent(path: string, event: Event)

  function RunWriter(w: Writer, events: seq<FileEvent>, l: Limits): Writer
    decreases |events|
  {
    if events == [] then w
    else
      var path := events[0].path;
      RunWriter(w[path := Step(QueueOf(w, path), events[0].event, l)], events[1..], l)
  }

  function EventsOf(events: seq<FileEvent>, path: string): seq<Event> {
    if events == [] then []
    else (if events[0].path == path then [events[0].event] else []) + EventsOf(events[1..], path)
  }

  /** Files do not disturb one another: each queue runs as if it were alone. */
  lemma {:induction false} FilesAreIndependent(w: Writer, events: seq<FileEvent>, path: string, l: Limits)
    ensures QueueOf(RunWriter(w, events, l), path) == Run(QueueOf(w, path), EventsOf(events, path), l)
    decreases |events|
  {
    if events != [] {
      var at, rest := events[0].path, EventsOf(events[1..], path);
      var next := w[at := Step(QueueOf(w, at), events[0].event, l)];
      FilesAreIndependent(next, events[1..], path, l);
      if at == path {
        assert EventsOf(events, path) == [events[0].event] + rest;
        assert EventsOf(events, path)[1..] == rest;
      } else {
        assert EventsOf(events, path) == rest;
        assert QueueOf(next, path) == QueueOf(w, path);
      }
    }
  }

  // ----- the queue object itself -----

  class FileQueue {
    const limits: Limits
    var known: bool
    var pending: seq<Line>
    var pendingBytes: int
    var draining: Drain
    var droppedLines: nat
    var droppedBytes: nat
    ghost var dropped: seq<Line>
    ghost var reporting: seq<Line>
    var outstanding: nat
    ghost var generation: nat
    ghost var trail: Trail

    ghost function View(): Queue
      reads this
    {
      Queue(known, Waiting(), if draining.Writing? then Writing(draining.batch, reporting) else draining,
            outstanding, generation, trail)
    }

    ghost function Waiting(): Backlog
      reads this
    {
      Backlog(pending, pendingBytes, droppedLines, droppedBytes, dropped)
    }

    constructor (limits: Limits)
      ensures View() == FRESH && this.limits == limits
    {
      this.limits := limits;
      known, pending, pendingBytes, draining := false, [], 0, Idle;
      droppedLines, droppedBytes, dropped, reporting, outstanding, generation := 0, 0, [], [], 0, 0;
      trail := FRESH.trail;
    }

    /** One turn of the drain loop, up to the call of `writeBatch` or the end of the loop. */
    method NextTurn()
      modifies this
      ensures View() == Turn(old(View()), limits)
    {
      if pending == [] && droppedLines == 0 {
        draining := Exited;
        return;
      }
      var entries := TakeBatch();
      trail := trail.(emittedLines := trail.emittedLines + droppedLines,
          emittedBytes := trail.emittedBytes + droppedBytes);
      reporting, dropped, droppedLines, droppedBytes := dropped, [], 0, 0;
      draining, outstanding := Writing(entries, []), outstanding + 1;
    }

    method TakeBatch() returns (entries: seq<Line>)
      modifies `pending, `pendingBytes
      ensures var n := BatchLength(old(Waiting()), limits);
              && entries == old(pending)[..n] && pending == old(pending)[n..]
              && pendingBytes == old(pendingBytes) - Bytes(entries)
    {
      var n := if limits.batchSize <= |pending| then limits.batchSize else |pending|;
      entries := pending[..n];
      pending := pending[n..];
      var total := SumBytes(entries);
      pendingBytes := pendingBytes - total;
    }

    method SumBytes(entries: seq<Line>) returns (total: nat)
      ensures total == Bytes(entries)
    {
      total := 0;
      for i := 0 to |entries|
        invariant total == Bytes(entries[..i])
      {
        BytesConcat(entries[..i], [entries[i]]);
        assert entries[..i + 1] == entries[..i] + [entries[i]];
        total := total + entries[i].bytes;
      }
      assert entries[..|entries|] == entries;
    }

    method Start()
      modifies this
      ensures View() == StartDrain(old(View()), limits)
    {
      if draining != Idle {
        return;
      }
      NextTurn();
    }

    method DropWhileFull(bytes: nat)
      modifies this`pending, this`pendingBytes, this`droppedLines, this`droppedBytes, this`dropped
      ensures Waiting() == MakeRoom(old(Waiting()), bytes, limits)
    {
      while |pending| > 0 && (|pending| >= limits.maxPendingLines || pendingBytes + bytes > limits.maxPendingBytes)
        invariant MakeRoom(Waiting(), bytes, limits) == MakeRoom(old(Waiting()), bytes, limits)
        decreases |pending|
      {
        ghost var before := Waiting();
        var oldest := pending[0];
        pending := pending[1..];
        pendingBytes := pendingBytes - oldest.bytes;
        droppedLines := droppedLines + 1;
        droppedBytes := droppedBytes + oldest.bytes;
        dropped := dropped + [oldest];
        assert Waiting() == DropFirst(before);
      }
    }

    method AppendLine(line: Line)
      modifies this
      ensures View() == Append(old(View()), line, limits)
    {
      known := true;
      trail := trail.(appended := trail.appended + [line]);
      if line.bytes > limits.maxLineBytes {
        droppedLines := droppedLines + 1;
        droppedBytes := droppedBytes + line.bytes;
        dropped := dropped + [line];
      } else {
        DropWhileFull(line.bytes);
        pending := pending + [line];
        pendingBytes := pendingBytes + line.bytes;
      }
      Start();
    }

    method OnWriteSettled()
      requires draining.Writing? && outstanding > 0
      modifies this
      ensures View() == WriteSettles(old(View()), limits)
    {
      outstanding := outstanding - 1;
      trail := trail.(settled := trail.settled + draining.batch, reported := trail.reported + reporting);
      draining := Exited;
      NextTurn();
    }

    method OnDrainFinally()
      requires draining == Exited
      modifies this
      ensures View() == DrainEnds(old(View()), limits)
    {
      draining := Idle;
      if |pending| > 0 || droppedLines > 0 {
        Start();
      } else {
        known := false;
        generation := generation + 1;
      }
    }
  }
}
