/** Engine maintenance and the launch gate.

    A maintenance scope closes the gate with `Prepare`, which waits for a running startup, reads the
    endpoint and asks the engine to stop; `Resume` opens the gate again. Desktop code obtains the engine
    through `CallEngine`, which shares one startup between all callers. Every synchronous stretch
    between two awaits is one step. */
module EngineMaintenance {
  import opened Options

  type Scope = nat
  type Caller = nat

  datatype Answer = Stopped | Busy | Threw

  /** Where the latest `prepare` call of a scope stands. */
  datatype Prepare =
    | AwaitStartup(startup: Option<nat>)
    | AwaitEndpoint
    | AwaitShutdown
    | Answered(answer: Answer)

  /** Where one desktop caller of the engine stands. */
  datatype Wait = Waiting(startup: nat) | Got | Refused

  datatype Gate = Gate(
    owner: Option<Scope>,
    prepares: map<Scope, Prepare>,
    startup: Option<nat>,       // the startup in flight
    started: nat,               // startups ever begun; their numbers are 0 .. started
    settled: map<nat, bool>,    // settled startups and whether they succeeded
    callers: map<Caller, Wait>,
    handedOut: nat)             // endpoints returned to callers

  const OPEN := Gate(None, map[], None, 0, map[], map[], 0)

  predicate Blocked(g: Gate) { g.owner.Some? }

  predicate InFlight(g: Gate, s: Scope) { s in g.prepares && !g.prepares[s].Answered? }

  /** `s` owns the gate and its shutdown was answered "stopped". */
  predicate Held(g: Gate, s: Scope) {
    g.owner == Some(s) && s in g.prepares && g.prepares[s] == Answered(Stopped)
  }

  // ----- steps of a maintenance scope -----

  function Resume(g: Gate, s: Scope): Gate {
    if g.owner == Some(s) then g.(owner := None) else g
  }

  /** The synchronous start of `prepare`. A call made by the owner itself is answered "busy" and leaves
      the owner's earlier call alone. */
  function BeginPrepare(g: Gate, s: Scope): Gate {
    if g.owner == Some(s) then g
    else if g.owner.Some? then g.(prepares := g.prepares[s := Answered(Busy)])
    else g.(owner := Some(s), prepares := g.prepares[s := AwaitStartup(g.startup)])
  }

  function Answer'(g: Gate, s: Scope, answer: Answer): Gate {
    Resume(g, s).(prepares := g.prepares[s := Answered(answer)])
  }

  predicate StartupDone(g: Gate, awaited: Option<nat>) {
    awaited.None? || awaited.value in g.settled
  }

  function AfterStartup(g: Gate, s: Scope): Gate {
    if s in g.prepares && g.prepares[s].AwaitStartup? && StartupDone(g, g.prepares[s].startup) then
      var awaited := g.prepares[s].startup;
      if awaited.Some? && !g.settled[awaited.value] then Answer'(g, s, Threw)
      else g.(prepares := g.prepares[s := AwaitEndpoint])
    else g
  }

  function AfterEndpoint(g: Gate, s: Scope, found: bool): Gate {
    if s in g.prepares && g.prepares[s].AwaitEndpoint? then
      if found then g.(prepares := g.prepares[s := AwaitShutdown]) else Answer'(g, s, Threw)
    else g
  }

  function AfterShutdown(g: Gate, s: Scope, answer: Answer): Gate {
    if s in g.prepares && g.prepares[s].AwaitShutdown? then
      if answer.Stopped? then g.(prepares := g.prepares[s := Answered(Stopped)]) else Answer'(g, s, answer)
    else g
  }

  // ----- steps of desktop callers -----

  function CallEngine(g: Gate, c: Caller, aborted: bool): Gate {
    if aborted || Blocked(g) then g.(callers := g.callers[c := Refused])
    else if g.startup.Some? then g.(callers := g.callers[c := Waiting(g.startup.value)])
    else g.(startup := Some(g.started), started := g.started + 1, callers := g.callers[c := Waiting(g.started)])
  }

  function SettleStartup(g: Gate, succeeded: bool): Gate {
    if g.startup.Some? then g.(startup := None, settled := g.settled[g.startup.value := succeeded]) else g
  }

  function AfterEngine(g: Gate, c: Caller, aborted: bool): Gate {
    if c in g.callers && g.callers[c].Waiting? && g.callers[c].startup in g.settled then
      if !g.settled[g.callers[c].startup] || aborted || Blocked(g) then g.(callers := g.callers[c := Refused])
      else g.(callers := g.callers[c := Got], handedOut := g.handedOut + 1)
    else g
  }

  datatype Event =
    | EvPrepare(scope: Scope)
    | EvResume(scope: Scope)
    | EvAfterStartup(scope: Scope)
    | EvAfterEndpoint(scope: Scope, found: bool)
    | EvAfterShutdown(scope: Scope, answer: Answer)
    | EvCall(caller: Caller, aborted: bool)
    | EvStartupSettles(succeeded: bool)
    | EvAfterEngine(caller: Caller, aborted: bool)

  function Step(g: Gate, e: Event): Gate {
    match e
    case EvPrepare(s) => BeginPrepare(g, s)
    case EvResume(s) => Resume(g, s)
    case EvAfterStartup(s) => AfterStartup(g, s)
    case EvAfterEndpoint(s, found) => AfterEndpoint(g, s, found)
    case EvAfterShutdown(s, answer) => AfterShutdown(g, s, answer)
    case EvCall(c, aborted) => CallEngine(g, c, aborted)
    case EvStartupSettles(ok) => SettleStartup(g, ok)
    case EvAfterEngine(c, aborted) => AfterEngine(g, c, aborted)
  }

  function Run(g: Gate, events: seq<Event>): Gate
    decreases |events|
  {
    if events == [] then g else Run(Step(g, events[0]), events[1..])
  }

  /** A scope does not resume while its own `prepare` is still in flight. */
  predicate Disciplined(g: Gate, e: Event) {
    e.EvResume? ==> !InFlight(g, e.scope)
  }

  predicate DisciplinedRun(g: Gate, events: seq<Event>)
    decreases |events|
  {
    events == [] || (Disciplined(g, events[0]) && DisciplinedRun(Step(g, events[0]), events[1..]))
  }

  /** A call in flight owns the gate; once its startup is over, no startup is in flight. */
  ghost predicate PrepareOk(g: Gate, s: Scope)
    requires s in g.prepares
  {
    match g.prepares[s]
    case AwaitStartup(awaited) =>
      && g.owner == Some(s)
      && (g.startup.None? || g.startup == awaited)
      && (awaited.Some? ==> g.startup == awaited || awaited.value in g.settled)
    case Answered(Stopped) => g.owner == Some(s) ==> g.startup.None?
    case Answered(_) => g.owner != Some(s)
    case _ => g.owner == Some(s) && g.startup.None?
  }

  ghost predicate GateInv(g: Gate) {
    && (g.startup.Some? ==> g.startup.value + 1 == g.started && g.startup.value !in g.settled)
    && (forall k <- g.settled :: k < g.started)
    && (forall s <- g.prepares :: PrepareOk(g, s))
    && (g.owner.Some? ==> g.owner.value in g.prepares)
  }

  lemma StepKeepsGateInv(g: Gate, e: Event)
    requires GateInv(g) && Disciplined(g, e)
    ensures GateInv(Step(g, e))
  {
    match e
    case EvPrepare(_) =>
    case EvResume(_) =>
    case EvAfterStartup(_) =>
    case EvAfterEndpoint(_, _) =>
    case EvAfterShutdown(_, _) =>
    case EvCall(_, _) =>
    case EvStartupSettles(_) =>
    case EvAfterEngine(_, _) =>
  }

  /** Nothing but the scope's own calls can give it the gate, take the gate from it, or undo its "stopped" answer;
      and an answer "stopped" always comes with the gate held. */
  lemma OthersCannotTouch(g: Gate, e: Event, s: Scope)
    requires GateInv(g) && e != EvPrepare(s) && e != EvResume(s)
    ensures Held(g, s) ==> Held(Step(g, e), s)
    ensures Step(g, e).owner == Some(s) ==> g.owner == Some(s)
    ensures s in g.prepares ==> s in Step(g, e).prepares
    ensures s in Step(g, e).prepares && Step(g, e).prepares[s] == Answered(Stopped) ==>
              s in g.prepares && (g.prepares[s] == Answered(Stopped) || Held(Step(g, e), s))
  {
    match e
    case EvPrepare(_) =>
    case EvResume(_) =>
    case EvAfterStartup(_) =>
    case EvAfterEndpoint(_, _) =>
    case EvAfterShutdown(_, _) =>
    case EvCall(_, _) =>
    case EvStartupSettles(_) =>
    case EvAfterEngine(_, _) =>
  }

  /** Any number of scopes and callers, interleaved in any way, keep the gate's invariant. */
  lemma {:induction false} RunKeepsGateInv(g: Gate, events: seq<Event>)
    requires GateInv(g) && DisciplinedRun(g, events)
    ensures GateInv(Run(g, events))
    decreases |events|
  {
    if events != [] {
      StepKeepsGateInv(g, events[0]);
      RunKeepsGateInv(Step(g, events[0]), events[1..]);
    }
  }

  /** When `prepare` answers "stopped", its scope owns the gate and no startup is in flight. */
  lemma StoppedMeansHeld(events: seq<Event>, s: Scope, e: Event)
    requires DisciplinedRun(OPEN, events)
    requires InFlight(Run(OPEN, events), s)
    ensures var g := Step(Run(OPEN, events), e);
            s in g.prepares && g.prepares[s] == Answered(Stopped) ==> Held(g, s) && g.startup.None?
  {
    RunKeepsGateInv(OPEN, events);
  }

  /** From a "stopped" answer until the owner's own resume, nothing any other scope or caller does can move
      the ownership, begin or leave in flight a startup, or hand out an endpoint. */
  lemma {:induction false} GateStaysClosed(g: Gate, s: Scope, events: seq<Event>)
    requires GateInv(g) && Held(g, s)
    requires EvResume(s) !in events
    ensures var h := Run(g, events);
            Held(h, s) && h.startup.None? && h.started == g.started && h.handedOut == g.handedOut
    decreases |events|
  {
    if events != [] {
      var next := Step(g, events[0]);
      assert events[0] in events;
      StepKeepsGateInv(g, events[0]);
      assert Held(next, s) && next.started == g.started && next.handedOut == g.handedOut;
      GateStaysClosed(Step(g, events[0]), s, events[1..]);
    }
  }

  /** A step keeps the invariant exactly when it is no resume of a scope whose own `prepare` is still in flight. */
  lemma InvariantBreaksExactly(g: Gate, e: Event)
    requires GateInv(g)
    ensures GateInv(Step(g, e)) <==> Disciplined(g, e)
  {
    if Disciplined(g, e) {
      StepKeepsGateInv(g, e);
    } else {
      assert e.scope in Step(g, e).prepares && Step(g, e).owner != Some(e.scope);
    }
  }

  /** The startup a `prepare` waits for has failed already, so that it will throw. */
  predicate Doomed(g: Gate, s: Scope) {
    s in g.prepares && g.prepares[s].AwaitStartup? && g.prepares[s].startup.Some?
    && g.prepares[s].startup.value in g.settled && !g.settled[g.prepares[s].startup.value]
  }

  lemma RunFirst(g: Gate, e: Event, rest: seq<Event>)
    ensures Run(g, [e] + rest) == Run(Step(g, e), rest)
  {
    assert ([e] + rest)[1..] == rest;
  }

  lemma MisledFromEndpoint(g: Gate, s: Scope) returns (events: seq<Event>)
    requires s in g.prepares && g.prepares[s].AwaitEndpoint? && g.owner == None
    ensures var h := Run(g, events); s in h.prepares && h.prepares[s] == Answered(Stopped) && h.owner == None
  {
    var first, second := EvAfterEndpoint(s, true), EvAfterShutdown(s, Stopped);
    events := [first] + ([second] + []);
    RunFirst(g, first, [second] + []);
    RunFirst(Step(g, first), second, []);
  }

  /** Every undisciplined resume can mislead: unless its startup has failed, the `prepare` in flight can still be
      answered "stopped", with the gate open. */
  lemma UndisciplinedResumeMisleads(g: Gate, s: Scope) returns (events: seq<Event>)
    requires GateInv(g) && InFlight(g, s) && !Doomed(g, s)
    ensures var h := Run(g, [EvResume(s)] + events);
            s in h.prepares && h.prepares[s] == Answered(Stopped) && h.owner == None && !Held(h, s)
  {
    var r := Resume(g, s);
    match r.prepares[s]
    case AwaitShutdown =>
      events := [EvAfterShutdown(s, Stopped)] + [];
      RunFirst(r, EvAfterShutdown(s, Stopped), []);
    case AwaitEndpoint =>
      events := MisledFromEndpoint(r, s);
    case AwaitStartup(_) =>
      var settles, first := EvStartupSettles(true), EvAfterStartup(s);
      var later := MisledFromEndpoint(Step(Step(r, settles), first), s);
      events := [settles] + ([first] + later);
      RunFirst(r, settles, [first] + later);
      RunFirst(Step(r, settles), first, later);
    RunFirst(g, EvResume(s), events);
  }

  /** Without the discipline the promise is lost: a scope that calls `prepare` again while its first call is
      in flight, is answered "busy" and resumes, makes the first call answer "stopped" with the gate open
      and a startup in flight. */
  lemma ReentrantPrepareOpensTheGate()
    ensures var g := Run(OPEN, [EvPrepare(0), EvPrepare(0), EvResume(0), EvAfterStartup(0), EvAfterEndpoint(0, true),
                                EvCall(0, false), EvAfterShutdown(0, Stopped)]);
            g.prepares[0] == Answered(Stopped) && !Blocked(g) && g.startup.Some?
  {
    var g1 := BeginPrepare(BeginPrepare(OPEN, 0), 0);
    var g2 := AfterStartup(Resume(g1, 0), 0);
    var g3 := CallEngine(AfterEndpoint(g2, 0, true), 0, false);
    var g4 := AfterShutdown(g3, 0, Stopped);
    var tail := [EvAfterEndpoint(0, true), EvCall(0, false), EvAfterShutdown(0, Stopped)];
    assert Run(g2, tail) == g4 by {
      assert tail[1..] == [EvCall(0, false), EvAfterShutdown(0, Stopped)];
      assert tail[1..][1..] == [EvAfterShutdown(0, Stopped)];
      assert Run(g3, [EvAfterShutdown(0, Stopped)]) == g4;
    }
    var all := [EvPrepare(0), EvPrepare(0), EvResume(0), EvAfterStartup(0)] + tail;
    assert all == [EvPrepare(0), EvPrepare(0), EvResume(0), EvAfterStartup(0), EvAfterEndpoint(0, true),
                   EvCall(0, false), EvAfterShutdown(0, Stopped)];
    assert all[1..][1..][1..][1..] == tail;
  }

  // ----- the closure variables themselves -----

  class EngineGate {
    var owner: Option<Scope>
    var prepares: map<Scope, Prepare>
    var startup: Option<nat>
    var started: nat
    var settled: map<nat, bool>
    var callers: map<Caller, Wait>
    var handedOut: nat

    function View(): Gate
      reads this
    {
      Gate(owner, prepares, startup, started, settled, callers, handedOut)
    }

    constructor ()
      ensures View() == OPEN
    {
      owner, prepares, startup, started := None, map[], None, 0;
      settled, callers, handedOut := map[], map[], 0;
    }

    method ResumeScope(identity: Scope)
      modifies this`owner
      ensures View() == Resume(old(View()), identity)
    {
      if owner == Some(identity) {
        owner := None;
      }
    }

    /** Returns whether the call was admitted; a refused call is answered "busy". */
    method PrepareScope(identity: Scope) returns (admitted: bool)
      modifies this`owner, this`prepares
      ensures View() == BeginPrepare(old(View()), identity)
      ensures admitted <==> !Blocked(old(View()))
    {
      if owner != None {
        if owner != Some(identity) {
          prepares := prepares[identity := Answered(Busy)];
        }
        return false;
      }
      owner := Some(identity);
      prepares := prepares[identity := AwaitStartup(startup)];
      return true;
    }

    /** The rest of an admitted `prepare`, one await at a time. */
    method ContinuePrepare(identity: Scope, found: bool, answer: Answer)
      requires InFlight(View(), identity)
      modifies this`owner, this`prepares
      ensures View() == match old(View().prepares[identity])
                        case AwaitStartup(_) => AfterStartup(old(View()), identity)
                        case AwaitEndpoint => AfterEndpoint(old(View()), identity, found)
                        case AwaitShutdown => AfterShutdown(old(View()), identity, answer)
    {
      var result: Answer;
      match prepares[identity] {
        case AwaitStartup(awaited) =>
          if awaited.Some? && awaited.value !in settled {
            return;
          }
          if awaited.None? || settled[awaited.value] {
            prepares := prepares[identity := AwaitEndpoint];
            return;
          }
          result := Threw;
        case AwaitEndpoint =>
          if found {
            prepares := prepares[identity := AwaitShutdown];
            return;
          }
          result := Threw;
        case AwaitShutdown =>
          result := answer;
      }
      prepares := prepares[identity := Answered(result)];
      if result != Stopped {
        ResumeScope(identity);
      }
    }

    method DesktopEngine(caller: Caller, aborted: bool)
      modifies this`startup, this`started, this`callers
      ensures View() == CallEngine(old(View()), caller, aborted)
    {
      if aborted || owner != None {
        callers := callers[caller := Refused];
        return;
      }
      if startup == None {
        startup := Some(started);
        started := started + 1;
      }
      callers := callers[caller := Waiting(startup.value)];
    }

    method StartupSettles(succeeded: bool)
      modifies this`startup, this`settled
      ensures View() == SettleStartup(old(View()), succeeded)
    {
      if startup.Some? {
        settled := settled[startup.value := succeeded];
        startup := None;
      }
    }

    method EngineAvailable(caller: Caller, aborted: bool)
      modifies this`callers, this`handedOut
      ensures View() == AfterEngine(old(View()), caller, aborted)
    {
      if caller !in callers || !callers[caller].Waiting? || callers[caller].startup !in settled {
        return;
      }
      if !settled[callers[caller].startup] || aborted || owner != None {
        callers := callers[caller := Refused];
        return;
      }
      callers := callers[caller := Got];
      handedOut := handedOut + 1;
    }
  }
}
