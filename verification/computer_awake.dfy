/** Keeping the computer awake: a helper process that is restarted with growing delays while it is wanted, a power
    save blocker, and the counting of agents and remote clients that decides when they are wanted. Spawning,
    starting, stopping and checking may each fail, as the environment chooses. */
module ComputerAwake {
  import opened Options

  const RETRY_BASE_MS: nat := 1000
  const RETRY_MAX_MS: nat := 30000

  datatype Mode = Off | Auto | Always

  datatype Child = Running | Killed | Exited

  datatype Retry = Retry(
    timer: Option<nat>,       // the delay of the armed timer
    attempt: nat,
    delays: seq<nat>)         // delays used since the last reset

  /** `held` is what the operating system holds, which the program only learns by asking. */
  datatype Blocker = Blocker(id: Option<nat>, held: set<nat>, next: nat)

  datatype Awake = Awake(
    darwin: bool,
    hasBlocker: bool,
    mode: Mode,
    agents: nat,
    clients: nat,
    disposed: bool,
    child: Option<nat>,
    children: seq<Child>,     // every helper ever spawned
    retry: Retry,
    blocker: Blocker)

  /** How the environment answers within one step. `check` and `recheck` say whether asking for the blocker's state
      throws, before and after starting or stopping it, and `status` whether it does in every later status report. */
  datatype Env = Env(spawn: bool, start: bool, stop: bool, check: bool, recheck: bool, status: bool)

  function Pow2(n: nat): nat { if n == 0 then 1 else 2 * Pow2(n - 1) }

  function Delay(attempt: nat): nat {
    var delay := RETRY_BASE_MS * Pow2(attempt);
    if delay < RETRY_MAX_MS then delay else RETRY_MAX_MS
  }

  predicate Wanted(a: Awake) {
    a.mode == Always || (a.mode == Auto && (a.agents > 0 || a.clients > 0))
  }

  // ----- the blocker -----

  /** Asking whether the blocker is active: if the answer is no, it is forgotten; if asking throws, it is kept. */
  function Checked(b: Blocker, throws: bool): Blocker {
    if b.id.Some? && !throws && b.id.value !in b.held then b.(id := None) else b
  }

  function StartBlocker(b: Blocker, env: Env): Blocker {
    var known := Checked(b, env.check);
    if known.id.Some? then known
    else if !env.start then known
    else Checked(Blocker(Some(b.next), b.held + {b.next}, b.next + 1), env.recheck)
  }

  function StopBlocker(b: Blocker, env: Env): Blocker {
    if b.id.None? then b
    else Checked(if env.stop then b.(held := b.held - {b.id.value}) else b, env.recheck)
  }

  // ----- the helper process -----

  const RESET := Retry(None, 0, [])

  function ScheduleRetry(a: Awake): Awake {
    if a.retry.timer.Some? || !Wanted(a) || a.disposed then a
    else
      var delay := Delay(a.retry.attempt);
      a.(retry := Retry(Some(delay), a.retry.attempt + 1, a.retry.delays + [delay]))
  }

  function StartHelper(a: Awake, env: Env): Awake {
    if a.child.Some? || a.retry.timer.Some? then a
    else if env.spawn then a.(child := Some(|a.children|), children := a.children + [Running])
    else ScheduleRetry(a)
  }

  function StopHelper(a: Awake): Awake {
    if a.child.Some? && a.child.value < |a.children| then
      a.(child := None, children := a.children[a.child.value := Killed])
    else a.(child := None)
  }

  function Deactivate(a: Awake, env: Env): Awake {
    StopHelper(a.(retry := RESET)).(blocker := StopBlocker(a.blocker, env))
  }

  function Refresh(a: Awake, env: Env): Awake {
    if a.disposed then a
    else
      var next := if !a.darwin || !Wanted(a) then Deactivate(a, env)
                  else StartHelper(if a.hasBlocker then a.(blocker := StartBlocker(a.blocker, env)) else a, env);
      next.(blocker := Checked(next.blocker, env.status))
  }

  /** A reported count: `count` maps anything that is no number to zero. */
  datatype Reading = NotFinite | Finite(value: real)

  function Count(r: Reading): nat {
    if r.NotFinite? || r.value < 0.0 then 0 else r.value.Floor
  }

  function SetMode(a: Awake, mode: Mode, env: Env): Awake {
    if a.mode == mode then a else Refresh(a.(mode := mode), env)
  }

  function SetAgents(a: Awake, r: Reading, env: Env): Awake {
    if Count(r) == a.agents then a else Refresh(a.(agents := Count(r)), env)
  }

  function SetClients(a: Awake, r: Reading, env: Env): Awake {
    if Count(r) == a.clients then a else Refresh(a.(clients := Count(r)), env)
  }

  function RetryFires(a: Awake, env: Env): Awake {
    if a.retry.timer.None? then a else Refresh(a.(retry := a.retry.(timer := None)), env)
  }

  /** An `error` or `exit` event of a helper; only the current one is listened to. */
  function HelperFails(a: Awake, child: nat, env: Env): Awake {
    if a.child != Some(child) || child >= |a.children| then a
    else
      var failed := ScheduleRetry(a.(child := None, children := a.children[child := Exited]));
      failed.(blocker := Checked(failed.blocker, env.status))
  }

  function Dispose(a: Awake, env: Env): Awake {
    if a.disposed then a else Deactivate(a.(disposed := true), env)
  }

  function Create(darwin: bool, hasBlocker: bool, mode: Mode, env: Env): Awake {
    Refresh(Awake(darwin, hasBlocker, mode, 0, 0, false, None, [], RESET, Blocker(None, {}, 0)), env)
  }

  datatype Event =
    | EvMode(mode: Mode, env: Env)
    | EvAgents(reading: Reading, env: Env)
    | EvClients(reading: Reading, env: Env)
    | EvResume(env: Env)
    | EvRetry(env: Env)
    | EvHelperFails(child: nat, env: Env)
    | EvBlockerLost(id: nat)
    | EvDispose(env: Env)

  function Step(a: Awake, e: Event): Awake {
    match e
    case EvMode(mode, env) => SetMode(a, mode, env)
    case EvAgents(reading, env) => SetAgents(a, reading, env)
    case EvClients(reading, env) => SetClients(a, reading, env)
    case EvResume(env) => Refresh(a, env)
    case EvRetry(env) => RetryFires(a, env)
    case EvHelperFails(child, env) => HelperFails(a, child, env)
    case EvBlockerLost(id) => a.(blocker := a.blocker.(held := a.blocker.held - {id}))
    case EvDispose(env) => Dispose(a, env)
  }

  function Run(a: Awake, events: seq<Event>): Awake
    decreases |events|
  {
    if events == [] then a else Run(Step(a, events[0]), events[1..])
  }

  // ----- invariant -----

  predicate Busy(a: Awake) { a.darwin && !a.disposed && Wanted(a) }

  /** A helper or a retry timer, never both, exists exactly while the computer must be kept awake. */
  ghost predicate HelperInv(a: Awake) {
    && (Busy(a) ==> (a.child.Some? <==> a.retry.timer.None?))
    && (!Busy(a) ==> a.child.None? && a.retry.timer.None?)
  }

  /** No spawned helper is left running unattended. */
  ghost predicate ChildrenInv(a: Awake) {
    && (a.child.Some? ==> a.child.value < |a.children|)
    && (forall i :: 0 <= i < |a.children| ==> (a.children[i] == Running <==> a.child == Some(i)))
  }

  /** The delays since the last reset are the first ones of the fixed series. */
  ghost predicate RetryInv(r: Retry) {
    && |r.delays| == r.attempt
    && (forall k :: 0 <= k < |r.delays| ==> r.delays[k] == Delay(k))
    && (r.timer.Some? ==> r.delays != [] && r.timer.value == r.delays[|r.delays| - 1])
  }

  /** The system holds no blocker but the recorded one. */
  ghost predicate BlockerInv(b: Blocker) {
    forall id <- b.held :: b.id == Some(id) && id < b.next
  }

  ghost predicate AwakeInv(a: Awake) {
    HelperInv(a) && ChildrenInv(a) && RetryInv(a.retry) && BlockerInv(a.blocker)
  }

  lemma BlockerSteps(b: Blocker, env: Env, throws: bool)
    requires BlockerInv(b)
    ensures BlockerInv(StartBlocker(b, env)) && BlockerInv(StopBlocker(b, env)) && BlockerInv(Checked(b, throws))
  {
  }

  lemma StartKeepsInv(a: Awake, env: Env)
    requires ChildrenInv(a) && RetryInv(a.retry) && Busy(a) && (a.child.None? || a.retry.timer.None?)
    ensures var r := StartHelper(a, env);
            HelperInv(r) && ChildrenInv(r) && RetryInv(r.retry) && r.blocker == a.blocker
  {
  }

  lemma StopKeepsInv(a: Awake)
    requires ChildrenInv(a)
    ensures ChildrenInv(StopHelper(a)) && StopHelper(a).child.None?
        && StopHelper(a) == a.(child := None, children := StopHelper(a).children)
  {
  }

  lemma RefreshKeepsInv(a: Awake, env: Env)
    requires ChildrenInv(a) && RetryInv(a.retry) && BlockerInv(a.blocker)
    requires a.disposed ==> HelperInv(a)
    requires a.child.None? || a.retry.timer.None?
    ensures AwakeInv(Refresh(a, env))
  {
    if !a.disposed {
      if Busy(a) {
        var started := StartBlocker(a.blocker, env);
        BlockerSteps(a.blocker, env, env.status);
        BlockerSteps(started, env, env.status);
        StartKeepsInv(if a.hasBlocker then a.(blocker := started) else a, env);
      } else {
        BlockerSteps(a.blocker, env, env.status);
        BlockerSteps(StopBlocker(a.blocker, env), env, env.status);
        StopKeepsInv(a.(retry := RESET));
      }
    }
  }

  lemma StepKeepsInv(a: Awake, e: Event)
    requires AwakeInv(a)
    ensures AwakeInv(Step(a, e))
  {
    match e
    case EvMode(mode, env) => RefreshKeepsInv(a.(mode := mode), env);
    case EvAgents(reading, env) => RefreshKeepsInv(a.(agents := Count(reading)), env);
    case EvClients(reading, env) => RefreshKeepsInv(a.(clients := Count(reading)), env);
    case EvResume(env) => RefreshKeepsInv(a, env);
    case EvRetry(env) => if a.retry.timer.Some? { RefreshKeepsInv(a.(retry := a.retry.(timer := None)), env); }
    case EvHelperFails(_, _) =>
    case EvBlockerLost(_) =>
    case EvDispose(env) => BlockerSteps(a.blocker, env, env.status);
  }

  lemma {:induction false} RunKeepsInv(a: Awake, events: seq<Event>)
    requires AwakeInv(a)
    ensures AwakeInv(Run(a, events))
    decreases |events|
  {
    if events != [] {
      StepKeepsInv(a, events[0]);
      RunKeepsInv(Step(a, events[0]), events[1..]);
    }
  }

  lemma {:induction false} DelaysGrow(i: nat, j: nat)
    requires i <= j
    ensures RETRY_BASE_MS == Delay(0) <= Delay(i) <= Delay(j) <= RETRY_MAX_MS
    decreases j
  {
    if i < j {
      DelaysGrow(i, j - 1);
    } else if i > 0 {
      DelaysGrow(i - 1, i - 1);
    }
  }

  /** What holds at any time of any run: on macOS and not disposed, exactly one of helper and retry timer exists if the
      computer must be kept awake, otherwise neither; every helper that is not the current one was killed or has
      exited; the system holds at most one blocker; and the delays of an activation start at the base, never shrink
      and never exceed the cap. */
  lemma AwakeRuns(darwin: bool, hasBlocker: bool, mode: Mode, env: Env, events: seq<Event>)
    ensures var a := Run(Create(darwin, hasBlocker, mode, env), events);
            && (Busy(a) ==> (a.child.Some? <==> a.retry.timer.None?))
            && (!Busy(a) ==> a.child.None? && a.retry.timer.None?)
            && (forall i :: 0 <= i < |a.children| && a.child != Some(i) ==> a.children[i] in {Killed, Exited})
            && |a.blocker.held| <= 1
            && (forall i, j :: 0 <= i <= j < |a.retry.delays| ==>
                  RETRY_BASE_MS == a.retry.delays[0] <= a.retry.delays[i] <= a.retry.delays[j] <= RETRY_MAX_MS)
  {
    RefreshKeepsInv(Awake(darwin, hasBlocker, mode, 0, 0, false, None, [], RESET, Blocker(None, {}, 0)), env);
    RunKeepsInv(Create(darwin, hasBlocker, mode, env), events);
    var a := Run(Create(darwin, hasBlocker, mode, env), events);
    if id :| id in a.blocker.held {
      assert a.blocker.held == {id};
    }
    forall i, j | 0 <= i <= j < |a.retry.delays|
      ensures RETRY_BASE_MS == a.retry.delays[0] <= a.retry.delays[i] <= a.retry.delays[j] <= RETRY_MAX_MS
    {
      DelaysGrow(i, j);
    }
  }

  // ----- the blocker is held only while wanted -----

  /** The system holds a blocker nobody wants. */
  predicate Stray(a: Awake) { !Busy(a) && a.blocker.held != {} }

  /** The environment lets a blocker be stopped. */
  predicate StopWorks(e: Event) {
    match e
    case EvMode(_, env) => env.stop
    case EvAgents(_, env) => env.stop
    case EvClients(_, env) => env.stop
    case EvResume(env) => env.stop
    case EvRetry(env) => env.stop
    case EvDispose(env) => env.stop
    case _ => true
  }

  lemma RefreshStrays(a: Awake, env: Env)
    requires BlockerInv(a.blocker) && !a.disposed
    ensures Stray(Refresh(a, env)) <==> !Busy(a) && a.blocker.held != {} && !env.stop
    ensures Busy(Refresh(a, env)) == Busy(a)
  {
    StopReleases(a.blocker, env);
  }

  lemma StopReleases(b: Blocker, env: Env)
    requires BlockerInv(b)
    ensures StopBlocker(b, env).held == if env.stop then {} else b.held
  {
    if env.stop && b.id.Some? {
      assert b.held - {b.id.value} == {};
    } else if b.id.None? {
      assert b.held == {};
    }
  }

  /** A step leaves a blocker nobody wants exactly when the demand ends with it while stopping the blocker fails. */
  lemma BlockerStraysExactly(a: Awake, e: Event)
    requires AwakeInv(a) && !Stray(a)
    ensures Stray(Step(a, e)) <==> !Busy(Step(a, e)) && a.blocker.held != {} && !StopWorks(e)
  {
    match e
    case EvMode(mode, env) => if !a.disposed { RefreshStrays(a.(mode := mode), env); }
    case EvAgents(reading, env) => if !a.disposed { RefreshStrays(a.(agents := Count(reading)), env); }
    case EvClients(reading, env) => if !a.disposed { RefreshStrays(a.(clients := Count(reading)), env); }
    case EvResume(env) => if !a.disposed { RefreshStrays(a, env); }
    case EvRetry(env) => if !a.disposed { RefreshStrays(a.(retry := a.retry.(timer := None)), env); }
    case EvHelperFails(_, _) =>
    case EvBlockerLost(_) =>
    case EvDispose(env) => StopReleases(a.blocker, env);
  }

  lemma {:induction false} RunStraysNever(a: Awake, events: seq<Event>)
    requires AwakeInv(a) && !Stray(a) && forall e <- events :: StopWorks(e)
    ensures !Stray(Run(a, events))
    decreases |events|
  {
    if events != [] {
      assert StopWorks(events[0]) && forall e <- events[1..] :: e in events;
      StepKeepsInv(a, events[0]);
      BlockerStraysExactly(a, events[0]);
      RunStraysNever(Step(a, events[0]), events[1..]);
    }
  }

  /** Over any run in which stopping a blocker never fails, the system holds one only while the computer must be kept
      awake. */
  lemma BlockerOnlyWhileWanted(darwin: bool, hasBlocker: bool, mode: Mode, env: Env, events: seq<Event>)
    requires forall e <- events :: StopWorks(e)
    ensures var a := Run(Create(darwin, hasBlocker, mode, env), events); a.blocker.held != {} ==> Busy(a)
  {
    var initial := Awake(darwin, hasBlocker, mode, 0, 0, false, None, [], RESET, Blocker(None, {}, 0));
    RefreshKeepsInv(initial, env);
    RefreshStrays(initial, env);
    RunStraysNever(Create(darwin, hasBlocker, mode, env), events);
  }

  /** Disposing ends the helper and the timer, and the blocker exactly if stopping it works. */
  lemma DisposeReleases(a: Awake, env: Env)
    requires AwakeInv(a) && !a.disposed
    ensures var r := Dispose(a, env);
            && r.disposed && r.child.None? && r.retry.timer.None?
            && (forall c <- r.children :: c != Running)
            && (r.blocker.held == {} <==> env.stop || a.blocker.held == {})
  {
    StopReleases(a.blocker, env);
    StepKeepsInv(a, EvDispose(env));
  }

  /** Nothing is started after that, whatever happens. */
  lemma {:induction false} DisposedStartsNothing(a: Awake, events: seq<Event>)
    requires AwakeInv(a) && a.disposed
    ensures var r := Run(a, events);
            r.disposed && r.children == a.children && r.retry.timer.None? && r.blocker.held <= a.blocker.held
    decreases |events|
  {
    if events != [] {
      StepKeepsInv(a, events[0]);
      DisposedStartsNothing(Step(a, events[0]), events[1..]);
    }
  }

  // ----- the engine's counting of remote connections -----

  /** Connections are numbered in the order they are made; `live` are those not yet released. */
  datatype Engine = Engine(awake: Awake, remoteClients: int, made: nat, live: set<nat>)

  datatype EngineEvent =
    | EvConnect(env: Env)
    | EvRelease(connection: nat, env: Env)
    | EvTurns(reading: Reading, env: Env)
    | EvOther(event: Event)

  function Reported(count: int): Reading { Finite(count as real) }

  function EngineStep(g: Engine, e: EngineEvent): Engine {
    match e
    case EvConnect(env) =>
      Engine(SetClients(g.awake, Reported(g.remoteClients + 1), env), g.remoteClients + 1, g.made + 1,
          g.live + {g.made})
    case EvRelease(connection, env) =>
      if connection !in g.live then g
      else
        g.(awake := SetClients(g.awake, Reported(g.remoteClients - 1), env),
           remoteClients := g.remoteClients - 1, live := g.live - {connection})
    case EvTurns(reading, env) => g.(awake := SetAgents(g.awake, reading, env))
    case EvOther(event) => if event.EvClients? then g else g.(awake := Step(g.awake, event))
  }

  function EngineRun(g: Engine, events: seq<EngineEvent>): Engine
    decreases |events|
  {
    if events == [] then g else EngineRun(EngineStep(g, events[0]), events[1..])
  }

  ghost predicate EngineInv(g: Engine) {
    && AwakeInv(g.awake)
    && g.remoteClients == |g.live| == g.awake.clients
    && (forall c <- g.live :: c < g.made)
  }

  lemma StepKeepsClients(a: Awake, e: Event)
    ensures Step(a, e).clients == if e.EvClients? then Count(e.reading) else a.clients
  {
  }

  lemma ReportKeepsInv(a: Awake, e: Event)
    requires AwakeInv(a)
    ensures AwakeInv(Step(a, e)) && Step(a, e).clients == if e.EvClients? then Count(e.reading) else a.clients
  {
    StepKeepsInv(a, e);
    StepKeepsClients(a, e);
  }

  lemma ConnectKeepsInv(g: Engine, env: Env)
    requires EngineInv(g)
    ensures EngineInv(EngineStep(g, EvConnect(env)))
  {
    ReportKeepsInv(g.awake, EvClients(Reported(g.remoteClients + 1), env));
  }

  lemma ReleaseKeepsInv(g: Engine, connection: nat, env: Env)
    requires EngineInv(g)
    ensures EngineInv(EngineStep(g, EvRelease(connection, env)))
  {
    if connection in g.live {
      assert |g.live - {connection}| == |g.live| - 1;
      ReportKeepsInv(g.awake, EvClients(Reported(g.remoteClients - 1), env));
    }
  }

  lemma EngineStepKeepsInv(g: Engine, e: EngineEvent)
    requires EngineInv(g)
    ensures EngineInv(EngineStep(g, e))
  {
    match e
    case EvConnect(env) => ConnectKeepsInv(g, env);
    case EvRelease(connection, env) => ReleaseKeepsInv(g, connection, env);
    case EvTurns(reading, env) => ReportKeepsInv(g.awake, EvAgents(reading, env));
    case EvOther(event) => ReportKeepsInv(g.awake, event);
  }

  /** The engine starts with the invariant: nobody is connected. */
  lemma EngineStarts(darwin: bool, hasBlocker: bool, mode: Mode, env: Env)
    ensures EngineInv(Engine(Create(darwin, hasBlocker, mode, env), 0, 0, {}))
  {
    RefreshKeepsInv(Awake(darwin, hasBlocker, mode, 0, 0, false, None, [], RESET, Blocker(None, {}, 0)), env);
  }

  lemma {:induction false} EngineRunKeepsInv(g: Engine, events: seq<EngineEvent>)
    requires EngineInv(g)
    ensures EngineInv(EngineRun(g, events))
    decreases |events|
  {
    if events != [] {
      EngineStepKeepsInv(g, events[0]);
      EngineRunKeepsInv(EngineStep(g, events[0]), events[1..]);
    }
  }

  /** From the start of the engine, however often releases are repeated: the controller's client count is the number
      of unreleased connections, so on macOS the helper or its retry timer exists exactly while the mode is always, or
      is auto with an active turn or an unreleased connection. */
  lemma EngineRuns(darwin: bool, hasBlocker: bool, mode: Mode, env: Env, events: seq<EngineEvent>)
    ensures var h := EngineRun(Engine(Create(darwin, hasBlocker, mode, env), 0, 0, {}), events);
            var awake := h.awake;
            && h.remoteClients == |h.live| == awake.clients
            && (awake.darwin && !awake.disposed ==>
                  if awake.mode == Always || (awake.mode == Auto && (awake.agents > 0 || h.live != {}))
                  then awake.child.Some? != awake.retry.timer.Some?
                  else awake.child.None? && awake.retry.timer.None?)
  {
    var start := Engine(Create(darwin, hasBlocker, mode, env), 0, 0, {});
    EngineStarts(darwin, hasBlocker, mode, env);
    EngineRunKeepsInv(start, events);
  }

  // ----- the controller itself -----

  class ComputerAwakeController {
    const darwin: bool
    const hasBlocker: bool
    var mode: Mode
    var activeAgents: nat
    var remoteClients: nat
    var disposed: bool
    var caffeinate: Option<nat>
    var children: seq<Child>
    var retry: Retry
    var blocker: Blocker

    function View(): Awake
      reads this
    {
      Awake(darwin, hasBlocker, mode, activeAgents, remoteClients, disposed, caffeinate, children, retry, blocker)
    }

    constructor (darwin: bool, hasBlocker: bool, initialMode: Mode, env: Env)
      ensures View() == Create(darwin, hasBlocker, initialMode, env)
    {
      this.darwin, this.hasBlocker := darwin, hasBlocker;
      mode, activeAgents, remoteClients, disposed := initialMode, 0, 0, false;
      caffeinate, children, retry, blocker := None, [], RESET, Blocker(None, {}, 0);
      new;
      RefreshAll(env);
    }

    method IsBlockerActive(throws: bool) returns (active: bool)
      modifies this`blocker
      ensures blocker == Checked(old(blocker), throws)
      ensures active <==> blocker.id.Some?
    {
      if blocker.id == None {
        return false;
      }
      if throws || blocker.id.value in blocker.held {
        return true;
      }
      blocker := blocker.(id := None);
      return false;
    }

    method StartElectronBlocker(env: Env)
      modifies this`blocker
      ensures blocker == if hasBlocker then StartBlocker(old(blocker), env) else old(blocker)
    {
      if !hasBlocker {
        return;
      }
      var active := IsBlockerActive(env.check);
      if active {
        return;
      }
      if env.start {
        blocker := Blocker(Some(blocker.next), blocker.held + {blocker.next}, blocker.next + 1);
        active := IsBlockerActive(env.recheck);
      } else {
        blocker := blocker.(id := None);
      }
    }

    method StopElectronBlocker(env: Env)
      modifies this`blocker
      ensures blocker == StopBlocker(old(blocker), env)
    {
      if blocker.id == None {
        return;
      }
      if env.stop {
        blocker := blocker.(held := blocker.held - {blocker.id.value});
      }
      var active := IsBlockerActive(env.recheck);
      if !active {
        blocker := blocker.(id := None);
      }
    }

    method ScheduleNextRetry()
      modifies this`retry
      ensures View() == ScheduleRetry(old(View()))
    {
      if retry.timer != None || !Wanted(View()) || disposed {
        return;
      }
      var delay := Delay(retry.attempt);
      retry := Retry(Some(delay), retry.attempt + 1, retry.delays + [delay]);
    }

    method StartCaffeinate(env: Env)
      modifies this`caffeinate, this`children, this`retry
      ensures View() == StartHelper(old(View()), env)
    {
      if caffeinate != None || retry.timer != None {
        return;
      }
      if !env.spawn {
        ScheduleNextRetry();
        return;
      }
      caffeinate := Some(|children|);
      children := children + [Running];
    }

    method StopCaffeinate()
      modifies this`caffeinate, this`children
      ensures View() == StopHelper(old(View()))
    {
      if caffeinate == None {
        return;
      }
      var child := caffeinate.value;
      caffeinate := None;
      if child < |children| {
        children := children[child := Killed];
      }
    }

    method RefreshAll(env: Env)
      modifies this
      ensures View() == Refresh(old(View()), env)
    {
      if disposed {
        return;
      }
      if !darwin || !Wanted(View()) {
        retry := RESET;
        StopCaffeinate();
        StopElectronBlocker(env);
      } else {
        StartElectronBlocker(env);
        StartCaffeinate(env);
      }
      var _ := IsBlockerActive(env.status);
    }

    method SetModeTo(next: Mode, env: Env)
      modifies this
      ensures View() == SetMode(old(View()), next, env)
    {
      if mode == next {
        return;
      }
      mode := next;
      RefreshAll(env);
    }

    method SetActiveAgents(value: Reading, env: Env)
      modifies this
      ensures View() == SetAgents(old(View()), value, env)
    {
      if Count(value) == activeAgents {
        return;
      }
      activeAgents := Count(value);
      RefreshAll(env);
    }

    method SetRemoteClients(value: Reading, env: Env)
      modifies this
      ensures View() == SetClients(old(View()), value, env)
    {
      if Count(value) == remoteClients {
        return;
      }
      remoteClients := Count(value);
      RefreshAll(env);
    }

    method OnRetryTimer(env: Env)
      requires retry.timer.Some?
      modifies this
      ensures View() == RetryFires(old(View()), env)
    {
      retry := retry.(timer := None);
      RefreshAll(env);
    }

    method OnHelperFailed(child: nat, env: Env)
      modifies this
      ensures View() == HelperFails(old(View()), child, env)
    {
      if caffeinate != Some(child) || child >= |children| {
        return;
      }
      caffeinate := None;
      children := children[child := Exited];
      ScheduleNextRetry();
      var _ := IsBlockerActive(env.status);
    }

    method DisposeAll(env: Env)
      modifies this
      ensures View() == Dispose(old(View()), env)
    {
      if disposed {
        return;
      }
      disposed := true;
      retry := RESET;
      StopCaffeinate();
      StopElectronBlocker(env);
    }
  }
}
