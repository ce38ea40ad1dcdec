/** Installing an update: the updater's flags, the native staging callbacks, the quit handler, the engine gate
    and the channel coordinator as one state machine. Native and library calls answer with an outcome the
    environment chooses; every other event may come at any time, in any order. */
module Updater {
  import opened Options
  import M = EngineMaintenance
  import C = UpdateChannel

  type Channel = C.Channel

  /** A ready status carries the channel of the feed operation that downloaded the update. A version can be
      missing, because the code copies it from whatever status is current. */
  datatype Status =
    | Idle
    | Checking
    | Available
    | NotAvailable
    | Downloading
    | Ready(version: Option<nat>, channel: Channel)
    | Error(retryable: bool)

  /** What the native updater holds of this process's update. */
  datatype Stage =
    | NoStage
    | Pending(version: Option<nat>, channel: Channel)
    | TimedOut(version: Option<nat>, channel: Channel)
    | Staged(version: Option<nat>, channel: Channel)

  datatype Check = NoCheck | Requested | Submitted

  datatype Cleanup = NotStarted | InProgress | Complete

  /** What held at one call of a `quitAndInstall`. */
  datatype Call = Call(held: bool, startup: Option<nat>, switching: bool, update: Channel, feed: Channel)

  /** Native staging: its timers and its registered once-listeners, counted per event. */
  datatype Native = Native(
    stage: Stage,
    stagingTimer: bool,
    exitTimer: bool,
    earlyQuit: bool,          // before-quit-for-update has come while staging was still pending
    beforeQuit: nat,
    notAvailable: nat,
    downloaded: nat)

  datatype Quitting = Quitting(
    skipOnce: bool,
    quits: nat,               // calls of app.quit()
    cleanup: Cleanup)

  datatype Flags = Flags(
    darwin: bool,
    lifecycle: bool,          // the engine lifecycle has been set
    preparing: bool,
    quitIfBusy: bool,         // argument of the install in preparation
    failure: bool,            // an error was recorded during preparation
    installing: bool,
    admitted: Channel,        // channel of the update whose install was last admitted
    native: Native,
    quitting: Quitting,
    status: Status,
    check: Check,
    feed: Option<Channel>,    // channel the running feed operation was configured with
    calls: seq<Call>)         // quitAndInstall calls, in order

  datatype Sys = Sys(u: Flags, gate: M.Gate, chan: C.Coordinator)

  const UPDATER: M.Scope := 0

  function Launch(darwin: bool, channel: Channel): Sys {
    Sys(Flags(darwin, false, false, false, false, false, channel, Native(NoStage, false, false, false, 0, 0, 0),
              Quitting(false, 0, NotStarted), Idle, NoCheck, None, []),
        M.OPEN, C.Start(channel))
  }

  predicate Locked(u: Flags) { u.preparing || u.installing || u.native.stage != NoStage }

  function Removed(listeners: nat): nat { if listeners > 0 then listeners - 1 else 0 }

  function Released(s: Sys): M.Gate { if s.u.lifecycle then M.Resume(s.gate, UPDATER) else s.gate }

  function CallOf(s: Sys): Call {
    Call(M.Held(s.gate, UPDATER), s.gate.startup, C.Switching(s.chan), s.u.admitted, s.chan.channel)
  }

  // ----- installation -----

  function GiveUp(n: Native, darwin: bool): Native {
    var stage := if n.stage.Staged? then n.stage else NoStage;
    if darwin then
      Native(stage, false, false, n.earlyQuit, Removed(n.beforeQuit), Removed(n.notAvailable), Removed(n.downloaded))
    else n.(stage := stage, stagingTimer := false, exitTimer := false)
  }

  function FailInstall(s: Sys): Sys {
    if s.u.preparing then s.(u := s.u.(failure := true))
    else
      s.(u := s.u.(installing := false, status := Error(true), native := GiveUp(s.u.native, s.u.darwin)),
         gate := Released(s))
  }

  function QuitAgain(q: Quitting): Quitting { q.(skipOnce := true, quits := q.quits + 1) }

  /** Lets the quit that asked for the install go on without it. */
  function QuitAnyway(s: Sys): Sys {
    s.(u := s.u.(preparing := false, quitting := QuitAgain(s.u.quitting)), gate := Released(s))
  }

  function AbortPreparation(s: Sys): Sys {
    if s.u.quitIfBusy then QuitAnyway(s) else FailInstall(s.(u := s.u.(preparing := false)))
  }

  predicate Installable(s: Sys) {
    && !C.Switching(s.chan)
    && !s.u.preparing
    && s.u.status.Ready?
    && !s.u.installing
    && (s.u.native.stage == NoStage || s.u.native.stage.Staged?)
  }

  function InstallUpdate(s: Sys, quitIfBusy: bool): Sys {
    if !Installable(s) then s
    else
      var begun := s.(u := s.u.(preparing := true, failure := false, quitIfBusy := quitIfBusy,
          admitted := s.u.status.channel));
      if !s.u.lifecycle then AbortPreparation(begun)
      else begun.(gate := M.BeginPrepare(s.gate, UPDATER))
  }

  function QuitAndInstall(s: Sys, ok: bool): Sys {
    var called := s.(u := s.u.(calls := s.u.calls + [CallOf(s)]));
    if ok then called else FailInstall(called)
  }

  function StartStaging(n: Native, version: Option<nat>, channel: Channel): Native {
    Native(Pending(version, channel), true, n.exitTimer, n.earlyQuit, n.beforeQuit + 1, n.notAvailable + 1,
        n.downloaded + 1)
  }

  /** Hands the update to the installer, on macOS after native staging unless that is done already. */
  function HandOver(s: Sys, ok: bool): Sys {
    var n := s.u.native;
    if !s.u.darwin then
      if ok then
        var quit := QuitAndInstall(s, true);
        quit.(u := quit.u.(native := n.(exitTimer := true)))
      else QuitAndInstall(s, false)
    else if n.stage.Staged? then
      QuitAndInstall(s.(u := s.u.(native := n.(beforeQuit := n.beforeQuit + 1))), ok)
    else
      var version := if s.u.status.Ready? then s.u.status.version else None;
      var staging := s.(u := s.u.(native := StartStaging(n, version, s.u.admitted)));
      if ok then staging else FailInstall(staging)
  }

  predicate PrepareAnswered(s: Sys) {
    s.u.lifecycle && s.u.preparing && UPDATER in s.gate.prepares && s.gate.prepares[UPDATER].Answered?
  }

  /** `installUpdate` goes on once `prepare` has settled. */
  function ContinueInstall(s: Sys, ok: bool): Sys {
    if !PrepareAnswered(s) then s
    else if s.u.failure || s.gate.prepares[UPDATER].answer.Threw? then AbortPreparation(s)
    else if s.gate.prepares[UPDATER].answer.Busy? then
      if s.u.quitIfBusy then QuitAnyway(s)
      else s.(u := s.u.(preparing := false, status := Error(true)), gate := M.Resume(s.gate, UPDATER))
    else HandOver(s.(u := s.u.(preparing := false, installing := true)), ok)
  }

  // ----- native callbacks and timers -----

  function StagingTimedOut(s: Sys): Sys {
    var n := s.u.native;
    if !n.stagingTimer then s
    else if !n.stage.Pending? then s.(u := s.u.(native := n.(stagingTimer := false)))
    else
      var overdue := n.(stagingTimer := false, stage := TimedOut(n.stage.version, n.stage.channel),
          beforeQuit := Removed(n.beforeQuit));
      s.(u := s.u.(native := overdue, installing := false, status := Error(false)), gate := Released(s))
  }

  function NativeDownloaded(s: Sys, ok: bool): Sys {
    var n := s.u.native;
    if n.downloaded == 0 then s
    else
      var heard := n.(downloaded := n.downloaded - 1, stagingTimer := false, notAvailable := Removed(n.notAvailable));
      if n.stage == NoStage then s.(u := s.u.(native := heard))
      else
        var staged := heard.(stage := Staged(n.stage.version, n.stage.channel));
        if n.stage.TimedOut? then s.(u := s.u.(native := staged, status := Ready(n.stage.version, n.stage.channel)))
        else QuitAndInstall(s.(u := s.u.(native := staged)), ok)
  }

  function NativeNotAvailable(s: Sys): Sys {
    var n := s.u.native;
    if n.notAvailable == 0 then s else FailInstall(s.(u := s.u.(native := n.(notAvailable := n.notAvailable - 1))))
  }

  function BeforeQuitForUpdate(s: Sys): Sys {
    var n := s.u.native;
    if n.beforeQuit == 0 then s
    else
      s.(u := s.u.(native := n.(beforeQuit := n.beforeQuit - 1, earlyQuit := n.earlyQuit || n.stage.Pending?,
                                exitTimer := n.exitTimer || s.u.installing)))
  }

  function UpdaterError(s: Sys): Sys {
    if C.Switching(s.chan) then s
    else if Locked(s.u) then FailInstall(s)
    else if s.u.check != NoCheck then s
    else s.(u := s.u.(status := Error(true)))
  }

  // ----- quitting -----

  predicate DefersQuit(s: Sys) {
    && s.u.quitting.cleanup != Complete
    && !s.u.installing
    && !s.u.quitting.skipOnce
    && (s.u.preparing || s.u.status.Ready?)
  }

  function BeforeQuit(s: Sys): Sys {
    var q := s.u.quitting;
    if DefersQuit(s) then (if s.u.preparing then s else InstallUpdate(s, true))
    else
      s.(u := s.u.(quitting := q.(cleanup := if q.cleanup == NotStarted then InProgress else q.cleanup,
                                  skipOnce := q.skipOnce && (q.cleanup == Complete || s.u.installing))))
  }

  function CleanupDone(s: Sys): Sys {
    var q := s.u.quitting;
    if q.cleanup != InProgress then s else s.(u := s.u.(quitting := q.(cleanup := Complete, quits := q.quits + 1)))
  }

  // ----- feed operations and channel switches -----

  function RunCheck(s: Sys): Sys {
    var stage := s.u.native.stage;
    if Locked(s.u) then
      if !s.u.installing && stage.Staged? then s.(u := s.u.(status := Ready(stage.version, stage.channel))) else s
    else if s.u.check != NoCheck then s
    else s.(u := s.u.(check := Requested))
  }

  function SubmitCheck(s: Sys): Sys {
    if s.u.check != Requested then s else s.(u := s.u.(check := Submitted), chan := C.RunOperation(s.chan, 0))
  }

  /** The check's promise settles after its operation has left the chain. A failure is shown unless a switch is
      pending or an automatic retry was scheduled. */
  function CheckSettles(s: Sys, failed: bool, retried: bool): Sys {
    if s.u.check != Submitted || (exists job <- C.Unstarted(s.chan) :: job.Operation?) then s
    else
      s.(u := s.u.(check := NoCheck,
                   status := if failed && !retried && !C.Switching(s.chan) then Error(true) else s.u.status))
  }

  datatype Feed = FeedChecking | FeedAvailable | FeedNotAvailable | FeedProgress | FeedDownloaded(version: nat)

  /** An event of the update library, heard while a configured operation is running. */
  function FeedEvent(s: Sys, e: Feed): Sys {
    if s.u.feed.None? || C.Switching(s.chan) then s
    else
      s.(u := s.u.(status := match e
                             case FeedChecking => Checking
                             case FeedAvailable => Available
                             case FeedNotAvailable => NotAvailable
                             case FeedProgress => Downloading
                             case FeedDownloaded(version) => Ready(Some(version), s.u.feed.value)))
  }

  /** A switch request is refused while an update is being installed; otherwise it revokes the ready update. */
  function RequestChannel(s: Sys, value: Option<Channel>): Sys {
    if Locked(s.u) || value.None? then s
    else s.(u := s.u.(status := Idle), chan := C.SetChannel(s.chan, value))
  }

  /** A starting operation configures the feed with the current channel, or returns at once while locked. */
  function ChainBegins(s: Sys): Sys {
    var chan := C.Begin(s.chan);
    if s.chan.running.None? && chan.running.Some? && chan.running.value.Operation? then
      s.(chan := chan, u := s.u.(feed := if Locked(s.u) then None else Some(chan.channel)))
    else s.(chan := chan)
  }

  function ChainSettles(s: Sys, ok: bool): Sys {
    s.(chan := C.Settle(s.chan, ok), u := s.u.(feed := None))
  }

  // ----- the whole system -----

  datatype Event =
    | EvSetLifecycle
    | EvInstall
    | EvContinue(ok: bool)
    | EvStagingTimeout
    | EvNativeDownloaded(ok: bool)
    | EvNativeNotAvailable
    | EvBeforeQuitForUpdate
    | EvError
    | EvBeforeQuit
    | EvCleanupDone
    | EvCheck
    | EvSubmitCheck
    | EvCheckSettles(failed: bool, retried: bool)
    | EvFeed(feed: Feed)
    | EvRequestChannel(value: Option<Channel>)
    | EvChainBegins
    | EvChainSettles(ok: bool)
    | EvGate(gate: M.Event)

  /** What network maintenance, desktop callers and the engine do. The updater's own scope is prepared and
      resumed by the updater alone; another scope resumes only after its own `prepare` has settled. */
  predicate Outside(s: Sys, e: M.Event) {
    && e != M.EvPrepare(UPDATER)
    && e != M.EvResume(UPDATER)
    && M.Disciplined(s.gate, e)
  }

  function Step(s: Sys, e: Event): Sys {
    match e
    case EvSetLifecycle => s.(u := s.u.(lifecycle := true))
    case EvInstall => InstallUpdate(s, false)
    case EvContinue(ok) => ContinueInstall(s, ok)
    case EvStagingTimeout => StagingTimedOut(s)
    case EvNativeDownloaded(ok) => NativeDownloaded(s, ok)
    case EvNativeNotAvailable => NativeNotAvailable(s)
    case EvBeforeQuitForUpdate => BeforeQuitForUpdate(s)
    case EvError => UpdaterError(s)
    case EvBeforeQuit => BeforeQuit(s)
    case EvCleanupDone => CleanupDone(s)
    case EvCheck => RunCheck(s)
    case EvSubmitCheck => SubmitCheck(s)
    case EvCheckSettles(failed, retried) => CheckSettles(s, failed, retried)
    case EvFeed(feed) => FeedEvent(s, feed)
    case EvRequestChannel(value) => RequestChannel(s, value)
    case EvChainBegins => ChainBegins(s)
    case EvChainSettles(ok) => ChainSettles(s, ok)
    case EvGate(gate) => if Outside(s, gate) then s.(gate := M.Step(s.gate, gate)) else s
  }

  function Run(s: Sys, events: seq<Event>): Sys
    decreases |events|
  {
    if events == [] then s else Run(Step(s, events[0]), events[1..])
  }

  // ----- invariants -----

  /** The flags, the staging timer and the once-listeners agree with one another. */
  ghost predicate FlagsInv(u: Flags) {
    var n := u.native;
    && !(u.preparing && u.installing)
    && (u.preparing ==> n.stage.NoStage? || n.stage.Staged?)
    && (u.installing && u.darwin ==> n.stage.Pending? || n.stage.Staged?)
    && (n.stage.Pending? ==> u.installing)
    && (n.stage.TimedOut? ==> !u.installing)
    && (!u.darwin ==> n.stage.NoStage?)
    && (n.stagingTimer <==> n.stage.Pending?)
    && n.downloaded == n.notAvailable == (if n.stage.Pending? || n.stage.TimedOut? then 1 else 0)
    && n.beforeQuit <= (if u.installing && u.darwin then 1 else 0)
    && (n.exitTimer ==> n.earlyQuit || (u.installing && !n.stage.Pending?))
  }

  /** The updater's scope owns the gate only while preparing or installing, and always while installing. */
  ghost predicate OwnershipInv(s: Sys) {
    && M.GateInv(s.gate)
    && (s.u.installing ==> s.u.lifecycle && M.Held(s.gate, UPDATER))
    && (s.u.preparing ==> s.u.lifecycle && UPDATER in s.gate.prepares)
    && (s.u.preparing && s.gate.prepares[UPDATER] == M.Answered(M.Stopped) ==> M.Held(s.gate, UPDATER))
    && (s.gate.owner == Some(UPDATER) ==> s.u.preparing || s.u.installing)
  }

  /** Whatever is ready, staged or being installed was produced under the coordinator's current channel. */
  ghost predicate ChannelInv(s: Sys) {
    && C.Counted(s.chan)
    && (C.Switching(s.chan) ==> !Locked(s.u) && s.u.status == Idle)
    && (s.u.status.Ready? ==> s.u.status.channel == s.chan.channel)
    && (s.u.native.stage != NoStage ==> s.u.native.stage.channel == s.chan.channel)
    && (s.u.preparing || s.u.installing ==> s.u.admitted == s.chan.channel)
    && (s.u.feed.Some? ==> s.chan.running.Some? && s.chan.running.value.Operation? && s.u.feed.value == s.chan.channel)
  }

  predicate SafeCall(c: Call) { c.held && c.startup.None? && !c.switching && c.update == c.feed }

  ghost predicate SysInv(s: Sys) {
    && FlagsInv(s.u)
    && OwnershipInv(s)
    && ChannelInv(s)
    && forall c <- s.u.calls :: SafeCall(c)
  }

  /** Failing keeps the invariant, also in the middle of a step: when the preparation has just been given up, or
      when one of the staging listeners has just been consumed. */
  lemma FailKeepsInv(s: Sys)
    requires ChannelInv(s) && !C.Switching(s.chan) && M.GateInv(s.gate)
    requires forall c <- s.u.calls :: SafeCall(c)
    requires var n := s.u.native;
             FlagsInv(s.u) || (n.notAvailable == 0 && FlagsInv(s.u.(native := n.(notAvailable := n.downloaded))))
    requires if s.u.preparing then OwnershipInv(s) && FlagsInv(s.u)
             else !M.InFlight(s.gate, UPDATER) && (s.gate.owner == Some(UPDATER) ==> s.u.lifecycle)
    ensures SysInv(FailInstall(s))
  {
    if !s.u.preparing {
      M.StepKeepsGateInv(s.gate, M.EvResume(UPDATER));
    }
  }

  lemma AbortKeepsInv(s: Sys)
    requires FlagsInv(s.u) && ChannelInv(s) && M.GateInv(s.gate) && s.u.preparing
    requires forall c <- s.u.calls :: SafeCall(c)
    requires !M.InFlight(s.gate, UPDATER) && (s.gate.owner == Some(UPDATER) ==> s.u.lifecycle)
    ensures SysInv(AbortPreparation(s))
  {
    if s.u.quitIfBusy {
      M.StepKeepsGateInv(s.gate, M.EvResume(UPDATER));
    } else {
      FailKeepsInv(s.(u := s.u.(preparing := false)));
    }
  }

  lemma InstallKeepsInv(s: Sys, quitIfBusy: bool)
    requires SysInv(s)
    ensures SysInv(InstallUpdate(s, quitIfBusy))
  {
    if Installable(s) {
      if s.u.lifecycle {
        M.StepKeepsGateInv(s.gate, M.EvPrepare(UPDATER));
      } else {
        AbortKeepsInv(s.(u := s.u.(preparing := true, failure := false, quitIfBusy := quitIfBusy,
                                   admitted := s.u.status.channel)));
      }
    }
  }

  /** A native or library quit-and-install keeps the invariant, and is logged as a safe call. */
  lemma QuitAndInstallKeepsInv(s: Sys, ok: bool)
    requires SysInv(s) && s.u.installing && !C.Switching(s.chan)
    ensures SysInv(QuitAndInstall(s, ok))
  {
    var called := s.(u := s.u.(calls := s.u.calls + [CallOf(s)]));
    assert SafeCall(CallOf(s));
    if !ok {
      FailKeepsInv(called);
    }
  }

  lemma StagingKeepsInv(s: Sys, ok: bool)
    requires OwnershipInv(s) && ChannelInv(s) && s.u.installing && !s.u.preparing && !C.Switching(s.chan)
    requires FlagsInv(s.u.(installing := false)) && s.u.darwin && s.u.native.stage.NoStage?
    requires forall c <- s.u.calls :: SafeCall(c)
    ensures SysInv(HandOver(s, ok))
  {
    var version := if s.u.status.Ready? then s.u.status.version else None;
    if !ok {
      FailKeepsInv(s.(u := s.u.(native := StartStaging(s.u.native, version, s.u.admitted))));
    }
  }

  lemma HandOverKeepsInv(s: Sys, ok: bool)
    requires OwnershipInv(s) && ChannelInv(s) && s.u.installing && !s.u.preparing && !C.Switching(s.chan)
    requires FlagsInv(s.u.(installing := false)) && (s.u.native.stage.NoStage? || s.u.native.stage.Staged?)
    requires forall c <- s.u.calls :: SafeCall(c)
    ensures SysInv(HandOver(s, ok))
  {
    var n := s.u.native;
    if !s.u.darwin {
      QuitAndInstallKeepsInv(s, ok);
    } else if n.stage.Staged? {
      QuitAndInstallKeepsInv(s.(u := s.u.(native := n.(beforeQuit := n.beforeQuit + 1))), ok);
    } else {
      StagingKeepsInv(s, ok);
    }
  }

  lemma ContinueKeepsInv(s: Sys, ok: bool)
    requires SysInv(s)
    ensures SysInv(ContinueInstall(s, ok))
  {
    if PrepareAnswered(s) {
      var answer := s.gate.prepares[UPDATER].answer;
      if s.u.failure || answer.Threw? {
        AbortKeepsInv(s);
      } else if answer.Busy? {
        M.StepKeepsGateInv(s.gate, M.EvResume(UPDATER));
      } else {
        HandOverKeepsInv(s.(u := s.u.(preparing := false, installing := true)), ok);
      }
    }
  }

  lemma TimeoutKeepsInv(s: Sys)
    requires SysInv(s)
    ensures SysInv(StagingTimedOut(s))
  {
    if s.u.native.stage.Pending? {
      M.StepKeepsGateInv(s.gate, M.EvResume(UPDATER));
    }
  }

  lemma DownloadedKeepsInv(s: Sys, ok: bool)
    requires SysInv(s)
    ensures SysInv(NativeDownloaded(s, ok))
  {
    var n := s.u.native;
    if n.stage.Pending? {
      var staged := n.(downloaded := 0, stagingTimer := false, notAvailable := 0,
                       stage := Staged(n.stage.version, n.stage.channel));
      QuitAndInstallKeepsInv(s.(u := s.u.(native := staged)), ok);
    }
  }

  lemma NotAvailableKeepsInv(s: Sys)
    requires SysInv(s)
    ensures SysInv(NativeNotAvailable(s))
  {
    var n := s.u.native;
    if n.notAvailable > 0 {
      FailKeepsInv(s.(u := s.u.(native := n.(notAvailable := n.notAvailable - 1))));
    }
  }

  lemma ErrorKeepsInv(s: Sys)
    requires SysInv(s)
    ensures SysInv(UpdaterError(s))
  {
    if !C.Switching(s.chan) && Locked(s.u) {
      FailKeepsInv(s);
    }
  }

  lemma RequestKeepsInv(s: Sys, value: Option<Channel>)
    requires SysInv(s)
    ensures SysInv(RequestChannel(s, value)) && SysInv(SubmitCheck(s))
  {
    C.StepKeepsCounted(s.chan, C.EvRun(0));
    C.StepKeepsCounted(s.chan, C.EvSet(value));
  }

  lemma ChainKeepsInv(s: Sys, ok: bool)
    requires SysInv(s)
    ensures SysInv(ChainBegins(s)) && SysInv(ChainSettles(s, ok))
  {
    C.StepKeepsCounted(s.chan, C.EvBegin);
    C.StepKeepsCounted(s.chan, C.EvSettle(ok));
  }

  lemma GateKeepsInv(s: Sys, e: M.Event)
    requires SysInv(s) && Outside(s, e)
    ensures SysInv(s.(gate := M.Step(s.gate, e)))
  {
    M.StepKeepsGateInv(s.gate, e);
    M.OthersCannotTouch(s.gate, e, UPDATER);
  }

  lemma FeedKeepsInv(s: Sys, e: Feed)
    requires SysInv(s)
    ensures SysInv(FeedEvent(s, e))
  {
  }

  lemma CheckKeepsInv(s: Sys, failed: bool, retried: bool)
    requires SysInv(s)
    ensures SysInv(CheckSettles(s, failed, retried))
  {
  }

  lemma RunCheckKeepsInv(s: Sys)
    requires SysInv(s)
    ensures SysInv(RunCheck(s))
  {
  }

  lemma WatchdogKeepsInv(s: Sys)
    requires SysInv(s)
    ensures SysInv(BeforeQuitForUpdate(s))
  {
  }

  lemma QuitKeepsInv(s: Sys)
    requires SysInv(s)
    ensures SysInv(BeforeQuit(s))
  {
    if DefersQuit(s) {
      InstallKeepsInv(s, true);
    }
  }

  lemma StepKeepsInv(s: Sys, e: Event)
    requires SysInv(s)
    ensures SysInv(Step(s, e))
  {
    match e
    case EvSetLifecycle =>
    case EvInstall => InstallKeepsInv(s, false);
    case EvContinue(ok) => ContinueKeepsInv(s, ok);
    case EvStagingTimeout => TimeoutKeepsInv(s);
    case EvNativeDownloaded(ok) => DownloadedKeepsInv(s, ok);
    case EvNativeNotAvailable => NotAvailableKeepsInv(s);
    case EvBeforeQuitForUpdate => WatchdogKeepsInv(s);
    case EvError => ErrorKeepsInv(s);
    case EvBeforeQuit => QuitKeepsInv(s);
    case EvCleanupDone =>
    case EvCheck => RunCheckKeepsInv(s);
    case EvSubmitCheck => RequestKeepsInv(s, None);
    case EvCheckSettles(failed, retried) => CheckKeepsInv(s, failed, retried);
    case EvFeed(feed) => FeedKeepsInv(s, feed);
    case EvRequestChannel(value) => RequestKeepsInv(s, value);
    case EvChainBegins => ChainKeepsInv(s, true);
    case EvChainSettles(ok) => ChainKeepsInv(s, ok);
    case EvGate(gate) => if Outside(s, gate) { GateKeepsInv(s, gate); }
  }

  lemma {:induction false} RunKeepsInv(s: Sys, events: seq<Event>)
    requires SysInv(s)
    ensures SysInv(Run(s, events))
    decreases |events|
  {
    if events != [] {
      StepKeepsInv(s, events[0]);
      RunKeepsInv(Step(s, events[0]), events[1..]);
    }
  }

  // ----- what every run promises -----

  /** In every run, every native or library quit-and-install is called while the updater's scope holds the gate
      after a "stopped" answer, with no engine startup in flight and no channel switch pending, for an update that
      came from the channel still in force. */
  lemma HandOffsAreSafe(darwin: bool, channel: Channel, events: seq<Event>)
    ensures forall c <- Run(Launch(darwin, channel), events).u.calls :: SafeCall(c)
  {
    RunKeepsInv(Launch(darwin, channel), events);
  }

  /** In every reachable state, a pending switch leaves nothing installable and nothing being installed, and what
      is ready or staged belongs to the channel in force. */
  lemma OldChannelIsNeverInstallable(darwin: bool, channel: Channel, events: seq<Event>, quitIfBusy: bool)
    ensures var s := Run(Launch(darwin, channel), events);
            && (C.Switching(s.chan) ==> s.u.status == Idle && !Locked(s.u) && InstallUpdate(s, quitIfBusy) == s)
            && (s.u.status.Ready? ==> s.u.status.channel == s.chan.channel)
            && (s.u.native.stage != NoStage ==> s.u.native.stage.channel == s.chan.channel)
  {
    RunKeepsInv(Launch(darwin, channel), events);
  }

  /** The six phases the flags encode. */
  datatype Phase = Free | Preparing | Staging | Overdue | Parked | Leaving

  function PhaseOf(u: Flags): Phase {
    if u.preparing then Preparing
    else if u.installing then (if u.native.stage.Pending? then Staging else Leaving)
    else match u.native.stage
      case TimedOut(_, _) => Overdue
      case Staged(_, _) => Parked
      case _ => Free
  }

  /** The protocol: an overdue or parked stage reaches a quit only through a new preparation. */
  predicate Follows(p: Phase, q: Phase) {
    p == q ||
    match p
    case Free => q == Preparing
    case Parked => q == Preparing
    case Preparing => q != Overdue
    case Staging => q != Preparing
    case Overdue => q == Parked || q == Free
    case Leaving => q == Free || q == Parked
  }

  predicate CallsOnce(u: Flags, v: Flags) {
    v.calls == u.calls ||
    (|v.calls| == |u.calls| + 1 && v.calls[..|u.calls|] == u.calls && PhaseOf(u) in {Preparing, Staging})
  }

  predicate Moves(u: Flags, v: Flags) { Follows(PhaseOf(u), PhaseOf(v)) && CallsOnce(u, v) }

  lemma InstallMoves(s: Sys, quitIfBusy: bool)
    requires SysInv(s)
    ensures Moves(s.u, InstallUpdate(s, quitIfBusy).u)
  {
  }

  lemma ContinueMoves(s: Sys, ok: bool)
    requires SysInv(s)
    ensures Moves(s.u, ContinueInstall(s, ok).u)
  {
  }

  lemma DownloadedMoves(s: Sys, ok: bool)
    requires SysInv(s)
    ensures Moves(s.u, NativeDownloaded(s, ok).u)
  {
  }

  lemma FailureMoves(s: Sys)
    requires SysInv(s)
    ensures Moves(s.u, NativeNotAvailable(s).u)
    ensures Moves(s.u, UpdaterError(s).u)
    ensures Moves(s.u, StagingTimedOut(s).u)
  {
  }

  predicate SameInstall(u: Flags, v: Flags) {
    v.preparing == u.preparing && v.installing == u.installing && v.native.stage == u.native.stage && v.calls == u.calls
  }

  lemma FeedMovesNothing(s: Sys, e: Event)
    requires e.EvCheck? || e.EvSubmitCheck? || e.EvCheckSettles? || e.EvFeed?
    ensures SameInstall(s.u, Step(s, e).u)
  {
  }

  lemma ChannelMovesNothing(s: Sys, e: Event)
    requires e.EvRequestChannel? || e.EvChainBegins? || e.EvChainSettles?
    ensures SameInstall(s.u, Step(s, e).u)
  {
  }

  lemma QuietMoves(s: Sys, e: Event)
    requires e.EvSetLifecycle? || e.EvBeforeQuitForUpdate? || e.EvCleanupDone? || e.EvCheck? || e.EvSubmitCheck? ||
             e.EvCheckSettles? || e.EvFeed? || e.EvRequestChannel? || e.EvChainBegins? || e.EvChainSettles? || e.EvGate?
    ensures SameInstall(s.u, Step(s, e).u)
  {
    match e
    case EvSetLifecycle =>
    case EvBeforeQuitForUpdate =>
    case EvCleanupDone =>
    case EvGate(_) =>
    case EvRequestChannel(_) => ChannelMovesNothing(s, e);
    case EvChainBegins => ChannelMovesNothing(s, e);
    case EvChainSettles(_) => ChannelMovesNothing(s, e);
    case _ => FeedMovesNothing(s, e);
  }

  /** Every step of the flags is a step of the protocol, and a quit-and-install is called at most once in a step,
      only on the way out of a preparation or of staging. */
  lemma StepFollowsPhases(s: Sys, e: Event)
    requires SysInv(s)
    ensures Moves(s.u, Step(s, e).u)
  {
    match e
    case EvInstall => InstallMoves(s, false);
    case EvContinue(ok) => ContinueMoves(s, ok);
    case EvStagingTimeout => FailureMoves(s);
    case EvNativeDownloaded(ok) => DownloadedMoves(s, ok);
    case EvNativeNotAvailable => FailureMoves(s);
    case EvError => FailureMoves(s);
    case EvBeforeQuit => InstallMoves(s, true);
    case _ => QuietMoves(s, e);
  }

  lemma StaysIdle(s: Sys, e: Event)
    requires SysInv(s) && !s.u.preparing && !s.u.installing && e != EvInstall && e != EvBeforeQuit
    ensures !Step(s, e).u.preparing && !Step(s, e).u.installing
  {
    match e
    case EvContinue(_) =>
    case EvStagingTimeout =>
    case EvNativeDownloaded(_) =>
    case EvNativeNotAvailable =>
    case EvError =>
    case _ => QuietMoves(s, e);
  }

  /** A stage that timed out, or one staged and parked, never quits by itself: until someone asks to install or to
      quit, no quit-and-install is called. */
  lemma {:induction false} IdleStageNeverQuits(s: Sys, events: seq<Event>)
    requires SysInv(s) && !s.u.preparing && !s.u.installing
    requires EvInstall !in events && EvBeforeQuit !in events
    ensures Run(s, events).u.calls == s.u.calls
    decreases |events|
  {
    if events != [] {
      var e := events[0];
      assert e in events;
      StepKeepsInv(s, e);
      StepFollowsPhases(s, e);
      StaysIdle(s, e);
      IdleStageNeverQuits(Step(s, events[0]), events[1..]);
    }
  }

  predicate AlwaysInstalling(s: Sys, events: seq<Event>)
    decreases |events|
  {
    s.u.installing && (events == [] || AlwaysInstalling(Step(s, events[0]), events[1..]))
  }

  lemma EngineStaysDown(s: Sys, e: Event)
    requires SysInv(s) && s.u.installing
    ensures Step(s, e).gate.started == s.gate.started && Step(s, e).gate.handedOut == s.gate.handedOut
  {
    if e.EvGate? && Outside(s, e.gate) {
      M.GateStaysClosed(s.gate, UPDATER, [e.gate]);
      assert M.Run(s.gate, [e.gate]) == M.Step(s.gate, e.gate);
    }
  }

  /** For as long as an installation lasts, no engine is started and no endpoint is handed out. */
  lemma {:induction false} NoEngineWhileInstalling(s: Sys, events: seq<Event>)
    requires SysInv(s) && AlwaysInstalling(s, events)
    ensures var t := Run(s, events); t.gate.started == s.gate.started && t.gate.handedOut == s.gate.handedOut
    decreases |events|
  {
    if events != [] {
      StepKeepsInv(s, events[0]);
      EngineStaysDown(s, events[0]);
      NoEngineWhileInstalling(Step(s, events[0]), events[1..]);
    }
  }

  /** When a quit asked for the install and the engine is busy, unreachable or an error was recorded, the gate is
      released, a new quit is issued, and that quit is not deferred again. */
  lemma RefusedInstallLetsTheQuitThrough(s: Sys, ok: bool)
    requires SysInv(s) && PrepareAnswered(s) && s.u.quitIfBusy
    requires s.u.failure || !s.gate.prepares[UPDATER].answer.Stopped?
    ensures var t := ContinueInstall(s, ok);
            && t.gate.owner != Some(UPDATER) && t.u.calls == s.u.calls
            && t.u.quitting.quits == s.u.quitting.quits + 1 && !DefersQuit(t)
            && BeforeQuit(t).u.quitting.cleanup != NotStarted
            && (s.u.quitting.cleanup != Complete ==> !BeforeQuit(t).u.quitting.skipOnce)
  {
  }

  /** The quit handler does something with a quit it has prevented: an install is prepared on behalf of it, or another
      quit has been issued. */
  predicate QuitGoesOn(before: Sys, after: Sys) {
    (after.u.preparing && after.u.quitIfBusy) || after.u.quitting.quits > before.u.quitting.quits
  }

  /** The handler drops a prevented quit at once in two cases: a preparation somebody else asked for is under way, or
      the native stage has timed out while an update is shown as ready. How a preparation ends is another matter. */
  lemma DeferredQuitGoesOnExactly(s: Sys)
    requires SysInv(s) && DefersQuit(s)
    ensures QuitGoesOn(s, BeforeQuit(s)) <==> if s.u.preparing then s.u.quitIfBusy else !s.u.native.stage.TimedOut?
    ensures !QuitGoesOn(s, BeforeQuit(s)) ==> BeforeQuit(s) == s
  {
  }

  /** In the first case the quit is lost for good if the engine is busy or the preparation fails. */
  lemma RefusedInstallDropsOtherQuits(s: Sys, ok: bool)
    requires SysInv(s) && PrepareAnswered(s) && !s.u.quitIfBusy
    requires s.u.failure || !s.gate.prepares[UPDATER].answer.Stopped?
    ensures var t := ContinueInstall(s, ok);
            !t.u.preparing && !t.u.installing && t.u.status == Error(true) && t.u.quitting == s.u.quitting
  {
  }

  // ----- how an installation ends -----

  predicate Active(u: Flags) { PhaseOf(u) in {Phase.Preparing, Phase.Staging, Phase.Leaving} }

  /** The preparation was refused or failed. */
  predicate Refused(s: Sys) {
    s.u.failure || UPDATER !in s.gate.prepares || s.gate.prepares[UPDATER] != M.Answered(M.Stopped)
  }

  lemma ContinueEnds(s: Sys, ok: bool)
    requires SysInv(s) && Active(s.u)
    ensures var t := ContinueInstall(s, ok);
            && !Active(t.u) ==> t.u.quitting == (if s.u.preparing && s.u.quitIfBusy && Refused(s)
                                                 then QuitAgain(s.u.quitting) else s.u.quitting)
    ensures Active(ContinueInstall(s, ok).u) ==> ContinueInstall(s, ok).u.quitting == s.u.quitting
    ensures ContinueInstall(s, ok).u.quitIfBusy == s.u.quitIfBusy
  {
  }

  predicate SameQuit(u: Flags, v: Flags) {
    v.quitting == u.quitting && v.quitIfBusy == u.quitIfBusy && v.preparing == u.preparing
  }

  lemma FailKeepsQuitting(s: Sys)
    ensures SameQuit(s.u, FailInstall(s).u)
  {
  }

  lemma DownloadedKeepsQuitting(s: Sys)
    ensures SameQuit(s.u, NativeDownloaded(s, true).u)
  {
  }

  /** A quit-and-install that throws differs from one that does not only by the failure. */
  lemma DownloadedFails(s: Sys)
    ensures var t := NativeDownloaded(s, true);
            NativeDownloaded(s, false) == t || NativeDownloaded(s, false) == FailInstall(t)
  {
  }

  lemma NativeKeepsQuitting(s: Sys, e: Event)
    requires || e.EvStagingTimeout? || e.EvNativeDownloaded? || e.EvNativeNotAvailable?
             || e.EvBeforeQuitForUpdate? || e.EvError?
    ensures SameQuit(s.u, Step(s, e).u)
  {
    match e
    case EvStagingTimeout =>
    case EvNativeDownloaded(_) =>
      DownloadedKeepsQuitting(s);
      DownloadedFails(s);
      FailKeepsQuitting(NativeDownloaded(s, true));
    case EvNativeNotAvailable =>
      if s.u.native.notAvailable > 0 {
        FailKeepsQuitting(s.(u := s.u.(native := s.u.native.(notAvailable := s.u.native.notAvailable - 1))));
      }
    case EvBeforeQuitForUpdate =>
    case EvError => FailKeepsQuitting(s);
  }

  lemma FeedKeepsQuitting(s: Sys, e: Event)
    requires e.EvSetLifecycle? || e.EvCheck? || e.EvSubmitCheck? || e.EvCheckSettles? || e.EvFeed?
    ensures Step(s, e).u.quitting == s.u.quitting && Step(s, e).u.quitIfBusy == s.u.quitIfBusy
  {
  }

  lemma ChainKeepsQuitting(s: Sys, e: Event)
    requires e.EvRequestChannel? || e.EvChainBegins? || e.EvChainSettles? || e.EvGate?
    ensures Step(s, e).u.quitting == s.u.quitting && Step(s, e).u.quitIfBusy == s.u.quitIfBusy
  {
  }

  lemma QuietStaysActive(s: Sys, e: Event)
    requires Active(s.u)
    requires e.EvSetLifecycle? || e.EvCheck? || e.EvSubmitCheck? || e.EvCheckSettles? || e.EvFeed? ||
             e.EvRequestChannel? || e.EvChainBegins? || e.EvChainSettles? || e.EvGate?
    ensures Active(Step(s, e).u) && Step(s, e).u.quitting == s.u.quitting && Step(s, e).u.quitIfBusy == s.u.quitIfBusy
  {
    QuietMoves(s, e);
    if e.EvRequestChannel? || e.EvChainBegins? || e.EvChainSettles? || e.EvGate? {
      ChainKeepsQuitting(s, e);
    } else {
      FeedKeepsQuitting(s, e);
    }
  }

  /** Where an installation ends, a quit is issued if and only if a quit had asked for it and its preparation was
      refused or failed; after a "stopped" answer, whatever then fails, none is. */
  lemma EndIssuesQuitExactly(s: Sys, e: Event)
    requires SysInv(s) && Active(s.u) && !Active(Step(s, e).u)
    ensures Step(s, e).u.quitting ==
            if s.u.preparing && s.u.quitIfBusy && Refused(s) then QuitAgain(s.u.quitting) else s.u.quitting
  {
    match e
    case EvContinue(ok) => ContinueEnds(s, ok);
    case EvStagingTimeout => NativeKeepsQuitting(s, e);
    case EvNativeDownloaded(_) => NativeKeepsQuitting(s, e);
    case EvNativeNotAvailable => NativeKeepsQuitting(s, e);
    case EvError => NativeKeepsQuitting(s, e);
    case EvBeforeQuitForUpdate => NativeKeepsQuitting(s, e);
    case EvInstall => ActiveInstallIsNothing(s, false);
    case EvBeforeQuit => ActiveInstallIsNothing(s, true);
    case EvCleanupDone =>
    case _ => QuietStaysActive(s, e);
  }

  lemma ActiveInstallIsNothing(s: Sys, quitIfBusy: bool)
    requires Active(s.u)
    ensures InstallUpdate(s, quitIfBusy) == s
  {
  }

  /** Until then, unless somebody quits again, the quit state stays as it is. */
  lemma ActiveKeepsQuitting(s: Sys, e: Event)
    requires SysInv(s) && Active(s.u) && Active(Step(s, e).u) && !e.EvBeforeQuit? && !e.EvCleanupDone?
    ensures Step(s, e).u.quitting == s.u.quitting && Step(s, e).u.quitIfBusy == s.u.quitIfBusy
  {
    match e
    case EvContinue(ok) => ContinueEnds(s, ok);
    case EvStagingTimeout => NativeKeepsQuitting(s, e);
    case EvNativeDownloaded(_) => NativeKeepsQuitting(s, e);
    case EvNativeNotAvailable => NativeKeepsQuitting(s, e);
    case EvError => NativeKeepsQuitting(s, e);
    case EvBeforeQuitForUpdate => NativeKeepsQuitting(s, e);
    case EvInstall => ActiveInstallIsNothing(s, false);
    case _ => QuietStaysActive(s, e);
  }

  /** The installation lasts through all events, and nobody quits meanwhile. */
  predicate StaysActive(s: Sys, events: seq<Event>)
    decreases |events|
  {
    Active(s.u)
    && (events == []
        || (!events[0].EvBeforeQuit? && !events[0].EvCleanupDone? && StaysActive(Step(s, events[0]), events[1..])))
  }

  lemma {:induction false} StaysActiveKeepsQuitting(s: Sys, events: seq<Event>)
    requires SysInv(s) && StaysActive(s, events)
    ensures var t := Run(s, events);
            SysInv(t) && Active(t.u) && t.u.quitting == s.u.quitting && t.u.quitIfBusy == s.u.quitIfBusy
    decreases |events|
  {
    if events != [] {
      StepKeepsInv(s, events[0]);
      ActiveKeepsQuitting(s, events[0]);
      StaysActiveKeepsQuitting(Step(s, events[0]), events[1..]);
    }
  }

  /** From a deferred quit that begins a preparation or meets one, through any run of that installation with no other
      quit, to the step that ends it: the quit is issued again if and only if the preparation is a quit's, and the
      installation ends in it, refused or failed. If somebody else asked for it, or it ends after that, by a failing
      hand-over, a staging timeout, or no update to stage, the quit state is as it was before the quit: it is lost. */
  lemma DeferredQuitIsLostExactly(s: Sys, events: seq<Event>, last: Event)
    requires SysInv(s) && DefersQuit(s) && BeforeQuit(s).u.preparing
    requires StaysActive(BeforeQuit(s), events) && !Active(Step(Run(BeforeQuit(s), events), last).u)
    ensures var t, asked := Run(BeforeQuit(s), events), s.u.preparing ==> s.u.quitIfBusy;
            Step(t, last).u.quitting ==
            if asked && t.u.preparing && Refused(t) then QuitAgain(s.u.quitting) else s.u.quitting
  {
    QuitKeepsInv(s);
    StaysActiveKeepsQuitting(BeforeQuit(s), events);
    EndIssuesQuitExactly(Run(BeforeQuit(s), events), last);
  }

  // ----- the exit watchdog -----

  /** The process will be forced to exit although nothing is being installed. */
  predicate Orphaned(s: Sys) { s.u.native.exitTimer && !s.u.installing }

  lemma InstallStepsOrphanNone(s: Sys, e: Event)
    requires SysInv(s) && !Orphaned(s) && (e.EvInstall? || e.EvContinue? || e.EvBeforeQuit?)
    ensures !Orphaned(Step(s, e))
  {
  }

  lemma NativeStepsOrphan(s: Sys, e: Event)
    requires SysInv(s) && !Orphaned(s)
    requires e.EvNativeDownloaded? || e.EvNativeNotAvailable? || e.EvBeforeQuitForUpdate? || e.EvError?
    ensures !Orphaned(Step(s, e))
  {
  }

  /** Exactly one step leaves the watchdog armed without an installation: a staging timeout after
      before-quit-for-update has come while staging was still pending. */
  lemma WatchdogOrphanedExactly(s: Sys, e: Event)
    requires SysInv(s) && !Orphaned(s)
    ensures Orphaned(Step(s, e)) <==> e.EvStagingTimeout? && s.u.native.stage.Pending? && s.u.native.exitTimer
  {
    match e
    case EvInstall => InstallStepsOrphanNone(s, e);
    case EvContinue(_) => InstallStepsOrphanNone(s, e);
    case EvBeforeQuit => InstallStepsOrphanNone(s, e);
    case EvStagingTimeout =>
    case EvNativeDownloaded(_) => NativeStepsOrphan(s, e);
    case EvNativeNotAvailable => NativeStepsOrphan(s, e);
    case EvBeforeQuitForUpdate => NativeStepsOrphan(s, e);
    case EvError => NativeStepsOrphan(s, e);
    case _ => QuietKeepsWatchdog(s, e);
  }

  lemma QuietKeepsWatchdog(s: Sys, e: Event)
    requires e.EvSetLifecycle? || e.EvCleanupDone? || e.EvCheck? || e.EvSubmitCheck? || e.EvCheckSettles?
        || e.EvFeed? ||
             e.EvRequestChannel? || e.EvChainBegins? || e.EvChainSettles? || e.EvGate?
    ensures Step(s, e).u.native == s.u.native && Step(s, e).u.installing == s.u.installing
  {
  }

  /** before-quit-for-update comes only once the stage is no longer pending, as it does if the native updater emits it
      for calls of its quit-and-install alone. */
  predicate NeverEarly(s: Sys, events: seq<Event>)
    decreases |events|
  {
    events == []
    || ((events[0].EvBeforeQuitForUpdate? ==> !s.u.native.stage.Pending?)
        && NeverEarly(Step(s, events[0]), events[1..]))
  }

  lemma StepStaysOnTime(s: Sys, e: Event)
    requires SysInv(s) && !s.u.native.earlyQuit && (e.EvBeforeQuitForUpdate? ==> !s.u.native.stage.Pending?)
    ensures !Step(s, e).u.native.earlyQuit
  {
    match e
    case EvInstall =>
    case EvContinue(_) =>
    case EvBeforeQuit =>
    case EvStagingTimeout =>
    case EvNativeDownloaded(_) =>
    case EvNativeNotAvailable =>
    case EvBeforeQuitForUpdate =>
    case EvError =>
    case _ => QuietKeepsWatchdog(s, e);
  }

  /** In such runs the watchdog is armed only while an installation lasts. */
  lemma {:induction false} WatchdogNeedsInstallation(s: Sys, events: seq<Event>)
    requires SysInv(s) && !s.u.native.earlyQuit && NeverEarly(s, events)
    ensures !Orphaned(Run(s, events))
    decreases |events|
  {
    if events != [] {
      StepKeepsInv(s, events[0]);
      StepStaysOnTime(s, events[0]);
      WatchdogNeedsInstallation(Step(s, events[0]), events[1..]);
    }
  }

  // ----- a run that orphans the watchdog -----

  lemma {:induction false} RunConcat(s: Sys, a: seq<Event>, b: seq<Event>)
    ensures Run(s, a + b) == Run(Run(s, a), b)
    decreases |a|
  {
    if a == [] {
      assert a + b == b;
    } else {
      assert (a + b)[1..] == a[1..] + b;
      RunConcat(Step(s, a[0]), a[1..], b);
    }
  }

  lemma RunTwo(s: Sys, a: Event, b: Event)
    ensures Run(s, [a, b]) == Step(Step(s, a), b)
  {
    assert [a, b][1..] == [b] && [b][1..] == [];
    assert Run(Step(s, a), [b]) == Step(Step(s, a), b);
  }

  lemma RunThree(s: Sys, a: Event, b: Event, c: Event)
    ensures Run(s, [a, b, c]) == Step(Step(Step(s, a), b), c)
  {
    assert [a, b, c][1..] == [b, c];
    RunTwo(Step(s, a), b, c);
  }

  const ASKS := [EvSetLifecycle, EvCheck, EvSubmitCheck]
  const DOWNLOADS := [EvChainBegins, EvFeed(FeedDownloaded(1))]
  function Prepares(first: Event): seq<Event> { [first, EvGate(M.EvAfterStartup(UPDATER))] }

  const STAGES :=
    [EvGate(M.EvAfterEndpoint(UPDATER, true)), EvGate(M.EvAfterShutdown(UPDATER, M.Stopped)), EvContinue(true)]
  const TIMES_OUT := [EvBeforeQuitForUpdate, EvStagingTimeout]

  lemma WitnessAsks(channel: Channel)
    ensures var s := Run(Launch(true, channel), ASKS);
            && s.chan == C.RunOperation(C.Start(channel), 0) && s.gate == M.OPEN
            && s.u == Launch(true, channel).u.(lifecycle := true, check := Submitted)
  {
    RunThree(Launch(true, channel), EvSetLifecycle, EvCheck, EvSubmitCheck);
  }

  lemma WitnessBegins(s: Sys, channel: Channel)
    requires s.chan == C.RunOperation(C.Start(channel), 0) && !Locked(s.u)
    ensures var t := ChainBegins(s);
            t.u == s.u.(feed := Some(channel)) && t.gate == s.gate && !C.Switching(t.chan)
  {
    assert s.chan.tail == [C.Operation(0)];
  }

  lemma WitnessHears(s: Sys, channel: Channel)
    requires s.u.feed == Some(channel) && !C.Switching(s.chan)
    ensures FeedEvent(s, FeedDownloaded(1)) == s.(u := s.u.(status := Ready(Some(1), channel)))
  {
  }

  lemma WitnessDownloads(s: Sys, channel: Channel)
    requires s.chan == C.RunOperation(C.Start(channel), 0) && !Locked(s.u)
    ensures var t := Run(s, DOWNLOADS);
            && t.u == s.u.(feed := Some(channel)).(status := Ready(Some(1), channel))
            && t.gate == s.gate && !C.Switching(t.chan)
  {
    RunTwo(s, EvChainBegins, EvFeed(FeedDownloaded(1)));
    WitnessBegins(s, channel);
    WitnessHears(ChainBegins(s), channel);
  }

  lemma WitnessPrepares(s: Sys, first: Event)
    requires Installable(s) && s.u.lifecycle && s.gate == M.OPEN
    requires first.EvInstall? || (first.EvBeforeQuit? && DefersQuit(s))
    ensures var t := Run(s, Prepares(first));
            && t.u == s.u.(preparing := true, failure := false, quitIfBusy := first.EvBeforeQuit?,
                           admitted := s.u.status.channel)
            && t.gate.owner == Some(UPDATER) && UPDATER in t.gate.prepares && t.gate.prepares[UPDATER].AwaitEndpoint?
  {
    RunTwo(s, first, EvGate(M.EvAfterStartup(UPDATER)));
    assert InstallUpdate(s, first.EvBeforeQuit?).gate.prepares == map[UPDATER := M.AwaitStartup(None)];
  }

  lemma WitnessStages(s: Sys)
    requires s.u.preparing && s.u.lifecycle && s.u.darwin && !s.u.failure && s.u.native.stage.NoStage?
    requires s.gate.owner == Some(UPDATER) && UPDATER in s.gate.prepares && s.gate.prepares[UPDATER].AwaitEndpoint?
    ensures var t := Run(s, STAGES);
            && t.u.native.stage.Pending? && t.u.native.stagingTimer && t.u.native.beforeQuit > 0
            && t.u.installing && !t.u.preparing
            && t.u.quitting == s.u.quitting && t.u.feed == s.u.feed && t.chan == s.chan
  {
    RunThree(s, STAGES[0], STAGES[1], STAGES[2]);
    var a := Step(s, STAGES[0]);
    assert a.gate.prepares[UPDATER].AwaitShutdown? && a.u == s.u;
    var b := Step(a, STAGES[1]);
    assert b.gate.prepares[UPDATER] == M.Answered(M.Stopped) && b.u == s.u;
  }

  lemma WitnessTimesOut(s: Sys)
    requires s.u.native.stage.Pending? && s.u.native.stagingTimer && s.u.native.beforeQuit > 0 && s.u.installing
    ensures Orphaned(Run(s, TIMES_OUT))
  {
    RunTwo(s, EvBeforeQuitForUpdate, EvStagingTimeout);
  }

  const DOWNLOAD := ASKS + DOWNLOADS

  lemma WitnessReady(channel: Channel)
    ensures var t := Run(Launch(true, channel), DOWNLOAD);
            && t.u == Launch(true, channel).u.(lifecycle := true, check := Submitted)
                        .(feed := Some(channel)).(status := Ready(Some(1), channel))
            && t.gate == M.OPEN && !C.Switching(t.chan)
  {
    RunConcat(Launch(true, channel), ASKS, DOWNLOADS);
    WitnessAsks(channel);
    WitnessDownloads(Run(Launch(true, channel), ASKS), channel);
  }

  /** From launch to native staging: an update is downloaded, and its installation prepared and handed over. */
  lemma WitnessStaging(channel: Channel, first: Event)
    requires first.EvInstall? || first.EvBeforeQuit?
    ensures var t := Run(Launch(true, channel), DOWNLOAD + (Prepares(first) + STAGES));
            && t.u.native.stage.Pending? && t.u.native.stagingTimer && t.u.native.beforeQuit > 0
            && t.u.installing && !t.u.preparing
            && t.u.quitting == Quitting(false, 0, NotStarted) && t.u.feed == Some(channel) && !C.Switching(t.chan)
  {
    var start := Launch(true, channel);
    var ready := Run(start, DOWNLOAD);
    RunConcat(start, DOWNLOAD, Prepares(first) + STAGES);
    RunConcat(ready, Prepares(first), STAGES);
    WitnessReady(channel);
    WitnessPrepares(ready, first);
    PreparesKeepsChannel(ready, first);
    WitnessStages(Run(ready, Prepares(first)));
  }

  lemma PreparesKeepsChannel(s: Sys, first: Event)
    requires first.EvInstall? || first.EvBeforeQuit?
    ensures Run(s, Prepares(first)).chan == s.chan
  {
    RunTwo(s, first, EvGate(M.EvAfterStartup(UPDATER)));
  }

  /** From launch: before-quit-for-update comes early, staging times out, and the watchdog stays armed while nothing is
      installed. */
  lemma WatchdogOutlivesTimeout(channel: Channel)
    ensures Orphaned(Run(Launch(true, channel), DOWNLOAD + (Prepares(EvInstall) + STAGES) + TIMES_OUT))
  {
    RunConcat(Launch(true, channel), DOWNLOAD + (Prepares(EvInstall) + STAGES), TIMES_OUT);
    WitnessStaging(channel, EvInstall);
    WitnessTimesOut(Run(Launch(true, channel), DOWNLOAD + (Prepares(EvInstall) + STAGES)));
  }

  lemma RunOne(s: Sys, e: Event)
    ensures Run(s, [e]) == Step(s, e)
  {
    assert [e][1..] == [];
  }

  /** From launch: a quit is prevented for the sake of a ready update, staging times out, and the quit is lost: nothing
      is being prepared or installed, nothing was called, and no quit was issued. */
  lemma QuitLostToTimeout(channel: Channel)
    ensures var ready := Run(Launch(true, channel), DOWNLOAD);
            DefersQuit(ready) && QuitGoesOn(ready, BeforeQuit(ready))
    ensures var t := Run(Launch(true, channel), DOWNLOAD + (Prepares(EvBeforeQuit) + STAGES) + [EvStagingTimeout]);
            !t.u.preparing && !t.u.installing && t.u.quitting == Quitting(false, 0, NotStarted)
  {
    WitnessReady(channel);
    WitnessStaging(channel, EvBeforeQuit);
    RunConcat(Launch(true, channel), DOWNLOAD + (Prepares(EvBeforeQuit) + STAGES), [EvStagingTimeout]);
    RunOne(Run(Launch(true, channel), DOWNLOAD + (Prepares(EvBeforeQuit) + STAGES)), EvStagingTimeout);
  }

  /** From launch: staging has timed out, and the same feed operation reports a downloaded update a second time. A quit
      is then prevented although no installation can begin. */
  lemma QuitDroppedAtOnce(channel: Channel)
    ensures var t := Run(Launch(true, channel),
                         DOWNLOAD + (Prepares(EvInstall) + STAGES) + [EvStagingTimeout, EvFeed(FeedDownloaded(1))]);
            DefersQuit(t) && !t.u.preparing && BeforeQuit(t) == t
  {
    var staging := Run(Launch(true, channel), DOWNLOAD + (Prepares(EvInstall) + STAGES));
    WitnessStaging(channel, EvInstall);
    RunConcat(Launch(true, channel), DOWNLOAD + (Prepares(EvInstall) + STAGES),
              [EvStagingTimeout, EvFeed(FeedDownloaded(1))]);
    RunTwo(staging, EvStagingTimeout, EvFeed(FeedDownloaded(1)));
    var overdue := StagingTimedOut(staging);
    assert overdue.u.feed == Some(channel) && overdue.chan == staging.chan;
  }

  // ----- the module's variables themselves -----

  class UpdaterModule {
    const gate: M.EngineGate
    const coordinator: C.UpdateChannelCoordinator
    var u: Flags

    function View(): Sys
      reads this, gate, coordinator
    {
      Sys(u, gate.View(), coordinator.View())
    }

    constructor (darwin: bool, gate: M.EngineGate, coordinator: C.UpdateChannelCoordinator)
      requires gate.View() == M.OPEN && coordinator.View() == C.Start(coordinator.channel)
      ensures View() == Launch(darwin, coordinator.channel)
      ensures this.gate == gate && this.coordinator == coordinator
    {
      this.gate, this.coordinator := gate, coordinator;
      u := Flags(darwin, false, false, false, false, false, coordinator.channel,
                 Native(NoStage, false, false, false, 0, 0, 0), Quitting(false, 0, NotStarted), Idle, NoCheck, None,
                     []);
    }

    method ReleaseEngine()
      modifies gate`owner
      ensures gate.View() == Released(old(View()))
    {
      if u.lifecycle {
        gate.ResumeScope(UPDATER);
      }
    }

    method Fail()
      modifies this, gate`owner
      ensures View() == FailInstall(old(View()))
    {
      if u.preparing {
        u := u.(failure := true);
        return;
      }
      var n := u.native.(stagingTimer := false);
      if !n.stage.Staged? {
        n := n.(stage := NoStage);
      }
      n := n.(exitTimer := false);
      if u.darwin {
        n := n.(beforeQuit := Removed(n.beforeQuit), downloaded := Removed(n.downloaded),
            notAvailable := Removed(n.notAvailable));
      }
      u := u.(native := n, installing := false);
      ReleaseEngine();
      u := u.(status := Error(true));
    }

    method Abort()
      modifies this, gate`owner
      ensures View() == AbortPreparation(old(View()))
    {
      u := u.(preparing := false);
      if u.quitIfBusy {
        ReleaseEngine();
        u := u.(quitting := QuitAgain(u.quitting));
      } else {
        Fail();
      }
    }

    method Install(quitIfBusy: bool)
      modifies this, gate`owner, gate`prepares
      ensures View() == InstallUpdate(old(View()), quitIfBusy)
    {
      if coordinator.switches > 0 || u.preparing || !u.status.Ready? || u.installing ||
         (u.native.stage != NoStage && !u.native.stage.Staged?) {
        return;
      }
      u := u.(preparing := true, failure := false, quitIfBusy := quitIfBusy, admitted := u.status.channel);
      if !u.lifecycle {
        Abort();
        return;
      }
      var _ := gate.PrepareScope(UPDATER);
    }

    method CallQuitAndInstall(ok: bool)
      modifies this, gate`owner
      ensures View() == QuitAndInstall(old(View()), ok)
    {
      u := u.(calls := u.calls + [CallOf(View())]);
      if !ok {
        Fail();
      }
    }

    /** The rest of `installUpdate` after `prepare`; `ok` is the outcome of the native or library call it makes. */
    method Continue(ok: bool)
      requires PrepareAnswered(View())
      modifies this, gate`owner
      ensures View() == ContinueInstall(old(View()), ok)
    {
      var answer := gate.prepares[UPDATER].answer;
      if answer.Threw? || u.failure {
        Abort();
      } else if answer.Busy? {
        gate.ResumeScope(UPDATER);
        u := if u.quitIfBusy then u.(preparing := false, quitting := QuitAgain(u.quitting))
             else u.(preparing := false, status := Error(true));
      } else {
        u := u.(preparing := false, installing := true);
        HandToInstaller(ok);
      }
    }

    method HandToInstaller(ok: bool)
      requires u.installing && !u.preparing
      modifies this, gate`owner
      ensures View() == HandOver(old(View()), ok)
    {
      if u.darwin {
        var n := u.native;
        if n.stage.Staged? {
          u := u.(native := n.(beforeQuit := n.beforeQuit + 1));
          CallQuitAndInstall(ok);
          return;
        }
        n := StartStaging(n, if u.status.Ready? then u.status.version else None, u.admitted);
        u := u.(native := n);
        if !ok {
          Fail();
        }
      } else {
        CallQuitAndInstall(ok);
        if u.installing {
          u := u.(native := u.native.(exitTimer := true));
        }
      }
    }

    method NativeStagingTimedOut()
      modifies this, gate`owner
      ensures View() == StagingTimedOut(old(View()))
    {
      var n := u.native;
      if !n.stagingTimer {
        return;
      }
      n := n.(stagingTimer := false);
      u := u.(native := n);
      if !n.stage.Pending? {
        return;
      }
      n := n.(stage := TimedOut(n.stage.version, n.stage.channel), beforeQuit := Removed(n.beforeQuit));
      u := u.(native := n, installing := false);
      ReleaseEngine();
      u := u.(status := Error(false));
    }

    method QuitAfterNativeStaging(ok: bool)
      requires u.native.downloaded > 0
      modifies this, gate`owner
      ensures View() == NativeDownloaded(old(View()), ok)
    {
      var n := u.native;
      n := n.(downloaded := n.downloaded - 1, stagingTimer := false, notAvailable := Removed(n.notAvailable));
      if n.stage == NoStage {
        u := u.(native := n);
        return;
      }
      var timedOut := n.stage.TimedOut?;
      n := n.(stage := Staged(n.stage.version, n.stage.channel));
      u := u.(native := n);
      if timedOut {
        u := u.(status := Ready(n.stage.version, n.stage.channel));
        return;
      }
      CallQuitAndInstall(ok);
    }

    method NativeStagingUnavailable()
      requires u.native.notAvailable > 0
      modifies this, gate`owner
      ensures View() == NativeNotAvailable(old(View()))
    {
      u := u.(native := u.native.(notAvailable := u.native.notAvailable - 1));
      Fail();
    }

    method ArmInstallExitWatchdog()
      requires u.native.beforeQuit > 0
      modifies this
      ensures View() == BeforeQuitForUpdate(old(View()))
    {
      var n := u.native;
      n := n.(beforeQuit := n.beforeQuit - 1, earlyQuit := n.earlyQuit || n.stage.Pending?);
      if !n.exitTimer && u.installing {
        n := n.(exitTimer := true);
      }
      u := u.(native := n);
    }

    method OnError()
      modifies this, gate`owner
      ensures View() == UpdaterError(old(View()))
    {
      if coordinator.switches > 0 {
        return;
      }
      if Locked(u) {
        Fail();
        return;
      }
      if u.check == NoCheck {
        u := u.(status := Error(true));
      }
    }

    /** Returns whether the quit must be prevented. */
    method InstallPendingUpdateOnQuit() returns (prevent: bool)
      modifies this, gate`owner, gate`prepares
      ensures prevent <==>
                !old(u.quitting.skipOnce) && (old(u.preparing) || (old(u.status).Ready? && !old(u.installing)))
      ensures View() == if old(u.quitting.skipOnce)
          then old(View()).(u := old(u).(quitting := old(u.quitting).(skipOnce := false)))
                        else if prevent && !old(u.preparing) then InstallUpdate(old(View()), true)
                        else old(View())
    {
      if u.quitting.skipOnce {
        u := u.(quitting := u.quitting.(skipOnce := false));
        return false;
      }
      if u.preparing {
        return true;
      }
      if !u.status.Ready? || u.installing {
        return false;
      }
      Install(true);
      return true;
    }

    method OnBeforeQuit()
      modifies this, gate`owner, gate`prepares
      ensures View() == BeforeQuit(old(View()))
    {
      if u.quitting.cleanup != Complete && !u.installing {
        var prevented := InstallPendingUpdateOnQuit();
        if prevented {
          return;
        }
      }
      if u.quitting.cleanup == NotStarted {
        u := u.(quitting := u.quitting.(cleanup := InProgress));
      }
    }

    method RunUpdateCheck()
      modifies this
      ensures View() == RunCheck(old(View()))
    {
      if Locked(u) {
        if !u.installing && u.native.stage.Staged? {
          u := u.(status := Ready(u.native.stage.version, u.native.stage.channel));
        }
        return;
      }
      if u.check == NoCheck {
        u := u.(check := Requested);
      }
    }

    /** Returns whether the request was accepted. */
    method OnSetChannel(value: Option<Channel>) returns (accepted: bool)
      modifies this, coordinator`switches, coordinator`cancelled, coordinator`tail
      ensures View() == RequestChannel(old(View()), value)
      ensures accepted <==> value.Some? && !Locked(old(u))
    {
      if Locked(u) {
        return false;
      }
      accepted := coordinator.SetChannelTo(value);
      if accepted {
        u := u.(status := Idle);
      }
    }
  }
}
