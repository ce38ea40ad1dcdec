/** One download of an update: attempts that a stall timer may cancel, one of which is repeated, and which a channel
    switch overtakes. electron-updater's events arrive while an attempt is under way. */
module UpdateDownload {
  import opened Options

  datatype Status = Available | Downloading | Ready | Idle

  /** How an attempt ended. */
  datatype Ending = Succeeded | Stalled | Broken | Overtaken

  datatype Phase = Running | Returned | Threw

  /** `token` says of the attempt under way whether it has been cancelled. */
  datatype Download = Download(
    phase: Phase,
    retried: bool,
    token: Option<bool>,
    stallTimer: bool,
    switching: bool,
    status: Status,
    endings: seq<Ending>)

  /** The head of the loop. */
  function NextAttempt(d: Download): Download {
    if d.switching then d.(phase := Returned) else d.(token := Some(false), stallTimer := true)
  }

  function Begin(switching: bool): Download {
    NextAttempt(Download(Running, false, None, false, switching, if switching then Idle else Available, []))
  }

  predicate UnderWay(d: Download) { d.token.Some? }

  function Progress(d: Download): Download {
    if !UnderWay(d) || d.switching then d else d.(stallTimer := true, status := Downloading)
  }

  function Downloaded(d: Download): Download {
    if !UnderWay(d) || d.switching then d else d.(stallTimer := false, status := Ready)
  }

  /** The error event of electron-updater, while a check is active. */
  function ErrorEvent(d: Download): Download {
    if !UnderWay(d) || d.switching then d else d.(stallTimer := false)
  }

  function StallFires(d: Download): Download {
    if !d.stallTimer then d
    else if d.status in {Available, Downloading} && d.token.Some? then d.(stallTimer := false, token := Some(true))
    else d.(stallTimer := false)
  }

  /** A channel switch clears the stall timer, invalidates the status and cancels the operation under way. */
  function Switch(d: Download): Download {
    d.(switching := true, status := Idle, stallTimer := false, token := if d.token.Some? then Some(true) else None)
  }

  function EndingOf(d: Download, ok: bool): Ending
    requires d.token.Some?
  {
    if ok then Succeeded else if d.switching then Overtaken else if d.token.value then Stalled else Broken
  }

  /** The attempt settles: it is over, its timer and its token are gone, and the loop goes on or ends. */
  function Settles(d: Download, ok: bool): Download {
    if d.token.None? then d
    else
      var ending := EndingOf(d, ok);
      var over := d.(token := None, stallTimer := false, endings := d.endings + [ending]);
      match ending
      case Succeeded => over.(phase := Returned)
      case Overtaken => over.(phase := Returned)
      case Stalled => if d.retried then over.(phase := Threw) else NextAttempt(over.(retried := true))
      case Broken => over.(phase := Threw)
  }

  datatype Event = EvProgress | EvDownloaded | EvError | EvStall | EvSwitch | EvSettles(ok: bool)

  function Step(d: Download, e: Event): Download {
    match e
    case EvProgress => Progress(d)
    case EvDownloaded => Downloaded(d)
    case EvError => ErrorEvent(d)
    case EvStall => StallFires(d)
    case EvSwitch => Switch(d)
    case EvSettles(ok) => Settles(d, ok)
  }

  function Run(d: Download, events: seq<Event>): Download
    decreases |events|
  {
    if events == [] then d else Run(Step(d, events[0]), events[1..])
  }

  // ----- what a download does -----

  /** How the attempts of a download may go: one, or a stalled one and another. */
  predicate Course(endings: seq<Ending>) {
    |endings| <= 2 && (|endings| == 2 ==> endings[0] == Stalled)
  }

  ghost predicate DownloadInv(d: Download) {
    && Course(d.endings)
    && (d.stallTimer ==> d.token.Some?)
    && (match d.phase
        case Running => d.token.Some? && d.endings == (if d.retried then [Stalled] else [])
        case Returned =>
          && d.token.None?
          && (d.endings == [] ==> d.switching)
          && (d.endings != [] ==>
                d.endings[|d.endings| - 1] in {Succeeded, Overtaken} || (d.endings == [Stalled] && d.switching))
          && (Overtaken in d.endings ==> d.switching)
        case Threw =>
          && d.token.None?
          && d.endings != []
          && (d.endings[|d.endings| - 1] == Broken || d.endings == [Stalled, Stalled]))
  }

  lemma SettlesKeepsInv(d: Download, ok: bool)
    requires DownloadInv(d)
    ensures DownloadInv(Settles(d, ok))
  {
    if d.token.Some? {
      assert [Stalled] + [Stalled] == [Stalled, Stalled] && [] + [Stalled] == [Stalled];
    }
  }

  lemma {:induction false} RunKeepsInv(d: Download, events: seq<Event>)
    requires DownloadInv(d)
    ensures DownloadInv(Run(d, events))
    decreases |events|
  {
    if events != [] {
      if events[0].EvSettles? {
        SettlesKeepsInv(d, events[0].ok);
      }
      RunKeepsInv(Step(d, events[0]), events[1..]);
    }
  }

  /** Over any run: at most two attempts, the second only after the first stalled; the stall timer never outlives its
      attempt, so it can cancel no other; the download fails exactly when its last attempt broke without being
      cancelled or both stalled, and otherwise ends by success or because the channel is being switched. */
  lemma DownloadEnds(switching: bool, events: seq<Event>)
    ensures
      var d := Run(Begin(switching), events);
      && |d.endings| + (if d.token.Some? then 1 else 0) <= 2
      && Course(d.endings)
      && (d.stallTimer ==> d.token.Some?)
      && (d.phase == Threw <==>
            d.endings != [] && (d.endings[|d.endings| - 1] == Broken || d.endings == [Stalled, Stalled]))
      && (d.phase == Returned ==> Succeeded in d.endings || d.switching)
  {
    RunKeepsInv(Begin(switching), events);
  }

  /** While the channel is being switched no attempt starts, and the one under way, however it settles, is the last
      and reports no failure. */
  lemma {:induction false} SwitchEndsDownload(d: Download, events: seq<Event>)
    requires DownloadInv(d) && d.switching && d.phase != Threw
    ensures
      var r := Run(d, events);
      && r.switching && r.phase != Threw
      && |r.endings| <= |d.endings| + (if d.token.Some? then 1 else 0)
      && (d.token.None? ==> r.token.None?)
    decreases |events|
  {
    if events != [] {
      if events[0].EvSettles? {
        SettlesKeepsInv(d, events[0].ok);
      }
      SwitchEndsDownload(Step(d, events[0]), events[1..]);
    }
  }

  class UpdateDownloader {
    var phase: Phase
    var stallRetried: bool
    var downloadToken: Option<bool>
    var stallTimer: bool
    var switching: bool
    var status: Status
    ghost var endings: seq<Ending>

    ghost function View(): Download
      reads this
    {
      Download(phase, stallRetried, downloadToken, stallTimer, switching, status, endings)
    }

    constructor (switchPending: bool)
      ensures View() == Begin(switchPending)
    {
      switching, stallRetried, endings := switchPending, false, [];
      status := if switchPending then Idle else Available;
      phase := if switchPending then Returned else Running;
      downloadToken := if switchPending then None else Some(false);
      stallTimer := !switchPending;
    }

    method ArmStallTimer()
      requires downloadToken.Some? && !switching
      modifies `stallTimer, `status
      ensures View() == Progress(old(View()))
    {
      stallTimer := true;
      status := Downloading;
    }

    method OnStallTimer()
      requires stallTimer
      modifies `stallTimer, `downloadToken
      ensures View() == StallFires(old(View()))
    {
      stallTimer := false;
      if status != Downloading && status != Available {
        return;
      }
      if downloadToken.Some? {
        downloadToken := Some(true);
      }
    }

    /** What a requested switch does: invalidate, then cancel. */
    method OnSwitchRequested()
      modifies `switching, `stallTimer, `status, `downloadToken
      ensures View() == Switch(old(View()))
    {
      switching := true;
      stallTimer := false;
      status := Idle;
      if downloadToken.Some? {
        downloadToken := Some(true);
      }
    }

    /** The rest of the loop body after an attempt: success, `catch` and `finally`, and the head of the loop. */
    method OnAttemptSettled(ok: bool)
      requires downloadToken.Some?
      modifies this
      ensures View() == Settles(old(View()), ok)
    {
      var cancelled := downloadToken.value;
      endings := endings + [EndingOf(View(), ok)];
      stallTimer := false;
      downloadToken := None;
      if ok || switching {
        phase := Returned;
        return;
      }
      if !cancelled || stallRetried {
        phase := Threw;
        return;
      }
      stallRetried := true;
      downloadToken := Some(false);
      stallTimer := true;
    }
  }
}
