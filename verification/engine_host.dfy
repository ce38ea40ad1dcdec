/** The desktop's side of the engine host protocol: a loop that attaches to the engine, answers the requests of that
    attachment, and attaches again when it ends, until the host is closed. */
module EngineHost {
  import opened Options

  const MAX_REQUESTS: nat := 32

  /** Where the attachment loop stands. `Rest` is the delay between two attachments. */
  datatype Phase = Top | AwaitEndpoint | Connecting | Attached | Rest | Done

  datatype Stage = Queued | Running | Ended

  /** One accepted request, on behalf of one attachment. */
  datatype Task = Task(attachment: nat, id: string, stage: Stage, cancelled: bool)

  datatype Link = Link(
    phase: Phase,
    attachment: nat,          // number of the latest attachment
    aborted: bool,            // it has been aborted
    channel: bool,            // its channel is open to the program
    current: bool)            // ... and is the one callbacks are sent on

  /** What an observer on the other end of the channels and at the host's caller sees. */
  datatype Observation =
    | Connects(attachment: nat)
    | Accepts(task: nat, attachment: nat, id: string)
    | Cancels(task: nat)
    | Aborts(attachment: nat)
    | Sends(task: nat, attachment: nat, id: string)
    | Closes

  datatype Host = Host(
    closed: bool,
    link: Link,
    requests: map<string, nat>,   // live requests of the attachment, and their tasks
    tasks: seq<Task>,
    log: seq<Observation>)

  const START := Host(false, Link(Top, 0, false, false, false), map[], [], [])

  function Seen(h: Host, o: Observation): Host { h.(log := h.log + [o]) }

  predicate InAttachment(h: Host) { h.link.phase in {AwaitEndpoint, Connecting, Attached} }

  function Abort(h: Host): Host {
    if h.link.aborted then h else Seen(h.(link := h.link.(aborted := true)), Aborts(h.link.attachment))
  }

  function CancelAll(tasks: seq<Task>, requests: map<string, nat>): (r: seq<Task>)
    ensures |r| == |tasks|
  {
    seq(|tasks|, i requires 0 <= i < |tasks| => if i in requests.Values then tasks[i].(cancelled := true) else tasks[i])
  }

  /** The `finally` of an attachment. */
  function Teardown(h: Host): Host {
    var a := Abort(h);
    a.(tasks := CancelAll(a.tasks, a.requests), requests := map[],
       link := Link(if h.closed then Done else Rest, a.link.attachment, true, false, false))
  }

  function Begin(h: Host): Host {
    if h.link.phase == Rest && h.closed then h.(link := h.link.(phase := Done))
    else if h.link.phase != Top && h.link.phase != Rest then h
    else if h.closed then h.(link := h.link.(phase := Done))
    else h.(requests := map[], link := Link(AwaitEndpoint, h.link.attachment + 1, false, false, false))
  }

  function EndpointResolves(h: Host, ok: bool): Host {
    if h.link.phase != AwaitEndpoint then h
    else if !ok || h.link.aborted then Teardown(h)
    else Seen(h.(link := h.link.(phase := Connecting)), Connects(h.link.attachment))
  }

  function ConnectResolves(h: Host, ok: bool): Host {
    if h.link.phase != Connecting then h
    else if !ok || h.link.aborted then Teardown(h)
    else h.(link := h.link.(phase := Attached, channel := true, current := true))
  }

  function ChannelCloses(h: Host): Host {
    if h.link.phase != Attached then h else Teardown(h)
  }

  predicate Receiving(h: Host) { h.link.phase in {Connecting, Attached} && !h.link.aborted }

  function ReceiveRequest(h: Host, id: string): Host {
    if !Receiving(h) then h
    else if id in h.requests || |h.requests| >= MAX_REQUESTS then Abort(h)
    else
      var task := |h.tasks|;
      Seen(h.(requests := h.requests[id := task], tasks := h.tasks + [Task(h.link.attachment, id, Queued, false)]),
           Accepts(task, h.link.attachment, id))
  }

  function ReceiveCancel(h: Host, id: string): Host {
    if !Receiving(h) || id !in h.requests || h.requests[id] >= |h.tasks| then h
    else
      var task := h.requests[id];
      Seen(h.(tasks := h.tasks[task := h.tasks[task].(cancelled := true)]), Cancels(task))
  }

  /** A task's attachment is over for it once it is aborted or a later one has begun. */
  predicate OverFor(h: Host, t: Task) { t.attachment != h.link.attachment || h.link.aborted }

  /** Deleting from the request map of the attachment that accepted the request. */
  function Forget(h: Host, t: Task): map<string, nat> {
    if t.attachment == h.link.attachment then h.requests - {t.id} else h.requests
  }

  function EndTask(h: Host, task: nat): Host
    requires task < |h.tasks|
  {
    h.(tasks := h.tasks[task := h.tasks[task].(stage := Ended)], requests := Forget(h, h.tasks[task]))
  }

  function TaskStarts(h: Host, task: nat): Host {
    if task >= |h.tasks| || h.tasks[task].stage != Queued then h
    else if OverFor(h, h.tasks[task]) || h.tasks[task].cancelled then EndTask(h, task)
    else h.(tasks := h.tasks[task := h.tasks[task].(stage := Running)])
  }

  /** The request handler settles. Its result is sent if the attachment still lives, the request was not cancelled
      and `connect` has returned the channel by now. */
  function TaskSettles(h: Host, task: nat): Host {
    if task >= |h.tasks| || h.tasks[task].stage != Running then h
    else
      var t := h.tasks[task];
      if OverFor(h, t) || t.cancelled || !h.link.channel then EndTask(h, task)
      else Seen(EndTask(h, task), Sends(task, t.attachment, t.id))
  }

  function Close(h: Host): Host {
    var closed := if h.closed then h else Seen(h.(closed := true), Closes);
    if InAttachment(h) then Abort(closed) else closed
  }

  datatype Event =
    | EvBegin
    | EvEndpoint(ok: bool)
    | EvConnect(ok: bool)
    | EvChannelCloses
    | EvRequest(id: string)
    | EvCancel(id: string)
    | EvTaskStarts(task: nat)
    | EvTaskSettles(task: nat)
    | EvClose

  function Step(h: Host, e: Event): Host {
    match e
    case EvBegin => Begin(h)
    case EvEndpoint(ok) => EndpointResolves(h, ok)
    case EvConnect(ok) => ConnectResolves(h, ok)
    case EvChannelCloses => ChannelCloses(h)
    case EvRequest(id) => ReceiveRequest(h, id)
    case EvCancel(id) => ReceiveCancel(h, id)
    case EvTaskStarts(task) => TaskStarts(h, task)
    case EvTaskSettles(task) => TaskSettles(h, task)
    case EvClose => Close(h)
  }

  function Run(h: Host, events: seq<Event>): Host
    decreases |events|
  {
    if events == [] then h else Run(Step(h, events[0]), events[1..])
  }

  // ----- what an observer may rely on -----

  /** A result answers an accepted request, on the channel it came from, once, and neither after its cancellation nor
      after the end of its attachment. Nothing connects once the host is closed. */
  ghost predicate Lawful(past: seq<Observation>, o: Observation) {
    match o
    case Sends(task, attachment, id) =>
      && Accepts(task, attachment, id) in past
      && Cancels(task) !in past
      && Aborts(attachment) !in past
      && forall p <- past :: p.Sends? ==> p.task != task
    case Connects(_) => Closes !in past
    case Accepts(task, attachment, _) =>
      Aborts(attachment) !in past && forall p <- past :: p.Accepts? ==> p.task != task
    case _ => true
  }

  ghost predicate LawfulLog(log: seq<Observation>) {
    forall i :: 0 <= i < |log| ==> Lawful(log[..i], log[i])
  }

  // ----- invariant -----

  predicate Live(t: Task, attachment: nat) { t.attachment == attachment && !t.stage.Ended? }

  /** The request map is exactly the index of the unfinished tasks of the attachment. */
  ghost predicate Indexes(requests: map<string, nat>, tasks: seq<Task>, attachment: nat) {
    && (forall id <- requests :: requests[id] < |tasks| && Live(tasks[requests[id]], attachment)
                                 && tasks[requests[id]].id == id)
    && (forall i :: 0 <= i < |tasks| && Live(tasks[i], attachment) ==>
          tasks[i].id in requests && requests[tasks[i].id] == i)
  }

  ghost predicate RequestInv(h: Host) {
    && |h.requests| <= MAX_REQUESTS
    && (forall t <- h.tasks :: t.attachment <= h.link.attachment)
    && (if InAttachment(h) then Indexes(h.requests, h.tasks, h.link.attachment) else h.requests == map[])
  }

  ghost predicate LinkInv(h: Host) {
    && (h.closed && InAttachment(h) ==> h.link.aborted)
    && (h.link.phase in {Rest, Done} ==> h.link.aborted || h.link.attachment == 0)
    && (h.link.phase == Top ==> h.link.attachment == 0)
    && (InAttachment(h) ==> h.link.attachment > 0)
    && (h.link.channel ==> h.link.phase == Attached)
    && (h.link.phase == AwaitEndpoint ==> h.requests == map[])
  }

  /** The state remembers what the log says. */
  ghost predicate Remembers(h: Host, o: Observation) {
    match o
    case Connects(_) => true
    case Accepts(task, _, _) => task < |h.tasks|
    case Cancels(task) => task < |h.tasks| && h.tasks[task].cancelled
    case Aborts(attachment) => attachment < h.link.attachment || (attachment == h.link.attachment && h.link.aborted)
    case Sends(task, _, _) => task < |h.tasks| && h.tasks[task].stage == Ended
    case Closes => h.closed
  }

  ghost predicate Recorded(tasks: seq<Task>, log: seq<Observation>) {
    forall i :: 0 <= i < |tasks| ==> Accepts(i, tasks[i].attachment, tasks[i].id) in log
  }

  ghost predicate LogInv(h: Host) {
    && LawfulLog(h.log)
    && (forall o <- h.log :: Remembers(h, o))
    && Recorded(h.tasks, h.log)
    && (h.link.aborted ==> Aborts(h.link.attachment) in h.log)
  }

  ghost predicate HostInv(h: Host) { LogInv(h) && RequestInv(h) && LinkInv(h) }

  /** Nothing already on record is taken back: tasks keep their identity, cancellations, endings, aborts and the
      closing are final. */
  ghost predicate Advances(h: Host, r: Host) {
    && |h.tasks| <= |r.tasks|
    && (forall i :: 0 <= i < |h.tasks| ==>
          && r.tasks[i].attachment == h.tasks[i].attachment
          && r.tasks[i].id == h.tasks[i].id
          && (h.tasks[i].cancelled ==> r.tasks[i].cancelled)
          && (h.tasks[i].stage.Ended? ==> r.tasks[i].stage.Ended?))
    && (h.link.attachment < r.link.attachment
        || (h.link.attachment == r.link.attachment && (h.link.aborted ==> r.link.aborted)))
    && (h.closed ==> r.closed)
  }

  lemma LogAppend(log: seq<Observation>, o: Observation)
    requires LawfulLog(log) && Lawful(log, o)
    ensures LawfulLog(log + [o])
  {
    var longer := log + [o];
    forall i | 0 <= i < |longer| ensures Lawful(longer[..i], longer[i]) {
      if i < |log| {
        assert longer[..i] == log[..i];
      } else {
        assert longer[..i] == log;
      }
    }
  }

  /** A step that says nothing. */
  lemma SilentKeepsLog(h: Host, r: Host)
    requires LogInv(h) && Advances(h, r) && r.log == h.log && |r.tasks| == |h.tasks|
    requires r.link.aborted ==> h.link.aborted && r.link.attachment == h.link.attachment
    ensures LogInv(r)
  {
    forall o <- r.log ensures Remembers(r, o) {
      assert Remembers(h, o);
    }
  }

  /** A step that says `o`. */
  lemma SpokenKeepsLog(h: Host, r: Host, o: Observation)
    requires LogInv(h) && Advances(h, r) && r.log == h.log + [o]
    requires Lawful(h.log, o) && Remembers(r, o) && Recorded(r.tasks, r.log)
    requires r.link.aborted ==>
               (h.link.aborted && r.link.attachment == h.link.attachment) || o == Aborts(r.link.attachment)
    ensures LogInv(r)
  {
    LogAppend(h.log, o);
    forall p <- r.log ensures Remembers(r, p) {
      if p in h.log {
        assert Remembers(h, p);
      }
    }
  }

  lemma AbortKeepsLog(h: Host)
    requires LogInv(h)
    ensures LogInv(Abort(h))
  {
    if !h.link.aborted {
      SpokenKeepsLog(h, Abort(h), Aborts(h.link.attachment));
    }
  }

  lemma TeardownKeepsLog(h: Host)
    requires LogInv(h)
    ensures LogInv(Teardown(h))
  {
    AbortKeepsLog(h);
    SilentKeepsLog(Abort(h), Teardown(h));
  }

  lemma TeardownKeepsRequests(h: Host)
    requires RequestInv(h)
    ensures RequestInv(Teardown(h))
  {
    var r := Teardown(h);
    forall t <- r.tasks ensures t.attachment <= r.link.attachment {
      var i :| 0 <= i < |r.tasks| && t == r.tasks[i];
      assert h.tasks[i] in h.tasks;
    }
  }

  lemma TeardownKeepsInv(h: Host)
    requires HostInv(h)
    ensures HostInv(Teardown(h))
  {
    TeardownKeepsLog(h);
    TeardownKeepsRequests(h);
  }

  lemma BeginKeepsInv(h: Host)
    requires HostInv(h)
    ensures HostInv(Begin(h))
  {
    SilentKeepsLog(h, Begin(h));
    assert RequestInv(Begin(h)) by {
      forall i | 0 <= i < |h.tasks| ensures h.tasks[i].attachment <= h.link.attachment {
        assert h.tasks[i] in h.tasks;
      }
    }
  }

  lemma EndpointKeepsInv(h: Host, ok: bool)
    requires HostInv(h)
    ensures HostInv(EndpointResolves(h, ok))
  {
    if h.link.phase == AwaitEndpoint {
      if !ok || h.link.aborted {
        TeardownKeepsInv(h);
      } else {
        SpokenKeepsLog(h, EndpointResolves(h, ok), Connects(h.link.attachment));
      }
    }
  }

  lemma ConnectKeepsInv(h: Host, ok: bool)
    requires HostInv(h)
    ensures HostInv(ConnectResolves(h, ok))
  {
    if h.link.phase == Connecting {
      if !ok || h.link.aborted {
        TeardownKeepsInv(h);
      } else {
        SilentKeepsLog(h, ConnectResolves(h, ok));
      }
    }
  }

  lemma AcceptKeepsIndex(requests: map<string, nat>, tasks: seq<Task>, attachment: nat, id: string)
    requires Indexes(requests, tasks, attachment) && id !in requests
    ensures Indexes(requests[id := |tasks|], tasks + [Task(attachment, id, Queued, false)], attachment)
    ensures |requests[id := |tasks|]| == |requests| + 1
  {
    assert requests[id := |tasks|].Keys == requests.Keys + {id};
  }

  lemma AcceptKeepsLog(h: Host, r: Host, id: string)
    requires LogInv(h) && !h.link.aborted
    requires r == Seen(h.(requests := h.requests[id := |h.tasks|],
                          tasks := h.tasks + [Task(h.link.attachment, id, Queued, false)]),
                       Accepts(|h.tasks|, h.link.attachment, id))
    ensures LogInv(r)
  {
    var o := Accepts(|h.tasks|, h.link.attachment, id);
    assert Lawful(h.log, o) by {
      assert forall p <- h.log :: Remembers(h, p);
    }
    SpokenKeepsLog(h, r, o);
  }

  lemma RequestKeepsInv(h: Host, id: string)
    requires HostInv(h)
    ensures HostInv(ReceiveRequest(h, id))
  {
    if Receiving(h) {
      if id in h.requests || |h.requests| >= MAX_REQUESTS {
        AbortKeepsLog(h);
      } else {
        AcceptKeepsLog(h, ReceiveRequest(h, id), id);
        AcceptKeepsIndex(h.requests, h.tasks, h.link.attachment, id);
      }
    }
  }

  /** Marking a task as cancelled or running leaves the index as it was. */
  lemma MarkKeepsIndex(requests: map<string, nat>, tasks: seq<Task>, attachment: nat, task: nat, marked: Task)
    requires Indexes(requests, tasks, attachment) && task < |tasks|
    requires marked.attachment == tasks[task].attachment && marked.id == tasks[task].id
    requires marked.stage.Ended? == tasks[task].stage.Ended?
    ensures Indexes(requests, tasks[task := marked], attachment)
  {
  }

  lemma CancelKeepsInv(h: Host, id: string)
    requires HostInv(h)
    ensures HostInv(ReceiveCancel(h, id))
  {
    if Receiving(h) && id in h.requests {
      var task := h.requests[id];
      MarkKeepsIndex(h.requests, h.tasks, h.link.attachment, task, h.tasks[task].(cancelled := true));
      SpokenKeepsLog(h, ReceiveCancel(h, id), Cancels(task));
    }
  }

  lemma EndKeepsIndex(requests: map<string, nat>, tasks: seq<Task>, attachment: nat, task: nat)
    requires Indexes(requests, tasks, attachment) && task < |tasks| && !tasks[task].stage.Ended?
    ensures Indexes(if tasks[task].attachment == attachment then requests - {tasks[task].id} else requests,
                    tasks[task := tasks[task].(stage := Ended)], attachment)
  {
    var t := tasks[task];
    var left := if t.attachment == attachment then requests - {t.id} else requests;
    var after := tasks[task := t.(stage := Ended)];
    forall i | 0 <= i < |after| && Live(after[i], attachment) ensures after[i].id in left && left[after[i].id] == i {
      assert Live(tasks[i], attachment);
      if t.attachment == attachment {
        assert Live(t, attachment);
      }
    }
  }

  lemma ForgettingShrinks(requests: map<string, nat>, id: string)
    ensures |requests - {id}| <= |requests|
  {
    var left := requests - {id};
    assert requests.Keys == left.Keys + (requests.Keys * {id});
  }

  lemma EndTaskKeepsRequests(h: Host, task: nat)
    requires RequestInv(h) && task < |h.tasks| && !h.tasks[task].stage.Ended?
    ensures RequestInv(EndTask(h, task))
  {
    ForgettingShrinks(h.requests, h.tasks[task].id);
    if InAttachment(h) {
      EndKeepsIndex(h.requests, h.tasks, h.link.attachment, task);
    }
    assert h.tasks[task] in h.tasks;
  }

  lemma TaskStartsKeepsInv(h: Host, task: nat)
    requires HostInv(h)
    ensures HostInv(TaskStarts(h, task))
  {
    if task < |h.tasks| && h.tasks[task].stage == Queued {
      SilentKeepsLog(h, TaskStarts(h, task));
      if OverFor(h, h.tasks[task]) || h.tasks[task].cancelled {
        EndTaskKeepsRequests(h, task);
      } else {
        assert h.tasks[task] in h.tasks;
        if InAttachment(h) {
          MarkKeepsIndex(h.requests, h.tasks, h.link.attachment, task, h.tasks[task].(stage := Running));
        }
      }
    }
  }

  lemma SendKeepsLog(h: Host, task: nat)
    requires LogInv(h) && task < |h.tasks| && h.tasks[task].stage == Running
    requires !OverFor(h, h.tasks[task]) && !h.tasks[task].cancelled
    ensures LogInv(Seen(EndTask(h, task), Sends(task, h.tasks[task].attachment, h.tasks[task].id)))
  {
    var t := h.tasks[task];
    var o := Sends(task, t.attachment, t.id);
    assert Lawful(h.log, o) by {
      forall p <- h.log | p.Sends? ensures p.task != task {
        assert Remembers(h, p);
      }
    }
    SpokenKeepsLog(h, Seen(EndTask(h, task), o), o);
  }

  lemma SettlingKeepsLog(h: Host, task: nat)
    requires HostInv(h)
    ensures LogInv(TaskSettles(h, task))
  {
    if task < |h.tasks| && h.tasks[task].stage == Running {
      if OverFor(h, h.tasks[task]) || h.tasks[task].cancelled || !h.link.channel {
        SilentKeepsLog(h, EndTask(h, task));
      } else {
        SendKeepsLog(h, task);
      }
    }
  }

  lemma TaskSettlesKeepsInv(h: Host, task: nat)
    requires HostInv(h)
    ensures HostInv(TaskSettles(h, task))
  {
    SettlingKeepsLog(h, task);
    if task < |h.tasks| && h.tasks[task].stage == Running {
      EndTaskKeepsRequests(h, task);
    }
  }

  lemma CloseKeepsInv(h: Host)
    requires HostInv(h)
    ensures HostInv(Close(h))
  {
    var closed := if h.closed then h else Seen(h.(closed := true), Closes);
    if !h.closed {
      SpokenKeepsLog(h, closed, Closes);
    }
    AbortKeepsLog(closed);
  }

  lemma StepKeepsInv(h: Host, e: Event)
    requires HostInv(h)
    ensures HostInv(Step(h, e))
  {
    match e
    case EvBegin => BeginKeepsInv(h);
    case EvEndpoint(ok) => EndpointKeepsInv(h, ok);
    case EvConnect(ok) => ConnectKeepsInv(h, ok);
    case EvChannelCloses => if h.link.phase == Attached { TeardownKeepsInv(h); }
    case EvRequest(id) => RequestKeepsInv(h, id);
    case EvCancel(id) => CancelKeepsInv(h, id);
    case EvTaskStarts(task) => TaskStartsKeepsInv(h, task);
    case EvTaskSettles(task) => TaskSettlesKeepsInv(h, task);
    case EvClose => CloseKeepsInv(h);
  }

  lemma {:induction false} RunKeepsInv(h: Host, events: seq<Event>)
    requires HostInv(h)
    ensures HostInv(Run(h, events))
    decreases |events|
  {
    if events != [] {
      StepKeepsInv(h, events[0]);
      RunKeepsInv(Step(h, events[0]), events[1..]);
    }
  }

  /** Over any run of attachments: every result answers a request that was accepted on the same channel, at most
      once, never after its cancel nor after its attachment was aborted; every request is accepted once, by an
      attachment that still lives; and nothing connects after the host was closed. */
  lemma HostRunsLawfully(events: seq<Event>)
    ensures LawfulLog(Run(START, events).log)
  {
    RunKeepsInv(START, events);
  }

  // ----- at most 32 live requests -----

  ghost function LiveTasks(h: Host): set<nat> {
    set i: nat | i < |h.tasks| && Live(h.tasks[i], h.link.attachment)
  }

  lemma {:induction false} ImageIsSmaller(requests: map<string, nat>, image: set<nat>)
    requires forall i <- image :: exists id :: id in requests && requests[id] == i
    ensures |image| <= |requests|
    decreases requests.Keys
  {
    if image != {} {
      var i :| i in image;
      var id :| id in requests && requests[id] == i;
      var left := requests - {id};
      assert requests.Keys == left.Keys + {id};
      assert |requests| == |left| + 1;
      assert image == (image - {i}) + {i};
      ImageIsSmaller(left, image - {i});
    }
  }

  /** At any time of any run, at most 32 requests of the attachment are unfinished. */
  lemma AtMost32Live(events: seq<Event>)
    ensures var h := Run(START, events); InAttachment(h) ==> |LiveTasks(h)| <= MAX_REQUESTS
  {
    var h := Run(START, events);
    RunKeepsInv(START, events);
    if InAttachment(h) {
      forall i <- LiveTasks(h) ensures exists id :: id in h.requests && h.requests[id] == i {
        assert h.requests[h.tasks[i].id] == i;
      }
      ImageIsSmaller(h.requests, LiveTasks(h));
    }
  }

  // ----- an aborted attachment is over -----

  lemma StepGrowsLog(h: Host, e: Event)
    ensures h.log <= Step(h, e).log
  {
    match e
    case EvTaskSettles(task) =>
      if task < |h.tasks| {
        assert EndTask(h, task).log == h.log;
      }
    case EvClose =>
      var closed := if h.closed then h else Seen(h.(closed := true), Closes);
      assert h.log <= closed.log <= Abort(closed).log;
    case _ =>
      assert h.log <= Abort(h).log;
  }

  lemma {:induction false} LogGrows(h: Host, events: seq<Event>)
    ensures h.log <= Run(h, events).log
    decreases |events|
  {
    if events != [] {
      StepGrowsLog(h, events[0]);
      LogGrows(Step(h, events[0]), events[1..]);
    }
  }

  /** Once an attachment is aborted, whatever happens, no request of it is accepted and no result of it is sent. */
  lemma AbortIsFinal(h: Host, events: seq<Event>)
    requires HostInv(h) && h.link.aborted
    ensures h.log <= Run(h, events).log
    ensures var r := Run(h, events);
            forall i :: |h.log| <= i < |r.log| && (r.log[i].Accepts? || r.log[i].Sends?) ==>
              r.log[i].attachment != h.link.attachment
  {
    RunKeepsInv(h, events);
    LogGrows(h, events);
    var r := Run(h, events);
    forall i | |h.log| <= i < |r.log| && (r.log[i].Accepts? || r.log[i].Sends?)
      ensures r.log[i].attachment != h.link.attachment
    {
      assert Lawful(r.log[..i], r.log[i]);
      assert h.log <= r.log[..i];
      assert forall o <- h.log :: o in r.log[..i];
    }
  }

  /** A request under an id that is still unfinished, or a thirty-third one, ends the attachment; any other request
      is accepted and does not. */
  lemma IntrusionEndsAttachment(h: Host, id: string)
    requires HostInv(h) && Receiving(h)
    ensures var r := ReceiveRequest(h, id);
            && HostInv(r)
            && (r.link.aborted <==>
                |h.requests| >= MAX_REQUESTS
                || exists i :: 0 <= i < |h.tasks| && Live(h.tasks[i], h.link.attachment) && h.tasks[i].id == id)
            && (!r.link.aborted ==> r.log == h.log + [Accepts(|h.tasks|, h.link.attachment, id)])
  {
    RequestKeepsInv(h, id);
    if id in h.requests {
      assert Live(h.tasks[h.requests[id]], h.link.attachment);
    }
  }

  // ----- when a request is answered -----

  /** The log tells why a task was cancelled or is over. */
  ghost predicate Explains(log: seq<Observation>, tasks: seq<Task>, attachment: nat) {
    && (forall a: nat :: 0 < a < attachment ==> Aborts(a) in log)
    && (forall i :: 0 <= i < |tasks| ==> tasks[i].attachment > 0)
    && (forall i :: 0 <= i < |tasks| && tasks[i].cancelled ==> Cancels(i) in log || Aborts(tasks[i].attachment) in log)
  }

  ghost predicate Explained(h: Host) { Explains(h.log, h.tasks, h.link.attachment) }

  ghost predicate ExplainInv(h: Host) { HostInv(h) && Explained(h) }

  lemma ExplainsLonger(log: seq<Observation>, longer: seq<Observation>, tasks: seq<Task>, attachment: nat)
    requires Explains(log, tasks, attachment) && log <= longer
    ensures Explains(longer, tasks, attachment)
  {
    assert forall o <- log :: o in longer;
  }

  /** Every task in the request map is of the attachment under way. */
  lemma RegisteredIsCurrent(requests: map<string, nat>, tasks: seq<Task>, attachment: nat, i: nat)
    requires Indexes(requests, tasks, attachment) && i in requests.Values
    ensures i < |tasks| && tasks[i].attachment == attachment
  {
    var id :| id in requests && requests[id] == i;
    assert Live(tasks[requests[id]], attachment);
  }

  /** Cancelling what belongs to an aborted attachment needs no other explanation. */
  lemma CancelAllExplains(log: seq<Observation>, requests: map<string, nat>, tasks: seq<Task>, attachment: nat)
    requires Explains(log, tasks, attachment) && Aborts(attachment) in log
    requires forall i :: 0 <= i < |tasks| && i in requests.Values ==> tasks[i].attachment == attachment
    ensures Explains(log, CancelAll(tasks, requests), attachment)
  {
  }

  lemma TeardownExplains(h: Host)
    requires ExplainInv(h)
    ensures Explained(Teardown(h))
  {
    var log := Abort(h).log;
    AbortKeepsLog(h);
    assert h.log <= log && Aborts(h.link.attachment) in log;
    ExplainsLonger(h.log, log, h.tasks, h.link.attachment);
    forall i | 0 <= i < |h.tasks| && i in h.requests.Values ensures h.tasks[i].attachment == h.link.attachment {
      if InAttachment(h) {
        RegisteredIsCurrent(h.requests, h.tasks, h.link.attachment, i);
      }
    }
    CancelAllExplains(log, h.requests, h.tasks, h.link.attachment);
  }

  lemma MarkExplains(log: seq<Observation>, tasks: seq<Task>, attachment: nat, task: nat, marked: Task)
    requires Explains(log, tasks, attachment) && task < |tasks|
    requires marked.attachment == tasks[task].attachment
    requires marked.cancelled ==> tasks[task].cancelled || Cancels(task) in log
    ensures Explains(log, tasks[task := marked], attachment)
  {
  }

  lemma BeginExplains(h: Host)
    requires ExplainInv(h)
    ensures Explained(Begin(h))
  {
    forall a: nat | 0 < a < Begin(h).link.attachment ensures Aborts(a) in h.log {
      assert a < h.link.attachment || a == h.link.attachment;
    }
  }

  lemma EndpointExplains(h: Host, ok: bool)
    requires ExplainInv(h)
    ensures Explained(EndpointResolves(h, ok))
  {
    if h.link.phase == AwaitEndpoint {
      if !ok || h.link.aborted {
        TeardownExplains(h);
      } else {
        ExplainsLonger(h.log, h.log + [Connects(h.link.attachment)], h.tasks, h.link.attachment);
      }
    }
  }

  lemma ConnectExplains(h: Host, ok: bool)
    requires ExplainInv(h)
    ensures Explained(ConnectResolves(h, ok))
  {
    if h.link.phase == Connecting && (!ok || h.link.aborted) {
      TeardownExplains(h);
    }
  }

  lemma RequestExplains(h: Host, id: string)
    requires ExplainInv(h)
    ensures Explained(ReceiveRequest(h, id))
  {
    StepGrowsLog(h, EvRequest(id));
    ExplainsLonger(h.log, ReceiveRequest(h, id).log, h.tasks, h.link.attachment);
  }

  lemma CancelExplains(h: Host, id: string)
    requires ExplainInv(h)
    ensures Explained(ReceiveCancel(h, id))
  {
    if Receiving(h) && id in h.requests {
      var task := h.requests[id];
      var longer := h.log + [Cancels(task)];
      ExplainsLonger(h.log, longer, h.tasks, h.link.attachment);
      MarkExplains(longer, h.tasks, h.link.attachment, task, h.tasks[task].(cancelled := true));
    }
  }

  lemma StartExplains(h: Host, task: nat)
    requires ExplainInv(h) && task < |h.tasks|
    ensures Explained(TaskStarts(h, task))
  {
    MarkExplains(h.log, h.tasks, h.link.attachment, task, h.tasks[task].(stage := Ended));
    MarkExplains(h.log, h.tasks, h.link.attachment, task, h.tasks[task].(stage := Running));
  }

  lemma SettleExplains(h: Host, task: nat)
    requires ExplainInv(h) && task < |h.tasks|
    ensures Explained(TaskSettles(h, task))
  {
    StepGrowsLog(h, EvTaskSettles(task));
    ExplainsLonger(h.log, TaskSettles(h, task).log, h.tasks, h.link.attachment);
    MarkExplains(TaskSettles(h, task).log, h.tasks, h.link.attachment, task, h.tasks[task].(stage := Ended));
  }

  lemma CloseExplains(h: Host)
    requires ExplainInv(h)
    ensures Explained(Close(h))
  {
    StepGrowsLog(h, EvClose);
    ExplainsLonger(h.log, Close(h).log, h.tasks, h.link.attachment);
  }

  lemma StartStepExplains(h: Host, task: nat)
    requires ExplainInv(h)
    ensures Explained(TaskStarts(h, task))
  {
    if task < |h.tasks| {
      StartExplains(h, task);
    }
  }

  lemma SettleStepExplains(h: Host, task: nat)
    requires ExplainInv(h)
    ensures Explained(TaskSettles(h, task))
  {
    if task < |h.tasks| {
      SettleExplains(h, task);
    }
  }

  lemma LoopStepExplains(h: Host, e: Event)
    requires ExplainInv(h) && (e.EvBegin? || e.EvEndpoint? || e.EvConnect? || e.EvChannelCloses?)
    ensures Explained(Step(h, e))
  {
    match e
    case EvBegin => BeginExplains(h);
    case EvEndpoint(ok) => EndpointExplains(h, ok);
    case EvConnect(ok) => ConnectExplains(h, ok);
    case EvChannelCloses => TeardownExplains(h);
  }

  lemma StepExplains(h: Host, e: Event)
    requires ExplainInv(h)
    ensures Explained(Step(h, e))
  {
    match e
    case EvRequest(id) => RequestExplains(h, id);
    case EvCancel(id) => CancelExplains(h, id);
    case EvTaskStarts(task) => StartStepExplains(h, task);
    case EvTaskSettles(task) => SettleStepExplains(h, task);
    case EvClose => CloseExplains(h);
    case _ => LoopStepExplains(h, e);
  }

  lemma {:induction false} RunKeepsExplain(h: Host, events: seq<Event>)
    requires ExplainInv(h)
    ensures ExplainInv(Run(h, events))
    decreases |events|
  {
    if events != [] {
      StepKeepsInv(h, events[0]);
      StepExplains(h, events[0]);
      RunKeepsExplain(Step(h, events[0]), events[1..]);
    }
  }

  /** The reasons a settled request goes without a result are on record. */
  lemma SettledSilently(h: Host, task: nat)
    requires ExplainInv(h) && task < |h.tasks|
    ensures OverFor(h, h.tasks[task]) || h.tasks[task].cancelled
            <==> Cancels(task) in h.log || Aborts(h.tasks[task].attachment) in h.log
  {
    var t := h.tasks[task];
    assert t in h.tasks;
    if Cancels(task) in h.log {
      assert Remembers(h, Cancels(task));
    }
    if Aborts(t.attachment) in h.log {
      assert Remembers(h, Aborts(t.attachment));
    }
  }

  /** When the handler of an accepted request settles, after any run, its result is sent if and only if the engine
      has not cancelled the request, its attachment has not been aborted, and `connect` has returned. */
  lemma AnsweredExactlyWhen(events: seq<Event>, task: nat)
    requires var h := Run(START, events); task < |h.tasks| && h.tasks[task].stage == Running
    ensures
      var h := Run(START, events);
      var t := h.tasks[task];
      && Accepts(task, t.attachment, t.id) in h.log
      && TaskSettles(h, task).log ==
           if Cancels(task) !in h.log && Aborts(t.attachment) !in h.log && h.link.channel
           then h.log + [Sends(task, t.attachment, t.id)]
           else h.log
  {
    RunKeepsExplain(START, events);
    SettledSilently(Run(START, events), task);
  }

  /** "Exactly one result" is not promised: a handler that settles before `connect` has returned finds no channel to
      send its result on, and the request, though never cancelled nor aborted, stays without one. */
  lemma EarlyResultIsLost()
    ensures
      var h := Run(START, [EvBegin, EvEndpoint(true), EvRequest("a"), EvTaskStarts(0), EvTaskSettles(0),
          EvConnect(true)]);
      && h.link.channel
      && h.tasks == [Task(1, "a", Ended, false)]
      && h.log == [Connects(1), Accepts(0, 1, "a")]
  {
    var begun := Begin(START);
    var connecting := EndpointResolves(begun, true);
    var asked := ReceiveRequest(connecting, "a");
    assert asked.tasks == [Task(1, "a", Queued, false)];
    var running := TaskStarts(asked, 0);
    assert running.tasks == [Task(1, "a", Running, false)];
    var ended := TaskSettles(running, 0);
    var events := [EvBegin, EvEndpoint(true), EvRequest("a"), EvTaskStarts(0), EvTaskSettles(0), EvConnect(true)];
    calc {
      Run(START, events);
      Run(begun, events[1..]);
      Run(connecting, events[2..]);
      Run(asked, events[3..]);
      Run(running, events[4..]);
      Run(ended, events[5..]);
      Run(ConnectResolves(ended, true), events[6..]);
    }
  }

  /** The connection as the source keeps it: an abort flag for the whole lifetime, and per attachment an abort flag,
      a channel and a map of requests. */
  class EngineHostConnection {
    var closed: bool
    var phase: Phase
    var attachment: nat
    var aborted: bool
    var channel: bool
    var current: bool
    var requests: map<string, nat>
    var tasks: seq<Task>
    ghost var log: seq<Observation>

    constructor ()
      ensures View() == START
    {
      closed, phase, attachment, aborted, channel, current := false, Top, 0, false, false, false;
      requests, tasks, log := map[], [], [];
    }

    ghost function View(): Host
      reads this
    {
      Host(closed, Link(phase, attachment, aborted, channel, current), requests, tasks, log)
    }

    method AbortAttachment()
      modifies `aborted, `log
      ensures View() == Abort(old(View()))
    {
      if !aborted {
        aborted := true;
        log := log + [Aborts(attachment)];
      }
    }

    /** One turn of the attachment loop up to the call of `endpoint`. */
    method BeginAttachment()
      modifies this
      ensures View() == Begin(old(View()))
    {
      if phase == Top || phase == Rest {
        if closed {
          phase := Done;
        } else {
          attachment, aborted, requests, channel, current := attachment + 1, false, map[], false, false;
          phase := AwaitEndpoint;
        }
      }
    }

    /** The `finally` block: abort, cancel every live request, clear the map, drop the channel. */
    method FinishAttachment()
      requires forall id <- requests :: requests[id] < |tasks|
      modifies this
      ensures View() == Teardown(old(View()))
    {
      AbortAttachment();
      var todo := requests.Values;
      ghost var was := tasks;
      while todo != {}
        invariant todo <= requests.Values && |tasks| == |was|
        invariant forall i :: 0 <= i < |was| ==>
            tasks[i] == if i in requests.Values && i !in todo then was[i].(cancelled := true) else was[i]
        invariant forall i <- todo :: i < |was|
        invariant requests == old(requests) && closed == old(closed) && attachment == old(attachment)
        invariant aborted && log == Abort(old(View())).log
        decreases |todo|
      {
        var task :| task in todo;
        tasks := tasks[task := tasks[task].(cancelled := true)];
        todo := todo - {task};
      }
      assert tasks == CancelAll(was, requests);
      requests := map[];
      channel, current := false, false;
      phase := if closed then Done else Rest;
    }

    method EndpointReturns(ok: bool)
      requires forall id <- requests :: requests[id] < |tasks|
      modifies this
      ensures View() == EndpointResolves(old(View()), ok)
    {
      if phase == AwaitEndpoint {
        if ok && !aborted {
          phase := Connecting;
          log := log + [Connects(attachment)];
        } else {
          FinishAttachment();
        }
      }
    }

    method ConnectReturns(ok: bool)
      requires forall id <- requests :: requests[id] < |tasks|
      modifies this
      ensures View() == ConnectResolves(old(View()), ok)
    {
      if phase == Connecting {
        if ok && !aborted {
          phase, channel, current := Attached, true, true;
        } else {
          FinishAttachment();
        }
      }
    }

    method OnHostRequest(id: string)
      modifies this
      ensures View() == ReceiveRequest(old(View()), id)
    {
      if (phase != Connecting && phase != Attached) || aborted {
        return;
      }
      if id in requests || |requests| >= MAX_REQUESTS {
        AbortAttachment();
        return;
      }
      requests := requests[id := |tasks|];
      log := log + [Accepts(|tasks|, attachment, id)];
      tasks := tasks + [Task(attachment, id, Queued, false)];
    }

    method OnHostCancel(id: string)
      modifies this
      ensures View() == ReceiveCancel(old(View()), id)
    {
      if (phase != Connecting && phase != Attached) || aborted {
        return;
      }
      if id in requests && requests[id] < |tasks| {
        var task := requests[id];
        tasks := tasks[task := tasks[task].(cancelled := true)];
        log := log + [Cancels(task)];
      }
    }

    method Forgets(task: nat)
      requires task < |tasks|
      modifies `tasks, `requests
      ensures View() == EndTask(old(View()), task)
    {
      if tasks[task].attachment == attachment {
        requests := requests - {tasks[task].id};
      }
      tasks := tasks[task := tasks[task].(stage := Ended)];
    }

    method StartTask(task: nat)
      requires task < |tasks|
      modifies `tasks, `requests
      ensures View() == TaskStarts(old(View()), task)
    {
      var t := tasks[task];
      if t.stage == Queued {
        if t.attachment != attachment || aborted || t.cancelled {
          Forgets(task);
        } else {
          tasks := tasks[task := t.(stage := Running)];
        }
      }
    }

    method SettleTask(task: nat)
      requires task < |tasks|
      modifies this
      ensures View() == TaskSettles(old(View()), task)
    {
      var t := tasks[task];
      if t.stage == Running {
        Forgets(task);
        if t.attachment == attachment && !aborted && !t.cancelled && channel {
          log := log + [Sends(task, t.attachment, t.id)];
        }
      }
    }

    /** Closing aborts the attachment under way through its listener, if there is one. */
    method CloseHost()
      modifies this
      ensures View() == Close(old(View()))
    {
      if !closed {
        closed := true;
        log := log + [Closes];
      }
      if phase == AwaitEndpoint || phase == Connecting || phase == Attached {
        AbortAttachment();
      }
    }
  }
}
