/** The locale controller: changes of the language preference, and refreshes when the system's languages change, are
    served one at a time. Each prepares the new locale, persists the preference if it is a change, commits a new
    snapshot and publishes it. What the languages resolve to, and what fails, is the environment's. */
module LocalePreference {
  import opened Options
  import opened Sequences

  /** `Set` carries whatever the caller passed; it may not be a supported preference. */
  datatype Request = Set(preference: string) | Refresh

  datatype Snapshot = Snapshot(revision: nat, preference: string, locale: string)

  datatype Phase = Preparing | Writing | Cleaning | Publishing

  datatype Update = Update(request: Request, preference: string, locale: string, phase: Phase)

  /** `Failed` before anything changed, `FailedLate` after the file was replaced, `Unpublished` after the commit. */
  datatype Outcome = Unsupported | Unchanged | Failed | FailedLate | Published | Unpublished

  datatype Finished = Finished(request: Request, outcome: Outcome)

  datatype Controller = Controller(
    snapshot: Snapshot,
    file: Option<string>,           // the preference on disk
    running: Option<Update>,
    queue: seq<Request>,
    finished: seq<Finished>,
    commits: seq<Update>)           // every update committed, in order

  predicate Supported(available: set<string>, preference: string) { preference == "system" || preference in available }

  /** A stored preference that is not supported counts as "system". */
  function Create(available: set<string>, stored: string, locale: string): Controller {
    Controller(Snapshot(0, if Supported(available, stored) then stored else "system", locale), Some(stored), None,
        [], [], [])
  }

  function Submit(c: Controller, r: Request): Controller { c.(queue := c.queue + [r]) }

  /** The preference is selected when the request is served, not when it is made. */
  function Selected(c: Controller, r: Request): string {
    match r
    case Set(preference) => preference
    case Refresh => c.snapshot.preference
  }

  function Begin(c: Controller, available: set<string>, locale: string): Controller {
    if c.running.Some? || c.queue == [] then c
    else
      var r := c.queue[0];
      var preference := Selected(c, r);
      var taken := c.(queue := c.queue[1..]);
      if !Supported(available, preference) then taken.(finished := c.finished + [Finished(r, Unsupported)])
      else if r.Refresh? && preference == c.snapshot.preference && locale == c.snapshot.locale
      then taken.(finished := c.finished + [Finished(r, Unchanged)])
      else taken.(running := Some(Update(r, preference, locale, Preparing)))
  }

  function Finish(c: Controller, outcome: Outcome): Controller
    requires c.running.Some?
  {
    c.(running := None, finished := c.finished + [Finished(c.running.value.request, outcome)])
  }

  function Commit(c: Controller): Controller
    requires c.running.Some?
  {
    var u := c.running.value;
    c.(snapshot := Snapshot(c.snapshot.revision + 1, u.preference, u.locale), commits := c.commits + [u],
       running := Some(u.(phase := Publishing)))
  }

  /** The update under way gets past what it is waiting for, or fails there. */
  function Proceed(c: Controller, ok: bool): Controller {
    if c.running.None? then c
    else
      var u := c.running.value;
      match u.phase
      case Preparing =>
        if !ok then Finish(c, Failed)
        else if u.request.Refresh? then Commit(c)
        else c.(running := Some(u.(phase := Writing)))
      case Writing =>
        if !ok then Finish(c, Failed) else c.(running := Some(u.(phase := Cleaning)), file := Some(u.preference))
      case Cleaning => if !ok then Finish(c, FailedLate) else Commit(c)
      case Publishing => Finish(c, if ok then Published else Unpublished)
  }

  datatype Event = EvSubmit(request: Request) | EvBegin(locale: string) | EvProceed(ok: bool)

  function Step(c: Controller, available: set<string>, e: Event): Controller {
    match e
    case EvSubmit(request) => Submit(c, request)
    case EvBegin(locale) => Begin(c, available, locale)
    case EvProceed(ok) => Proceed(c, ok)
  }

  function Run(c: Controller, available: set<string>, events: seq<Event>): Controller
    decreases |events|
  {
    if events == [] then c else Run(Step(c, available, events[0]), available, events[1..])
  }

  // ----- the simple form -----

  /** The preference of the last `Set` that was committed. */
  function LastSet(base: string, commits: seq<Update>): string {
    if commits == [] then base
    else
      var last := commits[|commits| - 1];
      if last.request.Set? then last.request.preference else LastSet(base, commits[..|commits| - 1])
  }

  /** How often an outcome left a commit behind. */
  function Committed(finished: seq<Finished>): nat {
    if finished == [] then 0
    else Committed(finished[..|finished| - 1])
         + if finished[|finished| - 1].outcome in {Published, Unpublished} then 1 else 0
  }

  // ----- invariant -----

  ghost predicate CommitInv(c: Controller, base: Snapshot) {
    && c.snapshot.revision == base.revision + |c.commits|
    && c.snapshot.preference == LastSet(base.preference, c.commits)
    && (c.commits != [] ==> c.snapshot.locale == c.commits[|c.commits| - 1].locale)
    && (c.commits == [] ==> c.snapshot.locale == base.locale)
    && |c.commits| == Committed(c.finished) + (if c.running.Some? && c.running.value.phase == Publishing then 1 else 0)
  }

  /** An update carries the preference it selected, which is still the one a refresh found. */
  ghost predicate UpdateInv(c: Controller, available: set<string>) {
    match c.running
    case None => true
    case Some(u) =>
      && Supported(available, u.preference)
      && (u.request.Set? ==> u.preference == u.request.preference)
      && (u.request.Refresh? ==> u.preference == c.snapshot.preference && u.phase in {Preparing, Publishing})
      && (u.phase == Cleaning ==> c.file == Some(u.preference))
      && (u.phase == Publishing ==> c.snapshot.preference == u.preference)
  }

  ghost predicate LocaleInv(c: Controller, available: set<string>, base: Snapshot) {
    && CommitInv(c, base) && UpdateInv(c, available) && Supported(available, c.snapshot.preference)
  }

  lemma FinishKeepsCommits(c: Controller, base: Snapshot, outcome: Outcome)
    requires CommitInv(c, base) && c.running.Some?
    requires outcome in {Published, Unpublished} <==> c.running.value.phase == Publishing
    ensures CommitInv(Finish(c, outcome), base)
  {
    var longer := Finish(c, outcome).finished;
    assert longer[..|longer| - 1] == c.finished;
  }

  lemma CommitKeepsCommits(c: Controller, base: Snapshot)
    requires CommitInv(c, base) && c.running.Some? && c.running.value.phase != Publishing
    requires var u := c.running.value;
             u.preference == if u.request.Set? then u.request.preference else c.snapshot.preference
    ensures CommitInv(Commit(c), base)
  {
    var longer := Commit(c).commits;
    assert longer[..|longer| - 1] == c.commits;
  }

  lemma BeginKeepsInv(c: Controller, available: set<string>, base: Snapshot, locale: string)
    requires LocaleInv(c, available, base)
    ensures LocaleInv(Begin(c, available, locale), available, base)
  {
    var longer := Begin(c, available, locale).finished;
    if longer != c.finished {
      assert longer[..|longer| - 1] == c.finished;
    }
  }

  lemma CommitKeepsInv(c: Controller, available: set<string>, base: Snapshot)
    requires LocaleInv(c, available, base) && c.running.Some? && c.running.value.phase != Publishing
    ensures LocaleInv(Commit(c), available, base)
  {
    CommitKeepsCommits(c, base);
  }

  lemma FinishKeepsInv(c: Controller, available: set<string>, base: Snapshot, outcome: Outcome)
    requires LocaleInv(c, available, base) && c.running.Some?
    requires outcome in {Published, Unpublished} <==> c.running.value.phase == Publishing
    ensures LocaleInv(Finish(c, outcome), available, base)
  {
    FinishKeepsCommits(c, base, outcome);
  }

  lemma ProceedKeepsInv(c: Controller, available: set<string>, base: Snapshot, ok: bool)
    requires LocaleInv(c, available, base)
    ensures LocaleInv(Proceed(c, ok), available, base)
  {
    if c.running.Some? {
      match c.running.value.phase
      case Preparing =>
        if !ok { FinishKeepsInv(c, available, base, Failed); } else { CommitKeepsInv(c, available, base); }
      case Writing => FinishKeepsInv(c, available, base, Failed);
      case Cleaning =>
        if !ok { FinishKeepsInv(c, available, base, FailedLate); } else { CommitKeepsInv(c, available, base); }
      case Publishing => FinishKeepsInv(c, available, base, if ok then Published else Unpublished);
    }
  }

  lemma StepKeepsInv(c: Controller, available: set<string>, base: Snapshot, e: Event)
    requires LocaleInv(c, available, base)
    ensures LocaleInv(Step(c, available, e), available, base)
  {
    match e
    case EvSubmit(_) =>
    case EvBegin(locale) => BeginKeepsInv(c, available, base, locale);
    case EvProceed(ok) => ProceedKeepsInv(c, available, base, ok);
  }

  lemma {:induction false} RunKeepsInv(c: Controller, available: set<string>, base: Snapshot, events: seq<Event>)
    requires LocaleInv(c, available, base)
    ensures LocaleInv(Run(c, available, events), available, base)
    decreases |events|
  {
    if events != [] {
      StepKeepsInv(c, available, base, events[0]);
      RunKeepsInv(Step(c, available, events[0]), available, base, events[1..]);
    }
  }

  /** Over any run: the revision counts the commits, each of which was published or failed to be; the preference is
      that of the last committed `Set`, so no refresh, wherever it was queued, takes one back; and it is supported. */
  lemma SnapshotIsLastCommit(available: set<string>, stored: string, locale: string, events: seq<Event>)
    ensures
      var start := Create(available, stored, locale);
      var c := Run(start, available, events);
      && c.snapshot.revision == |c.commits|
      && c.snapshot.preference == LastSet(start.snapshot.preference, c.commits)
      && Supported(available, c.snapshot.preference)
      && (c.running.None? ==> c.snapshot.revision == Committed(c.finished))
  {
    RunKeepsInv(Create(available, stored, locale), available, Create(available, stored, locale).snapshot, events);
  }

  /** A refresh queued behind a `Set`, with anything happening in between, keeps the preference it finds committed
      when it is served. */
  lemma RefreshNeverReverts(available: set<string>, stored: string, locale: string, before: seq<Event>, served: string)
    requires var c := Run(Create(available, stored, locale), available, before);
             c.running.None? && c.queue != [] && c.queue[0].Refresh?
    ensures
      var c := Run(Create(available, stored, locale), available, before);
      var begun := Begin(c, available, served);
      && c.snapshot.preference == LastSet(Create(available, stored, locale).snapshot.preference, c.commits)
      && Proceed(begun, true).snapshot.preference == c.snapshot.preference
      && (served == c.snapshot.locale <==> begun.running.None?)
      && Proceed(begun, true).snapshot.revision ==
           c.snapshot.revision + (if served == c.snapshot.locale then 0 else 1)
  {
    RunKeepsInv(Create(available, stored, locale), available, Create(available, stored, locale).snapshot, before);
  }

  /** Only a commit changes the snapshot, and it raises the revision by one; a refused request, and one that failed to
      prepare or to persist, leave it as it was. */
  lemma OnlyCommitsChange(c: Controller, available: set<string>, e: Event)
    ensures
      var r := Step(c, available, e);
      if r.commits == c.commits then r.snapshot == c.snapshot
      else |r.commits| == |c.commits| + 1 && r.commits[..|c.commits|] == c.commits
           && r.snapshot.revision == c.snapshot.revision + 1
    ensures
      var r := Step(c, available, e);
      |r.finished| > |c.finished| && r.finished[|r.finished| - 1].outcome !in {Published, Unpublished}
      ==> r.snapshot == c.snapshot && r.commits == c.commits
  {
  }

  // ----- the file -----

  function FileAfter(base: Option<string>, finished: seq<Finished>): Option<string> {
    if finished == [] then base
    else
      var last := finished[|finished| - 1];
      if last.request.Set? && last.outcome in {FailedLate, Published, Unpublished} then Some(last.request.preference)
      else FileAfter(base, finished[..|finished| - 1])
  }

  ghost predicate FileInv(c: Controller, base: Option<string>) {
    c.file ==
      if c.running.Some? && c.running.value.phase in {Cleaning, Publishing} && c.running.value.request.Set?
      then Some(c.running.value.request.preference)
      else FileAfter(base, c.finished)
  }

  lemma FileAppend(base: Option<string>, finished: seq<Finished>, f: Finished)
    ensures FileAfter(base, finished + [f]) ==
            if f.request.Set? && f.outcome in {FailedLate, Published, Unpublished} then Some(f.request.preference)
            else FileAfter(base, finished)
  {
    assert (finished + [f])[..|finished|] == finished;
  }

  lemma StepKeepsFile(c: Controller, available: set<string>, base: Option<string>, e: Event)
    requires FileInv(c, base) && UpdateInv(c, available)
    ensures FileInv(Step(c, available, e), base)
  {
    match e
    case EvSubmit(_) =>
    case EvBegin(_) =>
      if c.queue != [] {
        FileAppend(base, c.finished, Finished(c.queue[0], Unsupported));
        FileAppend(base, c.finished, Finished(c.queue[0], Unchanged));
      }
    case EvProceed(ok) =>
      if c.running.Some? {
        forall outcome: Outcome
          ensures FileAfter(base, c.finished + [Finished(c.running.value.request, outcome)]) ==
                  if c.running.value.request.Set? && outcome in {FailedLate, Published, Unpublished}
                  then Some(c.running.value.request.preference) else FileAfter(base, c.finished)
        {
          FileAppend(base, c.finished, Finished(c.running.value.request, outcome));
        }
      }
  }

  lemma {:induction false} RunKeepsFile(c: Controller, available: set<string>, snapshot: Snapshot, base: Option<string>,
                                        events: seq<Event>)
    requires FileInv(c, base) && LocaleInv(c, available, snapshot)
    ensures FileInv(Run(c, available, events), base)
    decreases |events|
  {
    if events != [] {
      StepKeepsFile(c, available, base, events[0]);
      StepKeepsInv(c, available, snapshot, events[0]);
      RunKeepsFile(Step(c, available, events[0]), available, snapshot, base, events[1..]);
    }
  }

  /** Between requests, the file holds the preference of the last `Set` that got as far as replacing it: the last
      committed one, or one that failed after it. */
  lemma FileIsLastReplacement(available: set<string>, stored: string, locale: string, events: seq<Event>)
    ensures
      var c := Run(Create(available, stored, locale), available, events);
      c.running.None? ==> c.file == FileAfter(Some(stored), c.finished)
  {
    var start := Create(available, stored, locale);
    RunKeepsFile(start, available, start.snapshot, Some(stored), events);
  }

  // ----- order -----

  function Submitted(events: seq<Event>): seq<Request> {
    if events == [] then []
    else (if events[0].EvSubmit? then [events[0].request] else []) + Submitted(events[1..])
  }

  function RequestsOf(finished: seq<Finished>): seq<Request> {
    seq(|finished|, i requires 0 <= i < |finished| => finished[i].request)
  }

  function Accepted(c: Controller): seq<Request> {
    RequestsOf(c.finished) + (if c.running.Some? then [c.running.value.request] else []) + c.queue
  }

  lemma RequestsAppend(finished: seq<Finished>, f: Finished)
    ensures RequestsOf(finished + [f]) == RequestsOf(finished) + [f.request]
  {
  }

  lemma FinishAccepts(c: Controller, outcome: Outcome)
    requires c.running.Some?
    ensures Accepted(Finish(c, outcome)) == Accepted(c)
  {
    var done, r := RequestsOf(c.finished), c.running.value.request;
    RequestsAppend(c.finished, Finished(r, outcome));
    assert (done + [r]) + [] == done + [r];
  }

  lemma BeginAccepts(c: Controller, available: set<string>, locale: string)
    ensures Accepted(Begin(c, available, locale)) == Accepted(c)
  {
    if c.running.None? && c.queue != [] {
      var done, r, rest := RequestsOf(c.finished), c.queue[0], c.queue[1..];
      RequestsAppend(c.finished, Finished(r, Unsupported));
      RequestsAppend(c.finished, Finished(r, Unchanged));
      assert c.queue == [r] + rest && done + [] == done && (done + [r]) + [] == done + [r];
      Assoc(done, [r], rest);
    }
  }

  lemma StepAccepts(c: Controller, available: set<string>, e: Event)
    ensures Accepted(Step(c, available, e)) == Accepted(c) + if e.EvSubmit? then [e.request] else []
  {
    match e
    case EvSubmit(r) =>
      Assoc(RequestsOf(c.finished) + if c.running.Some? then [c.running.value.request] else [], c.queue, [r]);
    case EvBegin(locale) => BeginAccepts(c, available, locale);
    case EvProceed(ok) =>
      if c.running.Some? {
        FinishAccepts(c, Failed);
        FinishAccepts(c, FailedLate);
        FinishAccepts(c, Published);
        FinishAccepts(c, Unpublished);
      }
  }

  /** Requests are served one at a time, in the order they were made, whatever fails. */
  lemma {:induction false} ServedInOrder(c: Controller, available: set<string>, events: seq<Event>)
    ensures Accepted(Run(c, available, events)) == Accepted(c) + Submitted(events)
    decreases |events|
  {
    if events != [] {
      var own := if events[0].EvSubmit? then [events[0].request] else [];
      StepAccepts(c, available, events[0]);
      ServedInOrder(Step(c, available, events[0]), available, events[1..]);
      Assoc(Accepted(c), own, Submitted(events[1..]));
    }
  }

  class LocaleController {
    const available: set<string>
    var snapshot: Snapshot
    var file: Option<string>
    var running: Option<Update>
    var queue: seq<Request>
    ghost var finished: seq<Finished>
    ghost var commits: seq<Update>

    constructor (availableLocales: set<string>, stored: string, locale: string)
      ensures available == availableLocales && View() == Create(available, stored, locale)
    {
      available := availableLocales;
      snapshot := Snapshot(0, if Supported(availableLocales, stored) then stored else "system", locale);
      file, running, queue, finished, commits := Some(stored), None, [], [], [];
    }

    ghost function View(): Controller
      reads this
    {
      Controller(snapshot, file, running, queue, finished, commits)
    }

    method Enqueue(r: Request)
      modifies `queue
      ensures View() == Submit(old(View()), r)
    {
      queue := queue + [r];
    }

    method ServeNext(locale: string)
      modifies `running, `queue, `finished
      ensures View() == Begin(old(View()), available, locale)
    {
      if running.Some? || queue == [] {
        return;
      }
      var r := queue[0];
      queue := queue[1..];
      var preference := if r.Set? then r.preference else snapshot.preference;
      if preference != "system" && preference !in available {
        finished := finished + [Finished(r, Unsupported)];
        return;
      }
      if r.Refresh? && preference == snapshot.preference && locale == snapshot.locale {
        finished := finished + [Finished(r, Unchanged)];
        return;
      }
      running := Some(Update(r, preference, locale, Preparing));
    }

    method CommitUpdate(u: Update)
      requires running == Some(u)
      modifies `snapshot, `running, `commits
      ensures View() == Commit(old(View()))
    {
      snapshot := snapshot.(revision := snapshot.revision + 1, preference := u.preference, locale := u.locale);
      commits := commits + [u];
      running := Some(u.(phase := Publishing));
    }

    method UpdateProceeds(ok: bool)
      requires running.Some?
      modifies this
      ensures View() == Proceed(old(View()), ok)
    {
      var u := running.value;
      if u.phase == Publishing {
        running := None;
        finished := finished + [Finished(u.request, if ok then Published else Unpublished)];
      } else if !ok {
        running := None;
        finished := finished + [Finished(u.request, if u.phase == Cleaning then FailedLate else Failed)];
      } else if u.phase == Writing {
        file := Some(u.preference);
        running := Some(u.(phase := Cleaning));
      } else if u.phase == Preparing && u.request.Set? {
        running := Some(u.(phase := Writing));
      } else {
        CommitUpdate(u);
      }
    }
  }
}
