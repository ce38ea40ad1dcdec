/** Cloud workspace actions that survive crashes and lost replies. An action is written to the durable vault under a
    fresh id before it is sent, every retry carries that id, and the entry is erased when the server confirms or
    definitively refuses the action. Calls of `controlCloud` overlap with each other, with the network, with
    signing in and out, and with crashes. */
module CloudIntent {
  import opened Options

  datatype Action = Pause | Wake | Archive | Restore

  predicate StopsWork(a: Action) { a == Pause || a == Archive }

  /** The vault key of an action: account identity and workspace. */
  datatype Key = Key(identity: nat, workspace: nat)

  /** An intent, which is also the request that carries it. `id` is the idempotency key. */
  datatype Command = Command(key: Key, action: Action, id: nat)

  /** What a call of `controlCloud` is waiting for. */
  datatype Phase = Saving | Authorizing | Replying | Refreshing | Ended

  datatype Call = Call(command: Command, generation: nat, phase: Phase)

  /** In memory: the account, and what the model shows. */
  datatype Session = Session(
    identity: Option<nat>,
    generation: nat,
    busy: set<nat>,
    pending: map<nat, Action>)

  /** What has happened, in order. */
  datatype Happening =
    | Prepares(command: Command)
    | Requests(command: Command)
    | Executes(command: Command)
    | Clears(command: Command, confirmed: bool)
    | Opens(key: Key)

  /** `issued[id]` is the command the id was drawn for: ids never repeat. `sent` is on its way, for any length of
      time and any number of arrivals; the server remembers what it has `executed`. */
  datatype World = World(
    issued: seq<Command>,
    sent: set<Command>,
    executed: set<Command>,
    log: seq<Happening>)

  datatype Phone = Phone(session: Session, calls: seq<Call>, vault: map<Key, Command>, world: World)

  function Start(identity: Option<nat>): Phone {
    Phone(Session(identity, 0, {}, map[]), [], map[], World([], {}, {}, []))
  }

  function Log(w: World, o: Happening): World { w.(log := w.log + [o]) }

  /** A call acts on the model only while its generation lasts. */
  predicate Current(s: Session, c: Call) { !c.phase.Ended? && c.generation == s.generation }

  // ----- the steps of controlCloud -----

  /** `CloudIntent.prepare` for a body the vault does not hold yet. */
  function Prepare(p: Phone, c: Command): Phone {
    p.(vault := p.vault[c.key := c], world := Log(p.world, Prepares(c)).(issued := p.world.issued + [c]))
  }

  /** Show the action, mark the workspace busy and go on to the draft, if there is one to save, or to the request. */
  function Begin(p: Phone, c: Command, saves: bool): Phone {
    p.(calls := p.calls + [Call(c, p.session.generation, if StopsWork(c.action) && saves then Saving else Authorizing)],
       session := p.session.(busy := p.session.busy + {c.key.workspace},
                             pending := p.session.pending[c.key.workspace := c.action]))
  }

  function Control(p: Phone, workspace: nat, action: Action, saves: bool, readable: bool, writable: bool): Phone {
    if p.session.identity.None? || workspace in p.session.busy || !readable then p
    else
      var key := Key(p.session.identity.value, workspace);
      if key in p.vault then
        if p.vault[key].action != action then
          p.(session := p.session.(pending := p.session.pending[workspace := p.vault[key].action]))
        else Begin(p, p.vault[key], saves)
      else if !writable then p
      else
        var c := Command(key, action, |p.world.issued|);
        Begin(Prepare(p, c), c, saves)
  }

  function SetPhase(p: Phone, i: nat, phase: Phase): Phone
    requires i < |p.calls|
  {
    p.(calls := p.calls[i := p.calls[i].(phase := phase)])
  }

  /** The deferred release of the workspace, when a call returns. */
  function Return(p: Phone, i: nat): Phone
    requires i < |p.calls|
  {
    var c := p.calls[i];
    var ended := SetPhase(p, i, Ended);
    if c.generation == p.session.generation
    then ended.(session := p.session.(busy := p.session.busy - {c.command.key.workspace}))
    else ended
  }

  /** Erase the intent, in the vault and on screen. */
  function Erase(p: Phone, c: Command, confirmed: bool): Phone {
    p.(vault := p.vault - {c.key},
       session := p.session.(pending := p.session.pending - {c.key.workspace}),
       world := Log(p.world, Clears(c, confirmed)))
  }

  predicate Waiting(p: Phone, i: nat, phase: Phase) { i < |p.calls| && p.calls[i].phase == phase }

  /** The draft has been saved, or could not be. */
  function Saved(p: Phone, i: nat, ok: bool): Phone {
    if !Waiting(p, i, Saving) then p
    else if !ok || p.calls[i].generation != p.session.generation then Return(p, i)
    else SetPhase(p, i, Authorizing)
  }

  /** The token arrives if the generation is still the one of the call, and the request leaves. */
  function Authorized(p: Phone, i: nat): Phone {
    if !Waiting(p, i, Authorizing) then p
    else if p.calls[i].generation != p.session.generation then Return(p, i)
    else
      var c := p.calls[i].command;
      SetPhase(p.(world := Log(p.world, Requests(c)).(sent := p.world.sent + {c})), i, Replying)
  }

  /** The call fails, while authorizing or in the reply. A definitive refusal, one that needs the user to act, erases
      the intent if the vault can be written. */
  function Fails(p: Phone, i: nat, definitive: bool, writable: bool): Phone {
    if !Waiting(p, i, Authorizing) && !Waiting(p, i, Replying) then p
    else if p.calls[i].generation == p.session.generation && definitive && writable
    then Return(Erase(p, p.calls[i].command, false), i)
    else Return(p, i)
  }

  /** The server's confirmation arrives. It confirms an id only after executing it. */
  function Confirmed(p: Phone, i: nat, writable: bool): Phone {
    if !Waiting(p, i, Replying) || !Remembered(p.world, p.calls[i].command.id) then p
    else if p.calls[i].generation != p.session.generation || !writable then Return(p, i)
    else SetPhase(Erase(p, p.calls[i].command, true), i, Refreshing)
  }

  predicate Remembered(w: World, id: nat) { exists c <- w.executed :: c.id == id }

  /** The catalog is refreshed; a workspace that was woken is opened. */
  function Refreshed(p: Phone, i: nat): Phone {
    if !Waiting(p, i, Refreshing) then p
    else
      var c := p.calls[i].command;
      if c.action == Wake && p.calls[i].generation == p.session.generation
      then Return(Open(p, c.key.workspace), i)
      else Return(p, i)
  }

  /** The guard of `openCloud`. */
  function Open(p: Phone, workspace: nat): Phone {
    if p.session.identity.None? || Key(p.session.identity.value, workspace) in p.vault then p
    else p.(world := Log(p.world, Opens(Key(p.session.identity.value, workspace))))
  }

  /** A request that left earlier reaches the server, perhaps not for the first time. Known ids are not executed
      again; unknown ones may be accepted or refused. */
  function Arrives(p: Phone, c: Command, accepted: bool): Phone {
    if c !in p.world.sent || Remembered(p.world, c.id) || !accepted then p
    else p.(world := Log(p.world, Executes(c)).(executed := p.world.executed + {c}))
  }

  // ----- around it -----

  /** The program dies and starts again. Memory is lost; the vault, and what is on its way, stay. */
  function Crash(p: Phone): Phone {
    p.(calls := [], session := Session(p.session.identity, p.session.generation + 1, {}, map[]))
  }

  function SignIn(p: Phone, identity: nat): Phone {
    if p.session.identity == Some(identity)
    then p.(session := p.session.(generation := p.session.generation + 1))
    else p.(session := Session(Some(identity), p.session.generation + 1, {}, map[]))
  }

  /** Signing out ends the generation even if the credentials cannot be removed. */
  function SignOut(p: Phone, writable: bool): Phone {
    p.(session := Session(if writable then None else p.session.identity, p.session.generation + 1, {}, map[]))
  }

  /** `refreshCloud` reads the pending actions of the listed workspaces back from the vault. */
  function Catalog(p: Phone, listed: set<nat>): Phone {
    if p.session.identity.None? then p.(session := p.session.(busy := {}, pending := map[]))
    else
      var identity := p.session.identity.value;
      p.(session := p.session.(pending :=
           map w <- listed | Key(identity, w) in p.vault :: p.vault[Key(identity, w)].action))
  }

  datatype Event =
    | EvControl(workspace: nat, action: Action, saves: bool, readable: bool, writable: bool)
    | EvSaved(i: nat, ok: bool)
    | EvAuthorized(i: nat)
    | EvFails(i: nat, definitive: bool, writable: bool)
    | EvConfirmed(i: nat, writable: bool)
    | EvRefreshed(i: nat)
    | EvArrives(command: Command, accepted: bool)
    | EvOpen(workspace: nat)
    | EvCatalog(listed: set<nat>)
    | EvSignIn(identity: nat)
    | EvSignOut(writable: bool)
    | EvCrash

  function Step(p: Phone, e: Event): Phone {
    match e
    case EvControl(workspace, action, saves, readable, writable) =>
        Control(p, workspace, action, saves, readable, writable)
    case EvSaved(i, ok) => Saved(p, i, ok)
    case EvAuthorized(i) => Authorized(p, i)
    case EvFails(i, definitive, writable) => Fails(p, i, definitive, writable)
    case EvConfirmed(i, writable) => Confirmed(p, i, writable)
    case EvRefreshed(i) => Refreshed(p, i)
    case EvArrives(command, accepted) => Arrives(p, command, accepted)
    case EvOpen(workspace) => Open(p, workspace)
    case EvCatalog(listed) => Catalog(p, listed)
    case EvSignIn(identity) => SignIn(p, identity)
    case EvSignOut(writable) => SignOut(p, writable)
    case EvCrash => Crash(p)
  }

  function Run(p: Phone, events: seq<Event>): Phone
    decreases |events|
  {
    if events == [] then p else Run(Step(p, events[0]), events[1..])
  }

  // ----- what a run promises -----

  /** The action of `key` that has been prepared and neither confirmed nor refused since. */
  ghost function Unresolved(log: seq<Happening>, key: Key): Option<Command>
    decreases |log|
  {
    if log == [] then None
    else
      var last := log[|log| - 1];
      if last.Prepares? && last.command.key == key then Some(last.command)
      else if last.Clears? && last.command.key == key then None
      else Unresolved(log[..|log| - 1], key)
  }

  /** An id is drawn once, and only when nothing is unresolved; every request carries the unresolved command; what is
      executed was requested, and each id is executed once; only the unresolved command is erased, and a confirmed
      one was executed; a workspace is opened only when nothing is unresolved. */
  ghost predicate Lawful(past: seq<Happening>, o: Happening) {
    match o
    case Prepares(c) => Unresolved(past, c.key) == None && forall p <- past :: p.Prepares? ==> p.command.id != c.id
    case Requests(c) => Unresolved(past, c.key) == Some(c)
    case Executes(c) => Requests(c) in past && forall p <- past :: p.Executes? ==> p.command.id != c.id
    case Clears(c, confirmed) => Unresolved(past, c.key) == Some(c) && (confirmed ==> Executes(c) in past)
    case Opens(key) => Unresolved(past, key) == None
  }

  /** Everything was lawful after what came before it. */
  ghost predicate LawfulLog(log: seq<Happening>)
    decreases |log|
  {
    log == [] || (LawfulLog(log[..|log| - 1]) && Lawful(log[..|log| - 1], log[|log| - 1]))
  }

  lemma {:induction false} LawfulAt(log: seq<Happening>, n: nat)
    requires LawfulLog(log) && n < |log|
    ensures Lawful(log[..n], log[n])
    decreases |log|
  {
    if n < |log| - 1 {
      LawfulAt(log[..|log| - 1], n);
      assert log[..|log| - 1][..n] == log[..n];
    }
  }

  // ----- invariant -----

  predicate Issued(issued: seq<Command>, c: Command) { c.id < |issued| && issued[c.id] == c }

  function Lookup(vault: map<Key, Command>, key: Key): Option<Command> {
    if key in vault then Some(vault[key]) else None
  }

  ghost predicate VaultInv(vault: map<Key, Command>, issued: seq<Command>) {
    forall key <- vault :: vault[key].key == key && Issued(issued, vault[key])
  }

  ghost predicate WireInv(w: World) {
    && (forall c <- w.sent :: Issued(w.issued, c) && Requests(c) in w.log)
    && (forall c <- w.executed :: Issued(w.issued, c) && Executes(c) in w.log)
  }

  ghost predicate LogInv(w: World) {
    && LawfulLog(w.log)
    && (forall o <- w.log :: o.Prepares? ==> o.command.id < |w.issued|)
    && (forall o <- w.log :: o.Executes? ==> o.command in w.executed)
    && (forall o <- w.log :: o.Requests? ==> o.command in w.sent)
  }

  /** The vault is what the log says is unresolved. */
  ghost predicate Faithful(vault: map<Key, Command>, log: seq<Happening>) {
    forall key: Key :: Unresolved(log, key) == Lookup(vault, key)
  }

  /** A current call works on the vault entry of its key, until it has erased it. */
  ghost predicate Works(s: Session, vault: map<Key, Command>, c: Call) {
    Current(s, c) ==>
      && s.identity == Some(c.command.key.identity)
      && c.command.key.workspace in s.busy
      && Lookup(vault, c.command.key) == (if c.phase == Refreshing then None else Some(c.command))
  }

  ghost predicate CallsWork(s: Session, vault: map<Key, Command>, calls: seq<Call>) {
    forall i :: 0 <= i < |calls| ==> Works(s, vault, calls[i]) && calls[i].generation <= s.generation
  }

  /** No two current calls on one workspace. */
  ghost predicate Apart(s: Session, calls: seq<Call>) {
    forall i, j :: 0 <= i < j < |calls| && Current(s, calls[i]) && Current(s, calls[j]) ==>
      calls[i].command.key.workspace != calls[j].command.key.workspace
  }

  /** What is shown as pending is what the vault holds. */
  ghost predicate Shown(s: Session, vault: map<Key, Command>) {
    forall w <- s.pending ::
      && s.identity.Some?
      && Key(s.identity.value, w) in vault
      && vault[Key(s.identity.value, w)].action == s.pending[w]
  }

  ghost predicate WorldInv(p: Phone) {
    VaultInv(p.vault, p.world.issued) && WireInv(p.world) && LogInv(p.world) && Faithful(p.vault, p.world.log)
  }

  ghost predicate SessionInv(p: Phone) {
    CallsWork(p.session, p.vault, p.calls) && Apart(p.session, p.calls) && Shown(p.session, p.vault)
  }

  ghost predicate PhoneInv(p: Phone) { WorldInv(p) && SessionInv(p) }

  // ----- the log grows lawfully -----

  lemma LogAppend(log: seq<Happening>, o: Happening)
    requires LawfulLog(log) && Lawful(log, o)
    ensures LawfulLog(log + [o])
  {
    assert (log + [o])[..|log|] == log;
  }

  lemma UnresolvedAppend(log: seq<Happening>, o: Happening, key: Key)
    ensures Unresolved(log + [o], key) ==
            if o.Prepares? && o.command.key == key then Some(o.command)
            else if o.Clears? && o.command.key == key then None
            else Unresolved(log, key)
  {
    assert (log + [o])[..|log|] == log;
  }

  lemma PrepareKeepsWorld(p: Phone, c: Command)
    requires WorldInv(p) && c.key !in p.vault && c.id == |p.world.issued|
    ensures WorldInv(Prepare(p, c))
  {
    var r := Prepare(p, c);
    assert Unresolved(p.world.log, c.key) == Lookup(p.vault, c.key);
    LogAppend(p.world.log, Prepares(c));
    forall key: Key ensures Unresolved(r.world.log, key) == Lookup(r.vault, key) {
      UnresolvedAppend(p.world.log, Prepares(c), key);
    }
  }

  /** Requests, executions and openings leave the vault alone. */
  lemma MentionKeepsFaithful(vault: map<Key, Command>, log: seq<Happening>, o: Happening)
    requires Faithful(vault, log) && !o.Prepares? && !o.Clears?
    ensures Faithful(vault, log + [o])
  {
    forall key: Key ensures Unresolved(log + [o], key) == Lookup(vault, key) {
      UnresolvedAppend(log, o, key);
    }
  }

  lemma RequestKeepsWorld(p: Phone, c: Command)
    requires WorldInv(p) && Lookup(p.vault, c.key) == Some(c)
    ensures WorldInv(p.(world := Log(p.world, Requests(c)).(sent := p.world.sent + {c})))
  {
    assert Unresolved(p.world.log, c.key) == Lookup(p.vault, c.key);
    LogAppend(p.world.log, Requests(c));
    MentionKeepsFaithful(p.vault, p.world.log, Requests(c));
  }

  lemma OpenKeepsWorld(p: Phone, workspace: nat)
    requires WorldInv(p)
    ensures WorldInv(Open(p, workspace))
  {
    if p.session.identity.Some? {
      var key := Key(p.session.identity.value, workspace);
      if key !in p.vault {
        assert Unresolved(p.world.log, key) == Lookup(p.vault, key);
        LogAppend(p.world.log, Opens(key));
        MentionKeepsFaithful(p.vault, p.world.log, Opens(key));
      }
    }
  }

  lemma ArrivalKeepsWorld(p: Phone, c: Command, accepted: bool)
    requires WorldInv(p)
    ensures WorldInv(Arrives(p, c, accepted))
  {
    if c in p.world.sent && !Remembered(p.world, c.id) && accepted {
      LogAppend(p.world.log, Executes(c));
      MentionKeepsFaithful(p.vault, p.world.log, Executes(c));
    }
  }

  /** The id alone identifies the command that was executed. */
  lemma RememberedIsExecuted(p: Phone, c: Command)
    requires WorldInv(p) && Issued(p.world.issued, c) && Remembered(p.world, c.id)
    ensures Executes(c) in p.world.log
  {
    var e :| e in p.world.executed && e.id == c.id;
    assert Issued(p.world.issued, e);
  }

  lemma EraseKeepsWorld(p: Phone, c: Command, confirmed: bool)
    requires WorldInv(p) && Lookup(p.vault, c.key) == Some(c)
    requires confirmed ==> Remembered(p.world, c.id)
    ensures WorldInv(Erase(p, c, confirmed))
  {
    var r := Erase(p, c, confirmed);
    assert Unresolved(p.world.log, c.key) == Lookup(p.vault, c.key);
    if confirmed {
      RememberedIsExecuted(p, c);
    }
    LogAppend(p.world.log, Clears(c, confirmed));
    forall key: Key ensures Unresolved(r.world.log, key) == Lookup(r.vault, key) {
      UnresolvedAppend(p.world.log, Clears(c, confirmed), key);
    }
  }

  // ----- the session -----

  lemma PrepareKeepsSession(p: Phone, c: Command)
    requires SessionInv(p) && c.key !in p.vault
    requires p.session.identity == Some(c.key.identity) && c.key.workspace !in p.session.busy
    ensures SessionInv(Prepare(p, c))
  {
    forall i | 0 <= i < |p.calls| ensures Works(p.session, p.vault[c.key := c], p.calls[i]) {
      assert Works(p.session, p.vault, p.calls[i]);
    }
  }

  lemma BeginKeepsSession(p: Phone, c: Command, saves: bool)
    requires SessionInv(p) && Lookup(p.vault, c.key) == Some(c)
    requires p.session.identity == Some(c.key.identity) && c.key.workspace !in p.session.busy
    ensures SessionInv(Begin(p, c, saves))
  {
    var r := Begin(p, c, saves);
    forall i | 0 <= i < |r.calls|
      ensures Works(r.session, r.vault, r.calls[i]) && r.calls[i].generation <= r.session.generation
    {
      if i < |p.calls| {
        assert Works(p.session, p.vault, p.calls[i]);
      }
    }
    forall i, j | 0 <= i < j < |r.calls| && Current(r.session, r.calls[i]) && Current(r.session, r.calls[j])
      ensures r.calls[i].command.key.workspace != r.calls[j].command.key.workspace
    {
      assert Works(p.session, p.vault, p.calls[i]);
      assert Current(p.session, p.calls[i]);
      if j < |p.calls| {
        assert Current(p.session, p.calls[j]);
      }
    }
  }

  /** Setting the phase of a call, within what its vault entry allows. */
  lemma PhaseKeepsSession(p: Phone, i: nat, phase: Phase)
    requires SessionInv(p) && i < |p.calls| && !p.calls[i].phase.Ended?
    requires phase.Ended? || (phase.Refreshing? <==> p.calls[i].phase.Refreshing?)
    ensures SessionInv(SetPhase(p, i, phase))
  {
    var r := SetPhase(p, i, phase);
    forall j | 0 <= j < |r.calls|
      ensures Works(r.session, r.vault, r.calls[j]) && r.calls[j].generation <= r.session.generation
    {
      assert Works(p.session, p.vault, p.calls[j]);
    }
    forall j, k | 0 <= j < k < |r.calls| && Current(r.session, r.calls[j]) && Current(r.session, r.calls[k])
      ensures r.calls[j].command.key.workspace != r.calls[k].command.key.workspace
    {
      assert Current(p.session, p.calls[j]) && Current(p.session, p.calls[k]);
    }
  }

  /** Releasing a workspace no current call works on. */
  lemma ReleaseKeepsSession(p: Phone, workspace: nat)
    requires SessionInv(p)
    requires forall j :: 0 <= j < |p.calls| && Current(p.session, p.calls[j]) ==>
               p.calls[j].command.key.workspace != workspace
    ensures SessionInv(p.(session := p.session.(busy := p.session.busy - {workspace})))
  {
    var released := p.session.(busy := p.session.busy - {workspace});
    forall j | 0 <= j < |p.calls|
      ensures Works(released, p.vault, p.calls[j]) && p.calls[j].generation <= released.generation
    {
      assert Works(p.session, p.vault, p.calls[j]);
    }
    forall j, k | 0 <= j < k < |p.calls| && Current(released, p.calls[j]) && Current(released, p.calls[k])
      ensures p.calls[j].command.key.workspace != p.calls[k].command.key.workspace
    {
      assert Current(p.session, p.calls[j]) && Current(p.session, p.calls[k]);
    }
  }

  /** A call that has ended was alone on its workspace. */
  lemma EndedWasAlone(p: Phone, i: nat)
    requires Apart(p.session, p.calls) && i < |p.calls| && Current(p.session, p.calls[i])
    ensures forall j :: 0 <= j < |p.calls| && j != i && Current(p.session, p.calls[j]) ==>
              p.calls[j].command.key.workspace != p.calls[i].command.key.workspace
  {
  }

  lemma ReturnKeepsSession(p: Phone, i: nat)
    requires SessionInv(p) && i < |p.calls| && !p.calls[i].phase.Ended?
    ensures SessionInv(Return(p, i))
  {
    PhaseKeepsSession(p, i, Ended);
    if Current(p.session, p.calls[i]) {
      EndedWasAlone(p, i);
      ReleaseKeepsSession(SetPhase(p, i, Ended), p.calls[i].command.key.workspace);
    }
  }

  /** Erasing the entry of a current call touches no other current call. */
  lemma EraseKeepsOthers(p: Phone, i: nat, confirmed: bool, next: Phase)
    requires SessionInv(p) && i < |p.calls| && Current(p.session, p.calls[i]) && next in {Refreshing, Ended}
    ensures SessionInv(SetPhase(Erase(p, p.calls[i].command, confirmed), i, next))
  {
    var c, r := p.calls[i].command, SetPhase(Erase(p, p.calls[i].command, confirmed), i, next);
    forall j | 0 <= j < |r.calls|
      ensures Works(r.session, r.vault, r.calls[j]) && r.calls[j].generation <= r.session.generation
    {
      assert Works(p.session, p.vault, p.calls[i]) && Works(p.session, p.vault, p.calls[j]);
      if j != i && Current(p.session, p.calls[j]) {
        assert p.calls[j].command.key.workspace != c.key.workspace;
      }
    }
    forall j, k | 0 <= j < k < |r.calls| && Current(r.session, r.calls[j]) && Current(r.session, r.calls[k])
      ensures r.calls[j].command.key.workspace != r.calls[k].command.key.workspace
    {
      assert Current(p.session, p.calls[j]) && Current(p.session, p.calls[k]);
    }
    assert Works(p.session, p.vault, p.calls[i]);
    assert Shown(r.session, r.vault);
  }

  lemma ErasedReturnKeepsSession(p: Phone, i: nat)
    requires SessionInv(p) && i < |p.calls| && Current(p.session, p.calls[i])
    ensures SessionInv(Return(Erase(p, p.calls[i].command, false), i))
  {
    var w := p.calls[i].command.key.workspace;
    EraseKeepsOthers(p, i, false, Ended);
    EndedWasAlone(p, i);
    ReleaseKeepsSession(SetPhase(Erase(p, p.calls[i].command, false), i, Ended), w);
  }

  // ----- every step keeps the invariant -----

  lemma ControlKeepsInv(p: Phone, workspace: nat, action: Action, saves: bool, readable: bool, writable: bool)
    requires PhoneInv(p)
    ensures PhoneInv(Control(p, workspace, action, saves, readable, writable))
  {
    if p.session.identity.Some? && workspace !in p.session.busy {
      var key := Key(p.session.identity.value, workspace);
      if key in p.vault {
        if p.vault[key].action == action {
          BeginKeepsSession(p, p.vault[key], saves);
        }
      } else {
        var c := Command(key, action, |p.world.issued|);
        PrepareKeepsWorld(p, c);
        PrepareKeepsSession(p, c);
        BeginKeepsSession(Prepare(p, c), c, saves);
      }
    }
  }

  lemma SavedKeepsInv(p: Phone, i: nat, ok: bool)
    requires PhoneInv(p)
    ensures PhoneInv(Saved(p, i, ok))
  {
    if Waiting(p, i, Saving) {
      ReturnKeepsSession(p, i);
      PhaseKeepsSession(p, i, Authorizing);
    }
  }

  lemma AuthorizedKeepsInv(p: Phone, i: nat)
    requires PhoneInv(p)
    ensures PhoneInv(Authorized(p, i))
  {
    if Waiting(p, i, Authorizing) {
      if p.calls[i].generation != p.session.generation {
        ReturnKeepsSession(p, i);
      } else {
        var c := p.calls[i].command;
        assert Works(p.session, p.vault, p.calls[i]);
        RequestKeepsWorld(p, c);
        PhaseKeepsSession(p.(world := Log(p.world, Requests(c)).(sent := p.world.sent + {c})), i, Replying);
      }
    }
  }

  lemma FailsKeepsInv(p: Phone, i: nat, definitive: bool, writable: bool)
    requires PhoneInv(p)
    ensures PhoneInv(Fails(p, i, definitive, writable))
  {
    if Waiting(p, i, Authorizing) || Waiting(p, i, Replying) {
      if p.calls[i].generation == p.session.generation && definitive && writable {
        assert Works(p.session, p.vault, p.calls[i]);
        EraseKeepsWorld(p, p.calls[i].command, false);
        ErasedReturnKeepsSession(p, i);
      } else {
        ReturnKeepsSession(p, i);
      }
    }
  }

  lemma ConfirmedKeepsInv(p: Phone, i: nat, writable: bool)
    requires PhoneInv(p)
    ensures PhoneInv(Confirmed(p, i, writable))
  {
    if Waiting(p, i, Replying) && Remembered(p.world, p.calls[i].command.id) {
      if p.calls[i].generation != p.session.generation || !writable {
        ReturnKeepsSession(p, i);
      } else {
        assert Works(p.session, p.vault, p.calls[i]);
        EraseKeepsWorld(p, p.calls[i].command, true);
        EraseKeepsOthers(p, i, true, Refreshing);
      }
    }
  }

  lemma ReturnKeepsInv(p: Phone, i: nat)
    requires PhoneInv(p) && i < |p.calls| && !p.calls[i].phase.Ended?
    ensures PhoneInv(Return(p, i))
  {
    ReturnKeepsSession(p, i);
  }

  lemma OpenKeepsInv(p: Phone, workspace: nat)
    requires PhoneInv(p)
    ensures PhoneInv(Open(p, workspace)) && Open(p, workspace).calls == p.calls
  {
    OpenKeepsWorld(p, workspace);
  }

  lemma RefreshedKeepsInv(p: Phone, i: nat)
    requires PhoneInv(p)
    ensures PhoneInv(Refreshed(p, i))
  {
    if Waiting(p, i, Refreshing) {
      var c := p.calls[i].command;
      if c.action == Wake && p.calls[i].generation == p.session.generation {
        OpenKeepsInv(p, c.key.workspace);
        ReturnKeepsInv(Open(p, c.key.workspace), i);
      } else {
        ReturnKeepsInv(p, i);
      }
    }
  }

  /** Leaving a generation: no call is current any more. */
  lemma NewGenerationKeepsSession(p: Phone, s: Session)
    requires SessionInv(p) && s.generation > p.session.generation && Shown(s, p.vault)
    ensures SessionInv(p.(session := s))
  {
  }

  lemma AccountKeepsInv(p: Phone, identity: nat, writable: bool)
    requires PhoneInv(p)
    ensures PhoneInv(SignIn(p, identity)) && PhoneInv(SignOut(p, writable)) && PhoneInv(Crash(p))
  {
    NewGenerationKeepsSession(p, SignIn(p, identity).session);
    NewGenerationKeepsSession(p, SignOut(p, writable).session);
  }

  lemma CatalogKeepsInv(p: Phone, listed: set<nat>)
    requires PhoneInv(p)
    ensures PhoneInv(Catalog(p, listed))
  {
    var r := Catalog(p, listed);
    forall i | 0 <= i < |p.calls|
      ensures Works(r.session, p.vault, p.calls[i]) && p.calls[i].generation <= r.session.generation
    {
      assert Works(p.session, p.vault, p.calls[i]);
    }
    assert Apart(r.session, p.calls) by {
      forall j, k | 0 <= j < k < |p.calls| && Current(r.session, p.calls[j]) && Current(r.session, p.calls[k])
        ensures p.calls[j].command.key.workspace != p.calls[k].command.key.workspace
      {
        assert Current(p.session, p.calls[j]) && Current(p.session, p.calls[k]);
      }
    }
  }

  lemma StepKeepsInv(p: Phone, e: Event)
    requires PhoneInv(p)
    ensures PhoneInv(Step(p, e))
  {
    match e
    case EvControl(workspace, action, saves, readable, writable) =>
      ControlKeepsInv(p, workspace, action, saves, readable, writable);
    case EvSaved(i, ok) => SavedKeepsInv(p, i, ok);
    case EvAuthorized(i) => AuthorizedKeepsInv(p, i);
    case EvFails(i, definitive, writable) => FailsKeepsInv(p, i, definitive, writable);
    case EvConfirmed(i, writable) => ConfirmedKeepsInv(p, i, writable);
    case EvRefreshed(i) => RefreshedKeepsInv(p, i);
    case EvArrives(command, accepted) => ArrivalKeepsWorld(p, command, accepted);
    case EvOpen(workspace) => OpenKeepsInv(p, workspace);
    case EvCatalog(listed) => CatalogKeepsInv(p, listed);
    case EvSignIn(identity) => AccountKeepsInv(p, identity, true);
    case EvSignOut(writable) => AccountKeepsInv(p, 0, writable);
    case EvCrash => AccountKeepsInv(p, 0, true);
  }

  lemma {:induction false} RunKeepsInv(p: Phone, events: seq<Event>)
    requires PhoneInv(p)
    ensures PhoneInv(Run(p, events))
    decreases |events|
  {
    if events != [] {
      StepKeepsInv(p, events[0]);
      RunKeepsInv(Step(p, events[0]), events[1..]);
    }
  }

  /** Over any run, with crashes, lost replies, late and repeated arrivals, signing in and out, and failing vault
      writes: requests carry the unresolved command of their workspace, each id is executed at most once, and what
      is confirmed was executed. */
  lemma ActionsRunLawfully(identity: Option<nat>, events: seq<Event>)
    ensures LawfulLog(Run(Start(identity), events).world.log)
    ensures Shown(Run(Start(identity), events).session, Run(Start(identity), events).vault)
  {
    assert PhoneInv(Start(identity));
    RunKeepsInv(Start(identity), events);
  }

  // ----- what lawfulness means -----

  lemma StaysUnresolvedOver(past: seq<Happening>, o: Happening, c: Command)
    requires Lawful(past, o) && Unresolved(past, c.key) == Some(c) && !(o.Clears? && o.command == c)
    ensures Unresolved(past + [o], c.key) == Some(c)
  {
    UnresolvedAppend(past, o, c.key);
  }

  lemma StaysUnresolvedAt(log: seq<Happening>, j: nat, c: Command)
    requires LawfulLog(log) && j < |log| && Unresolved(log[..j], c.key) == Some(c) && !ErasedAt(log, j, c)
    ensures Unresolved(log[..j + 1], c.key) == Some(c)
  {
    LawfulAt(log, j);
    StaysUnresolvedOver(log[..j], log[j], c);
    assert log[..j + 1] == log[..j] + [log[j]];
  }

  /** A command stays unresolved until it is erased. */
  lemma {:induction false} StaysUnresolved(log: seq<Happening>, i: nat, j: nat, c: Command)
    requires LawfulLog(log) && i <= j <= |log|
    requires Unresolved(log[..i], c.key) == Some(c)
    requires forall k :: i <= k < j ==> !ErasedAt(log, k, c)
    ensures Unresolved(log[..j], c.key) == Some(c)
    decreases j - i
  {
    if i < j {
      assert !ErasedAt(log, i, c);
      StaysUnresolvedAt(log, i, c);
      StaysUnresolved(log, i + 1, j, c);
    }
  }

  predicate ErasedAt(log: seq<Happening>, k: nat, c: Command)
    requires k < |log|
  {
    log[k].Clears? && log[k].command == c
  }

  /** Between two requests for one workspace that carry different commands, the first command was erased: retries of
      an unresolved action all carry its id, and no other action is sent meanwhile. */
  lemma RetriesCarryOneId(log: seq<Happening>, i: nat, j: nat)
    requires LawfulLog(log) && i < j < |log| && log[i].Requests? && log[j].Requests?
    requires log[i].command.key == log[j].command.key
    ensures log[i].command == log[j].command || exists k :: i < k < j && ErasedAt(log, k, log[i].command)
  {
    var c := log[i].command;
    LawfulAt(log, i);
    LawfulAt(log, j);
    if forall k :: i < k < j ==> !ErasedAt(log, k, c) {
      StaysUnresolved(log, i, j, c);
    }
  }

  /** A second command for a workspace is prepared only after the first was erased. */
  lemma NewCommandNeedsErasure(log: seq<Happening>, i: nat, j: nat)
    requires LawfulLog(log) && i < j < |log| && log[i].Prepares? && log[j].Prepares?
    requires log[i].command.key == log[j].command.key
    ensures exists k :: i < k < j && ErasedAt(log, k, log[i].command)
  {
    var c := log[i].command;
    LawfulAt(log, j);
    assert log[..i + 1] == log[..i] + [log[i]];
    UnresolvedAppend(log[..i], log[i], c.key);
    if forall k :: i < k < j ==> !ErasedAt(log, k, c) {
      StaysUnresolved(log, i + 1, j, c);
    }
  }

  /** A corollary: as the server remembers ids, and ids are not drawn twice, each id is executed at most once. */
  lemma ExecutedAtMostOnce(log: seq<Happening>, i: nat, j: nat)
    requires LawfulLog(log) && i < j < |log| && log[i].Executes? && log[j].Executes?
    ensures log[i].command.id != log[j].command.id
  {
    LawfulAt(log, j);
    assert log[..j][i] == log[i];
  }

  /** A confirmed command was executed, and only once. */
  lemma ConfirmedMeansExecutedOnce(log: seq<Happening>, c: Command)
    requires LawfulLog(log) && Clears(c, true) in log
    ensures Executes(c) in log
    ensures forall i, j :: 0 <= i < |log| && 0 <= j < |log| && log[i] == log[j] == Executes(c) ==> i == j
  {
    var k :| 0 <= k < |log| && log[k] == Clears(c, true);
    LawfulAt(log, k);
    forall i, j | 0 <= i < j < |log| && log[i].Executes? && log[j].Executes?
      ensures log[i].command.id != log[j].command.id
    {
      ExecutedAtMostOnce(log, i, j);
    }
  }

  /** Unless it is refused, an action is executed before the next one of its workspace is prepared. */
  lemma UnrefusedIsExecuted(log: seq<Happening>, i: nat, j: nat)
    requires LawfulLog(log) && i < j < |log| && log[i].Prepares? && log[j].Prepares?
    requires log[i].command.key == log[j].command.key
    requires forall k :: i < k < j ==> log[k] != Clears(log[i].command, false)
    ensures Executes(log[i].command) in log[..j]
  {
    NewCommandNeedsErasure(log, i, j);
    var k :| i < k < j && ErasedAt(log, k, log[i].command);
    assert log[k] == Clears(log[i].command, true);
    LawfulAt(log, k);
    assert log[..k] <= log[..j];
  }

  // ----- a workspace left busy -----

  /** Some current call will release the workspace. */
  ghost predicate Attended(p: Phone, workspace: nat) {
    exists i :: 0 <= i < |p.calls| && Current(p.session, p.calls[i]) && p.calls[i].command.key.workspace == workspace
  }

  /** Busy for good: no call will release it. */
  ghost predicate Stranded(p: Phone, workspace: nat) {
    workspace in p.session.busy && !Attended(p, workspace)
  }

  lemma BeginStrandsNone(p: Phone, c: Command, saves: bool, w: nat)
    requires c.key.workspace !in p.session.busy
    ensures Stranded(Begin(p, c, saves), w) <==> Stranded(p, w)
  {
    var r := Begin(p, c, saves);
    assert Current(r.session, r.calls[|p.calls|]);
    if Attended(p, w) {
      var i :| 0 <= i < |p.calls| && Current(p.session, p.calls[i]) && p.calls[i].command.key.workspace == w;
      assert Current(r.session, r.calls[i]);
    }
    if Attended(r, w) && w != c.key.workspace {
      var i :| 0 <= i < |r.calls| && Current(r.session, r.calls[i]) && r.calls[i].command.key.workspace == w;
      assert Current(p.session, p.calls[i]);
    }
  }

  lemma PhaseStrandsNone(p: Phone, i: nat, phase: Phase, w: nat)
    requires i < |p.calls| && !p.calls[i].phase.Ended? && !phase.Ended?
    ensures Stranded(SetPhase(p, i, phase), w) <==> Stranded(p, w)
  {
    var r := SetPhase(p, i, phase);
    if Attended(p, w) {
      var j :| 0 <= j < |p.calls| && Current(p.session, p.calls[j]) && p.calls[j].command.key.workspace == w;
      assert Current(r.session, r.calls[j]);
    }
    if Attended(r, w) {
      var j :| 0 <= j < |r.calls| && Current(r.session, r.calls[j]) && r.calls[j].command.key.workspace == w;
      assert Current(p.session, p.calls[j]);
    }
  }

  lemma ReturnStrandsNone(p: Phone, i: nat, w: nat)
    requires Apart(p.session, p.calls) && i < |p.calls| && !p.calls[i].phase.Ended?
    ensures Stranded(Return(p, i), w) <==> Stranded(p, w)
  {
    var r, own := Return(p, i), p.calls[i].command.key.workspace;
    if Current(p.session, p.calls[i]) {
      EndedWasAlone(p, i);
    }
    if Attended(p, w) && !(w == own && Current(p.session, p.calls[i])) {
      var j :| 0 <= j < |p.calls| && Current(p.session, p.calls[j]) && p.calls[j].command.key.workspace == w;
      assert Current(r.session, r.calls[j]);
    }
    if Attended(r, w) {
      var j :| 0 <= j < |r.calls| && Current(r.session, r.calls[j]) && r.calls[j].command.key.workspace == w;
      assert Current(p.session, p.calls[j]);
    }
  }

  /** Signing in again under the same identity. */
  predicate Renews(p: Phone, e: Event) { e.EvSignIn? && p.session.identity == Some(e.identity) }

  /** What empties the set of busy workspaces. */
  predicate Resets(p: Phone, e: Event) {
    || e.EvSignOut? || e.EvCrash?
    || (e.EvSignIn? && p.session.identity != Some(e.identity))
    || (e.EvCatalog? && p.session.identity.None?)
  }

  lemma ControlStrandsNone(p: Phone, workspace: nat, action: Action, saves: bool, readable: bool, writable: bool,
      w: nat)
    requires VaultInv(p.vault, p.world.issued)
    ensures Stranded(Control(p, workspace, action, saves, readable, writable), w) <==> Stranded(p, w)
  {
    if p.session.identity.Some? && workspace !in p.session.busy && readable {
      var key := Key(p.session.identity.value, workspace);
      if key in p.vault {
        BeginStrandsNone(p, p.vault[key], saves, w);
      } else if writable {
        var c := Command(key, action, |p.world.issued|);
        BeginStrandsNone(Prepare(p, c), c, saves, w);
      }
    }
  }

  lemma CallStrandsNone(p: Phone, i: nat, e: Event, w: nat)
    requires PhoneInv(p)
    requires e.EvSaved? || e.EvAuthorized? || e.EvFails? || e.EvConfirmed? || e.EvRefreshed?
    requires e.i == i
    ensures Stranded(Step(p, e), w) <==> Stranded(p, w)
  {
    if i < |p.calls| && !p.calls[i].phase.Ended? {
      var c := p.calls[i].command;
      ReturnStrandsNone(p, i, w);
      match e
      case EvSaved(_, _) => PhaseStrandsNone(p, i, Authorizing, w);
      case EvAuthorized(_) =>
        PhaseStrandsNone(p.(world := Log(p.world, Requests(c)).(sent := p.world.sent + {c})), i, Replying, w);
      case EvFails(_, _, _) => ReturnStrandsNone(Erase(p, c, false), i, w);
      case EvConfirmed(_, _) => PhaseStrandsNone(Erase(p, c, true), i, Refreshing, w);
      case EvRefreshed(_) => ReturnStrandsNone(Open(p, c.key.workspace), i, w);
    }
  }

  /** No step but signing in again under the same identity leaves a workspace busy with no call to release it, and
      that step does so to every workspace that is busy. */
  lemma StrandedExactlyByRenewal(p: Phone, e: Event, w: nat)
    requires PhoneInv(p)
    ensures Stranded(Step(p, e), w) <==>
            if Renews(p, e) then w in p.session.busy else Stranded(p, w) && !Resets(p, e)
  {
    match e
    case EvControl(workspace, action, saves, readable, writable) =>
      ControlStrandsNone(p, workspace, action, saves, readable, writable, w);
    case EvSaved(i, _) => CallStrandsNone(p, i, e, w);
    case EvAuthorized(i) => CallStrandsNone(p, i, e, w);
    case EvFails(i, _, _) => CallStrandsNone(p, i, e, w);
    case EvConfirmed(i, _) => CallStrandsNone(p, i, e, w);
    case EvRefreshed(i) => CallStrandsNone(p, i, e, w);
    case EvCatalog(_) =>
      assert Attended(Step(p, e), w) <==> Attended(p, w) by {
        assert forall c: Call :: Current(Step(p, e).session, c) <==> Current(p.session, c);
      }
    case EvSignIn(_) => NewGenerationAttendsNone(p, Step(p, e).session, w);
    case EvArrives(_, _) =>
    case EvOpen(_) =>
    case EvSignOut(_) =>
    case EvCrash =>
  }

  lemma NewGenerationAttendsNone(p: Phone, s: Session, w: nat)
    requires SessionInv(p) && s.generation > p.session.generation
    ensures !Attended(p.(session := s), w)
  {
  }

  /** No step of the run signs in again under the same identity while a workspace is busy. */
  predicate NoRenewalWhileBusy(p: Phone, events: seq<Event>)
    decreases |events|
  {
    events == []
    || (!(Renews(p, events[0]) && p.session.busy != {}) && NoRenewalWhileBusy(Step(p, events[0]), events[1..]))
  }

  /** Without that, a workspace is busy exactly while a current call works on it. */
  lemma {:induction false} BusyMeansAttended(p: Phone, events: seq<Event>)
    requires PhoneInv(p) && (forall w: nat :: !Stranded(p, w)) && NoRenewalWhileBusy(p, events)
    ensures forall w: nat :: w in Run(p, events).session.busy <==> Attended(Run(p, events), w)
    decreases |events|
  {
    if events == [] {
      forall w: nat ensures w in p.session.busy <==> Attended(p, w) {
        assert !Stranded(p, w);
        if Attended(p, w) {
          var i :| 0 <= i < |p.calls| && Current(p.session, p.calls[i]) && p.calls[i].command.key.workspace == w;
          assert Works(p.session, p.vault, p.calls[i]);
        }
      }
    } else {
      var q := Step(p, events[0]);
      StepKeepsInv(p, events[0]);
      forall w: nat ensures !Stranded(q, w) {
        StrandedExactlyByRenewal(p, events[0], w);
      }
      BusyMeansAttended(q, events[1..]);
    }
  }

  /** The run neither signs out, nor in under another identity, nor restarts. */
  predicate StaysSignedIn(identity: nat, events: seq<Event>) {
    forall e <- events :: !e.EvSignOut? && !e.EvCrash? && (e.EvSignIn? ==> e.identity == identity)
  }

  lemma StepKeepsIdentity(p: Phone, e: Event)
    requires p.session.identity.Some? && StaysSignedIn(p.session.identity.value, [e])
    ensures Step(p, e).session.identity == p.session.identity
  {
    assert e in [e];
  }

  /** A stranded workspace stays so, and refuses every action, for as long as the user stays signed in. */
  lemma {:induction false} StrandedRefusesActions(p: Phone, events: seq<Event>, w: nat)
    requires PhoneInv(p) && Stranded(p, w) && p.session.identity.Some?
    requires StaysSignedIn(p.session.identity.value, events)
    ensures var r := Run(p, events);
            Stranded(r, w) && forall action, saves, readable, writable ::
              Control(r, w, action, saves, readable, writable) == r
    decreases |events|
  {
    if events != [] {
      var e := events[0];
      assert e in events;
      StepKeepsInv(p, e);
      StepKeepsIdentity(p, e);
      StrandedExactlyByRenewal(p, e, w);
      StrandedRefusesActions(Step(p, e), events[1..], w);
    }
  }

  // ----- a refusal need not mean that nothing happened -----

  const WAKE0 := Command(Key(0, 7), Wake, 0)
  const WAKE1 := Command(Key(0, 7), Wake, 1)

  lemma StepGrowsLog(p: Phone, e: Event)
    ensures p.world.log <= Step(p, e).world.log
  {
    match e
    case EvFails(i, _, _) =>
      if i < |p.calls| {
        assert p.world.log <= Erase(p, p.calls[i].command, false).world.log;
      }
    case _ =>
  }

  lemma {:induction false} LogGrows(p: Phone, events: seq<Event>)
    ensures p.world.log <= Run(p, events).world.log
    decreases |events|
  {
    if events != [] {
      StepGrowsLog(p, events[0]);
      LogGrows(Step(p, events[0]), events[1..]);
    }
  }

  lemma {:induction false} UnresolvedWasPrepared(log: seq<Happening>, key: Key)
    requires Unresolved(log, key).Some?
    ensures Prepares(Unresolved(log, key).value) in log && Unresolved(log, key).value.key == key
    decreases |log|
  {
    var init, last := log[..|log| - 1], log[|log| - 1];
    assert log == init + [last];
    if !((last.Prepares? || last.Clears?) && last.command.key == key) {
      UnresolvedWasPrepared(init, key);
    }
  }

  /** Prepared once, and not unresolved any more. */
  ghost predicate Gone(past: seq<Happening>, c: Command) { Prepares(c) in past && Unresolved(past, c.key) != Some(c) }

  lemma NotAgain(past: seq<Happening>, o: Happening, c: Command)
    requires Gone(past, c) && Lawful(past, o)
    ensures Gone(past + [o], c) && o != Requests(c)
  {
    UnresolvedAppend(past, o, c.key);
  }

  /** An erased command is never requested again: its id is not drawn twice. */
  lemma {:induction false} GoneForGood(log: seq<Happening>, n: nat, c: Command)
    requires LawfulLog(log) && n <= |log| && Gone(log[..n], c)
    ensures Gone(log, c) && Requests(c) !in log[n..]
    decreases |log|
  {
    if n == |log| {
      assert log[..n] == log;
    } else {
      var init, last := log[..|log| - 1], log[|log| - 1];
      assert init[..n] == log[..n];
      GoneForGood(init, n, c);
      NotAgain(init, last, c);
      assert log == init + [last] && log[n..] == init[n..] + [last];
    }
  }

  lemma {:induction false} ExecutedWasRequested(log: seq<Happening>, c: Command)
    requires LawfulLog(log) && Requests(c) !in log
    ensures Executes(c) !in log
    decreases |log|
  {
    if log != [] {
      var init, last := log[..|log| - 1], log[|log| - 1];
      assert log == init + [last];
      ExecutedWasRequested(init, c);
    }
  }

  lemma NeverRequestedNeverRuns(log: seq<Happening>, n: nat, c: Command)
    requires LawfulLog(log) && n <= |log| && Requests(c) !in log[..n] && Gone(log[..n], c)
    ensures Requests(c) !in log && Executes(c) !in log
  {
    GoneForGood(log, n, c);
    assert log == log[..n] + log[n..];
    ExecutedWasRequested(log, c);
  }

  predicate Refusable(p: Phone, i: nat) {
    && (Waiting(p, i, Authorizing) || Waiting(p, i, Replying))
    && p.calls[i].generation == p.session.generation
  }

  lemma RefusalErases(p: Phone, i: nat)
    requires PhoneInv(p) && Refusable(p, i)
    ensures var c, q := p.calls[i].command, Fails(p, i, true, true);
            && PhoneInv(q) && q.world == Log(p.world, Clears(c, false)) && Gone(q.world.log, c)
            && c.key !in q.vault && q.session.identity == Some(c.key.identity) && c.key.workspace !in q.session.busy
  {
    var c := p.calls[i].command;
    FailsKeepsInv(p, i, true, true);
    assert Works(p.session, p.vault, p.calls[i]);
    assert Unresolved(p.world.log, c.key) == Lookup(p.vault, c.key);
    UnresolvedWasPrepared(p.world.log, c.key);
    UnresolvedAppend(p.world.log, Clears(c, false), c.key);
  }

  /** An action refused before any request for it has left never runs, whatever happens later. */
  lemma RefusedUnsentNeverRuns(p: Phone, i: nat, events: seq<Event>)
    requires PhoneInv(p) && Refusable(p, i) && Requests(p.calls[i].command) !in p.world.log
    ensures
      var c := p.calls[i].command;
      var r := Run(Fails(p, i, true, true), events);
      Requests(c) !in r.world.log && Executes(c) !in r.world.log
  {
    var c, refused := p.calls[i].command, Fails(p, i, true, true);
    RefusalErases(p, i);
    RunKeepsInv(refused, events);
    LogGrows(refused, events);
    var log, n := Run(refused, events).world.log, |refused.world.log|;
    assert log[..n] == refused.world.log;
    NeverRequestedNeverRuns(log, n, c);
  }

  lemma ArrivalExecutes(p: Phone, c: Command)
    requires PhoneInv(p) && c in p.world.sent
    ensures var q := Arrives(p, c, true);
            && PhoneInv(q) && Executes(c) in q.world.log && c in q.world.sent
            && q.session == p.session && q.vault == p.vault && q.calls == p.calls && q.world.issued == p.world.issued
  {
    ArrivalKeepsWorld(p, c, true);
    if Remembered(p.world, c.id) {
      RememberedIsExecuted(p, c);
    }
  }

  lemma RunFirst(p: Phone, e: Event, rest: seq<Event>)
    ensures Run(p, [e] + rest) == Run(Step(p, e), rest)
  {
    assert ([e] + rest)[1..] == rest;
  }

  /** Asking again for an action that was erased, and having it sent. */
  lemma AskedAgainIsSent(p: Phone, key: Key, action: Action)
    requires PhoneInv(p) && p.session.identity == Some(key.identity)
    requires key !in p.vault && key.workspace !in p.session.busy
    ensures
      var begun := Control(p, key.workspace, action, false, true, true);
      var asked := Authorized(begun, |p.calls|);
      PhoneInv(asked) && Command(key, action, |p.world.issued|) in asked.world.sent
  {
    var d := Command(key, action, |p.world.issued|);
    var begun := Control(p, key.workspace, action, false, true, true);
    assert begun == Begin(Prepare(p, d), d, false);
    assert begun.calls[|p.calls|] == Call(d, p.session.generation, Authorizing);
    ControlKeepsInv(p, key.workspace, action, false, true, true);
    AuthorizedKeepsInv(begun, |p.calls|);
  }

  lemma RunTwoFirst(p: Phone, a: Event, b: Event, rest: seq<Event>)
    ensures Run(p, [a] + ([b] + rest)) == Run(Step(Step(p, a), b), rest)
  {
    RunFirst(p, a, [b] + rest);
    RunFirst(Step(p, a), b, rest);
  }

  lemma SentCanRun(p: Phone, c: Command) returns (events: seq<Event>)
    requires PhoneInv(p) && c in p.world.sent
    ensures Executes(c) in Run(p, events).world.log
  {
    events := [EvArrives(c, true)] + [];
    RunFirst(p, EvArrives(c, true), []);
    ArrivalExecutes(p, c);
  }

  /** ... and executed. */
  lemma AskedAgainRuns(p: Phone, key: Key, action: Action) returns (events: seq<Event>)
    requires PhoneInv(p) && p.session.identity == Some(key.identity)
    requires key !in p.vault && key.workspace !in p.session.busy
    ensures Executes(Command(key, action, |p.world.issued|)) in Run(p, events).world.log
  {
    var asked := Authorized(Control(p, key.workspace, action, false, true, true), |p.calls|);
    AskedAgainIsSent(p, key, action);
    var later := SentCanRun(asked, Command(key, action, |p.world.issued|));
    RunTwoFirst(p, EvControl(key.workspace, action, false, true, true), EvAuthorized(|p.calls|), later);
    events := [EvControl(key.workspace, action, false, true, true)] + ([EvAuthorized(|p.calls|)] + later);
  }

  /** After a refusal, the same action runs twice, under two ids. */
  ghost predicate RunsTwice(log: seq<Happening>, c: Command) {
    Executes(c) in log && exists d: Command ::
      d.key == c.key && d.action == c.action && d.id > c.id && Executes(d) in log
  }

  lemma TwoExecutions(log: seq<Happening>, longer: seq<Happening>, c: Command, id: nat)
    requires log <= longer && Executes(c) in log && Executes(Command(c.key, c.action, id)) in longer && id > c.id
    ensures RunsTwice(longer, c)
  {
    assert forall o <- log :: o in longer;
    assert Command(c.key, c.action, id).key == c.key;
  }

  lemma ExecutedThenAgain(q: Phone, e: Event, later: seq<Event>, c: Command, id: nat)
    requires Executes(c) in Step(q, e).world.log && id > c.id
    requires Executes(Command(c.key, c.action, id)) in Run(Step(q, e), later).world.log
    ensures RunsTwice(Run(q, [e] + later).world.log, c)
  {
    RunFirst(q, e, later);
    LogGrows(Step(q, e), later);
    TwoExecutions(Step(q, e).world.log, Run(Step(q, e), later).world.log, c, id);
  }

  /** A command that was sent and is not being asked for any more is executed, asked for again, and executed again. */
  lemma SentCanRunTwice(q: Phone, c: Command) returns (events: seq<Event>)
    requires PhoneInv(q) && c in q.world.sent && c.key !in q.vault
    requires q.session.identity == Some(c.key.identity) && c.key.workspace !in q.session.busy
    ensures RunsTwice(Run(q, events).world.log, c)
  {
    assert Issued(q.world.issued, c);
    ArrivalExecutes(q, c);
    var later := AskedAgainRuns(Arrives(q, c, true), c.key, c.action);
    ExecutedThenAgain(q, EvArrives(c, true), later, c, |q.world.issued|);
    events := [EvArrives(c, true)] + later;
  }

  lemma RefusedSentCanRunTwice(p: Phone, i: nat) returns (events: seq<Event>)
    requires PhoneInv(p) && Refusable(p, i) && Requests(p.calls[i].command) in p.world.log
    ensures RunsTwice(Run(Fails(p, i, true, true), events).world.log, p.calls[i].command)
  {
    RefusalErases(p, i);
    events := SentCanRunTwice(Fails(p, i, true, true), p.calls[i].command);
  }

  /** A refused action can still run, and then run a second time under another id, if and only if a request for it
      had left before the refusal. */
  lemma RefusedRunsExactly(p: Phone, i: nat)
    requires PhoneInv(p) && Refusable(p, i)
    ensures
      var c, q := p.calls[i].command, Fails(p, i, true, true);
      && (Requests(c) in p.world.log <==> exists events :: Executes(c) in Run(q, events).world.log)
      && (Requests(c) in p.world.log <==> exists events :: RunsTwice(Run(q, events).world.log, c))
  {
    var c, q := p.calls[i].command, Fails(p, i, true, true);
    if Requests(c) in p.world.log {
      var events := RefusedSentCanRunTwice(p, i);
      assert Executes(c) in Run(q, events).world.log;
    } else {
      forall events ensures Executes(c) !in Run(q, events).world.log {
        RefusedUnsentNeverRuns(p, i, events);
      }
    }
  }

  /** The reply to an executed request is lost. */
  function LostReply(): (p: Phone)
    ensures p == Phone(Session(Some(0), 0, {}, map[7 := Wake]), [Call(WAKE0, 0, Ended)], map[Key(0, 7) := WAKE0],
                       World([WAKE0], {WAKE0}, {WAKE0}, [Prepares(WAKE0), Requests(WAKE0), Executes(WAKE0)]))
  {
    var prepared := Control(Start(Some(0)), 7, Wake, false, true, true);
    var sent := Authorized(prepared, 0);
    assert sent.calls == [Call(WAKE0, 0, Replying)];
    Fails(Arrives(sent, WAKE0, true), 0, false, true)
  }

  /** The retry is refused before it leaves, because the session has expired, and erases the intent. */
  function RefusedRetry(): (p: Phone)
    ensures p == Phone(Session(Some(0), 0, {}, map[]), [Call(WAKE0, 0, Ended), Call(WAKE0, 0, Ended)], map[],
                       World([WAKE0], {WAKE0}, {WAKE0},
                             [Prepares(WAKE0), Requests(WAKE0), Executes(WAKE0), Clears(WAKE0, false)]))
  {
    var retried := Control(LostReply(), 7, Wake, false, true, true);
    assert retried.calls == [Call(WAKE0, 0, Ended), Call(WAKE0, 0, Authorizing)];
    Fails(retried, 1, true, true)
  }

  /** The action is then executed again, under a new id. */
  lemma RefusedRetryRunsTwice()
    ensures
      Arrives(Authorized(Control(RefusedRetry(), 7, Wake, false, true, true), 2), WAKE1, true).world.log
      == [Prepares(WAKE0), Requests(WAKE0), Executes(WAKE0), Clears(WAKE0, false),
          Prepares(WAKE1), Requests(WAKE1), Executes(WAKE1)]
  {
    var prepared := Control(RefusedRetry(), 7, Wake, false, true, true);
    assert prepared.calls == [Call(WAKE0, 0, Ended), Call(WAKE0, 0, Ended), Call(WAKE1, 0, Authorizing)];
    assert prepared.world.issued == [WAKE0, WAKE1];
  }

  /** The model the views observe, with the vault and the world it works on. `world` stands for the id generator,
      the network and the server. */
  class WorkspaceModel {
    var identity: Option<nat>
    var generation: nat
    var busy: set<nat>
    var pending: map<nat, Action>
    var calls: seq<Call>
    var vault: map<Key, Command>
    var world: World

    constructor (signedInAs: Option<nat>)
      ensures View() == Start(signedInAs)
    {
      identity, generation, busy, pending, calls := signedInAs, 0, {}, map[], [];
      vault, world := map[], World([], {}, {}, []);
    }

    function View(): Phone
      reads this
    {
      Phone(Session(identity, generation, busy, pending), calls, vault, world)
    }

    /** `CloudIntent.prepare`: an entry with the same action is kept with its id, another is overwritten. */
    method PrepareIntent(key: Key, action: Action, writable: bool) returns (intent: Option<Command>)
      modifies `vault, `world
      ensures key in old(vault) && old(vault)[key].action == action ==>
                View() == old(View()) && intent == Some(old(vault)[key])
      ensures !(key in old(vault) && old(vault)[key].action == action) && !writable ==>
                View() == old(View()) && intent == None
      ensures !(key in old(vault) && old(vault)[key].action == action) && writable ==>
                && intent == Some(Command(key, action, |old(world).issued|))
                && View() == Prepare(old(View()), intent.value)
    {
      if key in vault && vault[key].action == action {
        return Some(vault[key]);
      }
      if !writable {
        return None;
      }
      var drawn := Command(key, action, |world.issued|);
      vault := vault[key := drawn];
      world := world.(issued := world.issued + [drawn], log := world.log + [Prepares(drawn)]);
      return Some(drawn);
    }

    method ControlCloud(workspace: nat, action: Action, saves: bool, readable: bool, writable: bool)
      modifies this
      ensures View() == Control(old(View()), workspace, action, saves, readable, writable)
    {
      if identity.None? || workspace in busy {
        return;
      }
      var key := Key(identity.value, workspace);
      if !readable {
        return;
      }
      if key in vault && vault[key].action != action {
        pending := pending[workspace := vault[key].action];
        return;
      }
      var prepared := PrepareIntent(key, action, writable);
      if prepared.Some? {
        var c := prepared.value;
        busy := busy + {c.key.workspace};
        pending := pending[c.key.workspace := c.action];
        calls := calls + [Call(c, generation, if StopsWork(c.action) && saves then Saving else Authorizing)];
      }
    }

    method ReturnFrom(i: nat)
      requires i < |calls|
      modifies `calls, `busy
      ensures View() == Return(old(View()), i)
    {
      if calls[i].generation == generation {
        busy := busy - {calls[i].command.key.workspace};
      }
      calls := calls[i := calls[i].(phase := Ended)];
    }

    method EraseIntent(c: Command, confirmed: bool)
      modifies `vault, `pending, `world
      ensures View() == Erase(old(View()), c, confirmed)
    {
      vault := vault - {c.key};
      pending := pending - {c.key.workspace};
      world := world.(log := world.log + [Clears(c, confirmed)]);
    }

    method OnDraftSaved(i: nat, ok: bool)
      requires i < |calls| && calls[i].phase == Saving
      modifies this
      ensures View() == Saved(old(View()), i, ok)
    {
      if !ok || calls[i].generation != generation {
        ReturnFrom(i);
      } else {
        calls := calls[i := calls[i].(phase := Authorizing)];
      }
    }

    method OnToken(i: nat)
      requires i < |calls| && calls[i].phase == Authorizing
      modifies this
      ensures View() == Authorized(old(View()), i)
    {
      if calls[i].generation != generation {
        ReturnFrom(i);
      } else {
        var c := calls[i].command;
        world := world.(log := world.log + [Requests(c)], sent := world.sent + {c});
        calls := calls[i := calls[i].(phase := Replying)];
      }
    }

    method OnFailure(i: nat, requiresUserAction: bool, writable: bool)
      requires i < |calls| && calls[i].phase in {Authorizing, Replying}
      modifies this
      ensures View() == Fails(old(View()), i, requiresUserAction, writable)
    {
      if calls[i].generation == generation && requiresUserAction && writable {
        EraseIntent(calls[i].command, false);
      }
      ReturnFrom(i);
    }

    method OnConfirmation(i: nat, writable: bool)
      requires i < |calls| && calls[i].phase == Replying && Remembered(world, calls[i].command.id)
      modifies this
      ensures View() == Confirmed(old(View()), i, writable)
    {
      if calls[i].generation != generation || !writable {
        ReturnFrom(i);
      } else {
        EraseIntent(calls[i].command, true);
        calls := calls[i := calls[i].(phase := Refreshing)];
      }
    }

    method OpenCloud(workspace: nat)
      modifies `world
      ensures View() == Open(old(View()), workspace)
    {
      if identity.None? || Key(identity.value, workspace) in vault {
        return;
      }
      world := world.(log := world.log + [Opens(Key(identity.value, workspace))]);
    }

    method OnRefreshed(i: nat)
      requires i < |calls| && calls[i].phase == Refreshing
      modifies this
      ensures View() == Refreshed(old(View()), i)
    {
      if calls[i].generation == generation && calls[i].command.action == Wake {
        OpenCloud(calls[i].command.key.workspace);
      }
      ReturnFrom(i);
    }

    /** The loop of `refreshCloud` over the listed workspaces. */
    method RefreshPending(listed: set<nat>)
      modifies `busy, `pending
      ensures View() == Catalog(old(View()), listed)
    {
      if identity.None? {
        busy, pending := {}, map[];
        return;
      }
      var found: map<nat, Action> := map[];
      var todo := listed;
      while todo != {}
        invariant todo <= listed
        invariant forall w <- found :: w in listed - todo && Key(identity.value, w) in vault
                                       && found[w] == vault[Key(identity.value, w)].action
        invariant forall w <- listed - todo :: Key(identity.value, w) in vault ==> w in found
        decreases |todo|
      {
        var w :| w in todo;
        if Key(identity.value, w) in vault {
          found := found[w := vault[Key(identity.value, w)].action];
        }
        todo := todo - {w};
      }
      pending := found;
    }

    method CompleteSignIn(signedInAs: nat)
      modifies this
      ensures View() == SignIn(old(View()), signedInAs)
    {
      var previous := identity;
      identity := Some(signedInAs);
      generation := generation + 1;
      if previous != identity {
        pending, busy := map[], {};
      }
    }

    method SignOutOfAccount(writable: bool)
      modifies this
      ensures View() == SignOut(old(View()), writable)
    {
      pending, busy := map[], {};
      generation := generation + 1;
      if writable {
        identity := None;
      }
    }
  }
}
