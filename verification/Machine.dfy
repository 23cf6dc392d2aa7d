/**
 The server as a state machine: one world, its tick goroutine, and any number of sessions, each
 a live loop and a reader goroutine, interleaved in any order. An action is one atomic step: at
 most one world operation, and what its goroutine does locally with the result. Everything the
 code does not decide (messages, write outcomes, tick durations, map orders, cancellation) is in
 the action.
 */
module Machine {
  import opened Wrappers
  import opened Motion
  import opened Universe
  import opened Protocol
  import opened Perception

  datatype Phase =
    | AwaitHello | AwaitLogin | Authenticated   // the handshake
    | Started                                   // counted; the assigned object is looked up next
    | Spawning                                  // none there: one is spawned next
    | Assigning | Greeting                      // SelfAssign, then SelfUpdate, are sent next
    | Sampling                                  // World.Perceived is called next
    | Sending                                   // the events of a sync are being sent
    | Waiting                                   // in the select of the live loop
    | Leaving | Releasing                       // the two deferred calls, Despawn first
    | Closed

  datatype Control = Nobody | Loaded(id: nat) | Own(id: nat)

  datatype Reading = NotStarted | Running | Ended

  /** One connection. `pending` holds the events of the current sync not yet sent. The last three
      fields are history: what World.Perceived returned in the latest sync and in the one before,
      and the number of messages sent before the latest. */
  datatype Session = Session(phase: Phase, identity: nat, control: Control, st: ObjectState,
                             lastX: int, lastY: int, seen: View, reader: Reading,
                             out: seq<ServerMsg>, pending: seq<ServerMsg>, broken: bool,
                             sample: View, prior: View, mark: nat)

  /** The last four fields are history: the type key of every id ever issued, the session that
      spawned each of them that was not loaded, the loaded ids, and the highest of these. */
  datatype System = System(world: WorldState, sessions: map<nat, Session>, gauge: int, minVersion: nat,
                           issued: map<nat, string>, owner: map<nat, nat>, loaded: set<nat>, top: nat)

  type uint64 = n: nat | n < TWO_TO_THE_64

  datatype AuthResult = Granted(objectID: uint64) | Invalid | Unavailable

  datatype Action =
    | Ticked(ns: int)
    | Connect(sid: nat)
    | ReadHello(sid: nat, msg: Option<ClientMsg>, ok: bool)
    | ReadLogin(sid: nat, msg: Option<ClientMsg>, auth: AuthResult, ok: bool)
    | Start(sid: nat)
    | LookUp(sid: nat)
    | SpawnOwn(sid: nat)
    | Assign(sid: nat, ok: bool)
    | Greet(sid: nat, ok: bool)
    | Sample(sid: nat, perceived: seq<ObjectState>, leave: seq<nat>)
    | Send(sid: nat, ok: bool)
    | Settle(sid: nat)
    | Look(sid: nat, ok: bool)
    | Quit(sid: nat)
    | Command(sid: nat, msg: Option<ClientMsg>)
    | Release(sid: nat)
    | Finish(sid: nat)

  const NoState := ObjectState(0, 0, 0, "")

  const NewSession := Session(AwaitHello, 0, Nobody, NoState, 0, 0, map[], NotStarted, [], [], false, map[], map[], 0)

  /** The server after boot, before it accepts connections. */
  function Boot(seeds: seq<Seed>, minVersion: nat): System {
    var w := Load(EmptyWorld, seeds);
    System(w, map[], 0, minVersion, map id | id in w.objects :: w.objects[id].typeKey, map[], w.objects.Keys, w.nextID)
  }

  // ---------- the steps of one session ----------

  function Write(p: Session, m: ServerMsg, ok: bool): Session {
    p.(out := p.out + [m], broken := !ok)
  }

  function OnHello(p: Session, minVersion: nat, msg: Option<ClientMsg>, ok: bool): Session {
    match msg
    case Some(Hello(version)) =>
      if version < minVersion then Write(p, VersionResult(false, minVersion), ok).(phase := Closed)
      else Write(p, VersionResult(true, 0), ok).(phase := if ok then AwaitLogin else Closed)
    case _ => p.(phase := Closed)
  }

  function OnLogin(p: Session, msg: Option<ClientMsg>, auth: AuthResult, ok: bool): Session {
    match msg
    case Some(Login(_, _)) =>
      (match auth
       case Granted(id) =>
         Write(p, LoginResult(true, ""), ok).(phase := if ok then Authenticated else Closed, identity := id)
       case Invalid => Write(p, LoginResult(false, "invalid credentials"), ok).(phase := Closed)
       case Unavailable => Write(p, LoginResult(false, "authentication unavailable"), ok).(phase := Closed))
    case _ => p.(phase := Closed)
  }

  /** The assigned object, if the identity has one and it is there. */
  function OnLookUp(p: Session, w: WorldState): Session {
    if p.identity == 0 || Get(w, p.identity).None? then p.(phase := Spawning)
    else p.(phase := Assigning, control := Loaded(p.identity), st := Get(w, p.identity).value)
  }

  function OnSpawn(p: Session, w: WorldState): Session {
    var id := SpawnId(w);
    p.(phase := Assigning, control := Own(id), st := Snapshot(Spawned(id)))
  }

  function OnAssign(p: Session, ok: bool): Session
    requires !p.control.Nobody?
  {
    Write(p, SelfAssign(p.control.id, p.st.x, p.st.y, p.st.typeKey), ok).(phase := if ok then Greeting else Leaving)
  }

  function OnGreet(p: Session, ok: bool): Session
    requires !p.control.Nobody?
  {
    Write(p, SelfUpdate(p.control.id, p.st.x, p.st.y), ok)
      .(phase := if ok then Sampling else Leaving, lastX := p.st.x, lastY := p.st.y)
  }

  function OnSample(p: Session, w: WorldState, perceived: seq<ObjectState>, leave: seq<nat>): Session
    requires !p.control.Nobody?
  {
    var d := Merge(perceived, p.seen);
    p.(phase := Sending, seen := d.seen - SetOf(leave), pending := Events(d.enter, d.update, leave),
       prior := p.sample, sample := Perceived(w, p.control.id), mark := |p.out|)
  }

  function OnSend(p: Session, ok: bool): Session
    requires p.pending != []
  {
    Write(p, p.pending[0], ok).(phase := if ok then Sending else Leaving, pending := p.pending[1..])
  }

  function OnSettle(p: Session): Session {
    p.(phase := Waiting, reader := if p.reader.NotStarted? then Running else p.reader)
  }

  function OnLook(p: Session, w: WorldState, ok: bool): Session
    requires !p.control.Nobody?
  {
    match Get(w, p.control.id)
    case None => p.(phase := Leaving)
    case Some(cur) =>
      if cur.x != p.lastX || cur.y != p.lastY then
        Write(p, SelfUpdate(p.control.id, cur.x, cur.y), ok)
          .(phase := if ok then Sampling else Leaving, lastX := cur.x, lastY := cur.y)
      else p.(phase := Sampling)
  }

  function OnCommand(p: Session, msg: Option<ClientMsg>): Session {
    if msg.None? then p.(reader := Ended) else p
  }

  // ---------- the steps of the system ----------

  predicate At(s: System, sid: nat, phase: Phase) {
    sid in s.sessions && s.sessions[sid].phase == phase
  }

  predicate Has(s: System, sid: nat) {
    sid in s.sessions && !s.sessions[sid].control.Nobody?
  }

  /** When the code can take a step. */
  ghost predicate Enabled(s: System, a: Action) {
    match a
    case Ticked(_) => true
    case Connect(sid) => sid !in s.sessions
    case ReadHello(sid, _, _) => At(s, sid, AwaitHello)
    case ReadLogin(sid, _, _, _) => At(s, sid, AwaitLogin)
    case Start(sid) => At(s, sid, Authenticated)
    case LookUp(sid) => At(s, sid, Started)
    case SpawnOwn(sid) => At(s, sid, Spawning)
    case Assign(sid, _) => At(s, sid, Assigning) && Has(s, sid)
    case Greet(sid, _) => At(s, sid, Greeting) && Has(s, sid)
    case Sample(sid, perceived, leave) =>
      && At(s, sid, Sampling) && Has(s, sid)
      && Lists(perceived, Perceived(s.world, s.sessions[sid].control.id))
      && IsLeaveList(leave, perceived, s.sessions[sid].seen)
    case Send(sid, _) => At(s, sid, Sending) && s.sessions[sid].pending != []
    case Settle(sid) => At(s, sid, Sending) && s.sessions[sid].pending == []
    case Look(sid, _) => At(s, sid, Waiting) && Has(s, sid)
    case Quit(sid) => At(s, sid, Waiting)
    case Command(sid, _) => Has(s, sid) && s.sessions[sid].reader.Running?
    case Release(sid) => At(s, sid, Leaving)
    case Finish(sid) => At(s, sid, Releasing)
  }

  /** An object id that no session spawned or will spawn, or whose object is gone for good. */
  predicate SafeId(s: System, n: nat) {
    n <= s.top || (n <= s.world.nextID && n !in s.world.objects)
  }

  /** The two hypotheses on the environment: accounts are granted safe object ids, and the id
      counter does not wrap. */
  predicate Assumed(s: System, a: Action) {
    && (a.ReadLogin? && a.auth.Granted? ==> SafeId(s, a.auth.objectID))
    && (a.SpawnOwn? ==> s.world.nextID + 1 < TWO_TO_THE_64)
  }

  function Put(s: System, sid: nat, p: Session): System {
    s.(sessions := s.sessions[sid := p])
  }

  function AfterCommand(w: WorldState, id: nat, msg: Option<ClientMsg>): WorldState {
    match msg
    case Some(Move(Some(t))) => SetTarget(w, id, t.0, t.1)
    case Some(StopMoving) => Stop(w, id)
    case _ => w
  }

  /** What a step makes of the session that takes it. */
  function NextSession(s: System, a: Action): Session
    requires Enabled(s, a) && !a.Ticked?
  {
    if a.Connect? then NewSession
    else
      var p := s.sessions[a.sid];
      match a
      case ReadHello(_, msg, ok) => OnHello(p, s.minVersion, msg, ok)
      case ReadLogin(_, msg, auth, ok) => OnLogin(p, msg, auth, ok)
      case Start(_) => p.(phase := Started)
      case LookUp(_) => OnLookUp(p, s.world)
      case SpawnOwn(_) => OnSpawn(p, s.world)
      case Assign(_, ok) => OnAssign(p, ok)
      case Greet(_, ok) => OnGreet(p, ok)
      case Sample(_, perceived, leave) => OnSample(p, s.world, perceived, leave)
      case Send(_, ok) => OnSend(p, ok)
      case Settle(_) => OnSettle(p)
      case Look(_, ok) => OnLook(p, s.world, ok)
      case Quit(_) => p.(phase := Leaving)
      case Command(_, msg) => OnCommand(p, msg)
      case Release(_) => p.(phase := Releasing)
      case Finish(_) => p.(phase := Closed)
  }

  /** What a step makes of the world. */
  function NextWorld(h: Hypot, s: System, a: Action): WorldState
    requires Enabled(s, a)
  {
    match a
    case Ticked(ns) => Tick(h, s.world, ns)
    case SpawnOwn(_) => Spawn(s.world)
    case Command(sid, msg) => AfterCommand(s.world, s.sessions[sid].control.id, msg)
    case Release(sid) =>
      if s.sessions[sid].control.Own? then Despawn(s.world, s.sessions[sid].control.id) else s.world
    case _ => s.world
  }

  function Apply(h: Hypot, s: System, a: Action): System
    requires Enabled(s, a)
  {
    if a.Ticked? then s.(world := NextWorld(h, s, a))
    else
      var t := Put(s, a.sid, NextSession(s, a)).(world := NextWorld(h, s, a));
      match a
      case Start(_) => t.(gauge := s.gauge + 1)
      case Finish(_) => t.(gauge := s.gauge - 1)
      case SpawnOwn(sid) =>
        t.(issued := s.issued[SpawnId(s.world) := ""], owner := s.owner[SpawnId(s.world) := sid])
      case _ => t
  }

  /** The system after a run of actions, or None if the run cannot happen. */
  ghost function Run(h: Hypot, s: System, acts: seq<Action>): Option<System> {
    if acts == [] then Some(s)
    else
      var before, a := Run(h, s, acts[..|acts| - 1]), acts[|acts| - 1];
      if before.Some? && Enabled(before.value, a) && Assumed(before.value, a) then Some(Apply(h, before.value, a))
      else None
  }

  // ---------- the invariant ----------

  /** Between SpawnFor or Get and Despawn: the phases in which a session has its object. */
  predicate Holding(phase: Phase) {
    phase.Assigning? || phase.Greeting? || phase.Sampling? || phase.Sending? || phase.Waiting? || phase.Leaving?
  }

  /** Between SessionStart and SessionEnd. */
  predicate Counted(phase: Phase) {
    phase.Started? || phase.Spawning? || Holding(phase) || phase.Releasing?
  }

  predicate Early(phase: Phase) {
    phase.AwaitHello? || phase.AwaitLogin? || phase.Authenticated? || phase.Started? || phase.Spawning?
  }

  predicate Streaming(phase: Phase) {
    phase.Sampling? || phase.Sending? || phase.Waiting?
  }

  /** Ids: every object is filed under its id with the type key it was issued with, loaded
      objects are there for good, and spawned ids are above the loaded ones. */
  ghost predicate WorldOk(s: System) {
    && (forall id :: id in s.world.objects ==>
          id in s.issued && s.world.objects[id].id == id && s.world.objects[id].typeKey == s.issued[id])
    && s.loaded <= s.world.objects.Keys
    && (forall id :: id in s.issued ==> id <= s.world.nextID && (id in s.loaded || s.top < id))
    && (forall id :: id in s.loaded ==> id <= s.top)
    && s.top <= s.world.nextID
    && s.owner.Keys == s.issued.Keys - s.loaded
  }

  /** The spawner of an id is a session, and that id is the one it controls. */
  ghost predicate OwnersOk(s: System) {
    forall id :: id in s.owner ==> s.owner[id] in s.sessions && s.sessions[s.owner[id]].control == Own(id)
  }

  /** What a session controls: a loaded object, or the one it spawned, which is in the world
      exactly while the session holds it. */
  ghost predicate ControlOk(s: System, sid: nat, p: Session) {
    && (Early(p.phase) ==> SafeId(s, p.identity) && p.control.Nobody? && p.reader.NotStarted?)
    && (Holding(p.phase) || p.phase.Releasing? ==> !p.control.Nobody?)
    && (p.control.Nobody? ==> p.reader.NotStarted?)
    && (p.control.Loaded? ==> p.control.id in s.loaded)
    && (p.control.Own? ==>
          && p.control.id in s.owner && s.owner[p.control.id] == sid
          && (p.control.id in s.world.objects <==> Holding(p.phase)))
  }

  function Script(p: Session): seq<ServerMsg> {
    p.out + p.pending
  }

  ghost predicate OldOrNew(now: View, prior: View, sample: View) {
    forall id :: Lookup(now, id) == Lookup(prior, id) || Lookup(now, id) == Lookup(sample, id)
  }

  /** The first `k` messages of a script show the old or the new state of each id, and if an event
      comes next, not the new one of all. */
  ghost predicate MidSync(script: seq<ServerMsg>, k: nat, prior: View, sample: View)
    requires k <= |script|
  {
    && OldOrNew(ViewAll(map[], script[..k]), prior, sample)
    && (k < |script| && IsEvent(script[k]) ==> ViewAll(map[], script[..k]) != sample)
  }

  /** The type keys of a view are those the ids were issued with. */
  ghost predicate TrueKeys(v: View, issued: map<nat, string>) {
    forall id :: id in v ==> v[id].id == id && id in issued && v[id].typeKey == issued[id]
  }

  /** What was seen is what was sampled, and what the messages of the latest sync, once all sent,
      show a client; after only some of them it shows the old or the new state of each id, and of
      some id not the new one. */
  ghost predicate ViewOk(issued: map<nat, string>, p: Session) {
    && p.seen == p.sample
    && TrueKeys(p.sample, issued)
    && ViewAll(map[], Script(p)) == p.sample
    && p.mark <= |p.out|
    && (p.broken ==> p.mark < |p.out|)
    && (forall k :: p.mark <= k <= |Script(p)| ==> MidSync(Script(p), k, p.prior, p.sample))
    && (forall id :: Track(false, Script(p), id) == Some(id in p.sample))
  }

  /** The messages sent so far fit the phase. */
  ghost predicate TraceOk(p: Session) {
    && StageFits(p, StageOf(p.out))
    && (Streaming(p.phase) ==> !p.control.Nobody? && SelfOf(p.out) == Some((p.control.id, p.lastX, p.lastY)))
    && (p.broken ==> p.phase.Leaving? || p.phase.Releasing? || p.phase.Closed?)
    && (p.pending != [] ==> p.phase.Sending? || p.broken)
    && (forall m :: m in p.pending ==> IsEvent(m))
    && (!p.control.Nobody? ==> LoggedIn(p.out))
  }

  /** The client's version was accepted and its login granted. */
  predicate LoggedIn(out: seq<ServerMsg>) {
    |out| >= 2 && out[0].VersionResult? && out[0].accepted && out[1].LoginResult? && out[1].ok
  }

  ghost predicate StageFits(p: Session, stage: Stage) {
    match p.phase
    case AwaitHello => stage == Opening
    case AwaitLogin => stage == Versioned
    case Authenticated => stage == Admitted
    case Started => stage == Admitted
    case Spawning => stage == Admitted
    case Assigning => stage == Admitted
    case Greeting => !p.control.Nobody? && stage == AssignedTo(p.control.id)
    case Sampling => !p.control.Nobody? && stage == StreamingTo(p.control.id)
    case Sending => !p.control.Nobody? && stage == StreamingTo(p.control.id)
    case Waiting => !p.control.Nobody? && stage == StreamingTo(p.control.id)
    case _ => stage != Bad
  }

  ghost predicate SessionOk(s: System, sid: nat, p: Session) {
    ControlOk(s, sid, p) && ViewOk(s.issued, p) && TraceOk(p)
  }

  /** The sessions between SpawnFor and Despawn. */
  ghost function Holders(s: System): set<nat> {
    set sid | sid in s.sessions && s.sessions[sid].control.Own? && Holding(s.sessions[sid].phase)
  }

  /** The sessions between SessionStart and SessionEnd. */
  ghost function Live(s: System): set<nat> {
    set sid | sid in s.sessions && Counted(s.sessions[sid].phase)
  }

  /** Objects and sessions are accounted for. */
  ghost predicate Conserved(s: System) {
    && |s.world.objects| == |s.loaded| + |Holders(s)|
    && s.gauge == |Live(s)|
  }

  ghost predicate SessionsOk(s: System) {
    forall sid {:trigger SessionOk(s, sid, s.sessions[sid])} :: sid in s.sessions ==> SessionOk(s, sid, s.sessions[sid])
  }

  ghost predicate Inv(s: System) {
    WorldOk(s) && OwnersOk(s) && SessionsOk(s) && Conserved(s)
  }
}
