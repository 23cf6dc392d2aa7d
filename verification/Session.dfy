/**
 One connection's session, as the server runs it: handshake, live session, perception sync and
 command loop over a shared world. The server keeps a log of steps of the machine in `Machine`, and
 is always in the state that a run of that log leads to; each world call and each message is one
 step of it, and between any two steps of a session the rest of the server may take any number
 (`Others`). So everything proved of the machine holds of this code, and the contracts below say
 which steps it takes.
 */
module Sessions {
  import opened Wrappers
  import opened Frame
  import opened Motion
  import opened Universe
  import opened Protocol
  import opened Perception
  import opened Machine
  import opened Invariants
  import opened Theorems
  import opened Steps
  import opened Readers
  import opened Delivery
  import opened Game
  import opened Stats

  // ---------- folded facts ----------

  ghost predicate DeliveredAt(encode: Encoding, out: seq<ServerMsg>, broken: bool, sent: seq<byte>, t: Token) {
    Delivered(encode, out, broken, sent)
  }

  ghost predicate Carries(encode: Encoding, out: seq<ServerMsg>, broken: bool, sent: seq<byte>) {
    forall t: Token {:trigger DeliveredAt(encode, out, broken, sent, t)} :: DeliveredAt(encode, out, broken, sent, t)
  }

  // ---------- what the connections share ----------

  class Host {
    const world: World
    const registry: Registry
    const hypot: Hypot
    const minVersion: nat
    ghost const seeds: seq<Seed>
    ghost var sys: System         // the machine this server is in
    ghost var log: seq<Action>    // the steps it took since boot

    /** The server after boot: the world was just loaded, and nobody is connected. */
    constructor (world: World, registry: Registry, hypot: Hypot, minVersion: nat, ghost seeds: seq<Seed>)
      requires world.Valid() && world.state == Load(EmptyWorld, seeds) && registry.sessions == 0
      ensures this.world == world && this.registry == registry && this.hypot == hypot && this.minVersion == minVersion
      ensures Ok() && sys == Boot(seeds, minVersion) && log == []
    {
      this.world, this.registry, this.hypot, this.minVersion := world, registry, hypot, minVersion;
      this.seeds := seeds;
      sys, log := Boot(seeds, minVersion), [];
      new;
      assert forall t: Token :: OkAt(t);
    }

    /** The shared objects are in the state the machine is in, which is where the log leads. */
    ghost predicate OkAt(t: Token)
      reads this, world, world.repr, registry
    {
      && world.Valid() && world.state == sys.world && registry.sessions == sys.gauge && sys.minVersion == minVersion
      && Reached(hypot, seeds, minVersion, log, sys)
    }

    ghost predicate Ok()
      reads this, world, world.repr, registry
    {
      forall t: Token {:trigger OkAt(t)} :: OkAt(t)
    }

    /** The live loop of session `sid` took these steps. */
    ghost predicate RecordsAt(sid: nat, steps: seq<Action>, t: Token)
      reads this`log
    {
      Mine(log, sid) == steps
    }

    ghost predicate Records(sid: nat, steps: seq<Action>)
      reads this`log
    {
      forall t: Token {:trigger RecordsAt(sid, steps, t)} :: RecordsAt(sid, steps, t)
    }

    /** The reader of session `sid` read this. */
    ghost predicate HearsAt(sid: nat, heard: seq<Option<ClientMsg>>, t: Token)
      reads this`log
    {
      Heard(log, sid) == heard
    }

    ghost predicate Hears(sid: nat, heard: seq<Option<ClientMsg>>)
      reads this`log
    {
      forall t: Token {:trigger HearsAt(sid, heard, t)} :: HearsAt(sid, heard, t)
    }

    /** The id counter has not reached its end. */
    ghost predicate Room()
      reads this`sys
    {
      sys.world.nextID + 1 < TWO_TO_THE_64
    }

    ghost predicate Safe(id: nat)
      reads this`sys
    {
      SafeId(sys, id)
    }

    /** Any number of steps of the rest of the server: ticks, other sessions, and the reader of
        session `sid`. */
    method Others(ghost sid: nat, ghost steps: seq<Action>)
      requires Ok() && sid in sys.sessions && Records(sid, steps)
      modifies this, world, world.repr, registry
      ensures Ok() && sid in sys.sessions && SameButReader(old(sys.sessions[sid]), sys.sessions[sid])
      ensures Records(sid, steps) && old(log) <= log
      ensures old(Room()) ==> Room()
      ensures forall id :: old(Safe(id)) ==> Safe(id)
      ensures fresh(world.repr - old(world.repr))
    {
    }

    /** Any number of steps of the rest of the server, the live loop of session `sid` included,
        while its reader waits for a message. */
    method OthersButReader(ghost sid: nat, ghost heard: seq<Option<ClientMsg>>)
      requires Ok() && Has(sys, sid) && sys.sessions[sid].reader.Running? && Hears(sid, heard)
      modifies this, world, world.repr, registry
      ensures Ok() && sid in sys.sessions && SameForReader(old(sys.sessions[sid]), sys.sessions[sid])
      ensures Hears(sid, heard) && old(log) <= log
      ensures fresh(world.repr - old(world.repr))
    {
    }

    /** Logs a step. */
    ghost method Took(a: Action)
      requires Reached(hypot, seeds, minVersion, log, sys) && Enabled(sys, a) && Assumed(sys, a) && !a.Ticked?
      modifies this
      ensures Reached(hypot, seeds, minVersion, log, sys) && log == old(log) + [a]
      ensures a.sid in sys.sessions && sys.sessions[a.sid] == NextSession(old(sys), a)
      ensures sys.world == NextWorld(hypot, old(sys), a)
      ensures sys.gauge == old(sys).gauge + (if a.Start? then 1 else if a.Finish? then -1 else 0)
      ensures sys.minVersion == old(sys).minVersion && sys.top == old(sys).top
    {
      assert (log + [a])[..|log|] == log;
      sys, log := Apply(hypot, sys, a), log + [a];
    }

    /** Logs a step of a live loop. */
    ghost method Did(a: Action, steps: seq<Action>)
      requires Reached(hypot, seeds, minVersion, log, sys) && Enabled(sys, a) && Assumed(sys, a)
      requires !a.Ticked? && !a.Command? && Records(a.sid, steps)
      modifies this
      ensures Reached(hypot, seeds, minVersion, log, sys) && Records(a.sid, steps + [a])
      ensures a.sid in sys.sessions && sys.sessions[a.sid] == NextSession(old(sys), a)
      ensures sys.world == NextWorld(hypot, old(sys), a)
      ensures sys.gauge == old(sys).gauge + (if a.Start? then 1 else if a.Finish? then -1 else 0)
      ensures sys.minVersion == old(sys).minVersion && sys.top == old(sys).top
    {
      assert RecordsAt(a.sid, steps, Token);
      MineNext(log, a, a.sid);
      Took(a);
    }

    /** Logs a step of a live loop that touches neither the world nor the gauge. */
    ghost method DidLocally(a: Action, steps: seq<Action>)
      requires Ok() && Enabled(sys, a) && Assumed(sys, a) && IsLocal(a) && Records(a.sid, steps)
      modifies this
      ensures Ok() && Records(a.sid, steps + [a])
      ensures a.sid in sys.sessions && sys.sessions[a.sid] == NextSession(old(sys), a)
      ensures sys.world == old(sys).world && sys.minVersion == old(sys).minVersion && sys.top == old(sys).top
    {
      assert OkAt(Token);
      Did(a, steps);
    }

    // The calls a session makes on the world and the registry, each with the step it is.

    method Get(id: nat) returns (st: ObjectState, ok: bool)
      requires Ok()
      ensures ok <==> Universe.Get(sys.world, id).Some?
      ensures ok ==> st == Universe.Get(sys.world, id).value
    {
      assert OkAt(Token);
      st, ok := world.Get(id);
    }

    method Perceived(id: nat) returns (out: seq<ObjectState>)
      requires Ok()
      ensures Lists(out, Universe.Perceived(sys.world, id))
    {
      assert OkAt(Token);
      out := world.Perceived(id);
    }

    method SpawnFor(ghost sid: nat, ghost steps: seq<Action>) returns (st: ObjectState)
      requires Ok() && At(sys, sid, Spawning) && Room() && Records(sid, steps)
      modifies this, world
      ensures Ok() && sid in sys.sessions && sys.sessions[sid] == OnSpawn(old(sys).sessions[sid], old(sys).world)
      ensures st == sys.sessions[sid].st && sys.sessions[sid].control == Own(st.id)
      ensures Records(sid, steps + [SpawnOwn(sid)])
      ensures sys.world == Spawn(old(sys).world) && st == ObjectState(SpawnId(old(sys).world), 0, 0, "")
      ensures fresh(world.repr - old(world.repr))
    {
      assert OkAt(Token);
      st := world.SpawnFor();
      Did(SpawnOwn(sid), steps);
    }

    /** The deferred call of a session that spawned its object. */
    method Despawn(ghost sid: nat, id: nat, ghost steps: seq<Action>)
      requires Ok() && At(sys, sid, Leaving) && sys.sessions[sid].control == Own(id) && Records(sid, steps)
      modifies this, world
      ensures Ok() && sid in sys.sessions && sys.sessions[sid] == old(sys).sessions[sid].(phase := Releasing)
      ensures Records(sid, steps + [Release(sid)])
      ensures sys.world == Universe.Despawn(old(sys).world, id)
      ensures world.repr == old(world.repr)
    {
      assert OkAt(Token);
      world.Despawn(id);
      Did(Release(sid), steps);
    }

    /** What a session defers when it did not spawn its object: nothing. */
    ghost method DidNotSpawn(sid: nat, steps: seq<Action>)
      requires Ok() && At(sys, sid, Leaving) && sys.sessions[sid].control.Loaded? && Records(sid, steps)
      modifies this
      ensures Ok() && sid in sys.sessions && sys.sessions[sid] == old(sys).sessions[sid].(phase := Releasing)
      ensures Records(sid, steps + [Release(sid)])
      ensures sys.world == old(sys).world
    {
      assert OkAt(Token);
      Did(Release(sid), steps);
    }

    method SessionStart(ghost sid: nat, ghost steps: seq<Action>)
      requires Ok() && At(sys, sid, Authenticated) && Records(sid, steps)
      modifies this, registry
      ensures Ok() && sid in sys.sessions && sys.sessions[sid] == old(sys).sessions[sid].(phase := Started)
      ensures Records(sid, steps + [Start(sid)])
      ensures old(Room()) ==> Room()
    {
      assert OkAt(Token);
      registry.SessionStart();
      Did(Start(sid), steps);
    }

    method SessionEnd(ghost sid: nat, ghost steps: seq<Action>)
      requires Ok() && At(sys, sid, Releasing) && Records(sid, steps)
      modifies this, registry
      ensures Ok() && sid in sys.sessions && sys.sessions[sid] == old(sys).sessions[sid].(phase := Closed)
      ensures Records(sid, steps + [Finish(sid)])
    {
      assert OkAt(Token);
      registry.SessionEnd();
      Did(Finish(sid), steps);
    }

    // The reader.

    method Command(id: nat, msg: ClientMsg)
      requires world.Valid()
      modifies world, world.repr
      ensures world.Valid() && world.state == AfterCommand(old(world.state), id, Some(msg))
      ensures world.repr == old(world.repr)
    {
      match msg
      case Move(target) =>
        if target.Some? {
          world.SetTarget(id, target.value.0, target.value.1);
          assert target == Some((target.value.0, target.value.1));
        }
      case StopMoving => world.Stop(id);
      case _ =>
    }

    /** Logs a read of the reader of session `sid`. */
    ghost method Read(sid: nat, msg: Option<ClientMsg>, heard: seq<Option<ClientMsg>>)
      requires Reached(hypot, seeds, minVersion, log, sys) && Enabled(sys, Action.Command(sid, msg))
               && Hears(sid, heard)
      modifies this
      ensures Reached(hypot, seeds, minVersion, log, sys) && Hears(sid, heard + [msg])
      ensures sid in sys.sessions && sys.sessions[sid] == OnCommand(old(sys).sessions[sid], msg)
      ensures sys.world == AfterCommand(old(sys).world, old(sys).sessions[sid].control.id, msg)
      ensures sys.gauge == old(sys).gauge && sys.minVersion == old(sys).minVersion
    {
      assert HearsAt(sid, heard, Token);
      HeardNext(log, Action.Command(sid, msg), sid);
      Took(Action.Command(sid, msg));
    }

    /** One command of the reader of session `sid`, whose object is `id`. */
    method Obey(ghost sid: nat, id: nat, msg: ClientMsg, ghost heard: seq<Option<ClientMsg>>)
      requires Ok() && Has(sys, sid) && sys.sessions[sid].reader.Running? && sys.sessions[sid].control.id == id
      requires Hears(sid, heard)
      modifies this, world, world.repr
      ensures Ok() && sid in sys.sessions && sys.sessions[sid] == old(sys).sessions[sid]
      ensures Hears(sid, heard + [Some(msg)])
      ensures sys.world == AfterCommand(old(sys).world, id, Some(msg))
      ensures world.repr == old(world.repr)
    {
      assert OkAt(Token);
      Command(id, msg);
      Read(sid, Some(msg), heard);
    }

    ghost method EndReading(sid: nat, heard: seq<Option<ClientMsg>>)
      requires Ok() && Has(sys, sid) && sys.sessions[sid].reader.Running? && Hears(sid, heard)
      modifies this
      ensures Ok() && sid in sys.sessions && sys.sessions[sid] == old(sys).sessions[sid].(reader := Ended)
      ensures Hears(sid, heard + [None])
    {
      assert OkAt(Token);
      Read(sid, None, heard);
    }

    /** The reader goroutine of session `sid`, whose object is `id`: obeys the client's messages in
        order until one cannot be read. It may go on after the live loop has left. */
    method ReadCommands(ghost sid: nat, id: nat, messages: seq<ClientMsg>, ghost heard: seq<Option<ClientMsg>>)
      requires Ok() && Has(sys, sid) && sys.sessions[sid].reader.Running? && sys.sessions[sid].control.id == id
      requires Hears(sid, heard)
      modifies this, world, world.repr, registry
      ensures Ok() && sid in sys.sessions && sys.sessions[sid].reader.Ended?
      ensures Hears(sid, heard + Said(messages) + [None])
      ensures fresh(world.repr - old(world.repr))
    {
      assert heard + Said(messages[..0]) == heard;
      for i := 0 to |messages|
        invariant Ok() && Has(sys, sid) && sys.sessions[sid].reader.Running? && sys.sessions[sid].control.id == id
        invariant Hears(sid, heard + Said(messages[..i]))
        invariant fresh(world.repr - old(world.repr))
      {
        OthersButReader(sid, heard + Said(messages[..i]));
        Obey(sid, id, messages[i], heard + Said(messages[..i]));
        assert heard + Said(messages[..i]) + [Some(messages[i])] == heard + Said(messages[..i + 1]);
      }
      assert messages[..|messages|] == messages;
      OthersButReader(sid, heard + Said(messages));
      EndReading(sid, heard + Said(messages));
    }
  }

  /** What sending events leaves alone of a session. */
  ghost predicate Undisturbed(p: Session, q: Session) {
    && q.control == p.control && q.st == p.st && q.lastX == p.lastX && q.lastY == p.lastY && q.sample == p.sample
    && MayEnd(p.reader, q.reader)
  }

  /** The first complete sync starts the reader. */
  function AfterSync(r: Reading): Reading {
    if r.NotStarted? then Running else r
  }

  /** A reader that runs may end at any moment, by itself. */
  predicate MayEnd(r: Reading, r': Reading) {
    r' == r || (r.Running? && r'.Ended?)
  }

  /** Steps that touch neither the world nor the gauge. */
  predicate IsLocal(a: Action) {
    !a.Ticked? && !a.SpawnOwn? && !a.Command? && !a.Release? && !a.Start? && !a.Finish?
  }

  ghost predicate SameButReader(p: Session, q: Session) {
    q == p.(reader := q.reader) && MayEnd(p.reader, q.reader)
  }

  ghost predicate SameForReader(p: Session, q: Session) {
    q.control == p.control && q.reader == p.reader
  }

  /** The contract of `Others` is what a step of anybody else really leaves alone. */
  lemma OthersLeaveAlone(h: Hypot, s: System, a: Action, sid: nat, log: seq<Action>)
    requires Enabled(s, a) && sid in s.sessions
    requires a.Ticked? || a.sid != sid || a.Command?
    ensures var s' := Apply(h, s, a); sid in s'.sessions && SameButReader(s.sessions[sid], s'.sessions[sid])
    ensures Mine(log + [a], sid) == Mine(log, sid)
  {
    MineNext(log, a, sid);
    if a.Ticked? || a.sid != sid {
      StepIsLocal(h, s, a, sid);
    } else {
      StepOfSession(h, s, a);
    }
  }

  /** So are safe ids. */
  lemma StepKeepsSafe(h: Hypot, s: System, a: Action, id: nat)
    requires Inv(s) && Enabled(s, a) && Assumed(s, a) && SafeId(s, id)
    ensures SafeId(Apply(h, s, a), id)
  {
    if a.SpawnOwn? {
      SpawnIdIsNew(s);
    } else {
      OnlySpawnIssues(h, s, a);
      OnlySpawnCounts(h, s, a);
    }
  }

  lemma OnlySpawnCounts(h: Hypot, s: System, a: Action)
    requires Enabled(s, a) && !a.SpawnOwn?
    ensures Apply(h, s, a).world.nextID == s.world.nextID && Apply(h, s, a).top == s.top
  {
  }

  /** And the contract of `OthersButReader` is what a step of anything but that reader leaves alone. */
  lemma OthersLeaveReaderAlone(h: Hypot, s: System, a: Action, sid: nat, log: seq<Action>)
    requires Inv(s) && Enabled(s, a) && Has(s, sid) && s.sessions[sid].reader.Running?
    requires a.Ticked? || a.sid != sid || !a.Command?
    ensures var s' := Apply(h, s, a); sid in s'.sessions && SameForReader(s.sessions[sid], s'.sessions[sid])
    ensures Heard(log + [a], sid) == Heard(log, sid)
  {
    HeardNext(log, a, sid);
    if !a.Ticked? && a.sid == sid {
      ControlIsOk(s, sid);
      LiveStepKeepsReader(s, a);
      StepOfSession(h, s, a);
    } else {
      StepIsLocal(h, s, a, sid);
    }
  }

  lemma LiveStepKeepsReader(s: System, a: Action)
    requires Enabled(s, a) && !a.Ticked? && !a.Command? && !a.Connect?
    requires s.sessions[a.sid].reader.Running? && !Early(s.sessions[a.sid].phase)
    ensures SameForReader(s.sessions[a.sid], NextSession(s, a))
  {
  }

  lemma EventsInOrder(enter: seq<ObjectState>, update: seq<ObjectState>, leave: seq<nat>)
    ensures Events(enter, update, leave) == Enters(enter) + (Updates(update) + (Leaves(leave) + []))
  {
  }

  // ---------- one connection ----------

  class Peer {
    const sid: nat
    const host: Host
    const conn: Writer
    const encode: Encoding
    var objID: nat
    var spawned: bool
    var seen: View
    ghost var out: seq<ServerMsg>    // the messages attempted
    ghost var steps: seq<Action>     // the steps of the live loop

    constructor (sid: nat, host: Host, conn: Writer, encode: Encoding)
      ensures this.sid == sid && this.host == host && this.conn == conn && this.encode == encode
      ensures seen == map[] && out == [] && steps == [Connect(sid)]
    {
      this.sid, this.host, this.conn, this.encode := sid, host, conn, encode;
      objID, spawned, seen, out, steps := 0, false, map[], [], [Connect(sid)];
    }

    /** This session in the machine. */
    ghost function Me(): Session
      reads host`sys
    {
      if sid in host.sys.sessions then host.sys.sessions[sid] else NewSession
    }

    /** The bytes on the connection are those of the messages attempted, and none of them
        followed a failure. */
    ghost predicate Sent(broken: bool)
      reads this`out, conn
    {
      Carries(encode, out, broken, conn.sent) && conn.Quiet() && (conn.failedAt.Some? <==> broken)
    }

    /** The server is in a good state, in which this session is in `phase` and took `steps`. */
    ghost predicate InAt(phase: Phase, t: Token)
      reads this`out, this`steps, host, host.world, host.world.repr, host.registry, conn
    {
      && host.Ok() && At(host.sys, sid, phase) && host.Records(sid, steps)
      && Me().out == out && Sent(Me().broken)
    }

    ghost predicate In(phase: Phase)
      reads this`out, this`steps, host, host.world, host.world.repr, host.registry, conn
    {
      forall t: Token {:trigger InAt(phase, t)} :: InAt(phase, t)
    }

    /** Whatever the rest of the server does until this session's next step. */
    method Meanwhile(ghost phase: Phase)
      requires In(phase)
      modifies host, host.world, host.world.repr, host.registry
      ensures In(phase) && SameButReader(old(Me()), Me())
      ensures old(host.Room()) ==> host.Room()
      ensures forall id :: old(host.Safe(id)) ==> host.Safe(id)
      ensures fresh(host.world.repr - old(host.world.repr))
    {
      assert InAt(phase, Token);
      host.Others(sid, steps);
    }

    /** Records a step that touches neither the world nor the gauge. */
    ghost method Step(a: Action)
      requires host.Ok() && host.Records(sid, steps)
      requires !a.Ticked? && a.sid == sid && Enabled(host.sys, a) && Assumed(host.sys, a) && IsLocal(a)
      modifies host, this`steps
      ensures host.Ok() && host.Records(sid, steps) && steps == old(steps) + [a]
      ensures sid in host.sys.sessions && Me() == NextSession(old(host.sys), a)
      ensures host.sys.world == old(host.sys).world
      ensures host.sys.minVersion == old(host.sys).minVersion && host.sys.top == old(host.sys).top
    {
      host.DidLocally(a, steps);
      steps := steps + [a];
    }

    /** Writes one message as one frame. */
    method SendServer(m: ServerMsg) returns (ok: bool)
      requires Sent(false)
      modifies this`out, conn
      ensures out == old(out) + [m] && Sent(!ok)
    {
      ghost var before := out;
      assert DeliveredAt(encode, out, false, conn.sent, Token);
      ok := WriteFrame(conn, encode(m));
      out := out + [m];
      assert out[..|out| - 1] == before;
      if ok {
        PayloadsNext(encode, before, m);
      }
    }

    /** Reconciles `seen` with a perceived set: the newcomers, the movers and, in whatever order
        the map yields them, the ids that have left. */
    method PerceptionDelta(perceived: seq<ObjectState>)
      returns (enter: seq<ObjectState>, update: seq<ObjectState>, leave: seq<nat>)
      modifies this`seen
      ensures enter == Merge(perceived, old(seen)).enter && update == Merge(perceived, old(seen)).update
      ensures IsLeaveList(leave, perceived, old(seen))
      ensures seen == LastWins(perceived) == Merge(perceived, old(seen)).seen - SetOf(leave)
    {
      var live: set<nat> := {};
      enter, update := [], [];
      for i := 0 to |perceived|
        invariant Merged(enter, update, seen) == Merge(perceived[..i], old(seen))
        invariant live == Ids(perceived[..i])
      {
        var n := perceived[i];
        MergeNext(perceived, old(seen), i);
        live := live + {n.id};
        if n.id !in seen {
          enter := enter + [n];
        } else if n.x != seen[n.id].x || n.y != seen[n.id].y {
          update := update + [n];
        }
        seen := seen[n.id := n];
      }
      assert perceived[..|perceived|] == perceived;
      MergeSeen(perceived, old(seen));
      leave := DropDeparted(live);
      assert seen == LastWins(perceived);
      assert seen == Merge(perceived, old(seen)).seen - SetOf(leave);
    }

    /** Forgets and lists what was seen and is not live. */
    method DropDeparted(live: set<nat>) returns (leave: seq<nat>)
      modifies this`seen
      ensures Members(leave, old(seen).Keys - live)
      ensures seen == old(seen) - (old(seen).Keys - live)
    {
      leave := [];
      var rest := seen.Keys;
      ghost var gone: set<nat> := {};
      while rest != {}
        invariant rest <= old(seen).Keys && gone <= old(seen).Keys && gone !! live && gone !! rest
        invariant forall id :: id in old(seen) && id !in rest && id !in live ==> id in gone
        invariant Members(leave, gone)
        invariant seen == old(seen) - gone
        decreases |rest|
      {
        var id :| id in rest;
        rest := rest - {id};
        if id !in live {
          MembersMore(leave, gone, id);
          leave, gone := leave + [id], gone + {id};
          seen := seen - {id};
        }
      }
      assert gone == old(seen).Keys - live;
    }

    /** What the session keeps for itself is what the machine has for it. */
    ghost predicate Tracks()
      reads this, host`sys
    {
      Me().control == (if spawned then Own(objID) else Loaded(objID)) && Me().seen == seen
    }

    /** Sends the next event of a sync. */
    method SendEvent(m: ServerMsg) returns (ok: bool)
      requires In(Sending) && Tracks() && !Me().broken && Me().pending != [] && Me().pending[0] == m
      modifies this`out, this`steps, conn, host, host.world, host.world.repr, host.registry
      ensures In(if ok then Sending else Leaving) && Tracks() && Me().broken == !ok && Undisturbed(old(Me()), Me())
      ensures Me().pending == old(Me().pending)[1..]
      ensures out == old(out) + [m] && steps == old(steps) + [Send(sid, ok)]
      ensures fresh(host.world.repr - old(host.world.repr))
    {
      Meanwhile(Sending);
      assert InAt(Sending, Token);
      ok := SendServer(m);
      Step(Send(sid, ok));
    }

    /** Samples the perceived set and works out its events. */
    method SampleDelta() returns (enter: seq<ObjectState>, update: seq<ObjectState>, leave: seq<nat>, ghost a: Action)
      requires In(Sampling) && Tracks() && !Me().broken
      modifies this`seen, this`steps, host
      ensures In(Sending) && Tracks() && !Me().broken && Undisturbed(old(Me()).(sample := Me().sample), Me())
      ensures Me().pending == Enters(enter) + (Updates(update) + (Leaves(leave) + []))
      ensures Me().sample == Perceived(old(host.sys).world, objID)
      ensures a.Sample? && a.sid == sid && steps == old(steps) + [a]
    {
      assert InAt(Sampling, Token);
      var perceived := host.Perceived(objID);
      enter, update, leave, a := Reconcile(perceived);
    }

    method Reconcile(perceived: seq<ObjectState>)
      returns (enter: seq<ObjectState>, update: seq<ObjectState>, leave: seq<nat>, ghost a: Action)
      requires In(Sampling) && Tracks() && !Me().broken && Lists(perceived, Perceived(host.sys.world, objID))
      modifies this`seen, this`steps, host
      ensures In(Sending) && Tracks() && !Me().broken && Undisturbed(old(Me()).(sample := Me().sample), Me())
      ensures Me().pending == Enters(enter) + (Updates(update) + (Leaves(leave) + []))
      ensures Me().sample == Perceived(old(host.sys).world, objID)
      ensures a == Sample(sid, perceived, leave) && steps == old(steps) + [a]
    {
      enter, update, leave := PerceptionDelta(perceived);
      a := Sample(sid, perceived, leave);
      Sampled(perceived, enter, update, leave);
    }

    /** Records a sample, of which `seen` is already told. */
    ghost method Sampled(perceived: seq<ObjectState>, enter: seq<ObjectState>, update: seq<ObjectState>,
                         leave: seq<nat>)
      requires In(Sampling) && !Me().broken && Lists(perceived, Perceived(host.sys.world, objID))
      requires Me().control == if spawned then Own(objID) else Loaded(objID)
      requires IsLeaveList(leave, perceived, Me().seen)
      requires var d := Merge(perceived, Me().seen);
               enter == d.enter && update == d.update && seen == d.seen - SetOf(leave)
      modifies host, this`steps
      ensures In(Sending) && Tracks() && !Me().broken && Undisturbed(old(Me()).(sample := Me().sample), Me())
      ensures Me().pending == Enters(enter) + (Updates(update) + (Leaves(leave) + []))
      ensures Me().sample == Perceived(old(host.sys).world, objID)
      ensures steps == old(steps) + [Sample(sid, perceived, leave)]
    {
      assert InAt(Sampling, Token);
      EventsInOrder(enter, update, leave);
      Step(Sample(sid, perceived, leave));
    }

    /** Tells the client what changed in the perceived set since the last sync: the newcomers,
        the movers, then those gone. It then holds the set as it was when this started, whatever
        the rest of the server did meanwhile. */
    method SyncPerception() returns (ok: bool, ghost did: seq<Action>)
      requires In(Sampling) && Tracks() && !Me().broken
      modifies this`seen, this`out, this`steps, conn, host, host.world, host.world.repr, host.registry
      ensures In(if ok then Waiting else Leaving) && Tracks() && Me().broken == !ok
      ensures Undisturbed(old(Me()).(sample := Me().sample, reader := Me().reader), Me())
      ensures ok ==> MayEnd(AfterSync(old(Me()).reader), Me().reader)
      ensures steps == old(steps) + did && IsSync(did, sid, ok)
      ensures fresh(host.world.repr - old(host.world.repr))
      ensures ok ==> ReceiveAll(Fresh, out).view == Perceived(old(host.sys).world, objID)
    {
      ok, did := SendChanges();
      SyncOf(did, sid, ok);
      if ok {
        did := did + [Settle(sid)];
        Settled();
      }
    }

    /** Takes a sample and sends its events. */
    method SendChanges() returns (ok: bool, ghost did: seq<Action>)
      requires In(Sampling) && Tracks() && !Me().broken
      modifies this`seen, this`out, this`steps, conn, host, host.world, host.world.repr, host.registry
      ensures In(if ok then Sending else Leaving) && Tracks() && Me().broken == !ok && (ok ==> Me().pending == [])
      ensures Undisturbed(old(Me()).(sample := Me().sample), Me())
      ensures Me().sample == Perceived(old(host.sys).world, objID)
      ensures steps == old(steps) + did && AreChanges(did, sid, ok)
      ensures fresh(host.world.repr - old(host.world.repr))
    {
      ghost var a, sends;
      var enter, update, leave;
      enter, update, leave, a := SampleDelta();
      ok, sends := SendAll(enter, update, leave);
      did := [a] + sends;
      ChangesOf(a, sends, sid, ok);
    }

    /** Sends the events of a sync, up to the first write error. */
    method SendAll(enter: seq<ObjectState>, update: seq<ObjectState>, leave: seq<nat>)
      returns (ok: bool, ghost did: seq<Action>)
      requires In(Sending) && Tracks() && !Me().broken
      requires Me().pending == Enters(enter) + (Updates(update) + (Leaves(leave) + []))
      modifies this`out, this`steps, conn, host, host.world, host.world.repr, host.registry
      ensures In(if ok then Sending else Leaving) && Tracks() && Me().broken == !ok && Undisturbed(old(Me()), Me())
      ensures ok ==> Me().pending == []
      ensures steps == old(steps) + did && AreSends(did, sid, ok)
      ensures fresh(host.world.repr - old(host.world.repr))
    {
      ok, did := SendEnters(enter, Updates(update) + (Leaves(leave) + []));
      ghost var more;
      if ok {
        ok, more := SendUpdates(update, Leaves(leave) + []);
        SendsJoin(did, more, sid, ok);
        did := did + more;
      }
      if ok {
        ok, more := SendLeaves(leave, []);
        SendsJoin(did, more, sid, ok);
        did := did + more;
      }
    }

    ghost method Settled()
      requires In(Sending) && Tracks() && !Me().broken && Me().pending == []
      modifies host, this`steps
      ensures In(Waiting) && Tracks() && !Me().broken && Undisturbed(old(Me()).(reader := Me().reader), Me())
      ensures Me().reader == AfterSync(old(Me()).reader)
      ensures ReceiveAll(Fresh, out).view == Me().sample
      ensures steps == old(steps) + [Settle(sid)]
    {
      assert InAt(Sending, Token);
      Step(Settle(sid));
      ClientIsUpToDate();
    }

    lemma ClientIsUpToDate()
      requires In(Waiting)
      ensures ReceiveAll(Fresh, out).view == Me().sample
    {
      assert InAt(Waiting, Token);
      assert host.OkAt(Token);
      ReachedInv(host.hypot, host.seeds, host.minVersion, host.log, host.sys);
      ClientHoldsSample(host.sys, sid);
    }

    /** The messages `ms` went out as far as `did` says. */
    ghost predicate Told(before: seq<ServerMsg>, ms: seq<ServerMsg>, did: seq<Action>, ok: bool)
      reads this`out
    {
      |did| <= |ms| && out == before + ms[..|did|] && AreSends(did, sid, ok) && (ok ==> |did| == |ms|)
    }

    method SendEnters(enter: seq<ObjectState>, ghost later: seq<ServerMsg>) returns (ok: bool, ghost did: seq<Action>)
      requires In(Sending) && Tracks() && !Me().broken && Me().pending == Enters(enter) + later
      modifies this`out, this`steps, conn, host, host.world, host.world.repr, host.registry
      ensures In(if ok then Sending else Leaving) && Tracks() && Me().broken == !ok && Undisturbed(old(Me()), Me())
      ensures ok ==> Me().pending == later
      ensures steps == old(steps) + did && Told(old(out), Enters(enter), did, ok)
      ensures fresh(host.world.repr - old(host.world.repr))
    {
      EntersLength(enter);
      did := [];
      for i := 0 to |enter|
        invariant In(Sending) && Tracks() && !Me().broken && Undisturbed(old(Me()), Me())
        invariant Me().pending == Enters(enter)[i..] + later
        invariant steps == old(steps) + did && |did| == i && AreSends(did, sid, true)
                  && out == old(out) + Enters(enter)[..i]
        invariant fresh(host.world.repr - old(host.world.repr))
      {
        EntersAt(enter, i);
        ok := SendEvent(ObjectEnter(enter[i].id, enter[i].x, enter[i].y, enter[i].typeKey));
        did := did + [Send(sid, ok)];
        if !ok {
          return;
        }
      }
      ok := true;
    }

    method SendUpdates(update: seq<ObjectState>, ghost later: seq<ServerMsg>) returns (ok: bool, ghost did: seq<Action>)
      requires In(Sending) && Tracks() && !Me().broken && Me().pending == Updates(update) + later
      modifies this`out, this`steps, conn, host, host.world, host.world.repr, host.registry
      ensures In(if ok then Sending else Leaving) && Tracks() && Me().broken == !ok && Undisturbed(old(Me()), Me())
      ensures ok ==> Me().pending == later
      ensures steps == old(steps) + did && Told(old(out), Updates(update), did, ok)
      ensures fresh(host.world.repr - old(host.world.repr))
    {
      EntersLength(update);
      did := [];
      for i := 0 to |update|
        invariant In(Sending) && Tracks() && !Me().broken && Undisturbed(old(Me()), Me())
        invariant Me().pending == Updates(update)[i..] + later
        invariant steps == old(steps) + did && |did| == i && AreSends(did, sid, true)
                  && out == old(out) + Updates(update)[..i]
        invariant fresh(host.world.repr - old(host.world.repr))
      {
        UpdatesAt(update, i);
        ok := SendEvent(ObjectUpdate(update[i].id, update[i].x, update[i].y));
        did := did + [Send(sid, ok)];
        if !ok {
          return;
        }
      }
      ok := true;
    }

    method SendLeaves(leave: seq<nat>, ghost later: seq<ServerMsg>) returns (ok: bool, ghost did: seq<Action>)
      requires In(Sending) && Tracks() && !Me().broken && Me().pending == Leaves(leave) + later
      modifies this`out, this`steps, conn, host, host.world, host.world.repr, host.registry
      ensures In(if ok then Sending else Leaving) && Tracks() && Me().broken == !ok && Undisturbed(old(Me()), Me())
      ensures ok ==> Me().pending == later
      ensures steps == old(steps) + did && Told(old(out), Leaves(leave), did, ok)
      ensures fresh(host.world.repr - old(host.world.repr))
    {
      LeavesLength(leave);
      did := [];
      for i := 0 to |leave|
        invariant In(Sending) && Tracks() && !Me().broken && Undisturbed(old(Me()), Me())
        invariant Me().pending == Leaves(leave)[i..] + later
        invariant steps == old(steps) + did && |did| == i && AreSends(did, sid, true)
                  && out == old(out) + Leaves(leave)[..i]
        invariant fresh(host.world.repr - old(host.world.repr))
      {
        LeavesAt(leave, i);
        ok := SendEvent(ObjectLeave(leave[i]));
        did := did + [Send(sid, ok)];
        if !ok {
          return;
        }
      }
      ok := true;
    }

    /** The session's object is there: nobody else takes it out of the world. */
    lemma ObjectIsThere()
      requires In(Waiting) && Tracks()
      ensures objID in host.sys.world.objects
    {
      assert InAt(Waiting, Token);
      assert host.OkAt(Token);
      ReachedInv(host.hypot, host.seeds, host.minVersion, host.log, host.sys);
      ControlIsOk(host.sys, sid);
      SelfIsThere(host.sys, sid);
    }

    /** Where the session's object is. The exit for a missing object is never taken. */
    method WhereAmI() returns (cur: ObjectState)
      requires In(Waiting) && Tracks()
      ensures Universe.Get(host.sys.world, objID) == Some(cur)
    {
      assert InAt(Waiting, Token);
      ObjectIsThere();
      var there;
      cur, there := host.Get(objID);
      if !there {
        assert false;
      }
    }

    /** The ticker fired: tells the client where its object is, if and only if that has changed. */
    method LookAround(lastX: int, lastY: int) returns (x: int, y: int, ok: bool)
      requires In(Waiting) && Tracks() && !Me().broken && lastX == Me().lastX && lastY == Me().lastY
      modifies this`out, this`steps, conn, host
      ensures In(if ok then Sampling else Leaving) && Tracks() && Me().broken == !ok
      ensures x == Me().lastX && y == Me().lastY
      ensures Universe.Get(old(host.sys).world, objID).Some?
      ensures var cur := Universe.Get(old(host.sys).world, objID).value; x == cur.x && y == cur.y
      ensures out == old(out) + if x != lastX || y != lastY then [SelfUpdate(objID, x, y)] else []
      ensures steps == old(steps) + [Action.Look(sid, ok)]
    {
      var cur := WhereAmI();
      x, y, ok := cur.x, cur.y, true;
      if cur.x != lastX || cur.y != lastY {
        ok := ReportMove(cur);
      } else {
        assert InAt(Waiting, Token);
        Step(Action.Look(sid, true));
      }
    }

    method ReportMove(cur: ObjectState) returns (ok: bool)
      requires In(Waiting) && Tracks() && !Me().broken
      requires Universe.Get(host.sys.world, objID) == Some(cur) && (cur.x != Me().lastX || cur.y != Me().lastY)
      modifies this`out, this`steps, conn, host
      ensures In(if ok then Sampling else Leaving) && Tracks() && Me().broken == !ok
      ensures cur.x == Me().lastX && cur.y == Me().lastY
      ensures out == old(out) + [SelfUpdate(objID, cur.x, cur.y)] && steps == old(steps) + [Action.Look(sid, ok)]
    {
      assert InAt(Waiting, Token);
      ok := SendServer(SelfUpdate(objID, cur.x, cur.y));
      Step(Action.Look(sid, ok));
    }

    /** Tells the client which object it controls and where that is. */
    method Introduce(st: ObjectState) returns (ok: bool, ghost did: seq<Action>)
      requires In(Assigning) && Tracks() && !Me().broken && st == Me().st
      modifies this`out, this`steps, conn, host, host.world, host.world.repr, host.registry
      ensures In(if ok then Sampling else Leaving) && Tracks() && Me().broken == !ok
      ensures ok ==> Me().lastX == st.x && Me().lastY == st.y
      ensures steps == old(steps) + did && IsIntroduction(did, sid, ok)
      ensures fresh(host.world.repr - old(host.world.repr))
      ensures MayEnd(old(Me()).reader, Me().reader)
    {
      ok := SendAssign(st);
      did := [Assign(sid, ok)];
      if ok {
        ok := SendGreeting(st);
        did := did + [Greet(sid, ok)];
      }
    }

    method SendAssign(st: ObjectState) returns (ok: bool)
      requires In(Assigning) && Tracks() && !Me().broken && st == Me().st
      modifies this`out, this`steps, conn, host, host.world, host.world.repr, host.registry
      ensures In(if ok then Greeting else Leaving) && Tracks() && Me().broken == !ok && Me().st == st
      ensures out == old(out) + [SelfAssign(objID, st.x, st.y, st.typeKey)] && steps == old(steps) + [Assign(sid, ok)]
      ensures fresh(host.world.repr - old(host.world.repr))
      ensures MayEnd(old(Me()).reader, Me().reader)
    {
      Meanwhile(Assigning);
      assert InAt(Assigning, Token);
      ok := SendServer(SelfAssign(objID, st.x, st.y, st.typeKey));
      Step(Assign(sid, ok));
    }

    method SendGreeting(st: ObjectState) returns (ok: bool)
      requires In(Greeting) && Tracks() && !Me().broken && st == Me().st
      modifies this`out, this`steps, conn, host, host.world, host.world.repr, host.registry
      ensures In(if ok then Sampling else Leaving) && Tracks() && Me().broken == !ok
      ensures Me().lastX == st.x && Me().lastY == st.y
      ensures out == old(out) + [SelfUpdate(objID, st.x, st.y)] && steps == old(steps) + [Greet(sid, ok)]
      ensures fresh(host.world.repr - old(host.world.repr))
      ensures MayEnd(old(Me()).reader, Me().reader)
    {
      Meanwhile(Greeting);
      assert InAt(Greeting, Token);
      ok := SendServer(SelfUpdate(objID, st.x, st.y));
      Step(Greet(sid, ok));
    }

    /** The start of the live session: who the client is, and what it perceives. */
    method Open(st: ObjectState) returns (ok: bool, ghost did: seq<Action>)
      requires In(Assigning) && Tracks() && !Me().broken && st == Me().st
      modifies this`seen, this`out, this`steps, conn, host, host.world, host.world.repr, host.registry
      ensures In(if ok then Waiting else Leaving) && Tracks() && Me().broken == !ok
      ensures ok ==> Me().lastX == st.x && Me().lastY == st.y
      ensures steps == old(steps) + did && IsOpening(did, sid, ok)
      ensures fresh(host.world.repr - old(host.world.repr))
      ensures ok ==> MayEnd(AfterSync(old(Me()).reader), Me().reader)
    {
      ok, did := Introduce(st);
      if ok {
        ghost var sync;
        ok, sync := SyncLater();
        OpeningOf(did, sync, sid, ok);
        did := did + sync;
      }
    }

    /** Looks around some time later. */
    method LookLater(lastX: int, lastY: int) returns (x: int, y: int, ok: bool)
      requires In(Waiting) && Tracks() && !Me().broken && lastX == Me().lastX && lastY == Me().lastY
      modifies this`out, this`steps, conn, host, host.world, host.world.repr, host.registry
      ensures In(if ok then Sampling else Leaving) && Tracks() && Me().broken == !ok
      ensures x == Me().lastX && y == Me().lastY
      ensures steps == old(steps) + [Action.Look(sid, ok)]
      ensures fresh(host.world.repr - old(host.world.repr))
    {
      Meanwhile(Waiting);
      x, y, ok := LookAround(lastX, lastY);
    }

    /** Syncs some time later. */
    method SyncLater() returns (ok: bool, ghost did: seq<Action>)
      requires In(Sampling) && Tracks() && !Me().broken
      modifies this`seen, this`out, this`steps, conn, host, host.world, host.world.repr, host.registry
      ensures In(if ok then Waiting else Leaving) && Tracks() && Me().broken == !ok
      ensures Me().lastX == old(Me()).lastX && Me().lastY == old(Me()).lastY
      ensures steps == old(steps) + did && IsSync(did, sid, ok)
      ensures fresh(host.world.repr - old(host.world.repr))
      ensures ok ==> MayEnd(AfterSync(old(Me()).reader), Me().reader)
    {
      Meanwhile(Sampling);
      ok, did := SyncPerception();
    }

    /** One turn of the live loop. The look and the sync sample the world at two moments. */
    method Turn(lastX: int, lastY: int) returns (x: int, y: int, ok: bool, ghost did: seq<Action>)
      requires In(Waiting) && Tracks() && !Me().broken && lastX == Me().lastX && lastY == Me().lastY
      modifies this`seen, this`out, this`steps, conn, host, host.world, host.world.repr, host.registry
      ensures In(if ok then Waiting else Leaving) && Tracks() && Me().broken == !ok
      ensures x == Me().lastX && y == Me().lastY
      ensures steps == old(steps) + did && IsTurn(did, sid, ok)
      ensures fresh(host.world.repr - old(host.world.repr))
    {
      x, y, ok := LookLater(lastX, lastY);
      did := [Action.Look(sid, ok)];
      if ok {
        ghost var sync;
        ok, sync := SyncLater();
        TurnOf(sync, sid, ok);
        did := did + sync;
      }
    }

    /** The live session up to its deferred calls. Each wake is the ticker or else the end, be it
        the client's or the server's; after the last wake the server ends it. */
    method Serve(st: ObjectState, wakes: seq<bool>) returns (ghost did: seq<Action>)
      requires In(Assigning) && Tracks() && !Me().broken && st == Me().st
      modifies this`seen, this`out, this`steps, conn, host, host.world, host.world.repr, host.registry
      ensures In(Leaving) && Tracks()
      ensures steps == old(steps) + did && IsServing(did, sid, Fired(wakes))
      ensures fresh(host.world.repr - old(host.world.repr))
    {
      var ok;
      ok, did := Open(st);
      if ok {
        ghost var live := Live(st, wakes);
        ServingOf(did, live, sid, Fired(wakes));
        did := did + live;
      } else {
        ServingOfFailed(did, sid, Fired(wakes));
      }
    }

    /** The live loop: a turn each time the ticker fires. */
    method Live(st: ObjectState, wakes: seq<bool>) returns (ghost did: seq<Action>)
      requires In(Waiting) && Tracks() && !Me().broken && Me().lastX == st.x && Me().lastY == st.y
      modifies this`seen, this`out, this`steps, conn, host, host.world, host.world.repr, host.registry
      ensures In(Leaving) && Tracks()
      ensures steps == old(steps) + did && IsLive(did, sid, Fired(wakes))
      ensures fresh(host.world.repr - old(host.world.repr))
    {
      var lastX, lastY, ok := st.x, st.y, true;
      var i := 0;
      did := [];
      NoTurns(sid);
      while i < |wakes| && wakes[i]
        invariant i <= |wakes| && forall j :: 0 <= j < i ==> wakes[j]
        invariant In(Waiting) && Tracks() && !Me().broken && lastX == Me().lastX && lastY == Me().lastY
        invariant steps == old(steps) + did && AreTurns(did, sid, i)
        invariant fresh(host.world.repr - old(host.world.repr))
      {
        FiredAt(wakes, i);
        lastX, lastY, ok, did := Again(lastX, lastY, did, i, Fired(wakes));
        if !ok {
          return;
        }
        i := i + 1;
      }
      FiredAt(wakes, i);
      did := Leave(did, i);
    }

    /** One more turn, after the `n` turns of `before`. */
    method Again(lastX: int, lastY: int, ghost before: seq<Action>, ghost n: nat, ghost fired: nat)
      returns (x: int, y: int, ok: bool, ghost did: seq<Action>)
      requires In(Waiting) && Tracks() && !Me().broken && lastX == Me().lastX && lastY == Me().lastY
      requires AreTurns(before, sid, n) && n < fired
      modifies this`seen, this`out, this`steps, conn, host, host.world, host.world.repr, host.registry
      ensures In(if ok then Waiting else Leaving) && Tracks() && Me().broken == !ok
      ensures x == Me().lastX && y == Me().lastY
      ensures before <= did && steps == old(steps) + did[|before|..]
      ensures if ok then AreTurns(did, sid, n + 1) else IsLive(did, sid, fired)
      ensures fresh(host.world.repr - old(host.world.repr))
    {
      ghost var turn;
      x, y, ok, turn := Turn(lastX, lastY);
      if ok {
        TurnsNext(before, sid, n, turn);
      } else {
        LiveOf(before, turn, sid, fired, n);
      }
      did := before + turn;
    }

    /** The way out of the loop, after the `n` turns of `before`. */
    ghost method Leave(before: seq<Action>, n: nat) returns (did: seq<Action>)
      requires In(Waiting) && Tracks() && AreTurns(before, sid, n)
      modifies host, this`steps
      ensures In(Leaving) && Tracks()
      ensures steps == old(steps) + [Quit(sid)] && did == before + [Quit(sid)] && IsLive(did, sid, n)
    {
      assert InAt(Waiting, Token);
      Step(Quit(sid));
      LiveOf(before, [Quit(sid)], sid, n, n);
      did := before + [Quit(sid)];
    }

    /** The live session of an authenticated client: its assigned object if that is in the world,
        else one spawned for it, which goes when it goes. */
    method LiveSession(identity: nat, wakes: seq<bool>) returns (ghost did: seq<Action>)
      requires In(Authenticated) && !Me().broken && Me().identity == identity && Me().seen == seen && host.Room()
      modifies this`seen, this`out, this`objID, this`spawned, this`steps, conn, host
      modifies host.world, host.world.repr, host.registry
      ensures In(Closed)
      ensures steps == old(steps) + did && IsSession(did, sid, spawned, Fired(wakes))
      ensures fresh(host.world.repr - old(host.world.repr))
    {
      var st := Enter(identity);
      ghost var serving := Serve(st, wakes);
      Depart();
      did := SessionOf(serving, sid, spawned, Fired(wakes));
    }

    /** Counts the session, then finds its object. */
    method Enter(identity: nat) returns (st: ObjectState)
      requires In(Authenticated) && !Me().broken && Me().identity == identity && Me().seen == seen && host.Room()
      modifies this`objID, this`spawned, this`steps, host, host.world, host.world.repr, host.registry
      ensures In(Assigning) && Tracks() && !Me().broken && st == Me().st
      ensures steps == old(steps) + ([Start(sid)] + Finding(sid, spawned))
      ensures fresh(host.world.repr - old(host.world.repr))
    {
      assert InAt(Authenticated, Token);
      host.SessionStart(sid, steps);
      steps := steps + [Start(sid)];
      host.Others(sid, steps);
      st := Possess(identity);
    }

    /** The deferred calls, last deferred first. */
    method Depart()
      requires In(Leaving) && Tracks()
      modifies this`steps, host, host.world, host.world.repr, host.registry
      ensures In(Closed)
      ensures steps == old(steps) + [Release(sid), Finish(sid)]
      ensures fresh(host.world.repr - old(host.world.repr))
    {
      Meanwhile(Leaving);
      GiveBack();
      Meanwhile(Releasing);
      EndCount();
    }

    /** The object goes if it was spawned for this session. */
    method GiveBack()
      requires In(Leaving) && Tracks()
      modifies this`steps, host, host.world
      ensures In(Releasing)
      ensures steps == old(steps) + [Release(sid)]
      ensures host.sys.world == if spawned then Universe.Despawn(old(host.sys).world, objID) else old(host.sys).world
      ensures host.world.repr == old(host.world.repr)
    {
      assert InAt(Leaving, Token);
      if spawned {
        host.Despawn(sid, objID, steps);
      } else {
        host.DidNotSpawn(sid, steps);
      }
      steps := steps + [Release(sid)];
    }

    method EndCount()
      requires In(Releasing)
      modifies this`steps, host, host.registry
      ensures In(Closed)
      ensures steps == old(steps) + [Finish(sid)]
    {
      assert InAt(Releasing, Token);
      host.SessionEnd(sid, steps);
      steps := steps + [Finish(sid)];
    }

    /** Looks the assigned object up. */
    method FindAssigned(identity: nat) returns (st: ObjectState, found: bool)
      requires In(Started) && !Me().broken && Me().identity == identity && Me().seen == seen && host.Room()
      modifies this`objID, this`spawned, this`steps, host
      ensures In(if found then Assigning else Spawning) && !Me().broken && Me().seen == seen && host.Room()
      ensures found ==> Tracks() && st == Me().st && !spawned && objID == identity
      ensures found ==> Universe.Get(host.sys.world, objID) == Some(st)
      ensures found <==> identity != 0 && Universe.Get(old(host.sys).world, identity).Some?
      ensures steps == old(steps) + [LookUp(sid)]
    {
      assert InAt(Started, Token);
      objID, spawned := identity, false;
      var there;
      st, there := host.Get(objID);
      found := !(objID == 0 || !there);
      Step(LookUp(sid));
    }

    method SpawnNew() returns (st: ObjectState)
      requires In(Spawning) && !Me().broken && Me().seen == seen && host.Room()
      modifies this`objID, this`spawned, this`steps, host, host.world
      ensures In(Assigning) && Tracks() && !Me().broken && st == Me().st && spawned
      ensures Universe.Get(host.sys.world, objID) == Some(st) && st == ObjectState(objID, 0, 0, "")
      ensures steps == old(steps) + [SpawnOwn(sid)]
      ensures fresh(host.world.repr - old(host.world.repr))
    {
      assert InAt(Spawning, Token);
      st := host.SpawnFor(sid, steps);
      SpawnedIs(old(host.sys).world);
      objID, spawned, steps := st.id, true, steps + [SpawnOwn(sid)];
    }

    /** Finds the object the client will control. */
    method Possess(identity: nat) returns (st: ObjectState)
      requires In(Started) && !Me().broken && Me().identity == identity && Me().seen == seen && host.Room()
      modifies this`objID, this`spawned, this`steps, host, host.world, host.world.repr, host.registry
      ensures In(Assigning) && Tracks() && !Me().broken && st == Me().st
      ensures spawned <==> identity == 0 || Universe.Get(old(host.sys).world, identity).None?
      ensures steps == old(steps) + Finding(sid, spawned)
      ensures fresh(host.world.repr - old(host.world.repr))
      ensures Universe.Get(host.sys.world, objID) == Some(st)
      ensures if spawned then st == ObjectState(objID, 0, 0, "") else objID == identity
    {
      var found;
      st, found := FindAssigned(identity);
      if !found {
        Meanwhile(Spawning);
        st := SpawnNew();
      }
    }

    /** The first message of a client must be a Hello of a version that is still supported. */
    method AwaitVersion(hello: Option<ClientMsg>) returns (ok: bool, ghost a: Action)
      requires In(AwaitHello) && !Me().broken && host.Room()
      modifies this`out, this`steps, conn, host
      ensures In(if ok then AwaitLogin else Closed) && Me().seen == old(Me()).seen && host.Room()
      ensures a.ReadHello? && a == ReadHello(sid, hello, a.ok) && steps == old(steps) + [a]
      ensures out == old(out) + HelloAnswer(hello, host.minVersion)
      ensures ok <==> hello.Some? && hello.value.Hello? && hello.value.version >= host.minVersion && a.ok
      ensures ok ==> !Me().broken
      ensures forall id :: old(host.Safe(id)) ==> host.Safe(id)
    {
      assert InAt(AwaitHello, Token);
      assert host.OkAt(Token);
      ok := false;
      a := ReadHello(sid, hello, false);
      if hello.Some? && hello.value.Hello? {
        var written;
        if hello.value.version < host.minVersion {
          written := AnswerHello(hello, VersionResult(false, host.minVersion));
        } else {
          written := AnswerHello(hello, VersionResult(true, 0));
          ok := written;
        }
        a := ReadHello(sid, hello, written);
      } else {
        Step(a);
      }
    }

    /** Sends the result of the version check. */
    method AnswerHello(hello: Option<ClientMsg>, m: ServerMsg) returns (ok: bool)
      requires In(AwaitHello) && !Me().broken && host.Room() && hello.Some? && hello.value.Hello?
      requires OnHello(Me(), host.sys.minVersion, hello, true).out == out + [m]
      modifies this`out, this`steps, conn, host
      ensures In(if ok && hello.value.version >= old(host.sys).minVersion then AwaitLogin else Closed)
      ensures Me().seen == old(Me()).seen && host.Room()
      ensures ok ==> !Me().broken
      ensures out == old(out) + [m] && steps == old(steps) + [ReadHello(sid, hello, ok)]
      ensures forall id :: old(host.Safe(id)) ==> host.Safe(id)
    {
      assert InAt(AwaitHello, Token);
      ok := SendServer(m);
      Step(ReadHello(sid, hello, ok));
    }

    /** The second must be a LoginRequest, which `auth` grants or refuses. */
    method AwaitGrant(login: Option<ClientMsg>, auth: AuthResult) returns (identity: nat, ok: bool, ghost a: Action)
      requires In(AwaitLogin) && !Me().broken && host.Room()
      requires auth.Granted? ==> host.Safe(auth.objectID)
      modifies this`out, this`steps, conn, host
      ensures In(if ok then Authenticated else Closed) && Me().seen == old(Me()).seen && host.Room()
      ensures a.ReadLogin? && a == ReadLogin(sid, login, auth, a.ok) && steps == old(steps) + [a]
      ensures out == old(out) + LoginAnswer(login, auth)
      ensures ok <==> login.Some? && login.value.Login? && auth.Granted? && a.ok
      ensures ok ==> !Me().broken && identity == auth.objectID && Me().identity == identity
    {
      assert InAt(AwaitLogin, Token);
      identity, ok := 0, false;
      a := ReadLogin(sid, login, auth, false);
      if login.Some? && login.value.Login? {
        var written;
        if auth.Granted? {
          written := AnswerLogin(login, auth, LoginResult(true, ""));
          identity, ok := if written then auth.objectID else 0, written;
        } else {
          var reason := if auth.Invalid? then "invalid credentials" else "authentication unavailable";
          written := AnswerLogin(login, auth, LoginResult(false, reason));
        }
        a := ReadLogin(sid, login, auth, written);
      } else {
        Step(a);
      }
    }

    /** Sends the result of a login. */
    method AnswerLogin(login: Option<ClientMsg>, auth: AuthResult, m: ServerMsg) returns (ok: bool)
      requires In(AwaitLogin) && !Me().broken && host.Room()
      requires auth.Granted? ==> host.Safe(auth.objectID)
      requires OnLogin(Me(), login, auth, true).out == out + [m]
      modifies this`out, this`steps, conn, host
      ensures In(if ok && auth.Granted? then Authenticated else Closed) && Me().seen == old(Me()).seen && host.Room()
      ensures ok ==> !Me().broken
      ensures auth.Granted? ==> Me().identity == auth.objectID
      ensures out == old(out) + [m] && steps == old(steps) + [ReadLogin(sid, login, auth, ok)]
    {
      assert InAt(AwaitLogin, Token);
      ok := SendServer(m);
      Step(ReadLogin(sid, login, auth, ok));
    }

    /** Version negotiation, then login. */
    method Handshake(hello: Option<ClientMsg>, login: Option<ClientMsg>, auth: AuthResult)
      returns (identity: nat, ok: bool, ghost did: seq<Action>)
      requires In(AwaitHello) && !Me().broken && Me().seen == seen && host.Room()
      requires auth.Granted? ==> host.Safe(auth.objectID)
      modifies this`out, this`steps, conn, host, host.world, host.world.repr, host.registry
      ensures In(if ok then Authenticated else Closed)
      ensures ok ==> !Me().broken && Me().identity == identity && Me().seen == seen && host.Room()
      ensures steps == old(steps) + did && IsHandshake(did, sid, hello, login, auth, host.minVersion, ok)
      ensures fresh(host.world.repr - old(host.world.repr))
    {
      identity := 0;
      ghost var a, b;
      ok, a := AwaitVersion(hello);
      did := [a];
      if ok {
        Meanwhile(AwaitLogin);
        identity, ok, b := AwaitGrant(login, auth);
        did := did + [b];
      }
    }

    /** A connection from its first byte to its end. */
    method Handle(hello: Option<ClientMsg>, login: Option<ClientMsg>, auth: AuthResult, wakes: seq<bool>)
      returns (ghost did: seq<Action>)
      requires In(AwaitHello) && !Me().broken && Me().seen == seen && host.Room()
      requires auth.Granted? ==> host.Safe(auth.objectID)
      modifies this`seen, this`out, this`objID, this`spawned, this`steps, conn, host
      modifies host.world, host.world.repr, host.registry
      ensures In(Closed)
      ensures steps == old(steps) + did && IsVisit(did, sid, hello, login, auth, host.minVersion, Fired(wakes))
      ensures fresh(host.world.repr - old(host.world.repr))
    {
      var identity, ok;
      identity, ok, did := Handshake(hello, login, auth);
      if ok {
        Meanwhile(Authenticated);
        ghost var session := LiveSession(identity, wakes);
        VisitOf(did, session, sid, hello, login, auth, host.minVersion, spawned, Fired(wakes));
        did := did + session;
      } else {
        VisitOfFailed(did, sid, hello, login, auth, host.minVersion, Fired(wakes));
      }
    }

    /** What the connection carries tells its client the truth. */
    lemma Conveys(phase: Phase, decode: Decoding, tail: Fault) returns (prior: View, sample: View)
      requires In(phase) && Inverts(decode, encode)
      ensures SafeTrace(out)
      ensures ShowsPriorSync(host.hypot, Boot(host.seeds, host.minVersion), host.log, sid, prior)
      ensures ShowsSync(host.hypot, Boot(host.seeds, host.minVersion), host.log, sid, sample)
      ensures OldOrNew(Belief(decode, conn.sent, tail).view, prior, sample)
      ensures phase.Waiting? ==> Belief(decode, conn.sent, tail).view == sample
    {
      assert InAt(phase, Token);
      assert host.OkAt(Token);
      assert DeliveredAt(encode, out, Me().broken, conn.sent, Token);
      TraceSafety(host.hypot, host.seeds, host.minVersion, host.log, host.sys, sid);
      prior, sample := BytesTellTheTruth(host.hypot, host.seeds, host.minVersion, host.log, host.sys, sid,
                                         encode, decode, conn.sent, tail);
    }
  }

  // ---------- boot and accept ----------

  /** The server boots: an empty world is loaded, and nobody is connected yet. */
  method StartServer(seeds: seq<Seed>, hypot: Hypot, minVersion: nat) returns (host: Host)
    ensures fresh(host) && fresh(host.world) && fresh(host.registry)
    ensures host.Ok() && host.sys == Boot(seeds, minVersion) && host.log == [] && host.minVersion == minVersion
  {
    var world := new World();
    world.Load(seeds);
    var registry := new Registry();
    host := new Host(world, registry, hypot, minVersion, seeds);
  }

  /** A connection is accepted, under an id no other has. */
  method Accept(host: Host, sid: nat, conn: Writer, encode: Encoding) returns (p: Peer)
    requires host.Ok() && sid !in host.sys.sessions && conn.sent == [] && conn.failedAt.None?
    modifies host
    ensures fresh(p) && p.sid == sid && p.host == host && p.conn == conn && p.encode == encode
    ensures p.In(AwaitHello) && p.Me() == NewSession && p.seen == map[] && p.steps == [Connect(sid)]
    ensures host.sys.world == old(host.sys).world && host.sys.top == old(host.sys).top
  {
    assert host.OkAt(Token);
    UnknownTookNothing(host.hypot, Boot(host.seeds, host.minVersion), host.log, sid);
    p := new Peer(sid, host, conn, encode);
    ghost var none: seq<Action> := [];
    host.DidLocally(Connect(sid), none);
    assert none + [Connect(sid)] == [Connect(sid)];
    assert Payloads(encode, []) == [];
    assert p.InAt(AwaitHello, Token);
  }

  /** A connection from the accept to its end. */
  method Visit(host: Host, sid: nat, conn: Writer, encode: Encoding,
               hello: Option<ClientMsg>, login: Option<ClientMsg>, auth: AuthResult, wakes: seq<bool>) returns (p: Peer)
    requires host.Ok() && sid !in host.sys.sessions && conn.sent == [] && conn.failedAt.None? && host.Room()
    requires auth.Granted? ==> host.Safe(auth.objectID)
    modifies host, conn, host.world, host.world.repr, host.registry
    ensures p.sid == sid && p.host == host && p.conn == conn && p.In(Closed)
    ensures |p.steps| > 0 && p.steps[0] == Connect(sid)
    ensures IsVisit(p.steps[1..], sid, hello, login, auth, host.minVersion, Fired(wakes))
    ensures fresh(host.world.repr - old(host.world.repr))
  {
    p := Accept(host, sid, conn, encode);
    ghost var did := p.Handle(hello, login, auth, wakes);
    assert p.steps[1..] == did;
  }
}
