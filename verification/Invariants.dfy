/**
 The invariant of the server: it holds after boot and every step keeps it, so it holds in every
 reachable state, whatever the interleaving.
 */
module Invariants {
  import opened Wrappers
  import opened Motion
  import opened Universe
  import opened Protocol
  import opened Perception
  import opened SyncEvents
  import opened Machine

  // ---------- what one session's messages keep ----------

  lemma MidSyncWrite(out: seq<ServerMsg>, m: ServerMsg, k: nat, prior: View, sample: View)
    requires !IsEvent(m) && k <= |out| + 1 && ViewAll(map[], out + [m]) == ViewAll(map[], out) == sample
    requires k <= |out| ==> MidSync(out, k, prior, sample)
    ensures MidSync(out + [m], k, prior, sample)
  {
    if k <= |out| {
      assert (out + [m])[..k] == out[..k];
    } else {
      assert (out + [m])[..k] == out + [m];
    }
  }

  /** `p` with one more message, not an event, written between syncs. */
  lemma ViewOkWrite(issued: map<nat, string>, p: Session, m: ServerMsg, q: Session)
    requires ViewOk(issued, p) && p.pending == [] && !p.broken && !IsEvent(m)
    requires q.out == p.out + [m] && q.pending == []
    requires q.seen == p.seen && q.sample == p.sample && q.prior == p.prior && q.mark == p.mark
    ensures ViewOk(issued, q)
  {
    assert Script(p) == p.out && Script(q) == p.out + [m];
    ViewAllNext(map[], p.out, m);
    forall id
      ensures Track(false, Script(q), id) == Some(id in q.sample)
    {
      TrackNext(false, p.out, m, id);
    }
    forall k | q.mark <= k <= |Script(q)|
      ensures MidSync(Script(q), k, q.prior, q.sample)
    {
      MidSyncWrite(p.out, m, k, q.prior, q.sample);
    }
  }

  /** `p` with nothing changed that its messages are judged by. */
  lemma ViewOkSame(issued: map<nat, string>, p: Session, q: Session)
    requires ViewOk(issued, p)
    requires q.out == p.out && q.pending == p.pending && q.broken == p.broken
    requires q.seen == p.seen && q.sample == p.sample && q.prior == p.prior && q.mark == p.mark
    ensures ViewOk(issued, q)
  {
  }

  lemma ViewOkSend(issued: map<nat, string>, p: Session, ok: bool)
    requires ViewOk(issued, p) && p.pending != []
    ensures ViewOk(issued, OnSend(p, ok))
  {
    assert Script(OnSend(p, ok)) == Script(p);
  }

  lemma {:induction false} TrueKeysKnown(perceived: seq<ObjectState>, seen: View, issued: map<nat, string>)
    requires TrueKeys(seen, issued)
    requires forall i :: 0 <= i < |perceived| ==>
               perceived[i].id in issued && perceived[i].typeKey == issued[perceived[i].id]
    ensures forall id :: id in KnownKeys(seen, perceived) ==>
              id in issued && KnownKeys(seen, perceived)[id] == issued[id]
    decreases |perceived|
  {
    if perceived == [] {
    } else {
      TrueKeysKnown(perceived[..|perceived| - 1], seen, issued);
    }
  }

  lemma {:induction false} LastWinsOfListed(perceived: seq<ObjectState>, m: View, k: nat)
    requires Lists(perceived, m) && k <= |perceived|
    ensures forall id :: id in LastWins(perceived[..k]) ==> id in m && LastWins(perceived[..k])[id] == m[id]
  {
    if k == 0 {
    } else {
      LastWinsOfListed(perceived, m, k - 1);
      assert perceived[..k][..k - 1] == perceived[..k - 1];
    }
  }

  lemma ListedIsLastWins(perceived: seq<ObjectState>, m: View)
    requires Lists(perceived, m)
    ensures LastWins(perceived) == m
  {
    LastWinsOfListed(perceived, m, |perceived|);
    assert perceived[..|perceived|] == perceived;
    MergeSeen(perceived, map[]);
  }

  /** A sync of a listing of `m`, all type keys true, brings a client from `seen` to `m`. */
  lemma SyncBrings(perceived: seq<ObjectState>, seen: View, leave: seq<nat>, m: View, issued: map<nat, string>)
    requires TrueKeys(seen, issued) && TrueKeys(m, issued)
    requires Lists(perceived, m) && IsLeaveList(leave, perceived, seen)
    ensures var d := Merge(perceived, seen);
            && d.seen - SetOf(leave) == m
            && ViewAll(seen, Events(d.enter, d.update, leave)) == m
  {
    ListedIsLastWins(perceived, m);
    DiffMeaning(perceived, seen, leave);
    DiffCorrectIff(perceived, seen, leave);
    TrueKeysKnown(perceived, seen, issued);
  }

  /** Cut anywhere after the messages before it, that sync shows the old or the new state of each
      id, and unless it is cut after its last message, not the new one of all. */
  lemma SyncIntermediate(out: seq<ServerMsg>, perceived: seq<ObjectState>, seen: View, leave: seq<nat>, k: nat)
    requires Distinct(perceived) && IsLeaveList(leave, perceived, seen)
    requires ViewAll(map[], out) == seen
    requires var d := Merge(perceived, seen); |out| <= k <= |out + Events(d.enter, d.update, leave)|
    ensures var d := Merge(perceived, seen); var ev := Events(d.enter, d.update, leave);
            MidSync(out + ev, k, seen, ViewAll(seen, ev))
  {
    var d := Merge(perceived, seen);
    var ev := Events(d.enter, d.update, leave);
    var j := k - |out|;
    assert (out + ev)[..k] == out + ev[..j];
    ViewAllConcat(map[], out, ev[..j]);
    forall id
      ensures Lookup(ViewAll(seen, ev[..j]), id) == Lookup(seen, id)
           || Lookup(ViewAll(seen, ev[..j]), id) == Lookup(ViewAll(seen, ev), id)
    {
      CutShort(perceived, seen, leave, j, id);
    }
    if j < |ev| {
      CutMisses(perceived, seen, leave, j);
    }
  }

  lemma SyncGrammarAfter(out: seq<ServerMsg>, perceived: seq<ObjectState>, seen: View, leave: seq<nat>, m: View)
    requires Lists(perceived, m) && IsLeaveList(leave, perceived, seen)
    requires forall id :: Track(false, out, id) == Some(id in seen)
    ensures var d := Merge(perceived, seen);
            forall id :: Track(false, out + Events(d.enter, d.update, leave), id) == Some(id in m)
  {
    var d := Merge(perceived, seen);
    ListedIsLastWins(perceived, m);
    forall id
      ensures Track(false, out + Events(d.enter, d.update, leave), id) == Some(id in m)
    {
      SyncGrammar(perceived, seen, leave, id);
      TrackConcat(false, out, Events(d.enter, d.update, leave), id);
    }
  }

  lemma ViewOkSample(issued: map<nat, string>, p: Session, w: WorldState, perceived: seq<ObjectState>, leave: seq<nat>)
    requires ViewOk(issued, p) && p.pending == [] && !p.broken && !p.control.Nobody?
    requires TrueKeys(Perceived(w, p.control.id), issued)
    requires Lists(perceived, Perceived(w, p.control.id)) && IsLeaveList(leave, perceived, p.seen)
    ensures ViewOk(issued, OnSample(p, w, perceived, leave))
  {
    var q := OnSample(p, w, perceived, leave);
    assert Script(p) == p.out;
    SyncBrings(perceived, p.seen, leave, q.sample, issued);
    SyncGrammarAfter(p.out, perceived, p.seen, leave, q.sample);
    ViewAllConcat(map[], p.out, q.pending);
    forall k | q.mark <= k <= |Script(q)|
      ensures MidSync(Script(q), k, q.prior, q.sample)
    {
      SyncIntermediate(p.out, perceived, p.seen, leave, k);
    }
  }

  // ---------- what the order of the messages keeps ----------

  lemma TraceOkWrite(p: Session, m: ServerMsg)
    ensures StageOf(p.out + [m]) == NextStage(StageOf(p.out), m)
    ensures SelfOf(p.out + [m]) == if m.SelfAssign? || m.SelfUpdate? then Some((m.id, m.x, m.y)) else SelfOf(p.out)
  {
    StageNext(p.out, m);
    SelfNext(p.out, m);
  }

  // ---------- each step of a session keeps that session well ----------

  predicate Late(phase: Phase) {
    phase.Leaving? || phase.Releasing? || phase.Closed?
  }

  /** A session after one more message that is not an event. */
  ghost predicate Wrote(p: Session, m: ServerMsg, ok: bool, q: Session) {
    && q == Write(p, m, ok).(phase := q.phase, identity := q.identity, lastX := q.lastX, lastY := q.lastY)
    && !IsEvent(m) && p.pending == [] && !p.broken
    && (!ok ==> Late(q.phase))
  }

  lemma WroteOk(s: System, sid: nat, p: Session, m: ServerMsg, ok: bool, q: Session)
    requires ViewOk(s.issued, p) && TraceOk(p) && Wrote(p, m, ok, q)
    requires ControlOk(s, sid, q)
    requires StageFits(q, NextStage(StageOf(p.out), m))
    requires Streaming(q.phase) ==> !q.control.Nobody? && m == SelfUpdate(q.control.id, q.lastX, q.lastY)
    ensures SessionOk(s, sid, q)
  {
    StageNext(p.out, m);
    SelfNext(p.out, m);
    ViewOkWrite(s.issued, p, m, q);
  }

  /** A session that stops for good without a word. */
  lemma DroppedOk(s: System, sid: nat, p: Session)
    requires SessionOk(s, sid, p) && (p.phase.AwaitHello? || p.phase.AwaitLogin?)
    ensures SessionOk(s, sid, p.(phase := Closed))
  {
    ViewOkSame(s.issued, p, p.(phase := Closed));
  }

  lemma HelloOk(s: System, sid: nat, p: Session, msg: Option<ClientMsg>, ok: bool)
    requires SessionOk(s, sid, p) && p.phase.AwaitHello?
    ensures SessionOk(s, sid, OnHello(p, s.minVersion, msg, ok))
  {
    if msg.Some? && msg.value.Hello? {
      var m := if msg.value.version < s.minVersion then VersionResult(false, s.minVersion) else VersionResult(true, 0);
      WroteOk(s, sid, p, m, ok, OnHello(p, s.minVersion, msg, ok));
    } else {
      DroppedOk(s, sid, p);
    }
  }

  lemma LoginOk(s: System, sid: nat, p: Session, msg: Option<ClientMsg>, auth: AuthResult, ok: bool)
    requires SessionOk(s, sid, p) && p.phase.AwaitLogin?
    requires auth.Granted? ==> SafeId(s, auth.objectID)
    ensures SessionOk(s, sid, OnLogin(p, msg, auth, ok))
  {
    if msg.Some? && msg.value.Login? {
      var m := if auth.Granted? then LoginResult(true, "")
               else if auth.Invalid? then LoginResult(false, "invalid credentials")
               else LoginResult(false, "authentication unavailable");
      WroteOk(s, sid, p, m, ok, OnLogin(p, msg, auth, ok));
    } else {
      DroppedOk(s, sid, p);
    }
  }

  /** An identity's object is a loaded one if it is in the world at all. */
  lemma LookUpOk(s: System, sid: nat, p: Session)
    requires WorldOk(s) && SessionOk(s, sid, p) && p.phase.Started?
    ensures SessionOk(s, sid, OnLookUp(p, s.world))
  {
    ViewOkSame(s.issued, p, OnLookUp(p, s.world));
    StagesAreSafe(p.out);
  }

  lemma AssignOk(s: System, sid: nat, p: Session, ok: bool)
    requires SessionOk(s, sid, p) && p.phase.Assigning?
    ensures SessionOk(s, sid, OnAssign(p, ok))
  {
    WroteOk(s, sid, p, SelfAssign(p.control.id, p.st.x, p.st.y, p.st.typeKey), ok, OnAssign(p, ok));
  }

  lemma GreetOk(s: System, sid: nat, p: Session, ok: bool)
    requires SessionOk(s, sid, p) && p.phase.Greeting?
    ensures SessionOk(s, sid, OnGreet(p, ok))
  {
    WroteOk(s, sid, p, SelfUpdate(p.control.id, p.st.x, p.st.y), ok, OnGreet(p, ok));
  }

  lemma PerceivedIsTrue(s: System, id: nat)
    requires WorldOk(s)
    ensures TrueKeys(Perceived(s.world, id), s.issued)
  {
  }

  lemma SampleOk(s: System, sid: nat, p: Session, perceived: seq<ObjectState>, leave: seq<nat>)
    requires WorldOk(s) && SessionOk(s, sid, p) && p.phase.Sampling?
    requires Lists(perceived, Perceived(s.world, p.control.id)) && IsLeaveList(leave, perceived, p.seen)
    ensures SessionOk(s, sid, OnSample(p, s.world, perceived, leave))
  {
    PerceivedIsTrue(s, p.control.id);
    ViewOkSample(s.issued, p, s.world, perceived, leave);
    var d := Merge(perceived, p.seen);
    AllEvents(d.enter, d.update, leave);
  }

  lemma SendOk(s: System, sid: nat, p: Session, ok: bool)
    requires SessionOk(s, sid, p) && p.phase.Sending? && p.pending != []
    ensures SessionOk(s, sid, OnSend(p, ok))
  {
    TraceOkWrite(p, p.pending[0]);
    ViewOkSend(s.issued, p, ok);
    var q := OnSend(p, ok);
    forall m | m in q.pending
      ensures IsEvent(m)
    {
      assert m in p.pending;
    }
  }

  lemma LookOk(s: System, sid: nat, p: Session, ok: bool)
    requires SessionOk(s, sid, p) && p.phase.Waiting?
    ensures SessionOk(s, sid, OnLook(p, s.world, ok))
  {
    var q := OnLook(p, s.world, ok);
    var cur := Get(s.world, p.control.id);
    if cur.Some? && (cur.value.x != p.lastX || cur.value.y != p.lastY) {
      WroteOk(s, sid, p, SelfUpdate(p.control.id, cur.value.x, cur.value.y), ok, q);
    } else {
      ViewOkSame(s.issued, p, q);
    }
  }

  /** Steps that only move a session to a later phase of the same kind. */
  lemma MoveOk(s: System, sid: nat, p: Session, q: Session)
    requires SessionOk(s, sid, p)
    requires q == p.(phase := q.phase, reader := q.reader)
    requires || (p.phase.Authenticated? && q.phase.Started? && q.reader == p.reader)
             || (p.phase.Sending? && p.pending == [] && q.phase.Waiting?)
             || (p.phase.Waiting? && q.phase.Leaving?)
             || (p.phase.Releasing? && q.phase.Closed?)
             || (q.phase == p.phase && !p.control.Nobody?)
    ensures SessionOk(s, sid, q)
  {
    ViewOkSame(s.issued, p, q);
  }

  // ---------- putting one session back ----------

  predicate IsHolder(p: Session) {
    p.control.Own? && Holding(p.phase)
  }

  lemma HoldersPut(s: System, sid: nat, q: Session)
    ensures Holders(Put(s, sid, q)) == if IsHolder(q) then Holders(s) + {sid} else Holders(s) - {sid}
    ensures Live(Put(s, sid, q)) == if Counted(q.phase) then Live(s) + {sid} else Live(s) - {sid}
  {
  }

  /** What a session's well-being depends on, besides the session. */
  lemma SameSurroundings(s: System, s': System, sid: nat, p: Session)
    requires SessionOk(s, sid, p)
    requires s'.world.objects.Keys == s.world.objects.Keys && s'.world.nextID == s.world.nextID
    requires s'.issued == s.issued
    requires s'.owner == s.owner && s'.loaded == s.loaded && s'.top == s.top
    ensures SessionOk(s', sid, p)
  {
  }

  lemma SessionsPut(s: System, sid: nat, q: Session)
    requires SessionsOk(s) && SessionOk(s, sid, q)
    ensures SessionsOk(Put(s, sid, q))
  {
    var s' := Put(s, sid, q);
    forall i | i in s'.sessions
      ensures SessionOk(s', i, s'.sessions[i])
    {
      SameSurroundings(s, s', i, s'.sessions[i]);
    }
  }

  lemma OwnersPut(s: System, sid: nat, q: Session)
    requires OwnersOk(s)
    requires sid in s.sessions ==> (s.sessions[sid].control.Own? ==> q.control == s.sessions[sid].control)
    ensures OwnersOk(Put(s, sid, q))
  {
  }

  lemma ConservedPut(s: System, sid: nat, q: Session)
    requires Conserved(s)
    requires IsHolder(q) == (sid in Holders(s)) && Counted(q.phase) == (sid in Live(s))
    ensures Conserved(Put(s, sid, q))
  {
    HoldersPut(s, sid, q);
    assert Holders(Put(s, sid, q)) == Holders(s) && Live(Put(s, sid, q)) == Live(s);
  }

  /** A session that keeps what it owns and whether it counts may be replaced by a well one. */
  lemma PutKeeps(s: System, sid: nat, q: Session)
    requires Inv(s) && SessionOk(s, sid, q)
    requires sid in s.sessions ==> (s.sessions[sid].control.Own? ==> q.control == s.sessions[sid].control)
    requires IsHolder(q) == (sid in Holders(s)) && Counted(q.phase) == (sid in Live(s))
    ensures Inv(Put(s, sid, q))
  {
    SessionsPut(s, sid, q);
    OwnersPut(s, sid, q);
    ConservedPut(s, sid, q);
  }

  lemma NewSessionOk(s: System, sid: nat)
    ensures SessionOk(s, sid, NewSession)
  {
    assert Script(NewSession) == [];
  }

  // ---------- the steps that touch the world or the gauge ----------

  /** Nothing appeared, disappeared or changed its id or type key. */
  ghost predicate SameObjects(w: WorldState, w': WorldState) {
    && w'.objects.Keys == w.objects.Keys && w'.nextID == w.nextID
    && forall id :: id in w.objects ==>
         w'.objects[id].id == w.objects[id].id && w'.objects[id].typeKey == w.objects[id].typeKey
  }

  lemma TickKeepsObjects(h: Hypot, w: WorldState, ns: int)
    ensures SameObjects(w, Tick(h, w, ns))
  {
  }

  lemma CommandKeepsObjects(w: WorldState, id: nat, msg: Option<ClientMsg>)
    ensures SameObjects(w, AfterCommand(w, id, msg))
  {
  }

  lemma SessionsInWorld(s: System, w: WorldState)
    requires SessionsOk(s) && w.objects.Keys == s.world.objects.Keys && w.nextID == s.world.nextID
    ensures SessionsOk(s.(world := w))
  {
    forall i | i in s.sessions
      ensures SessionOk(s.(world := w), i, s.sessions[i])
    {
      SameSurroundings(s, s.(world := w), i, s.sessions[i]);
    }
  }

  lemma MotionKeeps(s: System, w: WorldState)
    requires Inv(s) && SameObjects(s.world, w)
    ensures Inv(s.(world := w))
  {
    SessionsInWorld(s, w);
    assert w.objects.Keys == s.world.objects.Keys;
    assert |w.objects| == |w.objects.Keys| && |s.world.objects| == |s.world.objects.Keys|;
    assert Holders(s.(world := w)) == Holders(s) && Live(s.(world := w)) == Live(s);
  }

  lemma GaugeKeeps(s: System, sid: nat, q: Session, gauge: int)
    requires WorldOk(s) && OwnersOk(s) && SessionsOk(s)
    requires sid in s.sessions && SessionOk(s, sid, q) && q.control == s.sessions[sid].control
    ensures var t := Put(s, sid, q).(gauge := gauge); WorldOk(t) && OwnersOk(t) && SessionsOk(t)
  {
    OwnersPut(s, sid, q);
    var t := Put(s, sid, q).(gauge := gauge);
    forall i | i in t.sessions
      ensures SessionOk(t, i, t.sessions[i])
    {
      assert i != sid ==> SessionOk(s, i, s.sessions[i]);
      SameSurroundings(s, t, i, t.sessions[i]);
    }
  }

  /** SessionStart raises the gauge by one, with the session it starts to count. */
  lemma StartKeeps(s: System, sid: nat)
    requires Inv(s) && At(s, sid, Authenticated)
    ensures Inv(Put(s, sid, s.sessions[sid].(phase := Started)).(gauge := s.gauge + 1))
  {
    var q := s.sessions[sid].(phase := Started);
    assert SessionOk(s, sid, q) by {
      assert SessionOk(s, sid, s.sessions[sid]);
      MoveOk(s, sid, s.sessions[sid], q);
    }
    GaugeKeeps(s, sid, q, s.gauge + 1);
    StartCounts(s, sid, q);
  }

  lemma StartCounts(s: System, sid: nat, q: Session)
    requires Conserved(s) && sid !in Live(s) && sid !in Holders(s) && Counted(q.phase) && !IsHolder(q)
    ensures Conserved(Put(s, sid, q).(gauge := s.gauge + 1))
  {
    HoldersPut(s, sid, q);
    var t := Put(s, sid, q).(gauge := s.gauge + 1);
    assert Holders(t) == Holders(s) && Live(t) == Live(s) + {sid};
  }

  /** SessionEnd lowers the gauge by one, with the session it ceases to count. */
  lemma FinishKeeps(s: System, sid: nat)
    requires Inv(s) && At(s, sid, Releasing)
    ensures Inv(Put(s, sid, s.sessions[sid].(phase := Closed)).(gauge := s.gauge - 1))
  {
    var q := s.sessions[sid].(phase := Closed);
    assert SessionOk(s, sid, q) by {
      assert SessionOk(s, sid, s.sessions[sid]);
      MoveOk(s, sid, s.sessions[sid], q);
    }
    GaugeKeeps(s, sid, q, s.gauge - 1);
    FinishCounts(s, sid, q);
  }

  lemma FinishCounts(s: System, sid: nat, q: Session)
    requires Conserved(s) && sid in Live(s) && sid !in Holders(s) && !Counted(q.phase)
    ensures Conserved(Put(s, sid, q).(gauge := s.gauge - 1))
  {
    HoldersPut(s, sid, q);
    var t := Put(s, sid, q).(gauge := s.gauge - 1);
    assert Holders(t) == Holders(s) && Live(t) == Live(s) - {sid};
  }

  // ---------- spawning ----------

  function AfterSpawn(s: System, sid: nat): System
    requires sid in s.sessions
  {
    var id := SpawnId(s.world);
    Put(s, sid, OnSpawn(s.sessions[sid], s.world)).(
      world := Spawn(s.world), issued := s.issued[id := ""], owner := s.owner[id := sid])
  }

  /** A spawned id was never issued before. */
  lemma SpawnIdIsNew(s: System)
    requires WorldOk(s) && s.world.nextID + 1 < TWO_TO_THE_64
    ensures SpawnId(s.world) == s.world.nextID + 1
    ensures SpawnId(s.world) !in s.issued && SpawnId(s.world) !in s.world.objects && SpawnId(s.world) !in s.owner
    ensures SpawnId(s.world) !in s.loaded && s.top < SpawnId(s.world)
  {
  }

  lemma SpawnWorldOk(s: System, sid: nat)
    requires WorldOk(s) && s.world.nextID + 1 < TWO_TO_THE_64 && sid in s.sessions
    ensures WorldOk(AfterSpawn(s, sid))
  {
    SpawnIdIsNew(s);
  }

  /** A session other than the spawning one is left alone. */
  lemma SpawnOther(s: System, sid: nat, i: nat, p: Session)
    requires WorldOk(s) && s.world.nextID + 1 < TWO_TO_THE_64 && sid in s.sessions && SessionOk(s, i, p)
    ensures SessionOk(AfterSpawn(s, sid), i, p)
  {
    SpawnIdIsNew(s);
    var t := AfterSpawn(s, sid);
    assert ControlOk(t, i, p);
    assert TrueKeys(p.sample, t.issued);
  }

  lemma SpawnOk(s: System, sid: nat)
    requires WorldOk(s) && s.world.nextID + 1 < TWO_TO_THE_64
    requires sid in s.sessions && SessionOk(s, sid, s.sessions[sid]) && s.sessions[sid].phase.Spawning?
    ensures SessionOk(AfterSpawn(s, sid), sid, OnSpawn(s.sessions[sid], s.world))
  {
    SpawnIdIsNew(s);
    var p := s.sessions[sid];
    var t := AfterSpawn(s, sid);
    SpawnOther(s, sid, sid, p);
    ViewOkSame(t.issued, p, OnSpawn(p, s.world));
    StagesAreSafe(p.out);
  }

  lemma SpawnConserves(s: System, sid: nat)
    requires SpawnId(s.world) !in s.world.objects && Conserved(s)
    requires sid in s.sessions && s.sessions[sid].phase.Spawning?
    ensures Conserved(AfterSpawn(s, sid))
  {
    var t := AfterSpawn(s, sid);
    SpawnHolds(s, sid);
    MoreObjects(s.world.objects, SpawnId(s.world), Spawned(SpawnId(s.world)));
  }

  lemma SpawnHolds(s: System, sid: nat)
    requires sid in s.sessions && s.sessions[sid].phase.Spawning?
    ensures Holders(AfterSpawn(s, sid)) == Holders(s) + {sid} && sid !in Holders(s)
    ensures Live(AfterSpawn(s, sid)) == Live(s)
  {
    var q := OnSpawn(s.sessions[sid], s.world);
    HoldersPut(s, sid, q);
    var t := AfterSpawn(s, sid);
    assert Holders(t) == Holders(Put(s, sid, q)) && Live(t) == Live(Put(s, sid, q));
    assert sid in Live(s);
    assert Live(s) + {sid} == Live(s);
  }

  lemma MoreObjects(m: map<nat, Obj>, id: nat, o: Obj)
    requires id !in m
    ensures |m[id := o]| == |m| + 1
  {
    assert m[id := o].Keys == m.Keys + {id};
    assert |m| == |m.Keys| && |m[id := o]| == |m[id := o].Keys|;
  }

  lemma SpawnSessions(s: System, sid: nat)
    requires WorldOk(s) && SessionsOk(s) && s.world.nextID + 1 < TWO_TO_THE_64
    requires sid in s.sessions && s.sessions[sid].phase.Spawning?
    ensures SessionsOk(AfterSpawn(s, sid))
  {
    var t := AfterSpawn(s, sid);
    forall i | i in t.sessions
      ensures SessionOk(t, i, t.sessions[i])
    {
      if i == sid {
        SpawnOk(s, sid);
      } else {
        SpawnOther(s, sid, i, s.sessions[i]);
      }
    }
  }

  lemma SpawnKeeps(s: System, sid: nat)
    requires Inv(s) && s.world.nextID + 1 < TWO_TO_THE_64
    requires sid in s.sessions && s.sessions[sid].phase.Spawning?
    ensures Inv(AfterSpawn(s, sid))
  {
    SpawnIdIsNew(s);
    SpawnWorldOk(s, sid);
    SpawnConserves(s, sid);
    SpawnSessions(s, sid);
    assert SessionOk(s, sid, s.sessions[sid]);
    SpawnOwners(s, sid);
  }

  lemma SpawnOwners(s: System, sid: nat)
    requires OwnersOk(s) && SpawnId(s.world) !in s.owner
    requires sid in s.sessions && !s.sessions[sid].control.Own?
    ensures OwnersOk(AfterSpawn(s, sid))
  {
  }

  // ---------- despawning ----------

  function AfterRelease(s: System, sid: nat): System
    requires sid in s.sessions
  {
    var p := s.sessions[sid];
    Put(s, sid, p.(phase := Releasing)).(world := if p.control.Own? then Despawn(s.world, p.control.id) else s.world)
  }

  /** A session other than the leaving one controls something else, or a loaded object. */
  lemma ReleaseOther(s: System, sid: nat, i: nat, p: Session)
    requires sid in s.sessions && i != sid && SessionOk(s, i, p) && SessionOk(s, sid, s.sessions[sid])
    ensures SessionOk(AfterRelease(s, sid), i, p)
  {
    assert ControlOk(AfterRelease(s, sid), i, p);
  }

  lemma ReleaseOk(s: System, sid: nat)
    requires sid in s.sessions && SessionOk(s, sid, s.sessions[sid]) && s.sessions[sid].phase.Leaving?
    ensures SessionOk(AfterRelease(s, sid), sid, s.sessions[sid].(phase := Releasing))
  {
    ViewOkSame(s.issued, s.sessions[sid], s.sessions[sid].(phase := Releasing));
  }

  lemma ReleaseConserves(s: System, sid: nat)
    requires Conserved(s) && sid in s.sessions && s.sessions[sid].phase.Leaving?
    requires ControlOk(s, sid, s.sessions[sid])
    ensures Conserved(AfterRelease(s, sid))
  {
    var p, t := s.sessions[sid], AfterRelease(s, sid);
    var q := p.(phase := Releasing);
    HoldersPut(s, sid, q);
    assert Holders(t) == Holders(s) - {sid} && Live(t) == Live(s) + {sid};
    assert sid in Live(s);
    assert Live(s) + {sid} == Live(s);
    assert |t.world.objects| == |t.world.objects.Keys| && |s.world.objects| == |s.world.objects.Keys|;
    if p.control.Own? {
      assert sid in Holders(s);
      assert t.world.objects.Keys == s.world.objects.Keys - {p.control.id};
    } else {
      assert sid !in Holders(s);
      assert Holders(s) - {sid} == Holders(s);
    }
  }

  lemma ReleaseWorldOk(s: System, sid: nat)
    requires WorldOk(s) && sid in s.sessions && ControlOk(s, sid, s.sessions[sid])
    ensures WorldOk(AfterRelease(s, sid))
  {
  }

  lemma ReleaseKeeps(s: System, sid: nat)
    requires Inv(s) && sid in s.sessions && s.sessions[sid].phase.Leaving?
    ensures Inv(AfterRelease(s, sid))
  {
    var t := AfterRelease(s, sid);
    assert SessionOk(s, sid, s.sessions[sid]);
    ReleaseWorldOk(s, sid);
    ReleaseConserves(s, sid);
    OwnersPut(s, sid, s.sessions[sid].(phase := Releasing));
    forall i | i in t.sessions
      ensures SessionOk(t, i, t.sessions[i])
    {
      if i == sid {
        ReleaseOk(s, sid);
      } else {
        ReleaseOther(s, sid, i, s.sessions[i]);
      }
    }
  }

  // ---------- every step, every run ----------

  lemma LocalStepKeeps(s: System, sid: nat, q: Session)
    requires Inv(s) && sid in s.sessions && SessionOk(s, sid, q)
    requires s.sessions[sid].control.Own? ==> q.control == s.sessions[sid].control
    requires IsHolder(q) == IsHolder(s.sessions[sid]) && Counted(q.phase) == Counted(s.sessions[sid].phase)
    ensures Inv(Put(s, sid, q))
  {
    assert sid in Holders(s) <==> IsHolder(s.sessions[sid]);
    assert sid in Live(s) <==> Counted(s.sessions[sid].phase);
    PutKeeps(s, sid, q);
  }

  lemma HandshakeShape(p: Session, minVersion: nat, msg: Option<ClientMsg>, auth: AuthResult, ok: bool)
    ensures var q := OnHello(p, minVersion, msg, ok); q.control == p.control && (q.phase.AwaitLogin? || q.phase.Closed?)
    ensures var q := OnLogin(p, msg, auth, ok); q.control == p.control && (q.phase.Authenticated? || q.phase.Closed?)
  {
  }

  /** A session in the handshake moves on within it, or is dropped. */
  lemma EarlyStepKeeps(s: System, sid: nat, q: Session)
    requires Inv(s) && (At(s, sid, AwaitHello) || At(s, sid, AwaitLogin)) && SessionOk(s, sid, q)
    requires q.control == s.sessions[sid].control
    requires q.phase.AwaitLogin? || q.phase.Authenticated? || q.phase.Closed?
    ensures Inv(Put(s, sid, q))
  {
    assert SessionOk(s, sid, s.sessions[sid]);
    LocalStepKeeps(s, sid, q);
  }

  lemma HelloKeeps(s: System, sid: nat, msg: Option<ClientMsg>, ok: bool)
    requires Inv(s) && At(s, sid, AwaitHello)
    ensures Inv(Put(s, sid, OnHello(s.sessions[sid], s.minVersion, msg, ok)))
  {
    assert SessionOk(s, sid, s.sessions[sid]);
    HelloOk(s, sid, s.sessions[sid], msg, ok);
    HandshakeShape(s.sessions[sid], s.minVersion, msg, Invalid, ok);
    EarlyStepKeeps(s, sid, OnHello(s.sessions[sid], s.minVersion, msg, ok));
  }

  lemma LoginKeeps(s: System, sid: nat, msg: Option<ClientMsg>, auth: AuthResult, ok: bool)
    requires Inv(s) && At(s, sid, AwaitLogin) && (auth.Granted? ==> SafeId(s, auth.objectID))
    ensures Inv(Put(s, sid, OnLogin(s.sessions[sid], msg, auth, ok)))
  {
    assert SessionOk(s, sid, s.sessions[sid]);
    LoginOk(s, sid, s.sessions[sid], msg, auth, ok);
    HandshakeShape(s.sessions[sid], s.minVersion, msg, auth, ok);
    EarlyStepKeeps(s, sid, OnLogin(s.sessions[sid], msg, auth, ok));
  }

  lemma LookUpKeeps(s: System, sid: nat)
    requires Inv(s) && At(s, sid, Started)
    ensures Inv(Put(s, sid, OnLookUp(s.sessions[sid], s.world)))
  {
    assert SessionOk(s, sid, s.sessions[sid]);
    LookUpOk(s, sid, s.sessions[sid]);
    LocalStepKeeps(s, sid, OnLookUp(s.sessions[sid], s.world));
  }

  lemma AssignKeeps(s: System, sid: nat, ok: bool)
    requires Inv(s) && At(s, sid, Assigning) && Has(s, sid)
    ensures Inv(Put(s, sid, OnAssign(s.sessions[sid], ok)))
  {
    assert SessionOk(s, sid, s.sessions[sid]);
    AssignOk(s, sid, s.sessions[sid], ok);
    LocalStepKeeps(s, sid, OnAssign(s.sessions[sid], ok));
  }

  lemma GreetKeeps(s: System, sid: nat, ok: bool)
    requires Inv(s) && At(s, sid, Greeting) && Has(s, sid)
    ensures Inv(Put(s, sid, OnGreet(s.sessions[sid], ok)))
  {
    assert SessionOk(s, sid, s.sessions[sid]);
    GreetOk(s, sid, s.sessions[sid], ok);
    LocalStepKeeps(s, sid, OnGreet(s.sessions[sid], ok));
  }

  lemma SampleKeeps(s: System, sid: nat, perceived: seq<ObjectState>, leave: seq<nat>)
    requires Inv(s) && Enabled(s, Sample(sid, perceived, leave))
    ensures Inv(Put(s, sid, OnSample(s.sessions[sid], s.world, perceived, leave)))
  {
    assert SessionOk(s, sid, s.sessions[sid]);
    SampleOk(s, sid, s.sessions[sid], perceived, leave);
    LocalStepKeeps(s, sid, OnSample(s.sessions[sid], s.world, perceived, leave));
  }

  lemma SendKeeps(s: System, sid: nat, ok: bool)
    requires Inv(s) && At(s, sid, Sending) && s.sessions[sid].pending != []
    ensures Inv(Put(s, sid, OnSend(s.sessions[sid], ok)))
  {
    assert SessionOk(s, sid, s.sessions[sid]);
    SendOk(s, sid, s.sessions[sid], ok);
    LocalStepKeeps(s, sid, OnSend(s.sessions[sid], ok));
  }

  lemma LookKeeps(s: System, sid: nat, ok: bool)
    requires Inv(s) && At(s, sid, Waiting) && Has(s, sid)
    ensures Inv(Put(s, sid, OnLook(s.sessions[sid], s.world, ok)))
  {
    assert SessionOk(s, sid, s.sessions[sid]);
    LookOk(s, sid, s.sessions[sid], ok);
    LocalStepKeeps(s, sid, OnLook(s.sessions[sid], s.world, ok));
  }

  lemma SettleKeeps(s: System, sid: nat)
    requires Inv(s) && At(s, sid, Sending) && s.sessions[sid].pending == []
    ensures Inv(Put(s, sid, OnSettle(s.sessions[sid])))
  {
    assert SessionOk(s, sid, s.sessions[sid]);
    MoveOk(s, sid, s.sessions[sid], OnSettle(s.sessions[sid]));
    LocalStepKeeps(s, sid, OnSettle(s.sessions[sid]));
  }

  lemma QuitKeeps(s: System, sid: nat)
    requires Inv(s) && At(s, sid, Waiting)
    ensures Inv(Put(s, sid, s.sessions[sid].(phase := Leaving)))
  {
    assert SessionOk(s, sid, s.sessions[sid]);
    MoveOk(s, sid, s.sessions[sid], s.sessions[sid].(phase := Leaving));
    LocalStepKeeps(s, sid, s.sessions[sid].(phase := Leaving));
  }

  lemma CommandKeeps(s: System, sid: nat, msg: Option<ClientMsg>)
    requires Inv(s) && Has(s, sid) && s.sessions[sid].reader.Running?
    ensures var p := s.sessions[sid];
            Inv(Put(s, sid, OnCommand(p, msg)).(world := AfterCommand(s.world, p.control.id, msg)))
  {
    var p := s.sessions[sid];
    assert SessionOk(s, sid, p);
    MoveOk(s, sid, p, OnCommand(p, msg));
    LocalStepKeeps(s, sid, OnCommand(p, msg));
    CommandKeepsObjects(s.world, p.control.id, msg);
    MotionKeeps(Put(s, sid, OnCommand(p, msg)), AfterCommand(s.world, p.control.id, msg));
  }

  predicate BeforeLive(a: Action) {
    a.Ticked? || a.Connect? || a.ReadHello? || a.ReadLogin? || a.Start? || a.LookUp? || a.SpawnOwn? || a.Assign?
  }

  lemma EarlyActionKeeps(h: Hypot, s: System, a: Action)
    requires Inv(s) && Enabled(s, a) && Assumed(s, a) && BeforeLive(a)
    ensures Inv(Apply(h, s, a))
  {
    match a
    case Ticked(ns) =>
      TickKeepsObjects(h, s.world, ns);
      MotionKeeps(s, Tick(h, s.world, ns));
    case Connect(sid) =>
      NewSessionOk(s, sid);
      PutKeeps(s, sid, NewSession);
    case ReadHello(sid, msg, ok) => HelloKeeps(s, sid, msg, ok);
    case ReadLogin(sid, msg, auth, ok) => LoginKeeps(s, sid, msg, auth, ok);
    case Start(sid) => StartKeeps(s, sid);
    case LookUp(sid) => LookUpKeeps(s, sid);
    case SpawnOwn(sid) => SpawnKeeps(s, sid);
    case Assign(sid, ok) => AssignKeeps(s, sid, ok);
  }

  lemma LaterActionKeeps(h: Hypot, s: System, a: Action)
    requires Inv(s) && Enabled(s, a) && !BeforeLive(a)
    ensures Inv(Apply(h, s, a))
  {
    match a
    case Greet(sid, ok) => GreetKeeps(s, sid, ok);
    case Sample(sid, perceived, leave) => SampleKeeps(s, sid, perceived, leave);
    case Send(sid, ok) => SendKeeps(s, sid, ok);
    case Settle(sid) => SettleKeeps(s, sid);
    case Look(sid, ok) => LookKeeps(s, sid, ok);
    case Quit(sid) => QuitKeeps(s, sid);
    case Command(sid, msg) => CommandKeeps(s, sid, msg);
    case Release(sid) => ReleaseKeeps(s, sid);
    case Finish(sid) => FinishKeeps(s, sid);
  }

  /** Every step keeps the invariant. */
  lemma StepKeeps(h: Hypot, s: System, a: Action)
    requires Inv(s) && Enabled(s, a) && Assumed(s, a)
    ensures Inv(Apply(h, s, a))
  {
    if BeforeLive(a) {
      EarlyActionKeeps(h, s, a);
    } else {
      LaterActionKeeps(h, s, a);
    }
  }

  lemma BootOk(seeds: seq<Seed>, minVersion: nat)
    ensures Inv(Boot(seeds, minVersion))
  {
    LoadFromEmpty(seeds);
    var s := Boot(seeds, minVersion);
    assert Holders(s) == {} && Live(s) == {};
    assert |s.world.objects| == |s.world.objects.Keys|;
  }

  /** Every reachable state satisfies the invariant. */
  lemma {:induction false} RunKeeps(h: Hypot, s: System, acts: seq<Action>)
    requires Inv(s) && Run(h, s, acts).Some?
    ensures Inv(Run(h, s, acts).value)
  {
    if acts == [] {
    } else {
      var before := acts[..|acts| - 1];
      RunKeeps(h, s, before);
      StepKeeps(h, Run(h, s, before).value, acts[|acts| - 1]);
    }
  }
}
