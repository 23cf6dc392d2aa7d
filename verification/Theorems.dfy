/**
 What the server guarantees in every reachable state, for any number of sessions and any
 interleaving of their steps with the ticks.
 */
module Theorems {
  import opened Wrappers
  import opened Motion
  import opened Universe
  import opened Protocol
  import opened Machine
  import opened Invariants

  /** `s` is the server some run after a boot from `seeds`. */
  ghost predicate Reached(h: Hypot, seeds: seq<Seed>, minVersion: nat, acts: seq<Action>, s: System) {
    Run(h, Boot(seeds, minVersion), acts) == Some(s)
  }

  lemma ReachedInv(h: Hypot, seeds: seq<Seed>, minVersion: nat, acts: seq<Action>, s: System)
    requires Reached(h, seeds, minVersion, acts, s)
    ensures Inv(s)
  {
    BootOk(seeds, minVersion);
    RunKeeps(h, Boot(seeds, minVersion), acts);
  }

  // ---------- replication ----------

  /** The latest sync of `sid` in a run. */
  function LastSync(acts: seq<Action>, sid: nat): Option<nat> {
    if acts == [] then None
    else if acts[|acts| - 1].Sample? && acts[|acts| - 1].sid == sid then Some(|acts| - 1)
    else LastSync(acts[..|acts| - 1], sid)
  }

  lemma {:induction false} LastSyncIs(acts: seq<Action>, sid: nat)
    ensures LastSync(acts, sid).Some? ==>
              var k := LastSync(acts, sid).value; k < |acts| && acts[k].Sample? && acts[k].sid == sid
    ensures forall j :: 0 <= j < |acts| && acts[j].Sample? && acts[j].sid == sid ==>
              LastSync(acts, sid).Some? && j <= LastSync(acts, sid).value
  {
    if acts == [] {
    } else {
      var before := acts[..|acts| - 1];
      LastSyncIs(before, sid);
      assert forall j :: 0 <= j < |before| ==> acts[j] == before[j];
    }
  }

  /** `view` is what World.Perceived gave at the latest sync of `sid`, or empty before the first. */
  ghost predicate ShowsSync(h: Hypot, boot: System, acts: seq<Action>, sid: nat, view: View) {
    match LastSync(acts, sid)
    case None => view == map[]
    case Some(k) =>
      && k < |acts|
      && var before := Run(h, boot, acts[..k]);
         && before.Some? && Has(before.value, sid)
         && view == Perceived(before.value.world, before.value.sessions[sid].control.id)
  }

  /** `view` is what World.Perceived gave at the sync before that, or empty before the second. */
  ghost predicate ShowsPriorSync(h: Hypot, boot: System, acts: seq<Action>, sid: nat, view: View) {
    match LastSync(acts, sid)
    case None => view == map[]
    case Some(k) => k < |acts| && ShowsSync(h, boot, acts[..k], sid, view)
  }

  /** A step changes no session but the one that takes it. */
  lemma StepIsLocal(h: Hypot, s: System, a: Action, sid: nat)
    requires Enabled(s, a) && (a.Ticked? || a.sid != sid)
    ensures sid in Apply(h, s, a).sessions <==> sid in s.sessions
    ensures sid in s.sessions ==> Apply(h, s, a).sessions[sid] == s.sessions[sid]
  {
  }

  lemma StepOfSession(h: Hypot, s: System, a: Action)
    requires Enabled(s, a) && !a.Ticked?
    ensures a.sid in Apply(h, s, a).sessions && Apply(h, s, a).sessions[a.sid] == NextSession(s, a)
  {
  }

  lemma OnlySampleSamples(s: System, a: Action)
    requires Enabled(s, a) && !a.Ticked? && !a.Connect? && !a.Sample?
    ensures NextSession(s, a).sample == s.sessions[a.sid].sample && NextSession(s, a).prior == s.sessions[a.sid].prior
  {
    HandshakeSamplesNothing(s.sessions[a.sid], s, a);
  }

  lemma HandshakeSamplesNothing(p: Session, s: System, a: Action)
    ensures a.ReadHello? ==> var q := OnHello(p, s.minVersion, a.msg, a.ok); q.sample == p.sample && q.prior == p.prior
    ensures a.ReadLogin? ==> var q := OnLogin(p, a.msg, a.auth, a.ok); q.sample == p.sample && q.prior == p.prior
  {
  }

  predicate Synced(phase: Phase) {
    phase.Sending? || phase.Waiting?
  }

  lemma OnlySampleSyncs(s: System, a: Action)
    requires Enabled(s, a) && !a.Ticked? && !a.Connect? && !a.Sample?
    requires Synced(NextSession(s, a).phase)
    ensures Synced(s.sessions[a.sid].phase)
  {
  }

  /** What the run says of the samples of `sid`. */
  ghost predicate Sampled(h: Hypot, boot: System, acts: seq<Action>, sid: nat, s: System) {
    if sid in s.sessions then
      && ShowsSync(h, boot, acts, sid, s.sessions[sid].sample)
      && ShowsPriorSync(h, boot, acts, sid, s.sessions[sid].prior)
      && (Synced(s.sessions[sid].phase) ==> LastSync(acts, sid).Some?)
    else LastSync(acts, sid).None?
  }

  /** A step that is not a sync of `sid` leaves its samples where they were. */
  lemma SampledNext(h: Hypot, boot: System, acts: seq<Action>, sid: nat, sample: View, prior: View)
    requires acts != [] && !(acts[|acts| - 1].Sample? && acts[|acts| - 1].sid == sid)
    requires ShowsSync(h, boot, acts[..|acts| - 1], sid, sample)
             && ShowsPriorSync(h, boot, acts[..|acts| - 1], sid, prior)
    ensures ShowsSync(h, boot, acts, sid, sample) && ShowsPriorSync(h, boot, acts, sid, prior)
  {
    var before := acts[..|acts| - 1];
    if LastSync(before, sid).Some? {
      var k := LastSync(before, sid).value;
      assert acts[..k] == before[..k];
    }
  }

  /** What a step that is not a sync makes of a session's samples. */
  lemma SampledByOther(h: Hypot, boot: System, acts: seq<Action>, sid: nat, s: System, a: Action)
    requires Sampled(h, boot, acts, sid, s) && Enabled(s, a) && !(a.Sample? && a.sid == sid)
    ensures Sampled(h, boot, acts + [a], sid, Apply(h, s, a))
  {
    var more := acts + [a];
    assert more[..|more| - 1] == acts;
    if a.Ticked? || a.sid != sid {
      StepIsLocal(h, s, a, sid);
    } else {
      StepOfSession(h, s, a);
      if !a.Connect? {
        OnlySampleSamples(s, a);
        if Synced(NextSession(s, a).phase) {
          OnlySampleSyncs(s, a);
        }
      }
    }
    if sid in Apply(h, s, a).sessions && sid in s.sessions {
      SampledNext(h, boot, more, sid, s.sessions[sid].sample, s.sessions[sid].prior);
    }
  }

  lemma SampledBySync(h: Hypot, boot: System, acts: seq<Action>, s: System, a: Action)
    requires a.Sample? && Run(h, boot, acts) == Some(s) && Sampled(h, boot, acts, a.sid, s) && Enabled(s, a)
    ensures Sampled(h, boot, acts + [a], a.sid, Apply(h, s, a))
  {
    var more := acts + [a];
    assert more[..|more| - 1] == acts;
    StepOfSession(h, s, a);
  }

  /** In every phase of its life, a failed one included, what a session sampled last is what
      World.Perceived gave at its latest sync, and what it sampled before that, at the one before. */
  lemma {:induction false} SampleOrigin(h: Hypot, boot: System, acts: seq<Action>, sid: nat)
    requires boot.sessions == map[] && Run(h, boot, acts).Some?
    ensures Sampled(h, boot, acts, sid, Run(h, boot, acts).value)
  {
    if acts == [] {
    } else {
      var before, a := acts[..|acts| - 1], acts[|acts| - 1];
      var t := Run(h, boot, before).value;
      SampleOrigin(h, boot, before, sid);
      assert acts == before + [a];
      if a.Sample? && a.sid == sid {
        SampledBySync(h, boot, before, t, a);
      } else {
        SampledByOther(h, boot, before, sid, t, a);
      }
    }
  }

  /** End to end: whatever the other sessions and the ticks did meanwhile, once a session is back
      in its select loop a client that folded everything sent holds exactly what World.Perceived
      returned at that session's latest sync, type keys included. */
  lemma EndToEndReplication(h: Hypot, seeds: seq<Seed>, minVersion: nat, acts: seq<Action>, s: System, sid: nat)
    requires Reached(h, seeds, minVersion, acts, s) && At(s, sid, Waiting)
    ensures LastSync(acts, sid).Some?
    ensures ShowsSync(h, Boot(seeds, minVersion), acts, sid, ReceiveAll(Fresh, s.sessions[sid].out).view)
  {
    ReachedInv(h, seeds, minVersion, acts, s);
    SampleOrigin(h, Boot(seeds, minVersion), acts, sid);
    ClientHoldsSample(s, sid);
  }

  lemma ClientHoldsSample(s: System, sid: nat)
    requires Inv(s) && At(s, sid, Waiting)
    ensures ReceiveAll(Fresh, s.sessions[sid].out).view == s.sessions[sid].sample
  {
    var p := s.sessions[sid];
    assert SessionOk(s, sid, p);
    assert Script(p) == p.out;
    ClientView(Fresh, p.out);
  }

  /** The events of one id, over the whole life of a session, are a prefix of
      (Enter Update* Leave)*. */
  lemma EventGrammar(h: Hypot, seeds: seq<Seed>, minVersion: nat, acts: seq<Action>, s: System, sid: nat, id: nat)
    requires Reached(h, seeds, minVersion, acts, s) && sid in s.sessions
    ensures Track(false, s.sessions[sid].out, id).Some?
  {
    ReachedInv(h, seeds, minVersion, acts, s);
    var p := s.sessions[sid];
    assert SessionOk(s, sid, p);
    TrackPrefix(false, Script(p), |p.out|, id);
    assert Script(p)[..|p.out|] == p.out;
  }

  // ---------- failed writes ----------

  predicate IsReceived(p: Session, received: nat) {
    |p.out| - (if p.broken then 1 else 0) <= received <= |p.out|
  }

  /** At every moment, a sync half sent included, a client that received every message sent, or
      all but the last where that write failed, holds of each id what World.Perceived gave at the
      latest sync or at the one before it. */
  lemma ClientHoldsOldOrNew(h: Hypot, seeds: seq<Seed>, minVersion: nat, acts: seq<Action>, s: System, sid: nat,
                            received: nat)
    returns (prior: View, sample: View)
    requires Reached(h, seeds, minVersion, acts, s) && sid in s.sessions && IsReceived(s.sessions[sid], received)
    ensures ShowsPriorSync(h, Boot(seeds, minVersion), acts, sid, prior)
    ensures ShowsSync(h, Boot(seeds, minVersion), acts, sid, sample)
    ensures OldOrNew(ReceiveAll(Fresh, s.sessions[sid].out[..received]).view, prior, sample)
  {
    ReachedInv(h, seeds, minVersion, acts, s);
    SampleOrigin(h, Boot(seeds, minVersion), acts, sid);
    ReceivedIsMidSync(s, sid, received);
    prior, sample := s.sessions[sid].prior, s.sessions[sid].sample;
    assert MidSync(Script(s.sessions[sid]), received, prior, sample);
  }

  lemma ReceivedIsMidSync(s: System, sid: nat, received: nat)
    requires Inv(s) && sid in s.sessions && IsReceived(s.sessions[sid], received)
    ensures var p := s.sessions[sid];
            && p.seen == p.sample && ViewAll(map[], Script(p)) == p.sample && p.mark <= received <= |Script(p)|
            && (forall k :: p.mark <= k <= |Script(p)| ==> MidSync(Script(p), k, p.prior, p.sample))
            && ReceiveAll(Fresh, p.out[..received]).view == ViewAll(map[], Script(p)[..received])
  {
    var p := s.sessions[sid];
    assert SessionOk(s, sid, p);
    assert Script(p)[..received] == p.out[..received];
    ClientView(Fresh, p.out[..received]);
    assert ViewAll(map[], Script(p)) == p.sample;
  }

  lemma {:induction false} ShowsAllIff(script: seq<ServerMsg>, k: nat, prior: View, sample: View)
    requires k <= |script| && ViewAll(map[], script) == sample
    requires forall j :: k <= j <= |script| ==> MidSync(script, j, prior, sample)
    ensures ViewAll(map[], script[..k]) == sample <==> forall j :: k <= j < |script| ==> !IsEvent(script[j])
    decreases |script| - k
  {
    assert MidSync(script, k, prior, sample);
    if k == |script| {
      assert script[..k] == script;
    } else if !IsEvent(script[k]) {
      ShowsAllIff(script, k + 1, prior, sample);
      assert script[..k + 1] == script[..k] + [script[k]];
      ViewAllNext(map[], script[..k], script[k]);
    }
  }

  /** What the session remembers as seen is what its client holds if and only if no event of the
      latest sync is still to be sent or was the one that failed. */
  lemma SeenIsHeldIff(h: Hypot, seeds: seq<Seed>, minVersion: nat, acts: seq<Action>, s: System, sid: nat,
                      received: nat)
    requires Reached(h, seeds, minVersion, acts, s) && sid in s.sessions && IsReceived(s.sessions[sid], received)
    ensures var p := s.sessions[sid];
            ReceiveAll(Fresh, p.out[..received]).view == p.seen
            <==> p.pending == [] && (received < |p.out| ==> !IsEvent(p.out[received]))
  {
    ReachedInv(h, seeds, minVersion, acts, s);
    ReceivedIsMidSync(s, sid, received);
    var p := s.sessions[sid];
    ShowsAllIff(Script(p), received, p.prior, p.sample);
    assert forall m :: m in p.pending ==> IsEvent(m) by {
      assert SessionOk(s, sid, p);
    }
    UnsentEvents(p, received);
  }

  lemma UnsentEvents(p: Session, received: nat)
    requires IsReceived(p, received) && forall m :: m in p.pending ==> IsEvent(m)
    ensures (forall j :: received <= j < |Script(p)| ==> !IsEvent(Script(p)[j]))
            <==> p.pending == [] && (received < |p.out| ==> !IsEvent(p.out[received]))
  {
    var script := Script(p);
    assert forall j :: 0 <= j < |p.out| ==> script[j] == p.out[j];
    if p.pending != [] {
      assert script[|p.out|] == p.pending[0] && p.pending[0] in p.pending;
    }
  }

  lemma OnlyWritersWrite(s: System, a: Action)
    requires Enabled(s, a) && !a.Ticked? && !a.Connect?
    ensures NextSession(s, a).out != s.sessions[a.sid].out || NextSession(s, a).broken != s.sessions[a.sid].broken ==>
              !Late(s.sessions[a.sid].phase)
  {
  }

  /** Nothing is sent after the first failed write, whatever happens next. */
  lemma {:induction false} BrokenIsFinal(h: Hypot, s: System, more: seq<Action>, sid: nat)
    requires Inv(s) && sid in s.sessions && s.sessions[sid].broken
    requires Run(h, s, more).Some?
    ensures var s' := Run(h, s, more).value;
            sid in s'.sessions && s'.sessions[sid].out == s.sessions[sid].out && s'.sessions[sid].broken
  {
    if more == [] {
    } else {
      var before, a := more[..|more| - 1], more[|more| - 1];
      BrokenIsFinal(h, s, before, sid);
      RunKeeps(h, s, before);
      var t := Run(h, s, before).value;
      assert SessionOk(t, sid, t.sessions[sid]);
      if a.Ticked? || a.sid != sid {
        StepIsLocal(h, t, a, sid);
      } else {
        StepOfSession(h, t, a);
        OnlyWritersWrite(t, a);
      }
    }
  }

  // ---------- ownership ----------

  /** Each object that was not loaded is controlled by exactly one session, the one that spawned
      it, and that session has not left yet; and the object of every session that has not left is
      there, so the live loop never finds it missing. */
  lemma Ownership(h: Hypot, seeds: seq<Seed>, minVersion: nat, acts: seq<Action>, s: System)
    requires Reached(h, seeds, minVersion, acts, s)
    ensures forall id :: id in s.world.objects && id !in s.loaded ==>
              && id in s.owner && s.owner[id] in s.sessions
              && s.sessions[s.owner[id]].control == Own(id) && IsHolder(s.sessions[s.owner[id]])
    ensures forall sid ::
              sid in s.sessions && !s.sessions[sid].control.Nobody? && s.sessions[sid].control.id !in s.loaded ==>
              s.sessions[sid].control.id in s.owner && s.owner[s.sessions[sid].control.id] == sid
    ensures forall sid :: sid in s.sessions && Holding(s.sessions[sid].phase) ==>
              !s.sessions[sid].control.Nobody? && s.sessions[sid].control.id in s.world.objects
  {
    ReachedInv(h, seeds, minVersion, acts, s);
    forall sid | sid in s.sessions
      ensures ControlOk(s, sid, s.sessions[sid])
    {
      ControlIsOk(s, sid);
    }
  }

  lemma ControlIsOk(s: System, sid: nat)
    requires SessionsOk(s) && sid in s.sessions
    ensures ControlOk(s, sid, s.sessions[sid])
  {
    assert SessionOk(s, sid, s.sessions[sid]);
  }

  /** An object leaves the world only when the session that spawned it releases it. */
  lemma OnlyOwnerDespawns(h: Hypot, s: System, a: Action, id: nat)
    requires Inv(s) && Enabled(s, a) && id in s.world.objects && id !in Apply(h, s, a).world.objects
    ensures a.Release? && id in s.owner && s.owner[id] == a.sid && s.sessions[a.sid].control == Own(id)
  {
    if a.Release? {
      ControlIsOk(s, a.sid);
    } else {
      OnlyReleaseRemoves(h, s, a, id);
    }
  }

  lemma OnlyReleaseRemoves(h: Hypot, s: System, a: Action, id: nat)
    requires Enabled(s, a) && id in s.world.objects && !a.Release?
    ensures id in NextWorld(h, s, a).objects
  {
  }

  /** A spawned id was never issued before if and only if the counter does not wrap, or wraps for the
      first time where no object was loaded under 0. */
  lemma SpawnIdIsNewIff(s: System)
    requires WorldOk(s) && s.world.nextID < TWO_TO_THE_64
    ensures SpawnId(s.world) !in s.issued <==> s.world.nextID + 1 < TWO_TO_THE_64 || 0 !in s.issued
    ensures s.world.nextID + 1 == TWO_TO_THE_64 ==> SpawnId(s.world) == 0
  {
    if s.world.nextID + 1 < TWO_TO_THE_64 {
      SpawnIdIsNew(s);
    }
  }

  // ---------- late readers ----------

  lemma CommandTouches(w: WorldState, n: nat, msg: Option<ClientMsg>)
    ensures var w' := AfterCommand(w, n, msg);
            && w'.objects.Keys == w.objects.Keys && w'.nextID == w.nextID
            && (forall id :: id in w.objects && id != n ==> w'.objects[id] == w.objects[id])
            && (n in w.objects ==>
                  var o, o' := w.objects[n], w'.objects[n];
                  o' == o.(body := o.body.(tx := o'.body.tx, ty := o'.body.ty, hasTarget := o'.body.hasTarget)))
            && (n !in w.objects ==> w' == w)
  {
  }

  /** A command touches the motion of the commanding session's object and nothing else; after
      that object was despawned it touches nothing at all. */
  lemma ReaderIsConfined(h: Hypot, s: System, sid: nat, msg: Option<ClientMsg>)
    requires Inv(s) && Enabled(s, Command(sid, msg))
    ensures var p, w, w' := s.sessions[sid], s.world, Apply(h, s, Command(sid, msg)).world;
            && w'.objects.Keys == w.objects.Keys
            && (forall id :: id in w.objects && id != p.control.id ==> w'.objects[id] == w.objects[id])
            && (p.control.id in w.objects ==>
                  var o, o' := w.objects[p.control.id], w'.objects[p.control.id];
                  o' == o.(body := o.body.(tx := o'.body.tx, ty := o'.body.ty, hasTarget := o'.body.hasTarget)))
            && (p.control.Own? && !Holding(p.phase) ==> w' == w)
  {
    ControlIsOk(s, sid);
    CommandTouches(s.world, s.sessions[sid].control.id, msg);
  }

  lemma StepNeverReissues(h: Hypot, s: System, a: Action, id: nat)
    requires Inv(s) && Enabled(s, a) && Assumed(s, a) && id in s.issued && id !in s.world.objects
    ensures id in Apply(h, s, a).issued && id !in Apply(h, s, a).world.objects
  {
    if a.SpawnOwn? {
      SpawnIdIsNew(s);
    } else {
      OnlySpawnIssues(h, s, a);
    }
  }

  lemma OnlySpawnIssues(h: Hypot, s: System, a: Action)
    requires Enabled(s, a) && !a.SpawnOwn?
    ensures Apply(h, s, a).issued == s.issued && Apply(h, s, a).world.objects.Keys <= s.world.objects.Keys
  {
  }

  /** An id that was issued and is gone stays gone: late commands for it stay without effect. */
  lemma {:induction false} DeadStaysDead(h: Hypot, s: System, more: seq<Action>, id: nat)
    requires Inv(s) && Run(h, s, more).Some? && id in s.issued && id !in s.world.objects
    ensures var s' := Run(h, s, more).value; id in s'.issued && id !in s'.world.objects
  {
    if more == [] {
    } else {
      var before := more[..|more| - 1];
      DeadStaysDead(h, s, before, id);
      RunKeeps(h, s, before);
      StepNeverReissues(h, Run(h, s, before).value, more[|more| - 1], id);
    }
  }

  // ---------- the order of messages and of world operations ----------

  lemma TraceSafety(h: Hypot, seeds: seq<Seed>, minVersion: nat, acts: seq<Action>, s: System, sid: nat)
    requires Reached(h, seeds, minVersion, acts, s) && sid in s.sessions
    ensures SafeTrace(s.sessions[sid].out)
  {
    ReachedInv(h, seeds, minVersion, acts, s);
    assert SessionOk(s, sid, s.sessions[sid]);
    StagesAreSafe(s.sessions[sid].out);
  }

  /** Steps that call the world. */
  predicate CallsWorld(s: System, a: Action) {
    || a.LookUp? || a.SpawnOwn? || a.Sample? || a.Look?
    || (a.Command? && a.msg.Some? && (a.msg.value.StopMoving? || (a.msg.value.Move? && a.msg.value.target.Some?)))
    || (a.Release? && a.sid in s.sessions && s.sessions[a.sid].control.Own?)
  }

  /** No session calls the world before its client's version was accepted and its login granted. */
  lemma WorldAfterLogin(s: System, a: Action)
    requires Inv(s) && Enabled(s, a) && CallsWorld(s, a)
    ensures LoggedIn(s.sessions[a.sid].out)
  {
    var p := s.sessions[a.sid];
    assert SessionOk(s, a.sid, p);
    StagesAreSafe(p.out);
  }

  // ---------- conservation ----------

  lemma StepKeepsConstants(h: Hypot, s: System, a: Action)
    requires Enabled(s, a)
    ensures Apply(h, s, a).loaded == s.loaded && Apply(h, s, a).top == s.top
  {
  }

  lemma {:induction false} RunKeepsConstants(h: Hypot, s: System, acts: seq<Action>)
    requires Run(h, s, acts).Some?
    ensures Run(h, s, acts).value.loaded == s.loaded && Run(h, s, acts).value.top == s.top
  {
    if acts == [] {
    } else {
      RunKeepsConstants(h, s, acts[..|acts| - 1]);
      StepKeepsConstants(h, Run(h, s, acts[..|acts| - 1]).value, acts[|acts| - 1]);
    }
  }

  /** The objects are the loaded ones and one for each session between SpawnFor and Despawn; the
      gauge counts the sessions between SessionStart and SessionEnd, so spawned objects never
      exceed it; and once every session has closed, both are back where they started. */
  lemma Conservation(h: Hypot, seeds: seq<Seed>, minVersion: nat, acts: seq<Action>, s: System)
    requires Reached(h, seeds, minVersion, acts, s)
    ensures s.loaded == Load(EmptyWorld, seeds).objects.Keys
    ensures |s.world.objects| == |s.loaded| + |Holders(s)| && s.gauge == |Live(s)|
    ensures |s.world.objects| - |s.loaded| <= s.gauge
    ensures (forall sid :: sid in s.sessions ==> s.sessions[sid].phase.Closed?) ==>
              s.world.objects.Keys == s.loaded && s.gauge == 0
  {
    RunKeepsConstants(h, Boot(seeds, minVersion), acts);
    assert Conserved(s) by {
      ReachedInv(h, seeds, minVersion, acts, s);
    }
    HoldersAreLive(s);
    if forall sid :: sid in s.sessions ==> s.sessions[sid].phase.Closed? {
      assert s.loaded <= s.world.objects.Keys by {
        ReachedInv(h, seeds, minVersion, acts, s);
      }
      Ownership(h, seeds, minVersion, acts, s);
      NobodyLeft(s);
    }
  }

  /** The bound that accounts are held to is the highest loaded id, in every reachable state. */
  lemma TopIsHighest(h: Hypot, seeds: seq<Seed>, minVersion: nat, acts: seq<Action>, s: System)
    requires Reached(h, seeds, minVersion, acts, s)
    ensures s.loaded == Load(EmptyWorld, seeds).objects.Keys
    ensures (forall id :: id in s.loaded ==> id <= s.top) && (s.top == 0 || s.top in s.loaded)
  {
    LoadFromEmpty(seeds);
    RunKeepsConstants(h, Boot(seeds, minVersion), acts);
  }

  lemma HoldersAreLive(s: System)
    ensures |Holders(s)| <= |Live(s)|
  {
    assert Holders(s) <= Live(s);
    SubsetSize(Holders(s), Live(s));
  }

  lemma NobodyLeft(s: System)
    requires Conserved(s) && s.loaded <= s.world.objects.Keys
    requires forall sid :: sid in s.sessions ==> s.sessions[sid].phase.Closed?
    requires forall id :: id in s.world.objects && id !in s.loaded ==>
               id in s.owner && s.owner[id] in s.sessions && IsHolder(s.sessions[s.owner[id]])
    ensures s.world.objects.Keys == s.loaded && s.gauge == 0
  {
    assert Live(s) == {};
  }

  lemma SubsetSize(a: set<nat>, b: set<nat>)
    requires a <= b
    ensures |a| <= |b|
  {
    assert b == a + (b - a);
  }

  // ---------- the session's own object ----------

  /** A client's own position is the one its session last looked at. */
  lemma ClientKnowsItself(h: Hypot, seeds: seq<Seed>, minVersion: nat, acts: seq<Action>, s: System, sid: nat)
    requires Reached(h, seeds, minVersion, acts, s) && sid in s.sessions && Streaming(s.sessions[sid].phase)
    ensures var p := s.sessions[sid];
            !p.control.Nobody? && ReceiveAll(Fresh, p.out).self == Some((p.control.id, p.lastX, p.lastY))
  {
    ReachedInv(h, seeds, minVersion, acts, s);
    assert SessionOk(s, sid, s.sessions[sid]);
    ClientSelf(s.sessions[sid].out);
  }

  /** After each look the client's own position is the true one of that moment, rounded, whether
      or not an update had to be sent; so it is within half a unit on each axis. */
  lemma SelfIsFaithful(h: Hypot, seeds: seq<Seed>, minVersion: nat, acts: seq<Action>, s: System, sid: nat)
    requires Reached(h, seeds, minVersion, acts, s) && At(s, sid, Waiting)
    ensures var p := s.sessions[sid];
            && !p.control.Nobody? && p.control.id in s.world.objects
            && var q, b := NextSession(s, Look(sid, true)), s.world.objects[p.control.id].body;
               && q.phase.Sampling?
               && ReceiveAll(Fresh, q.out).self == Some((p.control.id, Round(b.x), Round(b.y)))
               && -0.5 <= Round(b.x) as real - b.x <= 0.5 && -0.5 <= Round(b.y) as real - b.y <= 0.5
  {
    ReachedInv(h, seeds, minVersion, acts, s);
    SelfIsThere(s, sid);
    var p := s.sessions[sid];
    assert NextSession(s, Look(sid, true)) == OnLook(p, s.world, true);
    LookTells(p, s.world);
    var b := s.world.objects[p.control.id].body;
    RoundNearest(b.x);
    RoundNearest(b.y);
  }

  lemma SelfIsThere(s: System, sid: nat)
    requires Inv(s) && At(s, sid, Waiting)
    ensures var p := s.sessions[sid];
            && !p.control.Nobody? && p.control.id in s.world.objects
            && SelfOf(p.out) == Some((p.control.id, p.lastX, p.lastY))
  {
    assert SessionOk(s, sid, s.sessions[sid]);
  }

  lemma LookTells(p: Session, w: WorldState)
    requires !p.control.Nobody? && p.control.id in w.objects
    requires SelfOf(p.out) == Some((p.control.id, p.lastX, p.lastY))
    ensures var q, b := OnLook(p, w, true), w.objects[p.control.id].body;
            q.phase.Sampling? && ReceiveAll(Fresh, q.out).self == Some((p.control.id, Round(b.x), Round(b.y)))
  {
    var q, b := OnLook(p, w, true), w.objects[p.control.id].body;
    SelfNext(p.out, SelfUpdate(p.control.id, Round(b.x), Round(b.y)));
    ClientSelf(q.out);
  }
}
