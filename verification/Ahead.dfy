/**
 Where a session's memory runs ahead of its client. `seen` is brought up to date before the events
 are sent, so a write that fails leaves the client behind it for good.
 */
module Ahead {
  import opened Attributes
  import opened Motion
  import opened Universe
  import opened Protocol
  import opened Machine
  import opened Invariants
  import opened Theorems
  import opened Runs

  lemma ReachedMore(h: Hypot, seeds: seq<Seed>, minVersion: nat, acts: seq<Action>, s: System, a: Action)
    requires Reached(h, seeds, minVersion, acts, s) && Enabled(s, a) && Assumed(s, a)
    ensures Reached(h, seeds, minVersion, acts + [a], Apply(h, s, a))
  {
    RunOne(h, s, a);
    RunJoin(h, Boot(seeds, minVersion), acts, [a]);
  }

  lemma NewcomerIsPending(h: Hypot, s: System, sid: nat, a: Action, other: nat)
    requires Inv(s) && At(s, sid, Sampling) && a.Sample? && a.sid == sid && Enabled(s, a)
    requires other in Perceived(s.world, s.sessions[sid].control.id) && other !in s.sessions[sid].seen
    ensures Inv(Apply(h, s, a)) && Apply(h, s, a).sessions[sid].pending != []
  {
    StepKeeps(h, s, a);
    var p, q := s.sessions[sid], Apply(h, s, a).sessions[sid];
    assert ViewAll(map[], Script(p)) == p.seen && p.pending == [] by {
      assert SessionOk(s, sid, p);
    }
    assert ViewAll(map[], Script(q)) == q.sample by {
      assert SessionOk(Apply(h, s, a), sid, q);
    }
    assert q.sample != p.seen;
    assert Script(q) != Script(p);
    assert Script(p) == p.out + [];
  }

  lemma FirstPendingIsEvent(s: System, sid: nat)
    requires Inv(s) && At(s, sid, Sending) && s.sessions[sid].pending != []
    ensures IsEvent(s.sessions[sid].pending[0])
  {
    var p := s.sessions[sid];
    assert SessionOk(s, sid, p);
    assert p.pending[0] in p.pending;
  }

  /** The last message was not written, and the client does not hold what the session has seen. */
  predicate IsMissing(p: Session) {
    p.broken && p.out != [] && ReceiveAll(Fresh, p.out[..|p.out| - 1]).view != p.seen
  }

  /** Any event that fails to be written leaves the client behind. */
  lemma FailedEventIsMissed(h: Hypot, seeds: seq<Seed>, minVersion: nat, acts: seq<Action>, s: System, sid: nat)
    requires Reached(h, seeds, minVersion, acts, s) && At(s, sid, Sending) && s.sessions[sid].pending != []
    ensures var t := Apply(h, s, Send(sid, false));
            Reached(h, seeds, minVersion, acts + [Send(sid, false)], t) && sid in t.sessions
              && IsMissing(t.sessions[sid])
  {
    ReachedInv(h, seeds, minVersion, acts, s);
    FirstPendingIsEvent(s, sid);
    ReachedMore(h, seeds, minVersion, acts, s, Send(sid, false));
    SeenIsHeldIff(h, seeds, minVersion, acts + [Send(sid, false)], Apply(h, s, Send(sid, false)), sid,
      |s.sessions[sid].out|);
  }

  /** A newcomer whose enter event fails to be written: the session has seen it, the client not. */
  lemma NewcomerIsMissed(h: Hypot, seeds: seq<Seed>, minVersion: nat, acts: seq<Action>, s: System, sid: nat,
                         other: nat)
    returns (more: seq<Action>, t: System)
    requires Reached(h, seeds, minVersion, acts, s) && At(s, sid, Sampling) && Has(s, sid)
    requires other in Perceived(s.world, s.sessions[sid].control.id) && other !in s.sessions[sid].seen
    ensures Reached(h, seeds, minVersion, more, t) && sid in t.sessions && IsMissing(t.sessions[sid])
  {
    ReachedInv(h, seeds, minVersion, acts, s);
    var a := Syncs(h, s, sid);
    ReachedMore(h, seeds, minVersion, acts, s, a);
    NewcomerIsPending(h, s, sid, a, other);
    var u := Apply(h, s, a);
    FailedEventIsMissed(h, seeds, minVersion, acts + [a], u, sid);
    more, t := acts + [a] + [Send(sid, false)], Apply(h, u, Send(sid, false));
  }

  /** A bare object at the point where clients are spawned. */
  predicate AtSpawnPoint(seed: Seed) {
    0 < seed.id < TWO_TO_THE_64 - 1 && seed.x == 0 && seed.y == 0 && seed.modules == [] && seed.cargo == []
  }

  lemma LoneWorld(seed: Seed)
    ensures Load(EmptyWorld, [seed]) == LoadOne(EmptyWorld, seed)
  {
    assert [seed][..0] == [];
    assert Load(EmptyWorld, [seed]) == LoadOne(Load(EmptyWorld, []), seed);
  }

  lemma LoneJammer(seed: Seed)
    requires AtSpawnPoint(seed)
    ensures Seeded(seed).attrs.jammer == 0.0
  {
    assert Total(OfModule, seed.modules) == Bare(0) && Total(OfCargo, seed.cargo) == Bare(0);
  }

  lemma LoneIsPerceived(seed: Seed)
    requires AtSpawnPoint(seed)
    ensures seed.id in Perceived(Spawn(Load(EmptyWorld, [seed])), seed.id + 1)
  {
    LoneWorld(seed);
    LoneJammer(seed);
    var w := Spawn(Load(EmptyWorld, [seed]));
    assert w.objects[seed.id] == Seeded(seed) && w.objects[seed.id + 1] == Spawned(seed.id + 1);
    assert Near(0.0, 0.0);
    assert CanSee(w.objects[seed.id + 1], w.objects[seed.id]);
  }

  /** Having an object, a new client is told of it. */
  lemma Introduced(h: Hypot, seeds: seq<Seed>, acts: seq<Action>, s: System, c: nat)
    returns (more: seq<Action>, t: System)
    requires Reached(h, seeds, 0, acts, s) && At(s, c, Assigning) && Has(s, c)
    ensures Reached(h, seeds, 0, more, t) && At(t, c, Sampling) && t.world == s.world
    ensures t.sessions[c].control == s.sessions[c].control && t.sessions[c].seen == s.sessions[c].seen
  {
    ReachedMore(h, seeds, 0, acts, s, Assign(c, true));
    more, t := acts + [Assign(c, true)], Apply(h, s, Assign(c, true));
    ReachedMore(h, seeds, 0, more, t, Greet(c, true));
    more, t := more + [Greet(c, true)], Apply(h, t, Greet(c, true));
  }

  /** A client that joins a world of one object, and whose first event fails, is such a run. */
  lemma SeenRunsAhead(h: Hypot, seed: Seed) returns (acts: seq<Action>, s: System)
    requires AtSpawnPoint(seed)
    ensures Reached(h, [seed], 0, acts, s) && 0 in s.sessions && IsMissing(s.sessions[0])
  {
    var boot := Boot([seed], 0);
    LoneWorld(seed);
    LoneIsPerceived(seed);
    acts := Spawns(h, boot, 0);
    s := Run(h, boot, acts).value;
    acts, s := Introduced(h, [seed], acts, s, 0);
    acts, s := NewcomerIsMissed(h, [seed], 0, acts, s, 0, seed.id);
  }
}
