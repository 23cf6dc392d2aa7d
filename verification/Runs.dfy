/**
 Runs put together: joining two, and the steps with which a session syncs once, or joins and gets
 an object of its own.
 */
module Runs {
  import opened Wrappers
  import opened Motion
  import opened Universe
  import opened Protocol
  import opened Perception
  import opened Machine

  // ---------- runs from the front ----------

  lemma RunOne(h: Hypot, s: System, a: Action)
    requires Enabled(s, a) && Assumed(s, a)
    ensures Run(h, s, [a]) == Some(Apply(h, s, a))
  {
    assert [a][..0] == [];
  }

  lemma {:induction false} RunJoin(h: Hypot, s: System, acts: seq<Action>, more: seq<Action>)
    requires Run(h, s, acts).Some?
    ensures Run(h, s, acts + more) == Run(h, Run(h, s, acts).value, more)
  {
    if more == [] {
      assert acts + more == acts;
    } else {
      var n := |more| - 1;
      assert (acts + more)[..|acts + more| - 1] == acts + more[..n];
      RunJoin(h, s, acts, more[..n]);
    }
  }

  // ---------- one sync ----------

  /** Some scan of the world lists what is perceived. */
  lemma Listing(m: View) returns (out: seq<ObjectState>)
    requires SelfNamed(m)
    ensures Lists(out, m)
  {
    var rest := m.Keys;
    out := [];
    ListsNothing(m, rest);
    while rest != {}
      invariant rest <= m.Keys && Lists(out, m - rest)
      decreases |rest|
    {
      var id :| id in rest;
      ListsNext(out, m, rest, id);
      out, rest := out + [m[id]], rest - {id};
    }
    assert m - {} == m;
  }

  lemma Naming(s: set<nat>) returns (ids: seq<nat>)
    ensures Members(ids, s)
  {
    ids := [];
    var rest := s;
    while rest != {}
      invariant rest <= s && Members(ids, s - rest)
      decreases |rest|
    {
      var id :| id in rest;
      MembersMore(ids, s - rest, id);
      assert s - (rest - {id}) == (s - rest) + {id};
      ids, rest := ids + [id], rest - {id};
    }
    assert s - {} == s;
  }

  /** Nothing but session `a` is different. */
  ghost predicate Elsewhere(s: System, s': System, a: nat) {
    && s'.world == s.world
    && forall i :: i in s.sessions && i != a ==> i in s'.sessions && s'.sessions[i] == s.sessions[i]
  }

  lemma Syncs(h: Hypot, s: System, a: nat) returns (act: Action)
    requires At(s, a, Sampling) && !s.sessions[a].control.Nobody? && Filed(s.world)
    ensures act.Sample? && act.sid == a && Enabled(s, act) && Assumed(s, act)
    ensures var t := Apply(h, s, act);
            At(t, a, Sending) && t.sessions[a].control == s.sessions[a].control && Elsewhere(s, t, a)
  {
    var p := s.sessions[a];
    var perceived := Listing(Perceived(s.world, p.control.id));
    var leave := Naming(p.seen.Keys - Ids(perceived));
    act := Sample(a, perceived, leave);
  }

  // ---------- a session joins ----------

  lemma {:induction false} Above(ids: set<nat>) returns (c: nat)
    ensures forall id :: id in ids ==> id < c
  {
    if ids == {} {
      c := 0;
    } else {
      var id :| id in ids;
      var rest := ids - {id};
      c := Above(rest);
      c := if id < c then c else id + 1;
      assert forall i :: i in ids ==> i == id || i in rest;
    }
  }

  /** `t` is `s` with session `c` in state `p`. */
  ghost predicate With(s: System, t: System, c: nat, p: Session) {
    t.world == s.world && t.top == s.top && t.minVersion == s.minVersion && t.sessions == s.sessions[c := p]
  }

  /** One more step of `c` that does not touch the world. */
  lemma WithNext(h: Hypot, s: System, acts: seq<Action>, t: System, p: Session, a: Action)
    returns (more: seq<Action>, u: System, q: Session)
    requires a.Connect? || a.ReadHello? || a.ReadLogin? || a.Start? || a.LookUp?
    requires Run(h, s, acts) == Some(t) && With(s, t, a.sid, p) && Enabled(t, a) && Assumed(t, a)
    ensures Run(h, s, more) == Some(u) && With(s, u, a.sid, q) && q == NextSession(t, a)
  {
    RunOne(h, t, a);
    RunJoin(h, s, acts, [a]);
    more, u, q := acts + [a], Apply(h, t, a), NextSession(t, a);
  }

  /** A new client gets as far as having no object to control. */
  lemma Joins(h: Hypot, s: System, c: nat) returns (acts: seq<Action>, t: System, p: Session)
    requires c !in s.sessions
    ensures Run(h, s, acts) == Some(t) && With(s, t, c, p) && p.phase.Spawning? && p.seen == map[]
  {
    RunOne(h, s, Connect(c));
    acts, t, p := [Connect(c)], Apply(h, s, Connect(c)), NewSession;
    acts, t, p := WithNext(h, s, acts, t, p, ReadHello(c, Some(Hello(s.minVersion)), true));
    acts, t, p := WithNext(h, s, acts, t, p, ReadLogin(c, Some(Login("", "")), Granted(0), true));
    acts, t, p := WithNext(h, s, acts, t, p, Start(c));
    acts, t, p := WithNext(h, s, acts, t, p, LookUp(c));
  }

  /** A new client gets a new object. */
  lemma Spawns(h: Hypot, s: System, c: nat) returns (acts: seq<Action>)
    requires c !in s.sessions && s.world.nextID + 1 < TWO_TO_THE_64
    ensures Run(h, s, acts).Some?
    ensures var t := Run(h, s, acts).value;
            && t.world == Spawn(s.world) && At(t, c, Assigning) && t.sessions[c].seen == map[]
            && t.sessions[c].control == Own(s.world.nextID + 1)
            && forall i :: i in s.sessions ==> i in t.sessions && t.sessions[i] == s.sessions[i]
  {
    var joining, t, p := Joins(h, s, c);
    RunOne(h, t, SpawnOwn(c));
    RunJoin(h, s, joining, [SpawnOwn(c)]);
    acts := joining + [SpawnOwn(c)];
  }

  /** New clients get objects until one of them gets id `n`. */
  lemma {:induction false} SpawnsUpTo(h: Hypot, s: System, n: nat) returns (acts: seq<Action>, c: nat)
    requires s.world.nextID < n < TWO_TO_THE_64 && Filed(s.world)
    ensures Run(h, s, acts).Some? && c !in s.sessions
    ensures var t := Run(h, s, acts).value;
            && Filed(t.world) && n in t.world.objects && At(t, c, Assigning) && t.sessions[c].control == Own(n)
            && forall i :: i in s.sessions ==> i in t.sessions && t.sessions[i] == s.sessions[i]
    decreases n - s.world.nextID
  {
    c := Above(s.sessions.Keys);
    acts := Spawns(h, s, c);
    if s.world.nextID + 1 < n {
      var t := Run(h, s, acts).value;
      var more;
      more, c := SpawnsUpTo(h, t, n);
      RunJoin(h, s, acts, more);
      acts := acts + more;
    }
  }
}
