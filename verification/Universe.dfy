/**
 The world as a value: what each operation of the server's World does to it, one atomic step
 each. The `World` class computes these functions; the session machine is built on them.
 */
module Universe {
  import opened Wrappers
  import opened Attributes
  import opened Motion

  const DEFAULT_SPAWN_SPEED := 200.0
  const PERCEPTION_RANGE := 10000.0
  const TWO_TO_THE_64: nat := 0x1_0000_0000_0000_0000
  const NANOSECONDS := 1000000000.0

  datatype ObjectState = ObjectState(id: nat, x: int, y: int, typeKey: string)

  datatype Obj = Obj(id: nat, body: Body, typeKey: string, baseMass: int,
                     modules: seq<Module>, cargo: seq<Cargo>, attrs: Attrs)

  datatype WorldState = WorldState(objects: map<nat, Obj>, nextID: nat)

  datatype Seed = Seed(id: nat, x: int, y: int, typeKey: string, baseMass: int,
                       modules: seq<Module>, cargo: seq<Cargo>)

  // ---------- the operations ----------

  const EmptyWorld := WorldState(map[], 0)

  function Snapshot(o: Obj): ObjectState {
    ObjectState(o.id, Round(o.body.x), Round(o.body.y), o.typeKey)
  }

  const Unfitted := Attrs(0, DEFAULT_SPAWN_SPEED, 0.0, 0.0, 0.0, 0.0, 0.0, false, false)

  const AtOrigin := Body(0.0, 0.0, 0.0, 0.0, false)

  /** The uint64 increment of the id counter. */
  function SpawnId(w: WorldState): nat {
    (w.nextID + 1) % TWO_TO_THE_64
  }

  function Spawned(id: nat): Obj {
    Obj(id, AtOrigin, "", 0, [], [], Unfitted)
  }

  function Spawn(w: WorldState): WorldState {
    WorldState(w.objects[SpawnId(w) := Spawned(SpawnId(w))], SpawnId(w))
  }

  function Despawn(w: WorldState, id: nat): WorldState {
    w.(objects := w.objects - {id})
  }

  function Seeded(s: Seed): Obj {
    Obj(s.id, Body(s.x as real, s.y as real, 0.0, 0.0, false), s.typeKey, s.baseMass, s.modules, s.cargo,
        Derive(s.baseMass, s.modules, s.cargo))
  }

  function LoadOne(w: WorldState, s: Seed): WorldState {
    WorldState(w.objects[s.id := Seeded(s)], if s.id > w.nextID then s.id else w.nextID)
  }

  function Load(w: WorldState, seeds: seq<Seed>): WorldState {
    if seeds == [] then w else LoadOne(Load(w, seeds[..|seeds| - 1]), seeds[|seeds| - 1])
  }

  function Steer(o: Obj, tx: int, ty: int): Obj {
    o.(body := o.body.(tx := tx as real, ty := ty as real, hasTarget := true))
  }

  function Halt(o: Obj): Obj {
    o.(body := o.body.(hasTarget := false))
  }

  function SetTarget(w: WorldState, id: nat, tx: int, ty: int): WorldState {
    if id in w.objects then w.(objects := w.objects[id := Steer(w.objects[id], tx, ty)]) else w
  }

  function Stop(w: WorldState, id: nat): WorldState {
    if id in w.objects then w.(objects := w.objects[id := Halt(w.objects[id])]) else w
  }

  function Get(w: WorldState, id: nat): Option<ObjectState> {
    if id in w.objects then Some(Snapshot(w.objects[id])) else None
  }

  predicate Near(dx: real, dy: real) {
    dx * dx + dy * dy <= PERCEPTION_RANGE * PERCEPTION_RANGE
  }

  /** The interest filter: near enough, and not out-jammed. */
  predicate CanSee(self: Obj, other: Obj) {
    var dx, dy := other.body.x - self.body.x, other.body.y - self.body.y;
    Near(dx, dy) && other.attrs.jammer <= self.attrs.scanner
  }

  predicate IsPerceived(w: WorldState, id: nat, other: nat) {
    id in w.objects && other in w.objects && other != id && CanSee(w.objects[id], w.objects[other])
  }

  /** What the observer `id` perceives: nothing if it does not exist. */
  function Perceived(w: WorldState, id: nat): map<nat, ObjectState> {
    map other | other in w.objects && IsPerceived(w, id, other) :: Snapshot(w.objects[other])
  }

  function Ids(out: seq<ObjectState>): set<nat> {
    if out == [] then {} else Ids(out[..|out| - 1]) + {out[|out| - 1].id}
  }

  ghost predicate Distinct(out: seq<ObjectState>) {
    forall i, j :: 0 <= i < j < |out| ==> out[i].id != out[j].id
  }

  /** `out` holds each value of `m` once, under its own id. */
  ghost predicate Lists(out: seq<ObjectState>, m: map<nat, ObjectState>) {
    && Distinct(out)
    && Ids(out) == m.Keys
    && (forall i :: 0 <= i < |out| ==> out[i].id in m && m[out[i].id] == out[i])
  }

  lemma IdsAppend(out: seq<ObjectState>, st: ObjectState)
    ensures Ids(out + [st]) == Ids(out) + {st.id}
  {
    assert (out + [st])[..|out|] == out;
  }

  lemma {:induction false} IdsAre(out: seq<ObjectState>, id: nat)
    ensures id in Ids(out) <==> exists i :: 0 <= i < |out| && out[i].id == id
  {
    if out == [] {
    } else {
      var n := |out| - 1;
      IdsAre(out[..n], id);
      if i :| 0 <= i < |out| && out[i].id == id {
        assert i < n ==> out[..n][i].id == id;
      }
      if id in Ids(out[..n]) {
        var i :| 0 <= i < n && out[..n][i].id == id;
        assert out[i].id == id;
      }
    }
  }

  lemma ListsNothing(m: map<nat, ObjectState>, rest: set<nat>)
    requires m.Keys <= rest
    ensures Lists([], m - rest)
  {
  }

  /** Listing one more id: its value if it has one. */
  lemma ListsNext(out: seq<ObjectState>, m: map<nat, ObjectState>, rest: set<nat>, id: nat)
    requires Lists(out, m - rest) && id in rest && (id in m ==> m[id].id == id)
    ensures Lists(if id in m then out + [m[id]] else out, m - (rest - {id}))
  {
    if id in m {
      IdsAppend(out, m[id]);
    }
  }

  function TickOne(h: Hypot, o: Obj, sec: real): Obj {
    o.(body := Advance(h, o.body, o.attrs.maxSpeed, sec))
  }

  function Seconds(ns: int): real {
    ns as real / NANOSECONDS
  }

  /** One tick of `ns` nanoseconds; none at all when the clock did not advance. */
  function Tick(h: Hypot, w: WorldState, ns: int): WorldState {
    if ns <= 0 then w
    else w.(objects := map id | id in w.objects :: TickOne(h, w.objects[id], Seconds(ns)))
  }

  function TickAll(h: Hypot, w: WorldState, ticks: seq<int>): WorldState {
    if ticks == [] then w else Tick(h, TickAll(h, w, ticks[..|ticks| - 1]), ticks[|ticks| - 1])
  }

  /** The time that passed: durations that are not positive pass none. */
  function Elapsed(ticks: seq<int>): nat {
    if ticks == [] then 0
    else Elapsed(ticks[..|ticks| - 1]) + (if ticks[|ticks| - 1] > 0 then ticks[|ticks| - 1] else 0)
  }

  // ---------- ids ----------

  /** Every object is filed under its own id. */
  ghost predicate Filed(w: WorldState) {
    forall id :: id in w.objects ==> w.objects[id].id == id
  }

  /** The seed that counts for an id: the last one with it. */
  function LastSeed(seeds: seq<Seed>, id: nat): Option<Seed> {
    if seeds == [] then None
    else if seeds[|seeds| - 1].id == id then Some(seeds[|seeds| - 1])
    else LastSeed(seeds[..|seeds| - 1], id)
  }

  /** The world after boot: exactly the loaded ids, each with its last seed, and an id counter
      standing at the highest of them. */
  lemma {:induction false} LoadFromEmpty(seeds: seq<Seed>)
    ensures var w := Load(EmptyWorld, seeds);
            && Filed(w)
            && (forall id :: id in w.objects <==> LastSeed(seeds, id).Some?)
            && (forall id :: id in w.objects ==> w.objects[id] == Seeded(LastSeed(seeds, id).value) && id <= w.nextID)
            && (w.nextID == 0 || w.nextID in w.objects)
  {
    if seeds == [] {
    } else {
      LoadFromEmpty(seeds[..|seeds| - 1]);
    }
  }

  // ---------- the interest filter ----------

  function Apart(h: Hypot, o: Obj, p: Obj): real {
    h(p.body.x - o.body.x, p.body.y - o.body.y)
  }

  lemma SquaresOrder(a: real, b: real)
    requires a >= 0.0 && b >= 0.0
    ensures a * a <= b * b <==> a <= b
  {
    if a <= b {
      assert (b - a) * (b + a) >= 0.0;
    } else {
      assert a * (a - b) > 0.0 && b * (a - b) >= 0.0;
    }
  }

  lemma InRangeIff(h: Hypot, dx: real, dy: real)
    requires IsHypot(h)
    ensures Near(dx, dy) <==> h(dx, dy) <= PERCEPTION_RANGE
  {
    assert Lengths(h, dx, dy);
    SquaresOrder(h(dx, dy), PERCEPTION_RANGE);
  }

  /** An observer is told of exactly the other objects within 10000 units, by true distance, save
      those whose jammer strictly exceeds its scanner; and of each, its rounded position. */
  lemma PerceivedIff(h: Hypot, w: WorldState, id: nat, other: nat)
    requires IsHypot(h)
    ensures other in Perceived(w, id) <==>
              && id in w.objects && other in w.objects && other != id
              && Apart(h, w.objects[id], w.objects[other]) <= 10000.0
              && !(w.objects[other].attrs.jammer > w.objects[id].attrs.scanner)
    ensures other in Perceived(w, id) ==>
              var o := w.objects[other];
              Perceived(w, id)[other] == ObjectState(o.id, Round(o.body.x), Round(o.body.y), o.typeKey)
  {
    if id in w.objects && other in w.objects {
      var o, p := w.objects[id], w.objects[other];
      InRangeIff(h, p.body.x - o.body.x, p.body.y - o.body.y);
    }
  }

  lemma ApartBothWays(h: Hypot, o: Obj, p: Obj)
    requires IsHypot(h)
    ensures Apart(h, o, p) == Apart(h, p, o)
  {
    var dx, dy := p.body.x - o.body.x, p.body.y - o.body.y;
    assert Lengths(h, dx, dy) && Lengths(h, -dx, -dy);
    RootUnique(h(dx, dy), h(-dx, -dy));
  }

  /** Where nothing jams, perception is mutual. */
  lemma UnjammedIsMutual(h: Hypot, w: WorldState, id: nat, other: nat)
    requires IsHypot(h) && id in w.objects && other in w.objects
    requires w.objects[id].attrs.jammer <= 0.0 <= w.objects[id].attrs.scanner
    requires w.objects[other].attrs.jammer <= 0.0 <= w.objects[other].attrs.scanner
    ensures other in Perceived(w, id) <==> id in Perceived(w, other)
    ensures id != other ==>
              (other in Perceived(w, id) <==> Apart(h, w.objects[id], w.objects[other]) <= PERCEPTION_RANGE)
  {
    PerceivedIff(h, w, id, other);
    PerceivedIff(h, w, other, id);
    ApartBothWays(h, w.objects[id], w.objects[other]);
  }

  // ---------- time ----------

  lemma TickTwice(h: Hypot, w: WorldState, a: int, b: int)
    requires IsHypot(h) && a > 0 && b > 0
    ensures Tick(h, Tick(h, w, a), b) == Tick(h, w, a + b)
  {
    var s, t := Seconds(a), Seconds(b);
    assert Seconds(a + b) == s + t;
    forall id | id in w.objects
      ensures TickOne(h, TickOne(h, w.objects[id], s), t) == TickOne(h, w.objects[id], s + t)
    {
      TwoTicks(h, w.objects[id].body, w.objects[id].attrs.maxSpeed, s, t);
    }
  }

  lemma TickAfter(h: Hypot, w: WorldState, elapsed: nat, ns: int)
    requires IsHypot(h)
    ensures Tick(h, Tick(h, w, elapsed), ns) == Tick(h, w, elapsed + if ns > 0 then ns else 0)
  {
    if ns > 0 && elapsed > 0 {
      TickTwice(h, w, elapsed, ns);
    }
  }

  lemma {:induction false} TicksAreOneTick(h: Hypot, w: WorldState, ticks: seq<int>)
    requires IsHypot(h)
    ensures TickAll(h, w, ticks) == Tick(h, w, Elapsed(ticks))
  {
    if ticks == [] {
    } else {
      var n := |ticks| - 1;
      TicksAreOneTick(h, w, ticks[..n]);
      TickAfter(h, w, Elapsed(ticks[..n]), ticks[n]);
    }
  }

  /** How the elapsed time was cut into ticks makes no difference to any object of the world. */
  lemma TickRateIndependent(h: Hypot, w: WorldState, ticks: seq<int>, ticks': seq<int>)
    requires IsHypot(h) && Elapsed(ticks) == Elapsed(ticks')
    ensures TickAll(h, w, ticks) == TickAll(h, w, ticks')
  {
    TicksAreOneTick(h, w, ticks);
    TicksAreOneTick(h, w, ticks');
  }

  /** A snapshot taken any time later, with no new target in between, is between the earlier one
      and the target in each coordinate, and is the target once the object has arrived. */
  lemma SnapshotsApproach(h: Hypot, w: WorldState, ticks: seq<int>, id: nat, tx: int, ty: int)
    requires IsHypot(h) && id in w.objects && w.objects[id].body.hasTarget
    requires w.objects[id].body.tx == tx as real && w.objects[id].body.ty == ty as real
    ensures var w' := TickAll(h, w, ticks);
            && id in w'.objects
            && var s, s' := Snapshot(w.objects[id]), Snapshot(w'.objects[id]);
               && Between(s.x, s'.x, tx) && Between(s.y, s'.y, ty)
               && (!w'.objects[id].body.hasTarget ==> s'.x == tx && s'.y == ty)
  {
    TicksAreOneTick(h, w, ticks);
    var o := w.objects[id];
    RoundedStream(h, o.body, o.attrs.maxSpeed, Seconds(Elapsed(ticks)), tx, ty);
    RoundBetween(o.body.x, o.body.x, tx);
    RoundBetween(o.body.y, o.body.y, ty);
  }

  // ---------- where objects start ----------

  /** A loaded object is where its row puts it, and as its row fits it, and has nowhere to go. */
  lemma LoadedIs(seeds: seq<Seed>, id: nat)
    requires id in Load(EmptyWorld, seeds).objects
    ensures LastSeed(seeds, id).Some?
    ensures var s, w := LastSeed(seeds, id).value, Load(EmptyWorld, seeds);
            var o := w.objects[id];
            && s.id == id && Get(w, id) == Some(ObjectState(id, s.x, s.y, s.typeKey))
            && o.id == id && o.typeKey == s.typeKey
            && o.body.x == s.x as real && o.body.y == s.y as real && !o.body.hasTarget
            && o.baseMass == s.baseMass && o.modules == s.modules && o.cargo == s.cargo
            && o.attrs == Derive(s.baseMass, s.modules, s.cargo)
  {
    LoadFromEmpty(seeds);
    LastSeedIs(seeds, id);
    var s := LastSeed(seeds, id).value;
    SeenAt(Load(EmptyWorld, seeds).objects[id], s.x, s.y);
  }

  /** The last seed of an id is one of the seeds, and none after it has that id. */
  lemma {:induction false} LastSeedIs(seeds: seq<Seed>, id: nat)
    requires LastSeed(seeds, id).Some?
    ensures LastSeed(seeds, id).value.id == id
    ensures exists i :: 0 <= i < |seeds| && seeds[i] == LastSeed(seeds, id).value
                        && forall j :: i < j < |seeds| ==> seeds[j].id != id
  {
    var n := |seeds| - 1;
    if seeds[n].id == id {
    } else {
      LastSeedIs(seeds[..n], id);
      var i :| 0 <= i < n && seeds[..n][i] == LastSeed(seeds, id).value
               && forall j :: i < j < n ==> seeds[..n][j].id != id;
      assert seeds[i] == LastSeed(seeds, id).value;
      assert forall j :: i < j < n ==> seeds[..n][j] == seeds[j];
    }
  }

  /** A spawned object is at the origin, can move at 200 units a second, and neither senses nor
      jams. */
  lemma SpawnedIs(w: WorldState)
    ensures var id, w' := SpawnId(w), Spawn(w);
            && w'.nextID == id && id in w'.objects && Get(w', id) == Some(ObjectState(id, 0, 0, ""))
            && (forall other :: other in w.objects && other != id ==>
                  other in w'.objects && w'.objects[other] == w.objects[other])
            && var o := w'.objects[id];
               && o.id == id && o.body.x == 0.0 && o.body.y == 0.0 && !o.body.hasTarget
               && o.attrs.maxSpeed == 200.0 && o.attrs.scanner == 0.0 && o.attrs.jammer == 0.0
  {
    SeenAt(Spawned(SpawnId(w)), 0, 0);
  }

  /** An object without a target stays where it is. */
  lemma UntargetedStays(h: Hypot, w: WorldState, id: nat, ticks: seq<int>)
    requires IsHypot(h) && id in w.objects && !w.objects[id].body.hasTarget
    ensures id in TickAll(h, w, ticks).objects && TickAll(h, w, ticks).objects[id] == w.objects[id]
  {
    TicksAreOneTick(h, w, ticks);
  }

  /** So does one that has no power for its thruster, wherever it was told to go. */
  lemma OverdrawnStays(h: Hypot, w: WorldState, id: nat, ticks: seq<int>)
    requires IsHypot(h) && id in w.objects
    requires var o := w.objects[id];
             o.attrs == Derive(o.baseMass, o.modules, o.cargo) && Overdrawn(o.modules)
    ensures Get(TickAll(h, w, ticks), id) == Get(w, id)
  {
    var o := w.objects[id];
    DerivedSpeed(o.baseMass, o.modules, o.cargo);
    TicksAreOneTick(h, w, ticks);
  }

  // ---------- commands and movement ----------

  /** A tick of `ns` nanoseconds takes that many thousand millionths of a second. */
  lemma SecondsIs(ns: int)
    ensures Seconds(ns) * 1000000000.0 == ns as real
  {
  }

  lemma Covers(h: Hypot, b: Body, v: real, ns: int, d: real)
    requires IsHypot(h) && IsRoot(d, b.tx - b.x, b.ty - b.y)
    ensures v * Seconds(ns) >= Distance(h, b) <==> v * ns as real >= d * 1000000000.0
  {
    DistanceIs(h, b);
    RootUnique(d, Distance(h, b));
    SecondsIs(ns);
    Scaled(v, Seconds(ns), ns as real, d);
  }

  /** Told to move, an object has arrived after `ns` nanoseconds if and only if its speed times `ns`
      is at least the true distance times 10^9. */
  lemma ArrivalTime(h: Hypot, w: WorldState, id: nat, tx: int, ty: int, ticks: seq<int>, d: real)
    requires IsHypot(h) && id in w.objects && w.objects[id].attrs.maxSpeed > 0.0 && Elapsed(ticks) > 0
    requires IsRoot(d, tx as real - w.objects[id].body.x, ty as real - w.objects[id].body.y)
    ensures var o, w' := w.objects[id], TickAll(h, SetTarget(w, id, tx, ty), ticks);
            && id in w'.objects
            && (!w'.objects[id].body.hasTarget <==> o.attrs.maxSpeed * Elapsed(ticks) as real >= d * 1000000000.0)
  {
    HasArrived(h, w, id, tx, ty, ticks);
    SteeredCovers(h, w.objects[id], tx, ty, Elapsed(ticks), d);
  }

  lemma SteeredCovers(h: Hypot, o: Obj, tx: int, ty: int, ns: int, d: real)
    requires IsHypot(h) && IsRoot(d, tx as real - o.body.x, ty as real - o.body.y)
    ensures o.attrs.maxSpeed * Seconds(ns) >= Distance(h, Steer(o, tx, ty).body)
            <==> o.attrs.maxSpeed * ns as real >= d * 1000000000.0
  {
    Covers(h, Steer(o, tx, ty).body, o.attrs.maxSpeed, ns, d);
  }

  lemma HasArrived(h: Hypot, w: WorldState, id: nat, tx: int, ty: int, ticks: seq<int>)
    requires IsHypot(h) && id in w.objects && w.objects[id].attrs.maxSpeed > 0.0 && Elapsed(ticks) > 0
    ensures var o, w' := w.objects[id], TickAll(h, SetTarget(w, id, tx, ty), ticks);
            && id in w'.objects
            && (!w'.objects[id].body.hasTarget <==>
                  o.attrs.maxSpeed * Seconds(Elapsed(ticks)) >= Distance(h, Steer(o, tx, ty).body))
  {
    MoveArrives(h, w, id, tx, ty, ticks);
  }

  lemma Scaled(v: real, sec: real, ns: real, d: real)
    requires sec * 1000000000.0 == ns
    ensures v * sec >= d <==> v * ns >= d * 1000000000.0
  {
    assert v * ns == (v * sec) * 1000000000.0;
  }

  lemma SeenAt(o: Obj, x: int, y: int)
    requires o.body.x == x as real && o.body.y == y as real
    ensures Snapshot(o) == ObjectState(o.id, x, y, o.typeKey)
  {
    RoundExact(x);
    RoundExact(y);
  }

  lemma ObjectAfter(h: Hypot, w: WorldState, ticks: seq<int>, id: nat)
    requires IsHypot(h) && id in w.objects && Elapsed(ticks) > 0
    ensures id in TickAll(h, w, ticks).objects
    ensures TickAll(h, w, ticks).objects[id] == TickOne(h, w.objects[id], Seconds(Elapsed(ticks)))
  {
    TicksAreOneTick(h, w, ticks);
  }

  lemma SteeredArrives(h: Hypot, o: Obj, tx: int, ty: int, sec: real)
    requires IsHypot(h) && o.attrs.maxSpeed > 0.0 && sec > 0.0
    ensures var start, end := Steer(o, tx, ty), TickOne(h, Steer(o, tx, ty), sec);
            && ArrivesExactly(h, start.body, o.attrs.maxSpeed, sec, end.body)
            && (!end.body.hasTarget ==> Snapshot(end) == ObjectState(o.id, tx, ty, o.typeKey))
  {
    var start := Steer(o, tx, ty);
    AdvanceArrives(h, start.body, o.attrs.maxSpeed, sec);
    if !TickOne(h, start, sec).body.hasTarget {
      SeenAt(TickOne(h, start, sec), tx, ty);
    }
  }

  /** An object told to move, and then left alone, has arrived if and only if its speed has
      covered the distance, and is then seen at exactly the commanded coordinates. */
  lemma MoveArrives(h: Hypot, w: WorldState, id: nat, tx: int, ty: int, ticks: seq<int>)
    requires IsHypot(h) && id in w.objects && w.objects[id].attrs.maxSpeed > 0.0 && Elapsed(ticks) > 0
    ensures var o, w' := w.objects[id], TickAll(h, SetTarget(w, id, tx, ty), ticks);
            && id in w'.objects
            && ArrivesExactly(h, Steer(o, tx, ty).body, o.attrs.maxSpeed, Seconds(Elapsed(ticks)), w'.objects[id].body)
            && (!w'.objects[id].body.hasTarget ==> Get(w', id) == Some(ObjectState(o.id, tx, ty, o.typeKey)))
  {
    ObjectAfter(h, SetTarget(w, id, tx, ty), ticks, id);
    SteeredArrives(h, w.objects[id], tx, ty, Seconds(Elapsed(ticks)));
  }

  /** An object told to stop stays exactly where it is. */
  lemma StopHolds(h: Hypot, w: WorldState, id: nat, ticks: seq<int>)
    requires IsHypot(h) && id in w.objects
    ensures Get(TickAll(h, Stop(w, id), ticks), id) == Get(w, id)
  {
    TicksAreOneTick(h, Stop(w, id), ticks);
  }

  // ---------- load and movement ----------

  /** Of two ships alike but for extra cargo, started on the same course, the laden one is never
      ahead. */
  lemma LadenNeverAhead(h: Hypot, b: Body, baseMass: int, modules: seq<Module>, cargo: seq<Cargo>, extra: Cargo,
                        secs: seq<real>)
    requires IsHypot(h) && Positive(secs) && b.hasTarget
    requires extra.unitMass > 0 && extra.quantity > 0
    requires var a := Derive(baseMass, modules, cargo); a.thrusterActive && a.totalMass > 0
    requires Fitting(baseMass, modules, cargo).thrust > 0.0
    ensures var a, laden := Derive(baseMass, modules, cargo), Derive(baseMass, modules, cargo + [extra]);
            Distance(h, AdvanceAll(h, b, laden.maxSpeed, secs)) >= Distance(h, AdvanceAll(h, b, a.maxSpeed, secs))
  {
    LoadSlows(baseMass, modules, cargo, extra);
    var a, laden := Derive(baseMass, modules, cargo), Derive(baseMass, modules, cargo + [extra]);
    SlowerNeverAhead(h, b, laden.maxSpeed, a.maxSpeed, secs);
  }
}
