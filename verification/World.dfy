/**
 The server's World: mutable objects filed under their ids, advanced by ticks and changed by
 sessions. Every method is one critical section of the world's mutex, so one atomic step, and
 is proved to compute the corresponding function of `Universe`.
 */
module Game {
  import opened Attributes
  import opened Motion
  import opened Universe

  class Object {
    const id: nat
    var x: real
    var y: real
    var tx: real
    var ty: real
    var hasTarget: bool
    var typeKey: string
    var baseMass: int
    var modules: seq<Module>
    var cargo: seq<Cargo>
    var attrs: Attrs

    ghost function Value(): Obj
      reads this
    {
      Obj(id, Body(x, y, tx, ty, hasTarget), typeKey, baseMass, modules, cargo, attrs)
    }

    /** A bare object at the galactic origin. */
    constructor AtSpawn(id: nat)
      ensures Value() == Universe.Spawned(id)
    {
      this.id := id;
      x, y, tx, ty, hasTarget := 0.0, 0.0, 0.0, 0.0, false;
      typeKey, baseMass, modules, cargo := "", 0, [], [];
      attrs := Unfitted;
    }

    /** An object read at boot, its attributes derived from its fitting. */
    constructor FromSeed(s: Seed)
      ensures Value() == Seeded(s)
    {
      id := s.id;
      x, y, tx, ty, hasTarget := s.x as real, s.y as real, 0.0, 0.0, false;
      typeKey, baseMass, modules, cargo := s.typeKey, s.baseMass, s.modules, s.cargo;
      attrs := Attrs(0, 0.0, 0.0, 0.0, 0.0, 0.0, 0.0, false, false);
      new;
      Recompute();
    }

    function Snapshot(): (st: ObjectState)
      reads this
      ensures st == Universe.Snapshot(Value())
    {
      ObjectState(id, Round(x), Round(y), typeKey)
    }

    /** The sensor gate. */
    predicate CanPerceive(target: Object)
      reads this, target
    {
      target.attrs.jammer <= attrs.scanner
    }

    /** The distance gate, then the sensor gate. */
    method Sees(target: Object) returns (yes: bool)
      ensures yes <==> CanSee(Value(), target.Value())
    {
      var dx, dy := target.x - x, target.y - y;
      if dx * dx + dy * dy > PERCEPTION_RANGE * PERCEPTION_RANGE {
        return false;
      }
      return CanPerceive(target);
    }

    /** The sums over the fitting. */
    method SumFitting() returns (t: Tally)
      ensures t == Fitting(baseMass, modules, cargo)
    {
      var mass := baseMass;
      var production, thrust, thrusterDraw, shieldDraw, shieldCap, scanner, jammer := 0.0, 0.0, 0.0, 0.0, 0.0, 0.0, 0.0;
      for i := 0 to |modules|
        invariant Tally(mass, production, thrust, thrusterDraw, shieldDraw, shieldCap, scanner, jammer)
               == Bare(baseMass).Plus(Total(OfModule, modules[..i]))
      {
        TotalNext(OfModule, modules, i);
        var m := modules[i];
        mass := mass + m.mass;
        production := production + m.params.powerOutput;
        if m.params.thrust > 0.0 {
          thrust := thrust + m.params.thrust;
          thrusterDraw := thrusterDraw + m.params.powerDraw;
        }
        if m.params.shieldCapacity > 0.0 {
          shieldDraw := shieldDraw + m.params.powerDraw;
          shieldCap := shieldCap + m.params.shieldCapacity;
        }
        scanner := scanner + m.params.scanner;
        jammer := jammer + m.params.jammer;
      }
      assert modules[..|modules|] == modules;
      ghost var ofModules := Bare(baseMass).Plus(Total(OfModule, modules));
      for i := 0 to |cargo|
        invariant mass == ofModules.mass + Total(OfCargo, cargo[..i]).mass
      {
        TotalNext(OfCargo, cargo, i);
        mass := mass + cargo[i].unitMass * cargo[i].quantity;
      }
      assert cargo[..|cargo|] == cargo;
      CargoIsMass(cargo);
      t := Tally(mass, production, thrust, thrusterDraw, shieldDraw, shieldCap, scanner, jammer);
    }

    /** Derives the attributes from the base mass and the fitting, into `attrs` alone. */
    method Recompute()
      modifies this`attrs
      ensures attrs == Derive(baseMass, modules, cargo)
    {
      var t := SumFitting();
      // Overdraw: the thruster is cut first, then the shield.
      var thrusterActive, shieldActive := true, true;
      if t.thrusterDraw + t.shieldDraw > t.production {
        thrusterActive := false;
        if t.shieldDraw > t.production {
          shieldActive := false;
        }
      }
      var a := Attrs(t.mass, 0.0, t.production, 0.0, 0.0, t.scanner, t.jammer, thrusterActive, shieldActive);
      if thrusterActive {
        a := a.(powerDraw := a.powerDraw + t.thrusterDraw);
        if t.mass > 0 {
          a := a.(maxSpeed := t.thrust / t.mass as real);
        }
      }
      if shieldActive {
        a := a.(powerDraw := a.powerDraw + t.shieldDraw, shieldCapacity := t.shieldCap);
      }
      attrs := a;
    }

    /** This object's share of a tick. */
    method Advance(hypot: Hypot, sec: real)
      modifies this
      ensures Value() == TickOne(hypot, old(Value()), sec)
    {
      if !hasTarget {
        return;
      }
      var step := attrs.maxSpeed * sec;
      if step <= 0.0 {
        return;
      }
      var dx, dy := tx - x, ty - y;
      var dist := hypot(dx, dy);
      if dist <= step || dist == 0.0 {
        x, y := tx, ty;
        hasTarget := false;
        return;
      }
      x := x + dx / dist * step;
      y := y + dy / dist * step;
    }
  }

  class World {
    var objects: map<nat, Object>
    var nextID: nat
    ghost var state: WorldState   // the value of this world
    ghost var repr: set<Object>   // its objects, and those it had

    ghost predicate Valid()
      reads this, repr
    {
      && objects.Values <= repr
      && nextID == state.nextID
      && objects.Keys == state.objects.Keys
      && forall id :: id in objects ==> objects[id].id == id && objects[id].Value() == state.objects[id]
    }

    constructor ()
      ensures Valid() && state == EmptyWorld && objects == map[] && repr == {}
    {
      objects, nextID, repr := map[], 0, {};
      state := EmptyWorld;
    }

    /** Creates an object for a connecting client. */
    method SpawnFor() returns (st: ObjectState)
      requires Valid()
      modifies this
      ensures Valid() && state == Spawn(old(state))
      ensures st == ObjectState(SpawnId(old(state)), 0, 0, "") == Snapshot(state.objects[st.id])
      ensures fresh(repr - old(repr))
    {
      nextID := (nextID + 1) % TWO_TO_THE_64;
      var obj := new Object.AtSpawn(nextID);
      objects, repr := objects[obj.id := obj], repr + {obj};
      state := Spawn(state);
      st := obj.Snapshot();
    }

    /** Removes an object; no effect if there is none. */
    method Despawn(id: nat)
      requires Valid()
      modifies this`objects, this`state
      ensures Valid() && state == Universe.Despawn(old(state), id)
    {
      objects := objects - {id};
      state := Universe.Despawn(state, id);
    }

    /** Inserts the objects read at boot, each with its attributes derived, in order, and moves
        the id counter past them. */
    method Load(seeds: seq<Seed>)
      requires Valid()
      modifies this
      ensures Valid() && state == Universe.Load(old(state), seeds)
      ensures fresh(repr - old(repr))
    {
      for i := 0 to |seeds|
        invariant Valid() && state == Universe.Load(old(state), seeds[..i])
        invariant fresh(repr - old(repr))
      {
        LoadNext(old(state), seeds, i);
        LoadSeed(seeds[i]);
      }
      assert seeds[..|seeds|] == seeds;
    }

    method LoadSeed(s: Seed)
      requires Valid()
      modifies this
      ensures Valid() && state == LoadOne(old(state), s)
      ensures fresh(repr - old(repr))
    {
      var obj := new Object.FromSeed(s);
      objects, repr := objects[s.id := obj], repr + {obj};
      if s.id > nextID {
        nextID := s.id;
      }
      state := LoadOne(state, s);
    }

    /** Snapshots of what the observer perceives, each id once and in no particular order. */
    method Perceived(id: nat) returns (out: seq<ObjectState>)
      requires Valid()
      ensures Lists(out, Universe.Perceived(state, id))
    {
      if id !in objects {
        return [];
      }
      out := Scan(id, objects[id], Universe.Perceived(state, id));
    }

    /** The scan of every other object, in whatever order the map yields them. */
    method Scan(id: nat, self: Object, ghost view: map<nat, ObjectState>) returns (out: seq<ObjectState>)
      requires view.Keys <= objects.Keys
      requires forall oid :: oid in objects ==>
                 (oid in view <==> oid != id && CanSee(self.Value(), objects[oid].Value()))
      requires forall oid :: oid in view ==> view[oid].id == oid && view[oid] == Universe.Snapshot(objects[oid].Value())
      ensures Lists(out, view)
    {
      out := [];
      var rest := objects.Keys;
      ListsNothing(view, rest);
      while rest != {}
        invariant rest <= objects.Keys && Lists(out, view - rest)
        decreases |rest|
      {
        var oid :| oid in rest;
        ListsNext(out, view, rest, oid);
        rest := rest - {oid};
        var seen := false;
        if oid != id {
          seen := self.Sees(objects[oid]);
        }
        if seen {
          out := out + [objects[oid].Snapshot()];
        }
      }
      assert view - {} == view;
    }

    method Get(id: nat) returns (st: ObjectState, ok: bool)
      requires Valid()
      ensures ok <==> Universe.Get(state, id).Some?
      ensures ok ==> st == Universe.Get(state, id).value
      ensures !ok ==> st == ObjectState(0, 0, 0, "")
    {
      if id !in objects {
        return ObjectState(0, 0, 0, ""), false;
      }
      return objects[id].Snapshot(), true;
    }

    /** Steers an object; no effect if there is none. */
    method SetTarget(id: nat, tx: int, ty: int)
      requires Valid()
      modifies repr, this`state
      ensures Valid() && state == Universe.SetTarget(old(state), id, tx, ty)
    {
      if id in objects {
        var obj := objects[id];
        obj.tx, obj.ty := tx as real, ty as real;
        obj.hasTarget := true;
        state := Universe.SetTarget(state, id, tx, ty);
      }
    }

    /** Halts an object; no effect if there is none. */
    method Stop(id: nat)
      requires Valid()
      modifies repr, this`state
      ensures Valid() && state == Universe.Stop(old(state), id)
    {
      if id in objects {
        objects[id].hasTarget := false;
        state := Universe.Stop(state, id);
      }
    }

    method Count() returns (n: nat)
      requires Valid()
      ensures n == |state.objects|
    {
      n := |objects|;
      assert n == |objects.Keys|;
    }

    /** Advances every object by `sec` seconds, in whatever order the map yields them. */
    method AdvanceAll(hypot: Hypot, sec: real)
      requires forall id :: id in objects ==> objects[id].id == id
      modifies objects.Values
      ensures forall id :: id in objects ==> objects[id].Value() == TickOne(hypot, old(objects[id].Value()), sec)
    {
      var rest := objects.Keys;
      while rest != {}
        invariant rest <= objects.Keys
        invariant forall id :: id in rest ==> objects[id].Value() == old(objects[id].Value())
        invariant forall id :: id in objects && id !in rest ==>
                    objects[id].Value() == TickOne(hypot, old(objects[id].Value()), sec)
        decreases |rest|
      {
        var id :| id in rest;
        rest := rest - {id};
        objects[id].Advance(hypot, sec);
      }
    }

    /** Advances the world by `ns` nanoseconds, or not at all if the clock did not advance. */
    method Tick(hypot: Hypot, ns: int)
      requires Valid()
      modifies repr, this`state
      ensures Valid() && state == Universe.Tick(hypot, old(state), ns)
    {
      var sec := Seconds(ns);
      if sec <= 0.0 {
        return;
      }
      AdvanceAll(hypot, sec);
      state := Universe.Tick(hypot, state, ns);
    }
  }

  lemma LoadNext(w: WorldState, seeds: seq<Seed>, i: nat)
    requires i < |seeds|
    ensures Universe.Load(w, seeds[..i + 1]) == LoadOne(Universe.Load(w, seeds[..i]), seeds[i])
  {
    assert seeds[..i + 1][..i] == seeds[..i];
  }
}
