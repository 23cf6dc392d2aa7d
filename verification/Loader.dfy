/**
 The three-way join that loads a sector: object rows become the elements of a growing slice,
 and module and cargo rows are then appended to them through pointers into that slice. `Join`
 says which rows end up where; the loops compute it.
 */
module Loader {
  import opened Wrappers
  import opened Attributes
  import opened Universe

  // ---------- rows ----------

  datatype ObjectRow = ObjectRow(id: int, x: int, y: int, typeKey: string, baseMass: int)

  /** A module or cargo row, and the id of the object it is fitted to. */
  datatype FittingRow<T> = FittingRow(objectID: int, item: T)

  /** The answer to a query: refused, or rows of which some may not scan, and the end of the
      stream, which may be an error. */
  datatype Rows<T> = Refused | Rows(scans: seq<Option<T>>, intact: bool)

  predicate AllScan<T>(scans: seq<Option<T>>) {
    forall i :: 0 <= i < |scans| ==> scans[i].Some?
  }

  function Values<T>(scans: seq<Option<T>>): (r: seq<T>)
    requires AllScan(scans)
    ensures |r| == |scans|
  {
    seq(|scans|, i requires 0 <= i < |scans| => scans[i].value)
  }

  predicate Readable<T>(rows: Rows<T>) {
    rows.Rows? && rows.intact && AllScan(rows.scans)
  }

  /** The conversion of an int64 id. */
  function ToUint64(id: int): nat {
    id % TWO_TO_THE_64
  }

  // ---------- the join ----------

  /** An object as its row gives it, not fitted yet. */
  function FromRow(row: ObjectRow): Seed {
    Seed(ToUint64(row.id), row.x, row.y, row.typeKey, row.baseMass, [], [])
  }

  /** The items of the rows of object `id`, in row order. */
  function ItemsOf<T>(rows: seq<FittingRow<T>>, id: nat): seq<T> {
    if rows == [] then []
    else
      var before, row := ItemsOf(rows[..|rows| - 1], id), rows[|rows| - 1];
      if ToUint64(row.objectID) == id then before + [row.item] else before
  }

  /** Of several rows with one id, the last is the one that is fitted. */
  predicate IsOwner(seeds: seq<Seed>, i: nat) {
    i < |seeds| && forall j :: i < j < |seeds| ==> seeds[j].id != seeds[i].id
  }

  function WithModules(seeds: seq<Seed>, i: nat, rows: seq<FittingRow<Module>>): Seed
    requires i < |seeds|
  {
    if IsOwner(seeds, i) then seeds[i].(modules := seeds[i].modules + ItemsOf(rows, seeds[i].id)) else seeds[i]
  }

  function FitModules(seeds: seq<Seed>, rows: seq<FittingRow<Module>>): (r: seq<Seed>)
    ensures |r| == |seeds|
  {
    seq(|seeds|, i requires 0 <= i < |seeds| => WithModules(seeds, i, rows))
  }

  function WithCargo(seeds: seq<Seed>, i: nat, rows: seq<FittingRow<Cargo>>): Seed
    requires i < |seeds|
  {
    if IsOwner(seeds, i) then seeds[i].(cargo := seeds[i].cargo + ItemsOf(rows, seeds[i].id)) else seeds[i]
  }

  function FitCargo(seeds: seq<Seed>, rows: seq<FittingRow<Cargo>>): (r: seq<Seed>)
    ensures |r| == |seeds|
  {
    seq(|seeds|, i requires 0 <= i < |seeds| => WithCargo(seeds, i, rows))
  }

  function Unloaded(rows: seq<ObjectRow>): (r: seq<Seed>)
    ensures |r| == |rows|
  {
    seq(|rows|, i requires 0 <= i < |rows| => FromRow(rows[i]))
  }

  function Join(objects: seq<ObjectRow>, modules: seq<FittingRow<Module>>, cargo: seq<FittingRow<Cargo>>): seq<Seed> {
    FitCargo(FitModules(Unloaded(objects), modules), cargo)
  }

  // ---------- the loops ----------

  /** A slice: the first `len` elements of a backing array that may be shared. */
  class Slice {
    var store: array<Seed>
    var len: nat

    ghost predicate Valid()
      reads this
    {
      len <= store.Length
    }

    ghost function Contents(): seq<Seed>
      requires Valid()
      reads this, store
    {
      store[..len]
    }

    constructor ()
      ensures Valid() && Contents() == [] && fresh(store)
    {
      store, len := new Seed[0], 0;
    }

    /** Appends in place while there is room, and else moves to a backing array of any larger size.
        Pointers into the old one then no longer see the slice. */
    method Append(s: Seed)
      requires Valid()
      modifies this, store
      ensures Valid() && Contents() == old(Contents()) + [s]
      ensures fresh(store) || store == old(store)
    {
      if len == store.Length {
        var capacity: nat :| capacity > len;
        var larger := new Seed[capacity](_ => s);
        forall i | 0 <= i < len {
          larger[i] := store[i];
        }
        assert larger[..len] == store[..len];
        store := larger;
      }
      store[len] := s;
      len := len + 1;
    }
  }

  datatype Pointer = Pointer(store: array<Seed>, at: nat)

  /** Every id of `seeds` points at its last bearer in `store`, and no other id points anywhere. */
  ghost predicate Points(byID: map<nat, Pointer>, store: array<Seed>, seeds: seq<Seed>) {
    && |seeds| <= store.Length
    && (forall id :: id in byID ==>
          byID[id].store == store && IsOwner(seeds, byID[id].at) && seeds[byID[id].at].id == id)
    && (forall i :: 0 <= i < |seeds| ==> seeds[i].id in byID)
  }

  lemma ValuesNext<T>(scans: seq<Option<T>>, k: nat)
    requires k < |scans| && AllScan(scans[..k + 1])
    ensures AllScan(scans[..k]) && scans[k].Some?
    ensures Values(scans[..k + 1]) == Values(scans[..k]) + [scans[k].value]
  {
    assert scans[..k + 1][k] == scans[k];
    assert forall i :: 0 <= i < k ==> scans[..k][i] == scans[..k + 1][i];
  }

  lemma ScansNext<T>(scans: seq<Option<T>>, k: nat)
    requires k < |scans| && AllScan(scans[..k])
    ensures AllScan(scans[..k + 1]) <==> scans[k].Some?
    ensures AllScan(scans) ==> scans[k].Some?
  {
    assert scans[..k + 1][k] == scans[k];
    assert forall i :: 0 <= i < k ==> scans[..k][i] == scans[..k + 1][i];
  }

  /** The object rows, as a slice. */
  method LoadObjects(rows: Rows<ObjectRow>) returns (out: Slice, ok: bool)
    ensures fresh(out) && out.Valid() && fresh(out.store)
    ensures ok <==> Readable(rows)
    ensures ok ==> out.Contents() == Unloaded(Values(rows.scans))
  {
    out := new Slice();
    if rows.Refused? {
      return out, false;
    }
    for k := 0 to |rows.scans|
      invariant out.Valid() && fresh(out.store)
      invariant AllScan(rows.scans[..k])
      invariant out.Contents() == Unloaded(Values(rows.scans[..k]))
    {
      ScansNext(rows.scans, k);
      if rows.scans[k].None? {
        return out, false;
      }
      ValuesNext(rows.scans, k);
      var row := rows.scans[k].value;
      out.Append(Seed(ToUint64(row.id), row.x, row.y, row.typeKey, row.baseMass, [], []));
    }
    assert rows.scans[..|rows.scans|] == rows.scans;
    ok := rows.intact;
  }

  /** Indexes the finished slice. */
  method IndexObjects(out: Slice) returns (byID: map<nat, Pointer>)
    requires out.Valid()
    ensures Points(byID, out.store, out.Contents())
  {
    byID := map[];
    for i := 0 to out.len
      invariant Points(byID, out.store, out.Contents()[..i])
    {
      ghost var before := out.Contents()[..i];
      assert out.Contents()[..i + 1] == before + [out.store[i]];
      byID := byID[out.store[i].id := Pointer(out.store, i)];
    }
    assert out.Contents()[..out.len] == out.Contents();
  }

  lemma ItemsNext<T>(rows: seq<FittingRow<T>>, row: FittingRow<T>, id: nat)
    ensures ItemsOf(rows + [row], id) ==
              if ToUint64(row.objectID) == id then ItemsOf(rows, id) + [row.item] else ItemsOf(rows, id)
  {
    assert (rows + [row])[..|rows|] == rows;
  }

  lemma FitModulesNone(seeds: seq<Seed>)
    ensures FitModules(seeds, []) == seeds
  {
    assert forall i :: 0 <= i < |seeds| ==> seeds[i].modules + [] == seeds[i].modules;
  }

  /** One more row is one more item of the object its id belongs to, if that is loaded. */
  lemma FitModulesKnown(seeds: seq<Seed>, rows: seq<FittingRow<Module>>, row: FittingRow<Module>, at: nat)
    requires IsOwner(seeds, at) && seeds[at].id == ToUint64(row.objectID)
    ensures var s := FitModules(seeds, rows)[at];
            FitModules(seeds, rows + [row]) == FitModules(seeds, rows)[at := s.(modules := s.modules + [row.item])]
  {
    forall i | 0 <= i < |seeds|
      ensures i != at ==> WithModules(seeds, i, rows + [row]) == WithModules(seeds, i, rows)
    {
      ItemsNext(rows, row, seeds[i].id);
    }
    ItemsNext(rows, row, seeds[at].id);
    var items := ItemsOf(rows, seeds[at].id);
    assert seeds[at].modules + (items + [row.item]) == seeds[at].modules + items + [row.item];
  }

  lemma FitModulesUnknown(seeds: seq<Seed>, rows: seq<FittingRow<Module>>, row: FittingRow<Module>)
    requires forall i :: 0 <= i < |seeds| ==> seeds[i].id != ToUint64(row.objectID)
    ensures FitModules(seeds, rows + [row]) == FitModules(seeds, rows)
  {
    forall i | 0 <= i < |seeds|
      ensures WithModules(seeds, i, rows + [row]) == WithModules(seeds, i, rows)
    {
      ItemsNext(rows, row, seeds[i].id);
    }
  }

  lemma FitCargoNone(seeds: seq<Seed>)
    ensures FitCargo(seeds, []) == seeds
  {
    assert forall i :: 0 <= i < |seeds| ==> seeds[i].cargo + [] == seeds[i].cargo;
  }

  /** One more row is one more item of the object its id belongs to, if that is loaded. */
  lemma FitCargoKnown(seeds: seq<Seed>, rows: seq<FittingRow<Cargo>>, row: FittingRow<Cargo>, at: nat)
    requires IsOwner(seeds, at) && seeds[at].id == ToUint64(row.objectID)
    ensures var s := FitCargo(seeds, rows)[at];
            FitCargo(seeds, rows + [row]) == FitCargo(seeds, rows)[at := s.(cargo := s.cargo + [row.item])]
  {
    forall i | 0 <= i < |seeds|
      ensures i != at ==> WithCargo(seeds, i, rows + [row]) == WithCargo(seeds, i, rows)
    {
      ItemsNext(rows, row, seeds[i].id);
    }
    ItemsNext(rows, row, seeds[at].id);
    var items := ItemsOf(rows, seeds[at].id);
    assert seeds[at].cargo + (items + [row.item]) == seeds[at].cargo + items + [row.item];
  }

  lemma FitCargoUnknown(seeds: seq<Seed>, rows: seq<FittingRow<Cargo>>, row: FittingRow<Cargo>)
    requires forall i :: 0 <= i < |seeds| ==> seeds[i].id != ToUint64(row.objectID)
    ensures FitCargo(seeds, rows + [row]) == FitCargo(seeds, rows)
  {
    forall i | 0 <= i < |seeds|
      ensures WithCargo(seeds, i, rows + [row]) == WithCargo(seeds, i, rows)
    {
      ItemsNext(rows, row, seeds[i].id);
    }
  }

  /** Appends each module to the object its row names, through the pointer of that id. */
  method LoadModules(rows: Rows<FittingRow<Module>>, byID: map<nat, Pointer>,
                     ghost store: array<Seed>, ghost seeds: seq<Seed>) returns (ok: bool)
    requires Points(byID, store, seeds) && store[..|seeds|] == seeds
    modifies store
    ensures ok <==> Readable(rows)
    ensures ok ==> store[..|seeds|] == FitModules(seeds, Values(rows.scans))
  {
    if rows.Refused? {
      return false;
    }
    FitModulesNone(seeds);
    for k := 0 to |rows.scans|
      invariant AllScan(rows.scans[..k])
      invariant store[..|seeds|] == FitModules(seeds, Values(rows.scans[..k]))
    {
      ScansNext(rows.scans, k);
      if rows.scans[k].None? {
        return false;
      }
      ValuesNext(rows.scans, k);
      var row := rows.scans[k].value;
      if ToUint64(row.objectID) in byID {
        var p := byID[ToUint64(row.objectID)];
        FitModulesKnown(seeds, Values(rows.scans[..k]), row, p.at);
        ghost var before := store[..|seeds|];
        p.store[p.at] := p.store[p.at].(modules := p.store[p.at].modules + [row.item]);
        assert store[..|seeds|] == before[p.at := store[p.at]];
      } else {
        FitModulesUnknown(seeds, Values(rows.scans[..k]), row);
      }
    }
    assert rows.scans[..|rows.scans|] == rows.scans;
    ok := rows.intact;
  }

  /** Appends each cargo stack likewise. */
  method LoadCargo(rows: Rows<FittingRow<Cargo>>, byID: map<nat, Pointer>,
                   ghost store: array<Seed>, ghost seeds: seq<Seed>) returns (ok: bool)
    requires Points(byID, store, seeds) && store[..|seeds|] == seeds
    modifies store
    ensures ok <==> Readable(rows)
    ensures ok ==> store[..|seeds|] == FitCargo(seeds, Values(rows.scans))
  {
    if rows.Refused? {
      return false;
    }
    FitCargoNone(seeds);
    for k := 0 to |rows.scans|
      invariant AllScan(rows.scans[..k])
      invariant store[..|seeds|] == FitCargo(seeds, Values(rows.scans[..k]))
    {
      ScansNext(rows.scans, k);
      if rows.scans[k].None? {
        return false;
      }
      ValuesNext(rows.scans, k);
      var row := rows.scans[k].value;
      if ToUint64(row.objectID) in byID {
        var p := byID[ToUint64(row.objectID)];
        FitCargoKnown(seeds, Values(rows.scans[..k]), row, p.at);
        ghost var before := store[..|seeds|];
        p.store[p.at] := p.store[p.at].(cargo := p.store[p.at].cargo + [row.item]);
        assert store[..|seeds|] == before[p.at := store[p.at]];
      } else {
        FitCargoUnknown(seeds, Values(rows.scans[..k]), row);
      }
    }
    assert rows.scans[..|rows.scans|] == rows.scans;
    ok := rows.intact;
  }

  /** Fitting changes no id, so the pointers stay right. */
  lemma FittedIds(seeds: seq<Seed>, rows: seq<FittingRow<Module>>, byID: map<nat, Pointer>, store: array<Seed>)
    requires Points(byID, store, seeds)
    ensures Points(byID, store, FitModules(seeds, rows))
  {
    var fitted := FitModules(seeds, rows);
    assert forall i :: 0 <= i < |seeds| ==> fitted[i].id == seeds[i].id;
    forall id | id in byID
      ensures IsOwner(fitted, byID[id].at)
    {
      assert IsOwner(seeds, byID[id].at);
    }
  }

  /** Loads a sector: the join of the three result sets, or an error if any of them fails. */
  method LoadSectorObjects(objects: Rows<ObjectRow>, modules: Rows<FittingRow<Module>>, cargo: Rows<FittingRow<Cargo>>)
    returns (r: Option<seq<Seed>>)
    ensures r.Some? <==> Readable(objects) && Readable(modules) && Readable(cargo)
    ensures r.Some? ==>
              && objects.Rows? && objects.intact && (forall i :: 0 <= i < |objects.scans| ==> objects.scans[i].Some?)
              && modules.Rows? && modules.intact && (forall i :: 0 <= i < |modules.scans| ==> modules.scans[i].Some?)
              && cargo.Rows? && cargo.intact && (forall i :: 0 <= i < |cargo.scans| ==> cargo.scans[i].Some?)
    ensures r.Some? ==> r.value == Join(Values(objects.scans), Values(modules.scans), Values(cargo.scans))
  {
    var out, ok := LoadObjects(objects);
    if !ok {
      return None;
    }
    var byID := IndexObjects(out);
    ghost var bare := out.Contents();
    ok := LoadModules(modules, byID, out.store, bare);
    if !ok {
      return None;
    }
    FittedIds(bare, Values(modules.scans), byID, out.store);
    ok := LoadCargo(cargo, byID, out.store, FitModules(bare, Values(modules.scans)));
    if !ok {
      return None;
    }
    r := Some(out.store[..out.len]);
  }

  // ---------- every row has its place ----------

  /** The place of row `k` among the items of its object. */
  function Place<T>(rows: seq<FittingRow<T>>, k: nat): nat
    requires k < |rows|
  {
    |ItemsOf(rows[..k], ToUint64(rows[k].objectID))|
  }

  lemma {:induction false} ItemsConcat<T>(rows: seq<FittingRow<T>>, more: seq<FittingRow<T>>, id: nat)
    ensures ItemsOf(rows + more, id) == ItemsOf(rows, id) + ItemsOf(more, id)
  {
    if more == [] {
      assert rows + more == rows;
    } else {
      var n := |more| - 1;
      assert rows + more == (rows + more[..n]) + [more[n]];
      ItemsConcat(rows, more[..n], id);
      ItemsNext(rows + more[..n], more[n], id);
    }
  }

  lemma ItemsPrefix<T>(rows: seq<FittingRow<T>>, k: nat, id: nat)
    requires k <= |rows|
    ensures ItemsOf(rows[..k], id) <= ItemsOf(rows, id)
  {
    assert rows == rows[..k] + rows[k..];
    ItemsConcat(rows[..k], rows[k..], id);
  }

  lemma ItemsStep<T>(rows: seq<FittingRow<T>>, k: nat)
    requires k < |rows|
    ensures var id := ToUint64(rows[k].objectID);
            ItemsOf(rows[..k + 1], id) == ItemsOf(rows[..k], id) + [rows[k].item]
  {
    assert rows[..k + 1] == rows[..k] + [rows[k]];
    ItemsNext(rows[..k], rows[k], ToUint64(rows[k].objectID));
  }

  /** A row's item is at its place among the items of its object, and later rows of that object
      have later places. */
  lemma RowIsPlaced<T>(rows: seq<FittingRow<T>>, k: nat)
    requires k < |rows|
    ensures var items := ItemsOf(rows, ToUint64(rows[k].objectID));
            Place(rows, k) < |items| && items[Place(rows, k)] == rows[k].item
    ensures forall j :: 0 <= j < k && ToUint64(rows[j].objectID) == ToUint64(rows[k].objectID) ==>
              Place(rows, j) < Place(rows, k)
  {
    var id := ToUint64(rows[k].objectID);
    ItemsStep(rows, k);
    ItemsPrefix(rows, k + 1, id);
    forall j | 0 <= j < k && ToUint64(rows[j].objectID) == id
      ensures Place(rows, j) < Place(rows, k)
    {
      ItemsStep(rows, j);
      ItemsPrefix(rows[..k], j + 1, id);
      assert rows[..k][..j + 1] == rows[..j + 1];
    }
  }

  /** And every item of an object came from a row of it. */
  lemma {:induction false} ItemHasRow<T>(rows: seq<FittingRow<T>>, id: nat, place: nat) returns (k: nat)
    requires place < |ItemsOf(rows, id)|
    ensures k < |rows| && ToUint64(rows[k].objectID) == id && Place(rows, k) == place
  {
    var n := |rows| - 1;
    if place < |ItemsOf(rows[..n], id)| {
      k := ItemHasRow(rows[..n], id, place);
      assert rows[..n][..k] == rows[..k];
    } else {
      k := n;
    }
  }

  // ---------- the join, object by object ----------

  predicate IsInt64(id: int) {
    -0x8000_0000_0000_0000 <= id < 0x8000_0000_0000_0000
  }

  lemma ToUint64Injective(id: int, id': int)
    requires IsInt64(id) && IsInt64(id')
    ensures ToUint64(id) == ToUint64(id') <==> id == id'
  {
    ToUint64Is(id);
    ToUint64Is(id');
  }

  lemma ToUint64Is(id: int)
    requires IsInt64(id)
    ensures ToUint64(id) == if id < 0 then id + TWO_TO_THE_64 else id
  {
  }

  lemma JoinBare(objects: seq<ObjectRow>, modules: seq<FittingRow<Module>>, cargo: seq<FittingRow<Cargo>>, i: nat)
    requires i < |objects|
    ensures |Join(objects, modules, cargo)| == |objects|
    ensures var bare, owner := FromRow(objects[i]), IsOwner(Unloaded(objects), i);
            Join(objects, modules, cargo)[i] ==
              bare.(modules := if owner then ItemsOf(modules, bare.id) else [],
                    cargo := if owner then ItemsOf(cargo, bare.id) else [])
  {
    var seeds := Unloaded(objects);
    SameOwners(seeds, FitModules(seeds, modules), i);
  }

  /** Each object is its row, with what it carries. Modules and cargo are fitted independently of
      each other. */
  lemma JoinAt(objects: seq<ObjectRow>, modules: seq<FittingRow<Module>>, cargo: seq<FittingRow<Cargo>>, i: nat)
    requires i < |objects|
    ensures |Join(objects, modules, cargo)| == |objects|
    ensures var row, id := objects[i], ToUint64(objects[i].id);
            var owner := forall j :: i < j < |objects| ==> ToUint64(objects[j].id) != id;
            Join(objects, modules, cargo)[i] ==
              Seed(id, row.x, row.y, row.typeKey, row.baseMass,
                   if owner then ItemsOf(modules, id) else [], if owner then ItemsOf(cargo, id) else [])
  {
    JoinBare(objects, modules, cargo, i);
    OwnerIs(objects, i);
  }

  lemma OwnerIs(objects: seq<ObjectRow>, i: nat)
    requires i < |objects|
    ensures IsOwner(Unloaded(objects), i) <==>
              forall j :: i < j < |objects| ==> ToUint64(objects[j].id) != ToUint64(objects[i].id)
  {
    var seeds := Unloaded(objects);
    assert forall j :: 0 <= j < |objects| ==> seeds[j].id == ToUint64(objects[j].id);
  }

  lemma SameOwners(seeds: seq<Seed>, fitted: seq<Seed>, i: nat)
    requires i < |seeds| == |fitted| && forall j :: 0 <= j < |seeds| ==> fitted[j].id == seeds[j].id
    ensures IsOwner(fitted, i) <==> IsOwner(seeds, i)
  {
    assert forall j :: 0 <= j < |seeds| ==> (fitted[j].id != fitted[i].id <==> seeds[j].id != seeds[i].id);
  }

  /** With the distinct ids of a primary key, every object carries exactly the items of its rows. */
  lemma JoinOfDistinct(objects: seq<ObjectRow>, modules: seq<FittingRow<Module>>, cargo: seq<FittingRow<Cargo>>, i: nat)
    requires forall j :: 0 <= j < |objects| ==> IsInt64(objects[j].id)
    requires forall j, k :: 0 <= j < k < |objects| ==> objects[j].id != objects[k].id
    requires i < |objects|
    ensures var row, id := objects[i], ToUint64(objects[i].id);
            Join(objects, modules, cargo)[i] ==
              Seed(id, row.x, row.y, row.typeKey, row.baseMass, ItemsOf(modules, id), ItemsOf(cargo, id))
  {
    var seeds := Unloaded(objects);
    forall j | i < j < |seeds|
      ensures seeds[j].id != seeds[i].id
    {
      ToUint64Injective(objects[i].id, objects[j].id);
    }
    JoinAt(objects, modules, cargo, i);
  }

  // ---------- conservation ----------

  /** All that a list of groups holds. */
  ghost function Pool<T>(groups: seq<seq<T>>): multiset<T> {
    if groups == [] then multiset{} else Pool(groups[..|groups| - 1]) + multiset(groups[|groups| - 1])
  }

  function ModulesOn(seeds: seq<Seed>): seq<seq<Module>> {
    seq(|seeds|, i requires 0 <= i < |seeds| => seeds[i].modules)
  }

  function CargoOn(seeds: seq<Seed>): seq<seq<Cargo>> {
    seq(|seeds|, i requires 0 <= i < |seeds| => seeds[i].cargo)
  }

  /** The items of the rows whose object is among `ids`. */
  function KnownItems<T>(rows: seq<FittingRow<T>>, ids: set<nat>): seq<T> {
    if rows == [] then []
    else
      var before, row := KnownItems(rows[..|rows| - 1], ids), rows[|rows| - 1];
      if ToUint64(row.objectID) in ids then before + [row.item] else before
  }

  function LoadedIds(seeds: seq<Seed>): set<nat> {
    set i | 0 <= i < |seeds| :: seeds[i].id
  }

  function Groups<T>(seeds: seq<Seed>, rows: seq<FittingRow<T>>): (r: seq<seq<T>>)
    ensures |r| == |seeds|
  {
    seq(|seeds|, i requires 0 <= i < |seeds| => if IsOwner(seeds, i) then ItemsOf(rows, seeds[i].id) else [])
  }

  lemma {:induction false} LastBearer(seeds: seq<Seed>, id: nat) returns (at: nat)
    requires id in LoadedIds(seeds)
    ensures IsOwner(seeds, at) && seeds[at].id == id
  {
    var n := |seeds| - 1;
    if seeds[n].id == id {
      at := n;
    } else {
      assert forall i :: 0 <= i < n ==> seeds[..n][i] == seeds[i];
      at := LastBearer(seeds[..n], id);
    }
  }

  lemma {:induction false} PoolAppend<T>(groups: seq<seq<T>>, at: nat, x: T)
    requires at < |groups|
    ensures Pool(groups[at := groups[at] + [x]]) == Pool(groups) + multiset{x}
  {
    var n := |groups| - 1;
    var more := groups[at := groups[at] + [x]];
    if at < n {
      assert more[..n] == groups[..n][at := groups[..n][at] + [x]];
      PoolAppend(groups[..n], at, x);
    } else {
      assert more[..n] == groups[..n];
    }
  }

  lemma {:induction false} PoolEmpty<T>(groups: seq<seq<T>>)
    requires forall i :: 0 <= i < |groups| ==> groups[i] == []
    ensures Pool(groups) == multiset{}
  {
    if groups == [] {
    } else {
      PoolEmpty(groups[..|groups| - 1]);
    }
  }

  lemma GroupsNext<T>(seeds: seq<Seed>, rows: seq<FittingRow<T>>, row: FittingRow<T>)
    ensures Pool(Groups(seeds, rows + [row])) ==
              Pool(Groups(seeds, rows)) +
                (if ToUint64(row.objectID) in LoadedIds(seeds) then multiset{row.item} else multiset{})
  {
    var id := ToUint64(row.objectID);
    forall i | 0 <= i < |seeds|
      ensures Groups(seeds, rows + [row])[i] ==
                var group := Groups(seeds, rows)[i];
                if IsOwner(seeds, i) && seeds[i].id == id then group + [row.item] else group
    {
      ItemsNext(rows, row, seeds[i].id);
    }
    if id in LoadedIds(seeds) {
      var at := LastBearer(seeds, id);
      assert Groups(seeds, rows + [row]) == Groups(seeds, rows)[at := Groups(seeds, rows)[at] + [row.item]];
      PoolAppend(Groups(seeds, rows), at, row.item);
    } else {
      assert Groups(seeds, rows + [row]) == Groups(seeds, rows);
    }
  }

  lemma {:induction false} GroupsConserve<T>(seeds: seq<Seed>, rows: seq<FittingRow<T>>)
    ensures Pool(Groups(seeds, rows)) == multiset(KnownItems(rows, LoadedIds(seeds)))
  {
    if rows == [] {
      PoolEmpty(Groups(seeds, rows));
    } else {
      var n := |rows| - 1;
      GroupsConserve(seeds, rows[..n]);
      assert rows == rows[..n] + [rows[n]];
      GroupsNext(seeds, rows[..n], rows[n]);
    }
  }

  /** Every module and cargo row of a loaded object is carried exactly once, by one object or
      another, and rows of other objects by none; whatever the ids. */
  lemma JoinConservesRows(objects: seq<ObjectRow>, modules: seq<FittingRow<Module>>, cargo: seq<FittingRow<Cargo>>)
    ensures var joined, ids := Join(objects, modules, cargo), LoadedIds(Unloaded(objects));
            && Pool(ModulesOn(joined)) == multiset(KnownItems(modules, ids))
            && Pool(CargoOn(joined)) == multiset(KnownItems(cargo, ids))
  {
    var joined, seeds := Join(objects, modules, cargo), Unloaded(objects);
    forall i | 0 <= i < |objects|
      ensures joined[i].modules == Groups(seeds, modules)[i] && joined[i].cargo == Groups(seeds, cargo)[i]
    {
      JoinAt(objects, modules, cargo, i);
    }
    assert ModulesOn(joined) == Groups(seeds, modules);
    assert CargoOn(joined) == Groups(seeds, cargo);
    GroupsConserve(seeds, modules);
    GroupsConserve(seeds, cargo);
  }

  // ---------- the order of the rows ----------

  lemma {:induction false} ItemsPermute<T>(rows: seq<FittingRow<T>>, rows': seq<FittingRow<T>>, id: nat)
    requires multiset(rows) == multiset(rows')
    ensures multiset(ItemsOf(rows, id)) == multiset(ItemsOf(rows', id))
    decreases |rows|
  {
    if rows == [] {
      assert |multiset(rows')| == 0;
    } else {
      var n := |rows| - 1;
      assert rows == rows[..n] + [rows[n]];
      assert rows[n] in multiset(rows');
      var i :| 0 <= i < |rows'| && rows'[i] == rows[n];
      RemoveAt(rows', i);
      ItemsPermute(rows[..n], rows'[..i] + rows'[i + 1..], id);
      ItemsRemove(rows', i, id);
    }
  }

  lemma RemoveAt<T>(s: seq<T>, i: nat)
    requires i < |s|
    ensures s == s[..i] + [s[i]] + s[i + 1..]
    ensures multiset(s[..i] + s[i + 1..]) == multiset(s) - multiset{s[i]}
  {
    assert s == s[..i] + [s[i]] + s[i + 1..];
    assert multiset(s) == multiset(s[..i]) + multiset{s[i]} + multiset(s[i + 1..]);
  }

  lemma ItemsRemove<T>(rows: seq<FittingRow<T>>, i: nat, id: nat)
    requires i < |rows|
    ensures multiset(ItemsOf(rows, id)) ==
              multiset(ItemsOf(rows[..i] + rows[i + 1..], id)) + multiset(ItemsOf([rows[i]], id))
  {
    RemoveAt(rows, i);
    ItemsConcat(rows[..i] + [rows[i]], rows[i + 1..], id);
    ItemsConcat(rows[..i], [rows[i]], id);
    ItemsConcat(rows[..i], rows[i + 1..], id);
  }

  /** Equal but for the order of their fitting, and derived to the same attributes. */
  ghost predicate Alike(s: Seed, t: Seed) {
    && t == s.(modules := t.modules, cargo := t.cargo)
    && Seeded(t) == Seeded(s).(modules := t.modules, cargo := t.cargo)
  }

  lemma {:induction false} LoadAlike(ss: seq<Seed>, ts: seq<Seed>)
    requires |ss| == |ts| && forall i :: 0 <= i < |ss| ==> Alike(ss[i], ts[i])
    ensures var w, w' := Load(EmptyWorld, ss), Load(EmptyWorld, ts);
            && w'.nextID == w.nextID && w'.objects.Keys == w.objects.Keys
            && forall id :: id in w.objects ==>
                 w'.objects[id] == w.objects[id].(modules := w'.objects[id].modules, cargo := w'.objects[id].cargo)
  {
    if ss == [] {
    } else {
      var n := |ss| - 1;
      LoadAlike(ss[..n], ts[..n]);
      assert Alike(ss[n], ts[n]);
    }
  }

  /** The module and cargo queries name no order. Whatever order they answer in, the world that
      is loaded has the same objects, in the same places, with the same derived attributes. */
  lemma LoadIgnoresRowOrder(objects: seq<ObjectRow>,
                            modules: seq<FittingRow<Module>>, modules': seq<FittingRow<Module>>,
                            cargo: seq<FittingRow<Cargo>>, cargo': seq<FittingRow<Cargo>>)
    requires multiset(modules) == multiset(modules') && multiset(cargo) == multiset(cargo')
    ensures var w := Load(EmptyWorld, Join(objects, modules, cargo));
            var w' := Load(EmptyWorld, Join(objects, modules', cargo'));
            && w'.nextID == w.nextID && w'.objects.Keys == w.objects.Keys
            && forall id :: id in w.objects ==>
                 w'.objects[id] == w.objects[id].(modules := w'.objects[id].modules, cargo := w'.objects[id].cargo)
  {
    forall i | 0 <= i < |objects|
      ensures Alike(Join(objects, modules, cargo)[i], Join(objects, modules', cargo')[i])
    {
      JoinAt(objects, modules, cargo, i);
      JoinAt(objects, modules', cargo', i);
      var s, t := Join(objects, modules, cargo)[i], Join(objects, modules', cargo')[i];
      ItemsPermute(modules, modules', s.id);
      ItemsPermute(cargo, cargo', s.id);
      DeriveIgnoresOrder(s.baseMass, s.modules, t.modules, s.cargo, t.cargo);
    }
    LoadAlike(Join(objects, modules, cargo), Join(objects, modules', cargo'));
  }
}
