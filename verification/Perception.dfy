/**
 The replication diff: what a connection was last told (`seen`) against what is perceived now,
 as enter, update and leave events. `Merge` is the loop over the perceived list; the lemmas say
 what a client makes of the events, for arbitrary lists.
 */
module Perception {
  import opened Universe
  import opened Protocol

  /** The first loop of the diff, after some of the perceived list. */
  datatype Merged = Merged(enter: seq<ObjectState>, update: seq<ObjectState>, seen: View)

  predicate Moved(prev: ObjectState, n: ObjectState) {
    n.x != prev.x || n.y != prev.y
  }

  function MergeOne(d: Merged, n: ObjectState): Merged {
    Merged(if n.id !in d.seen then d.enter + [n] else d.enter,
           if n.id in d.seen && Moved(d.seen[n.id], n) then d.update + [n] else d.update,
           d.seen[n.id := n])
  }

  function Merge(perceived: seq<ObjectState>, seen: View): Merged {
    if perceived == [] then Merged([], [], seen)
    else MergeOne(Merge(perceived[..|perceived| - 1], seen), perceived[|perceived| - 1])
  }

  /** The last-wins map of a perceived list. */
  function LastWins(perceived: seq<ObjectState>): View {
    if perceived == [] then map[]
    else LastWins(perceived[..|perceived| - 1])[perceived[|perceived| - 1].id := perceived[|perceived| - 1]]
  }

  function Enters(ns: seq<ObjectState>): seq<ServerMsg> {
    if ns == [] then []
    else
      var n := ns[|ns| - 1];
      Enters(ns[..|ns| - 1]) + [ObjectEnter(n.id, n.x, n.y, n.typeKey)]
  }

  function Updates(ns: seq<ObjectState>): seq<ServerMsg> {
    if ns == [] then []
    else
      var n := ns[|ns| - 1];
      Updates(ns[..|ns| - 1]) + [ObjectUpdate(n.id, n.x, n.y)]
  }

  function Leaves(ids: seq<nat>): seq<ServerMsg> {
    if ids == [] then [] else Leaves(ids[..|ids| - 1]) + [ObjectLeave(ids[|ids| - 1])]
  }

  lemma EntersNext(ns: seq<ObjectState>, n: ObjectState)
    ensures Enters(ns + [n]) == Enters(ns) + [ObjectEnter(n.id, n.x, n.y, n.typeKey)]
  {
    assert (ns + [n])[..|ns|] == ns;
  }

  lemma UpdatesNext(ns: seq<ObjectState>, n: ObjectState)
    ensures Updates(ns + [n]) == Updates(ns) + [ObjectUpdate(n.id, n.x, n.y)]
  {
    assert (ns + [n])[..|ns|] == ns;
  }

  /** The messages of one sync, in the order they are sent. */
  function Events(enter: seq<ObjectState>, update: seq<ObjectState>, leave: seq<nat>): seq<ServerMsg> {
    Enters(enter) + Updates(update) + Leaves(leave)
  }

  function SetOf(ids: seq<nat>): set<nat> {
    set id | id in ids
  }

  ghost predicate Members(ids: seq<nat>, s: set<nat>) {
    && (forall i, j :: 0 <= i < j < |ids| ==> ids[i] != ids[j])
    && SetOf(ids) == s
  }

  lemma {:induction false} EntersAt(ns: seq<ObjectState>, i: nat)
    requires i < |ns|
    ensures |Enters(ns)| == |ns| && Enters(ns)[i] == ObjectEnter(ns[i].id, ns[i].x, ns[i].y, ns[i].typeKey)
  {
    EntersLength(ns);
    if i < |ns| - 1 {
      EntersAt(ns[..|ns| - 1], i);
    } else {
      EntersLength(ns[..|ns| - 1]);
    }
  }

  lemma {:induction false} EntersLength(ns: seq<ObjectState>)
    ensures |Enters(ns)| == |ns| && |Updates(ns)| == |ns|
  {
    if ns == [] {
    } else {
      EntersLength(ns[..|ns| - 1]);
    }
  }

  lemma {:induction false} UpdatesAt(ns: seq<ObjectState>, i: nat)
    requires i < |ns|
    ensures |Updates(ns)| == |ns| && Updates(ns)[i] == ObjectUpdate(ns[i].id, ns[i].x, ns[i].y)
  {
    EntersLength(ns);
    if i < |ns| - 1 {
      UpdatesAt(ns[..|ns| - 1], i);
    } else {
      EntersLength(ns[..|ns| - 1]);
    }
  }

  lemma {:induction false} LeavesAt(ids: seq<nat>, i: nat)
    requires i <= |ids|
    ensures |Leaves(ids)| == |ids| && (i < |ids| ==> Leaves(ids)[i] == ObjectLeave(ids[i]))
  {
    if ids == [] {
    } else {
      LeavesAt(ids[..|ids| - 1], if i < |ids| then i else 0);
      LeavesAt(ids[..|ids| - 1], |ids| - 1);
    }
  }

  lemma LeavesLength(ids: seq<nat>)
    ensures |Leaves(ids)| == |ids|
  {
    LeavesAt(ids, 0);
  }

  /** Where each event of a sync stands among its messages. */
  lemma EventsAt(enter: seq<ObjectState>, update: seq<ObjectState>, leave: seq<nat>, i: nat)
    ensures var ev := Events(enter, update, leave);
            && |ev| == |enter| + |update| + |leave|
            && (i < |enter| ==> ev[i] == ObjectEnter(enter[i].id, enter[i].x, enter[i].y, enter[i].typeKey))
            && (i < |update| ==> ev[|enter| + i] == ObjectUpdate(update[i].id, update[i].x, update[i].y))
            && (i < |leave| ==> ev[|enter| + |update| + i] == ObjectLeave(leave[i]))
  {
    EntersLength(enter);
    EntersLength(update);
    LeavesAt(leave, 0);
    if i < |enter| {
      EntersAt(enter, i);
    }
    if i < |update| {
      UpdatesAt(update, i);
    }
    if i < |leave| {
      LeavesAt(leave, i);
    }
  }

  lemma MembersMore(ids: seq<nat>, s: set<nat>, id: nat)
    requires Members(ids, s) && id !in s
    ensures Members(ids + [id], s + {id})
  {
    assert forall i :: 0 <= i < |ids| ==> ids[i] in SetOf(ids);
    assert SetOf(ids + [id]) == SetOf(ids) + {id};
  }

  /** `leave` names, once each and in any order, what was seen and is no longer perceived. */
  ghost predicate IsLeaveList(leave: seq<nat>, perceived: seq<ObjectState>, seen: View) {
    Members(leave, seen.Keys - Ids(perceived))
  }

  // ---------- the loop over the perceived list ----------

  lemma MergeNext(perceived: seq<ObjectState>, seen: View, i: nat)
    requires i < |perceived|
    ensures Merge(perceived[..i + 1], seen) == MergeOne(Merge(perceived[..i], seen), perceived[i])
    ensures Ids(perceived[..i + 1]) == Ids(perceived[..i]) + {perceived[i].id}
  {
    assert perceived[..i + 1][..i] == perceived[..i];
    IdsAppend(perceived[..i], perceived[i]);
    assert perceived[..i + 1] == perceived[..i] + [perceived[i]];
  }

  lemma {:induction false} MergeSeen(perceived: seq<ObjectState>, seen: View)
    ensures var d := Merge(perceived, seen);
            && d.seen == seen + LastWins(perceived)
            && LastWins(perceived).Keys == Ids(perceived)
  {
    if perceived == [] {
    } else {
      var n := |perceived| - 1;
      MergeSeen(perceived[..n], seen);
      MergeNext(perceived, seen, n);
      assert perceived[..n + 1] == perceived;
    }
  }

  // ---------- what the client makes of it ----------

  /** The type keys a client holds: those it saw, and of every other id the first it is given. */
  function KnownKeys(seen: View, perceived: seq<ObjectState>): map<nat, string> {
    if perceived == [] then map id | id in seen :: seen[id].typeKey
    else KnowKey(KnownKeys(seen, perceived[..|perceived| - 1]), perceived[|perceived| - 1])
  }

  function KnowKey(keys: map<nat, string>, n: ObjectState): map<nat, string> {
    if n.id in keys then keys else keys[n.id := n.typeKey]
  }

  /** `v` with those type keys. */
  function Keyed(v: View, keys: map<nat, string>): View {
    map id | id in v && id in keys :: v[id].(typeKey := keys[id])
  }

  ghost predicate SelfNamed(v: View) {
    forall id :: id in v ==> v[id].id == id
  }

  /** Updates of other ids commute with an entry. */
  lemma {:induction false} UpdatesCommute(v: View, update: seq<ObjectState>, n: ObjectState)
    requires n.id !in Ids(update)
    ensures ViewAll(v[n.id := n], Updates(update)) == ViewAll(v, Updates(update))[n.id := n]
  {
    if update == [] {
    } else {
      var k := |update| - 1;
      var u := update[k];
      assert update == update[..k] + [u];
      IdsAppend(update[..k], u);
      UpdatesCommute(v, update[..k], n);
      ViewAllNext(v, Updates(update[..k]), ObjectUpdate(u.id, u.x, u.y));
      ViewAllNext(v[n.id := n], Updates(update[..k]), ObjectUpdate(u.id, u.x, u.y));
    }
  }

  lemma {:induction false} UpdatesAreSeen(perceived: seq<ObjectState>, seen: View)
    ensures Ids(Merge(perceived, seen).update) <= Merge(perceived, seen).seen.Keys
  {
    if perceived == [] {
    } else {
      var n := |perceived| - 1;
      UpdatesAreSeen(perceived[..n], seen);
      IdsAppend(Merge(perceived[..n], seen).update, perceived[n]);
    }
  }

  /** The client's view after the entries and the updates. */
  ghost function Moves(d: Merged, seen: View): View {
    ViewAll(ViewAll(seen, Enters(d.enter)), Updates(d.update))
  }

  /** One more perceived object, in terms of the view after the events so far. */
  lemma MovesOne(d: Merged, n: ObjectState, seen: View)
    requires Ids(d.update) <= d.seen.Keys
    ensures Moves(MergeOne(d, n), seen) ==
            if n.id !in d.seen then Moves(d, seen)[n.id := n]
            else if Moved(d.seen[n.id], n) then ReceiveView(Moves(d, seen), ObjectUpdate(n.id, n.x, n.y))
            else Moves(d, seen)
  {
    if n.id !in d.seen {
      EntersNext(d.enter, n);
      ViewAllNext(seen, Enters(d.enter), ObjectEnter(n.id, n.x, n.y, n.typeKey));
      UpdatesCommute(ViewAll(seen, Enters(d.enter)), d.update, n);
    } else if Moved(d.seen[n.id], n) {
      UpdatesNext(d.update, n);
      ViewAllNext(ViewAll(seen, Enters(d.enter)), Updates(d.update), ObjectUpdate(n.id, n.x, n.y));
    }
  }

  lemma {:induction false} MergeNamed(perceived: seq<ObjectState>, seen: View)
    requires SelfNamed(seen)
    ensures SelfNamed(Merge(perceived, seen).seen)
  {
    if perceived == [] {
    } else {
      MergeNamed(perceived[..|perceived| - 1], seen);
    }
  }

  lemma KeyedEntry(s: View, keys: map<nat, string>, n: ObjectState)
    requires s.Keys == keys.Keys && n.id !in s
    ensures Keyed(s[n.id := n], keys[n.id := n.typeKey]) == Keyed(s, keys)[n.id := n]
  {
  }

  lemma KeyedUpdate(s: View, keys: map<nat, string>, n: ObjectState)
    requires s.Keys == keys.Keys && n.id in s && s[n.id].id == n.id
    ensures Keyed(s[n.id := n], keys) == ReceiveView(Keyed(s, keys), ObjectUpdate(n.id, n.x, n.y))
    ensures !Moved(s[n.id], n) ==> Keyed(s[n.id := n], keys) == Keyed(s, keys)
  {
    assert Keyed(s, keys)[n.id] == s[n.id].(typeKey := keys[n.id]);
  }

  /** That the client holds the merged map with the type keys it knows, kept by one more object. */
  lemma MovesStep(d: Merged, n: ObjectState, seen: View, keys: map<nat, string>)
    requires Ids(d.update) <= d.seen.Keys == keys.Keys && SelfNamed(d.seen)
    requires Moves(d, seen) == Keyed(d.seen, keys)
    ensures MergeOne(d, n).seen.Keys == KnowKey(keys, n).Keys
    ensures Moves(MergeOne(d, n), seen) == Keyed(MergeOne(d, n).seen, KnowKey(keys, n))
  {
    if n.id !in d.seen {
      MovesEntry(d, n, seen, keys);
    } else {
      MovesUpdate(d, n, seen, keys);
    }
  }

  lemma MovesEntry(d: Merged, n: ObjectState, seen: View, keys: map<nat, string>)
    requires Ids(d.update) <= d.seen.Keys == keys.Keys && n.id !in d.seen
    requires Moves(d, seen) == Keyed(d.seen, keys)
    ensures Moves(MergeOne(d, n), seen) == Keyed(MergeOne(d, n).seen, KnowKey(keys, n))
  {
    MovesOne(d, n, seen);
    KeyedEntry(d.seen, keys, n);
  }

  lemma MovesUpdate(d: Merged, n: ObjectState, seen: View, keys: map<nat, string>)
    requires Ids(d.update) <= d.seen.Keys == keys.Keys && SelfNamed(d.seen) && n.id in d.seen
    requires Moves(d, seen) == Keyed(d.seen, keys)
    ensures Moves(MergeOne(d, n), seen) == Keyed(MergeOne(d, n).seen, KnowKey(keys, n))
  {
    MovesOne(d, n, seen);
    KeyedUpdate(d.seen, keys, n);
  }

  lemma NothingPerceived(seen: View)
    ensures Moves(Merge([], seen), seen) == Keyed(seen, KnownKeys(seen, []))
  {
    assert Keyed(seen, KnownKeys(seen, [])) == seen;
  }

  /** The entries and updates give the client the merged map, with the type keys it knows. */
  lemma {:induction false} MovesMeaning(perceived: seq<ObjectState>, seen: View)
    requires SelfNamed(seen)
    ensures Merge(perceived, seen).seen.Keys == KnownKeys(seen, perceived).Keys
    ensures Moves(Merge(perceived, seen), seen) == Keyed(Merge(perceived, seen).seen, KnownKeys(seen, perceived))
  {
    if perceived == [] {
      NothingPerceived(seen);
    } else {
      var p, n := perceived[..|perceived| - 1], perceived[|perceived| - 1];
      MovesMeaning(p, seen);
      UpdatesAreSeen(p, seen);
      MergeNamed(p, seen);
      MovesStep(Merge(p, seen), n, seen, KnownKeys(seen, p));
    }
  }

  lemma {:induction false} LeavesMeaning(v: View, leave: seq<nat>)
    ensures ViewAll(v, Leaves(leave)) == v - SetOf(leave)
  {
    if leave == [] {
    } else {
      var k := |leave| - 1;
      LeavesMeaning(v, leave[..k]);
      ViewAllNext(v, Leaves(leave[..k]), ObjectLeave(leave[k]));
      assert leave == leave[..k] + [leave[k]];
    }
  }

  lemma EventsView(perceived: seq<ObjectState>, seen: View, leave: seq<nat>)
    ensures var d := Merge(perceived, seen);
            ViewAll(seen, Events(d.enter, d.update, leave)) == Moves(Merge(perceived, seen), seen) - SetOf(leave)
  {
    var d := Merge(perceived, seen);
    ViewAllConcat(seen, Enters(d.enter), Updates(d.update));
    ViewAllConcat(seen, Enters(d.enter) + Updates(d.update), Leaves(leave));
    LeavesMeaning(Moves(Merge(perceived, seen), seen), leave);
  }

  /** For an arbitrary perceived list, in whatever order the departures are listed, a client that
      held `seen` ends up holding exactly the last-wins map, but for the type keys: of each id it
      keeps the first it was given. */
  lemma DiffMeaning(perceived: seq<ObjectState>, seen: View, leave: seq<nat>)
    requires SelfNamed(seen) && IsLeaveList(leave, perceived, seen)
    ensures var d := Merge(perceived, seen);
            && ViewAll(seen, Events(d.enter, d.update, leave)) == Keyed(LastWins(perceived), KnownKeys(seen, perceived))
            && d.seen - SetOf(leave) == LastWins(perceived)
  {
    EventsView(perceived, seen, leave);
    MovesMeaning(perceived, seen);
    MergeSeen(perceived, seen);
    Drop(seen, LastWins(perceived), KnownKeys(seen, perceived));
  }

  lemma Drop(seen: View, v: View, keys: map<nat, string>)
    ensures Keyed(seen + v, keys) - (seen.Keys - v.Keys) == Keyed(v, keys)
    ensures (seen + v) - (seen.Keys - v.Keys) == v
  {
  }

  /** So the client's picture is right if and only if the last type key each id came under is the
      first the client was given. */
  lemma DiffCorrectIff(perceived: seq<ObjectState>, seen: View, leave: seq<nat>)
    requires SelfNamed(seen) && IsLeaveList(leave, perceived, seen)
    ensures var d, keys, w := Merge(perceived, seen), KnownKeys(seen, perceived), LastWins(perceived);
            && w.Keys <= keys.Keys
            && (ViewAll(seen, Events(d.enter, d.update, leave)) == w
                <==> forall id :: id in w ==> w[id].typeKey == keys[id])
  {
    DiffMeaning(perceived, seen, leave);
    MovesMeaning(perceived, seen);
    MergeSeen(perceived, seen);
    KeyedUnchangedIff(LastWins(perceived), KnownKeys(seen, perceived));
  }

  /** An id that is seen and comes back under another type key is such a case: the update that
      reports it, if there is one, carries no type key. */
  lemma RenamedIsMissed(x: int, y: int, id: nat, key: string, newKey: string)
    requires key != newKey
    ensures var seen, perceived := map[id := ObjectState(id, 0, 0, key)], [ObjectState(id, x, y, newKey)];
            && IsLeaveList([], perceived, seen)
            && var d := Merge(perceived, seen);
               ViewAll(seen, Events(d.enter, d.update, [])) ==
                 map[id := ObjectState(id, x, y, key)] != LastWins(perceived)
  {
    var n := ObjectState(id, x, y, newKey);
    var seen, perceived := map[id := ObjectState(id, 0, 0, key)], [n];
    assert perceived[..0] == [] && Ids([]) == {};
    assert Ids(perceived) == {id} && SetOf([]) == {} == seen.Keys - Ids(perceived);
    DiffMeaning(perceived, seen, []);
    assert KnownKeys(seen, []) == map[id := key];
  }

  lemma KeyedUnchangedIff(v: View, keys: map<nat, string>)
    requires v.Keys <= keys.Keys
    ensures Keyed(v, keys) == v <==> forall id :: id in v ==> v[id].typeKey == keys[id]
  {
    var k := Keyed(v, keys);
    if k == v {
      forall id | id in v
        ensures v[id].typeKey == keys[id]
      {
        assert k[id].typeKey == v[id].typeKey;
      }
    }
  }
}
