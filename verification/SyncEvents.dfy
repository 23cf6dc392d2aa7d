/**
 What the events of a sync look like from one id: the event grammar, which events a sync of
 distinct ids contains, and what a client holds when a sync is cut short.
 */
module SyncEvents {
  import opened Wrappers
  import opened Universe
  import opened Protocol
  import opened Perception

  /** The events about `id`, in order. */
  function EventsFor(ms: seq<ServerMsg>, id: nat): seq<ServerMsg> {
    if ms == [] then []
    else
      var m := ms[|ms| - 1];
      if IsEvent(m) && m.id == id then EventsFor(ms[..|ms| - 1], id) + [m] else EventsFor(ms[..|ms| - 1], id)
  }

  lemma EventsForNext(ms: seq<ServerMsg>, m: ServerMsg, id: nat)
    ensures EventsFor(ms + [m], id) == if IsEvent(m) && m.id == id then EventsFor(ms, id) + [m] else EventsFor(ms, id)
  {
    assert (ms + [m])[..|ms|] == ms;
  }

  lemma {:induction false} EventsForConcat(ms: seq<ServerMsg>, ns: seq<ServerMsg>, id: nat)
    ensures EventsFor(ms + ns, id) == EventsFor(ms, id) + EventsFor(ns, id)
  {
    if ns == [] {
      assert ms + ns == ms;
    } else {
      var k := |ns| - 1;
      assert (ms + ns)[..|ms + ns| - 1] == ms + ns[..k];
      EventsForConcat(ms, ns[..k], id);
    }
  }

  // ---------- the grammar, for arbitrary lists ----------

  lemma {:induction false} TrackEnters(perceived: seq<ObjectState>, seen: View, id: nat)
    ensures Track(id in seen, Enters(Merge(perceived, seen).enter), id) == Some(id in seen || id in Ids(perceived))
  {
    if perceived == [] {
    } else {
      var p, n := perceived[..|perceived| - 1], perceived[|perceived| - 1];
      var d := Merge(p, seen);
      TrackEnters(p, seen, id);
      MergeSeen(p, seen);
      if n.id !in d.seen {
        EntersNext(d.enter, n);
        TrackNext(id in seen, Enters(d.enter), ObjectEnter(n.id, n.x, n.y, n.typeKey), id);
      }
    }
  }

  lemma {:induction false} TrackUpdates(update: seq<ObjectState>, present: bool, id: nat)
    requires id in Ids(update) ==> present
    ensures Track(present, Updates(update), id) == Some(present)
  {
    if update == [] {
    } else {
      var u, n := update[..|update| - 1], update[|update| - 1];
      TrackUpdates(u, present, id);
      TrackNext(present, Updates(u), ObjectUpdate(n.id, n.x, n.y), id);
    }
  }

  lemma {:induction false} TrackLeaves(leave: seq<nat>, present: bool, id: nat)
    requires forall i, j :: 0 <= i < j < |leave| ==> leave[i] != leave[j]
    requires id in leave ==> present
    ensures Track(present, Leaves(leave), id) == Some(present && id !in leave)
  {
    if leave == [] {
    } else {
      var l, last := leave[..|leave| - 1], leave[|leave| - 1];
      assert leave == l + [last];
      TrackLeaves(l, present, id);
      TrackNext(present, Leaves(l), ObjectLeave(last), id);
    }
  }

  /** The events of any sync obey (Enter Update* Leave)* for every id, and take presence in what
      was seen to presence in what is perceived. */
  lemma SyncGrammar(perceived: seq<ObjectState>, seen: View, leave: seq<nat>, id: nat)
    requires IsLeaveList(leave, perceived, seen)
    ensures var d := Merge(perceived, seen);
            Track(id in seen, Events(d.enter, d.update, leave), id) == Some(id in LastWins(perceived))
  {
    var d := Merge(perceived, seen);
    var here := id in seen || id in Ids(perceived);
    MergeSeen(perceived, seen);
    TrackEnters(perceived, seen, id);
    UpdatesAreSeen(perceived, seen);
    TrackUpdates(d.update, here, id);
    TrackConcat(id in seen, Enters(d.enter), Updates(d.update), id);
    LeaveMember(leave, perceived, seen, id);
    TrackLeaves(leave, here, id);
    TrackConcat(id in seen, Enters(d.enter) + Updates(d.update), Leaves(leave), id);
  }

  lemma LeaveMember(leave: seq<nat>, perceived: seq<ObjectState>, seen: View, id: nat)
    requires IsLeaveList(leave, perceived, seen)
    ensures id in leave <==> id in seen && id !in Ids(perceived)
  {
    assert id in leave <==> id in SetOf(leave);
  }

  // ---------- the events of a sync of distinct ids ----------

  lemma DistinctSplit(perceived: seq<ObjectState>)
    requires Distinct(perceived) && perceived != []
    ensures var p, n := perceived[..|perceived| - 1], perceived[|perceived| - 1];
            Distinct(p) && n.id !in Ids(p)
  {
    IdsAre(perceived[..|perceived| - 1], perceived[|perceived| - 1].id);
  }

  lemma EntersOneFor(d: Merged, n: ObjectState, id: nat)
    ensures EventsFor(Enters(MergeOne(d, n).enter), id) ==
            if n.id == id && id !in d.seen then EventsFor(Enters(d.enter), id) + [ObjectEnter(id, n.x, n.y, n.typeKey)]
            else EventsFor(Enters(d.enter), id)
  {
    EntersNext(d.enter, n);
    EventsForNext(Enters(d.enter), ObjectEnter(n.id, n.x, n.y, n.typeKey), id);
  }

  lemma UpdatesOneFor(d: Merged, n: ObjectState, id: nat)
    ensures EventsFor(Updates(MergeOne(d, n).update), id) ==
            if n.id == id && id in d.seen && Moved(d.seen[id], n)
            then EventsFor(Updates(d.update), id) + [ObjectUpdate(id, n.x, n.y)]
            else EventsFor(Updates(d.update), id)
  {
    UpdatesNext(d.update, n);
    EventsForNext(Updates(d.update), ObjectUpdate(n.id, n.x, n.y), id);
  }

  lemma {:induction false} MovesFor(perceived: seq<ObjectState>, seen: View, id: nat)
    requires Distinct(perceived)
    ensures var d, w := Merge(perceived, seen), LastWins(perceived);
            && EventsFor(Enters(d.enter), id) ==
                 (if id in w && id !in seen then [ObjectEnter(id, w[id].x, w[id].y, w[id].typeKey)] else [])
            && EventsFor(Updates(d.update), id) ==
                 if id in w && id in seen && Moved(seen[id], w[id]) then [ObjectUpdate(id, w[id].x, w[id].y)] else []
  {
    if perceived == [] {
    } else {
      var p, n := perceived[..|perceived| - 1], perceived[|perceived| - 1];
      DistinctSplit(perceived);
      MovesFor(p, seen, id);
      MergeSeen(p, seen);
      EntersOneFor(Merge(p, seen), n, id);
      UpdatesOneFor(Merge(p, seen), n, id);
    }
  }

  lemma {:induction false} LeavesFor(leave: seq<nat>, id: nat)
    requires forall i, j :: 0 <= i < j < |leave| ==> leave[i] != leave[j]
    ensures EventsFor(Leaves(leave), id) == if id in leave then [ObjectLeave(id)] else []
  {
    if leave == [] {
    } else {
      var l, last := leave[..|leave| - 1], leave[|leave| - 1];
      assert leave == l + [last];
      LeavesFor(l, id);
      EventsForNext(Leaves(l), ObjectLeave(last), id);
    }
  }

  /** The one event, if any, that a change from `seen` to `w` takes for `id`. */
  function ChangeOf(seen: View, w: View, id: nat): seq<ServerMsg> {
    if id in w && id !in seen then [ObjectEnter(id, w[id].x, w[id].y, w[id].typeKey)]
    else if id in w && Moved(seen[id], w[id]) then [ObjectUpdate(id, w[id].x, w[id].y)]
    else if id !in w && id in seen then [ObjectLeave(id)]
    else []
  }

  /** A sync of distinct ids holds, for each id, exactly the event of its change: one if its
      presence or position changed, none otherwise. */
  lemma SyncEventsFor(perceived: seq<ObjectState>, seen: View, leave: seq<nat>, id: nat)
    requires Distinct(perceived) && IsLeaveList(leave, perceived, seen)
    ensures var d := Merge(perceived, seen);
            EventsFor(Events(d.enter, d.update, leave), id) == ChangeOf(seen, LastWins(perceived), id)
  {
    var d := Merge(perceived, seen);
    MovesFor(perceived, seen, id);
    LeavesFor(leave, id);
    LeaveMember(leave, perceived, seen, id);
    MergeSeen(perceived, seen);
    EventsForConcat(Enters(d.enter), Updates(d.update), id);
    EventsForConcat(Enters(d.enter) + Updates(d.update), Leaves(leave), id);
  }

  lemma {:induction false} NoEvents(ms: seq<ServerMsg>)
    requires forall m :: m in ms ==> IsEvent(m)
    requires forall id :: EventsFor(ms, id) == []
    ensures ms == []
  {
    if ms == [] {
    } else {
      var m := ms[|ms| - 1];
      assert m in ms && ms == ms[..|ms| - 1] + [m];
      EventsForNext(ms[..|ms| - 1], m, m.id);
      assert EventsFor(ms, m.id) != [];
    }
  }

  lemma {:induction false} AllEvents(enter: seq<ObjectState>, update: seq<ObjectState>, leave: seq<nat>)
    ensures forall m :: m in Events(enter, update, leave) ==> IsEvent(m)
    decreases |enter| + |update| + |leave|
  {
    if enter == [] {
    } else {
      AllEvents(enter[..|enter| - 1], [], []);
    }
    if update != [] {
      AllEvents([], update[..|update| - 1], []);
    }
    if leave != [] {
      AllEvents([], [], leave[..|leave| - 1]);
    }
  }

  /** Syncing the same set again emits nothing. */
  lemma RepeatedSyncIsSilent(perceived: seq<ObjectState>, leave: seq<nat>)
    requires Distinct(perceived) && IsLeaveList(leave, perceived, LastWins(perceived))
    ensures var d := Merge(perceived, LastWins(perceived));
            Events(d.enter, d.update, leave) == []
  {
    var w := LastWins(perceived);
    var d := Merge(perceived, w);
    forall id
      ensures EventsFor(Events(d.enter, d.update, leave), id) == []
    {
      SyncEventsFor(perceived, w, leave, id);
    }
    AllEvents(d.enter, d.update, leave);
    NoEvents(Events(d.enter, d.update, leave));
  }

  // ---------- a sync cut short ----------

  lemma ReceiveOther(v: View, m: ServerMsg, id: nat)
    requires !(IsEvent(m) && m.id == id)
    ensures Lookup(ReceiveView(v, m), id) == Lookup(v, id)
  {
  }

  lemma ReceiveSame(v: View, w: View, m: ServerMsg, id: nat)
    requires IsEvent(m) && m.id == id && Lookup(v, id) == Lookup(w, id)
    ensures Lookup(ReceiveView(v, m), id) == Lookup(ReceiveView(w, m), id)
  {
  }

  /** What a client holds of `id` depends on the events about `id` alone. */
  lemma {:induction false} LookupByEvents(v: View, ms: seq<ServerMsg>, id: nat)
    ensures Lookup(ViewAll(v, ms), id) == Lookup(ViewAll(v, EventsFor(ms, id)), id)
  {
    if ms == [] {
    } else {
      var before, m := ms[..|ms| - 1], ms[|ms| - 1];
      LookupByEvents(v, before, id);
      if IsEvent(m) && m.id == id {
        ReceiveSame(ViewAll(v, before), ViewAll(v, EventsFor(before, id)), m, id);
        ViewAllNext(v, EventsFor(before, id), m);
      } else {
        ReceiveOther(ViewAll(v, before), m, id);
      }
    }
  }

  lemma EventsForPrefix(ms: seq<ServerMsg>, k: nat, id: nat)
    requires k <= |ms|
    ensures EventsFor(ms[..k], id) <= EventsFor(ms, id)
  {
    assert ms == ms[..k] + ms[k..];
    EventsForConcat(ms[..k], ms[k..], id);
  }

  lemma EventsForAt(ms: seq<ServerMsg>, k: nat)
    requires k < |ms| && IsEvent(ms[k])
    ensures EventsFor(ms[..k], ms[k].id) + [ms[k]] <= EventsFor(ms, ms[k].id)
  {
    EventsForLast(ms[..k + 1]);
    assert ms[..k + 1][..k] == ms[..k];
    EventsForPrefix(ms, k + 1, ms[k].id);
  }

  lemma EventsForLast(ms: seq<ServerMsg>)
    requires ms != [] && IsEvent(ms[|ms| - 1])
    ensures var m := ms[|ms| - 1]; EventsFor(ms, m.id) == EventsFor(ms[..|ms| - 1], m.id) + [m]
  {
  }

  /** The event of a change shows. */
  lemma ChangeShows(seen: View, w: View, m: ServerMsg)
    requires IsEvent(m) && ChangeOf(seen, w, m.id) == [m]
    ensures Lookup(ReceiveView(seen, m), m.id) != Lookup(seen, m.id)
  {
  }

  lemma OneOf<T>(before: seq<T>, m: T, all: seq<T>)
    requires before + [m] <= all && |all| <= 1
    ensures before == [] && all == [m]
  {
  }

  /** A sync of distinct ids has no idle event: cut short before any of its messages, it leaves the
      client without the new state of the id that message is about. */
  lemma CutMisses(perceived: seq<ObjectState>, seen: View, leave: seq<nat>, k: nat)
    requires Distinct(perceived) && IsLeaveList(leave, perceived, seen)
    requires var d := Merge(perceived, seen); k < |Events(d.enter, d.update, leave)|
    ensures var d := Merge(perceived, seen); var ms := Events(d.enter, d.update, leave);
            ViewAll(seen, ms[..k]) != ViewAll(seen, ms)
  {
    var d := Merge(perceived, seen);
    var ms := Events(d.enter, d.update, leave);
    AllEvents(d.enter, d.update, leave);
    var m := ms[k];
    assert m in ms;
    SyncEventsFor(perceived, seen, leave, m.id);
    EventsForAt(ms, k);
    OneOf(EventsFor(ms[..k], m.id), m, ChangeOf(seen, LastWins(perceived), m.id));
    LookupByEvents(seen, ms[..k], m.id);
    LookupByEvents(seen, ms, m.id);
    ChangeShows(seen, LastWins(perceived), m);
    assert ViewAll(seen, [m]) == ReceiveView(seen, m) by {
      assert [m][..0] == [];
    }
  }

  /** Cut short after any number of its messages, a sync of distinct ids leaves the client with
      either the old or the new state of each id. */
  lemma CutShort(perceived: seq<ObjectState>, seen: View, leave: seq<nat>, k: nat, id: nat)
    requires Distinct(perceived) && IsLeaveList(leave, perceived, seen)
    requires var d := Merge(perceived, seen); k <= |Events(d.enter, d.update, leave)|
    ensures var d := Merge(perceived, seen); var ms := Events(d.enter, d.update, leave);
            var mid := Lookup(ViewAll(seen, ms[..k]), id);
            mid == Lookup(seen, id) || mid == Lookup(ViewAll(seen, ms), id)
  {
    var d := Merge(perceived, seen);
    var ms := Events(d.enter, d.update, leave);
    SyncEventsFor(perceived, seen, leave, id);
    EventsForPrefix(ms, k, id);
    LookupByEvents(seen, ms[..k], id);
    LookupByEvents(seen, ms, id);
  }
}
