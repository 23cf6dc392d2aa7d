/**
 The messages of the session protocol, and the client that folds the server's. A message is an
 abstract value here; marshalling is not part of this model.
 */
module Protocol {
  import opened Wrappers
  import opened Universe

  datatype ClientMsg =
    | Hello(version: nat)
    | Login(username: string, secret: string)
    | Move(target: Option<(int, int)>)
    | StopMoving
    | Unknown

  datatype ServerMsg =
    | VersionResult(accepted: bool, minSupported: nat)
    | LoginResult(ok: bool, reason: string)
    | SelfAssign(id: nat, x: int, y: int, typeKey: string)
    | SelfUpdate(id: nat, x: int, y: int)
    | ObjectEnter(id: nat, x: int, y: int, typeKey: string)
    | ObjectUpdate(id: nat, x: int, y: int)
    | ObjectLeave(id: nat)

  type View = map<nat, ObjectState>

  /** What a client knows: its own object, and the neighbours it was told of. */
  datatype Client = Client(self: Option<(nat, int, int)>, view: View)

  const Fresh := Client(None, map[])

  /** The neighbours after one message. An update carries no type key: the client keeps the one
      it was given on entry. */
  function ReceiveView(v: View, m: ServerMsg): View {
    match m
    case ObjectEnter(id, x, y, typeKey) => v[id := ObjectState(id, x, y, typeKey)]
    case ObjectUpdate(id, x, y) => if id in v then v[id := v[id].(x := x, y := y)] else v
    case ObjectLeave(id) => v - {id}
    case _ => v
  }

  function Receive(c: Client, m: ServerMsg): Client {
    Client(if m.SelfAssign? || m.SelfUpdate? then Some((m.id, m.x, m.y)) else c.self, ReceiveView(c.view, m))
  }

  function ReceiveAll(c: Client, ms: seq<ServerMsg>): Client {
    if ms == [] then c else Receive(ReceiveAll(c, ms[..|ms| - 1]), ms[|ms| - 1])
  }

  function ViewAll(v: View, ms: seq<ServerMsg>): View {
    if ms == [] then v else ReceiveView(ViewAll(v, ms[..|ms| - 1]), ms[|ms| - 1])
  }

  lemma {:induction false} ViewAllConcat(v: View, ms: seq<ServerMsg>, ns: seq<ServerMsg>)
    ensures ViewAll(v, ms + ns) == ViewAll(ViewAll(v, ms), ns)
  {
    if ns == [] {
      assert ms + ns == ms;
    } else {
      var k := |ns| - 1;
      assert (ms + ns)[..|ms + ns| - 1] == ms + ns[..k];
      ViewAllConcat(v, ms, ns[..k]);
    }
  }

  lemma ViewAllNext(v: View, ms: seq<ServerMsg>, m: ServerMsg)
    ensures ViewAll(v, ms + [m]) == ReceiveView(ViewAll(v, ms), m)
  {
    assert (ms + [m])[..|ms|] == ms;
  }

  lemma {:induction false} ClientView(c: Client, ms: seq<ServerMsg>)
    ensures ReceiveAll(c, ms).view == ViewAll(c.view, ms)
  {
    if ms == [] {
    } else {
      ClientView(c, ms[..|ms| - 1]);
    }
  }

  function Lookup(v: View, id: nat): Option<ObjectState> {
    if id in v then Some(v[id]) else None
  }

  // ---------- the event grammar of one id ----------

  predicate IsEvent(m: ServerMsg) {
    m.ObjectEnter? || m.ObjectUpdate? || m.ObjectLeave?
  }

  /** Whether `id` is present after the messages, or None once they broke the grammar
      (Enter Update* Leave)*. */
  function Track(present: bool, ms: seq<ServerMsg>, id: nat): Option<bool> {
    if ms == [] then Some(present)
    else
      var before, m := Track(present, ms[..|ms| - 1], id), ms[|ms| - 1];
      if before.None? || !IsEvent(m) || m.id != id then before
      else if m.ObjectEnter? then (if before.value then None else Some(true))
      else if m.ObjectUpdate? then (if before.value then Some(true) else None)
      else if before.value then Some(false) else None
  }

  lemma TrackNext(present: bool, ms: seq<ServerMsg>, m: ServerMsg, id: nat)
    ensures var before := Track(present, ms, id);
            Track(present, ms + [m], id) ==
              if before.None? || !IsEvent(m) || m.id != id then before
              else if m.ObjectEnter? then (if before.value then None else Some(true))
              else if m.ObjectUpdate? then (if before.value then Some(true) else None)
              else if before.value then Some(false) else None
  {
    assert (ms + [m])[..|ms|] == ms;
  }

  lemma {:induction false} TrackConcat(present: bool, ms: seq<ServerMsg>, ns: seq<ServerMsg>, id: nat)
    requires Track(present, ms, id).Some?
    ensures Track(present, ms + ns, id) == Track(Track(present, ms, id).value, ns, id)
  {
    if ns == [] {
      assert ms + ns == ms;
    } else {
      var k := |ns| - 1;
      assert (ms + ns)[..|ms + ns| - 1] == ms + ns[..k];
      TrackConcat(present, ms, ns[..k], id);
    }
  }

  /** Every prefix of a grammatical run of messages is grammatical. */
  lemma {:induction false} TrackPrefix(present: bool, ms: seq<ServerMsg>, k: nat, id: nat)
    requires k <= |ms| && Track(present, ms, id).Some?
    ensures Track(present, ms[..k], id).Some?
  {
    if k < |ms| {
      TrackPrefix(present, ms[..|ms| - 1], k, id);
      assert ms[..|ms| - 1][..k] == ms[..k];
    } else {
      assert ms[..k] == ms;
    }
  }

  // ---------- the order of the server's messages ----------

  /** How far a connection has come, judged by the messages sent on it. */
  datatype Stage = Opening | Versioned | Admitted | AssignedTo(id: nat) | StreamingTo(id: nat) | Refused | Bad

  function NextStage(stage: Stage, m: ServerMsg): Stage {
    match stage
    case Opening => if m.VersionResult? then (if m.accepted then Versioned else Refused) else Bad
    case Versioned => if m.LoginResult? then (if m.ok then Admitted else Refused) else Bad
    case Admitted => if m.SelfAssign? then AssignedTo(m.id) else Bad
    case AssignedTo(id) => if m.SelfUpdate? && m.id == id then StreamingTo(id) else Bad
    case StreamingTo(id) => if IsEvent(m) || (m.SelfUpdate? && m.id == id) then stage else Bad
    case _ => Bad
  }

  function StageOf(ms: seq<ServerMsg>): Stage {
    if ms == [] then Opening else NextStage(StageOf(ms[..|ms| - 1]), ms[|ms| - 1])
  }

  lemma StageNext(ms: seq<ServerMsg>, m: ServerMsg)
    ensures StageOf(ms + [m]) == NextStage(StageOf(ms), m)
  {
    assert (ms + [m])[..|ms|] == ms;
  }

  /** The message sequences a session may send, spelled out. */
  ghost predicate SafeTrace(ms: seq<ServerMsg>) {
    || ms == []
    || (|ms| == 1 && ms[0].VersionResult?)
    || (|ms| == 2 && ms[0].VersionResult? && ms[0].accepted && ms[1].LoginResult?)
    || (&& |ms| >= 3
        && ms[0].VersionResult? && ms[0].accepted
        && ms[1].LoginResult? && ms[1].ok
        && ms[2].SelfAssign?
        && (forall i :: 3 <= i < |ms| ==>
              || (ms[i].SelfUpdate? && ms[i].id == ms[2].id)
              || (i > 3 && IsEvent(ms[i]))))
  }

  /** The stages recognise exactly those sequences. */
  lemma {:induction false} StagesAreSafe(ms: seq<ServerMsg>)
    ensures StageOf(ms) != Bad <==> SafeTrace(ms)
    ensures StageOf(ms).Admitted? <==> |ms| == 2 && SafeTrace(ms) && ms[1].ok
    ensures StageOf(ms).AssignedTo? <==> |ms| == 3 && SafeTrace(ms)
    ensures StageOf(ms).StreamingTo? <==> |ms| >= 4 && SafeTrace(ms)
    ensures StageOf(ms).AssignedTo? || StageOf(ms).StreamingTo? ==> StageOf(ms).id == ms[2].id
    ensures StageOf(ms).Versioned? <==> |ms| == 1 && SafeTrace(ms) && ms[0].accepted
    ensures StageOf(ms).Opening? <==> ms == []
  {
    if ms == [] {
    } else {
      var before := ms[..|ms| - 1];
      StagesAreSafe(before);
      assert forall i :: 0 <= i < |before| ==> before[i] == ms[i];
    }
  }

  /** The object and position a client was last told are its own. */
  function SelfOf(ms: seq<ServerMsg>): Option<(nat, int, int)> {
    if ms == [] then None
    else
      var m := ms[|ms| - 1];
      if m.SelfAssign? || m.SelfUpdate? then Some((m.id, m.x, m.y)) else SelfOf(ms[..|ms| - 1])
  }

  lemma SelfNext(ms: seq<ServerMsg>, m: ServerMsg)
    ensures SelfOf(ms + [m]) == if m.SelfAssign? || m.SelfUpdate? then Some((m.id, m.x, m.y)) else SelfOf(ms)
  {
    assert (ms + [m])[..|ms|] == ms;
  }

  lemma {:induction false} ClientSelf(ms: seq<ServerMsg>)
    ensures ReceiveAll(Fresh, ms).self == SelfOf(ms)
  {
    if ms == [] {
    } else {
      ClientSelf(ms[..|ms| - 1]);
    }
  }
}
