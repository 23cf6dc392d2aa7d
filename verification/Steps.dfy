/**
 The steps a connection takes, read off the log of the server: those of its live loop and those of
 its reader, and the sequences that one sync, one turn, one visit may consist of. Which messages a
 step sends and what it does to the world is the business of `Machine`.
 */
module Steps {
  import opened Wrappers
  import opened Protocol
  import opened Machine

  /** Facts that the session code carries along but does not look into. A folded fact is a quantifier
      over this one-value type, so it is not expanded until its `At` form is asserted. */
  datatype Token = Token

  /** The steps of session `sid` in a log, but for those of its reader. */
  function Mine(acts: seq<Action>, sid: nat): seq<Action> {
    if acts == [] then []
    else
      var before, a := Mine(acts[..|acts| - 1], sid), acts[|acts| - 1];
      if !a.Ticked? && a.sid == sid && !a.Command? then before + [a] else before
  }

  /** What its reader read, in order; None is the read that failed. */
  function Heard(acts: seq<Action>, sid: nat): seq<Option<ClientMsg>> {
    if acts == [] then []
    else
      var before, a := Heard(acts[..|acts| - 1], sid), acts[|acts| - 1];
      if a.Command? && a.sid == sid then before + [a.msg] else before
  }

  lemma MineNext(acts: seq<Action>, a: Action, sid: nat)
    ensures Mine(acts + [a], sid) ==
              if !a.Ticked? && a.sid == sid && !a.Command? then Mine(acts, sid) + [a] else Mine(acts, sid)
  {
    assert (acts + [a])[..|acts|] == acts;
  }

  lemma HeardNext(acts: seq<Action>, a: Action, sid: nat)
    ensures Heard(acts + [a], sid) ==
              if a.Command? && a.sid == sid then Heard(acts, sid) + [a.msg] else Heard(acts, sid)
  {
    assert (acts + [a])[..|acts|] == acts;
  }

  function Said(msgs: seq<ClientMsg>): seq<Option<ClientMsg>> {
    seq(|msgs|, i requires 0 <= i < |msgs| => Some(msgs[i]))
  }

  // ---------- what a sync is made of ----------

  /** Messages of a sync: all went out, or the last one failed. */
  predicate AreSends(did: seq<Action>, sid: nat, ok: bool) {
    && (ok || did != [])
    && forall i :: 0 <= i < |did| ==> did[i] == Send(sid, ok || i < |did| - 1)
  }

  lemma SendsJoin(did: seq<Action>, more: seq<Action>, sid: nat, ok: bool)
    requires AreSends(did, sid, true) && AreSends(more, sid, ok)
    ensures AreSends(did + more, sid, ok)
  {
  }

  /** A sample, and its events. */
  predicate AreChanges(did: seq<Action>, sid: nat, ok: bool) {
    did != [] && did[0].Sample? && did[0].sid == sid && AreSends(did[1..], sid, ok)
  }

  lemma ChangesOf(a: Action, sends: seq<Action>, sid: nat, ok: bool)
    requires a.Sample? && a.sid == sid && AreSends(sends, sid, ok)
    ensures AreChanges([a] + sends, sid, ok)
  {
    assert ([a] + sends)[1..] == sends;
  }

  /** A sync: these, and unless one of them failed, the way back to the loop. */
  predicate IsSync(did: seq<Action>, sid: nat, ok: bool) {
    if ok then |did| > 1 && did[|did| - 1] == Settle(sid) && AreChanges(did[..|did| - 1], sid, true)
    else AreChanges(did, sid, false)
  }

  lemma SyncOf(did: seq<Action>, sid: nat, ok: bool)
    requires AreChanges(did, sid, ok)
    ensures IsSync(if ok then did + [Settle(sid)] else did, sid, ok)
  {
    assert (did + [Settle(sid)])[..|did|] == did;
  }

  // ---------- what the live loop is made of ----------

  /** One turn of the loop: a look, and unless that failed, a sync. */
  predicate IsTurn(did: seq<Action>, sid: nat, ok: bool) {
    || (!ok && did == [Look(sid, false)])
    || (did != [] && did[0] == Look(sid, true) && IsSync(did[1..], sid, ok))
  }

  lemma TurnOf(did: seq<Action>, sid: nat, ok: bool)
    requires IsSync(did, sid, ok)
    ensures IsTurn([Look(sid, true)] + did, sid, ok)
  {
    assert ([Look(sid, true)] + did)[1..] == did;
  }

  ghost predicate TurnsAt(did: seq<Action>, sid: nat, n: nat, t: Token)
    decreases n, 0
  {
    if n == 0 then did == []
    else exists k: nat :: k <= |did| && AreTurns(did[..k], sid, n - 1) && IsTurn(did[k..], sid, true)
  }

  /** `n` turns that went well. */
  ghost predicate AreTurns(did: seq<Action>, sid: nat, n: nat)
    decreases n, 1
  {
    forall t: Token {:trigger TurnsAt(did, sid, n, t)} :: TurnsAt(did, sid, n, t)
  }

  lemma NoTurns(sid: nat)
    ensures AreTurns([], sid, 0)
  {
  }

  lemma TurnsMade(did: seq<Action>, sid: nat, n: nat, k: nat)
    requires n > 0 && k <= |did| && AreTurns(did[..k], sid, n - 1) && IsTurn(did[k..], sid, true)
    ensures AreTurns(did, sid, n)
  {
    assert TurnsAt(did, sid, n, Token);
  }

  lemma TurnsNext(did: seq<Action>, sid: nat, n: nat, turn: seq<Action>)
    requires AreTurns(did, sid, n) && IsTurn(turn, sid, true)
    ensures AreTurns(did + turn, sid, n + 1)
  {
    var k := |did|;
    assert (did + turn)[..k] == did && (did + turn)[k..] == turn;
    TurnsMade(did + turn, sid, n + 1, k);
  }

  /** How often the ticker fires before the end. */
  function Fired(wakes: seq<bool>): (n: nat)
    ensures n <= |wakes| && (n < |wakes| ==> !wakes[n])
    ensures forall j :: 0 <= j < n ==> wakes[j]
  {
    if wakes == [] || !wakes[0] then 0 else 1 + Fired(wakes[1..])
  }

  lemma {:induction false} FiredAt(wakes: seq<bool>, i: nat)
    requires i <= |wakes| && forall j :: 0 <= j < i ==> wakes[j]
    ensures i <= Fired(wakes)
    ensures i == |wakes| || !wakes[i] ==> i == Fired(wakes)
    ensures i < |wakes| && wakes[i] ==> i < Fired(wakes)
  {
    if i == 0 {
    } else {
      FiredAt(wakes[1..], i - 1);
    }
  }

  /** The live loop: a turn for each time the ticker fires, then the way out; or turns up to one
      that fails. */
  ghost predicate IsLive(did: seq<Action>, sid: nat, fired: nat) {
    forall t: Token {:trigger LiveAt(did, sid, fired, t)} :: LiveAt(did, sid, fired, t)
  }

  ghost predicate LiveAt(did: seq<Action>, sid: nat, fired: nat, t: Token) {
    exists n: nat, k: nat :: k <= |did| && AreTurns(did[..k], sid, n) && EndsLive(did[k..], sid, fired, n)
  }

  predicate EndsLive(did: seq<Action>, sid: nat, fired: nat, n: nat) {
    || (n == fired && did == [Quit(sid)])
    || (n < fired && IsTurn(did, sid, false))
  }

  lemma LiveOf(did: seq<Action>, end: seq<Action>, sid: nat, fired: nat, n: nat)
    requires AreTurns(did, sid, n) && EndsLive(end, sid, fired, n)
    ensures IsLive(did + end, sid, fired)
  {
    var k := |did|;
    assert (did + end)[..k] == did && (did + end)[k..] == end;
    assert AreTurns((did + end)[..k], sid, n) && EndsLive((did + end)[k..], sid, fired, n);
  }

  // ---------- what a visit is made of ----------

  /** Telling the client what it controls and where that is. */
  predicate IsIntroduction(did: seq<Action>, sid: nat, ok: bool) {
    if ok then did == [Assign(sid, true), Greet(sid, true)]
    else did == [Assign(sid, false)] || did == [Assign(sid, true), Greet(sid, false)]
  }

  /** That, and the first sync. */
  predicate IsOpening(did: seq<Action>, sid: nat, ok: bool) {
    || (!ok && IsIntroduction(did, sid, false))
    || (|did| >= 2 && IsIntroduction(did[..2], sid, true) && IsSync(did[2..], sid, ok))
  }

  lemma OpeningOf(intro: seq<Action>, sync: seq<Action>, sid: nat, ok: bool)
    requires IsIntroduction(intro, sid, true) && IsSync(sync, sid, ok)
    ensures IsOpening(intro + sync, sid, ok)
  {
    assert (intro + sync)[..2] == intro && (intro + sync)[2..] == sync;
  }

  /** All that, and the loop. */
  ghost predicate IsServing(did: seq<Action>, sid: nat, fired: nat) {
    forall t: Token {:trigger ServingAt(did, sid, fired, t)} :: ServingAt(did, sid, fired, t)
  }

  ghost predicate ServingAt(did: seq<Action>, sid: nat, fired: nat, t: Token) {
    || IsOpening(did, sid, false)
    || exists k: nat :: k <= |did| && IsOpening(did[..k], sid, true) && IsLive(did[k..], sid, fired)
  }

  lemma ServingOfFailed(opening: seq<Action>, sid: nat, fired: nat)
    requires IsOpening(opening, sid, false)
    ensures IsServing(opening, sid, fired)
  {
  }

  lemma ServingOf(opening: seq<Action>, live: seq<Action>, sid: nat, fired: nat)
    requires IsOpening(opening, sid, true) && IsLive(live, sid, fired)
    ensures IsServing(opening + live, sid, fired)
  {
    var k := |opening|;
    assert (opening + live)[..k] == opening && (opening + live)[k..] == live;
    assert IsOpening((opening + live)[..k], sid, true) && IsLive((opening + live)[k..], sid, fired);
  }

  /** Finding an object: a look-up, and where that finds none, a spawn. */
  function Finding(sid: nat, spawned: bool): seq<Action> {
    if spawned then [LookUp(sid), SpawnOwn(sid)] else [LookUp(sid)]
  }

  /** A live session: it is counted, finds its object, serves, gives the object back and then the
      count. */
  ghost predicate IsSession(did: seq<Action>, sid: nat, spawned: bool, fired: nat) {
    forall t: Token {:trigger SessionAt(did, sid, spawned, fired, t)} :: SessionAt(did, sid, spawned, fired, t)
  }

  ghost predicate SessionAt(did: seq<Action>, sid: nat, spawned: bool, fired: nat, t: Token) {
    exists serving: seq<Action> ::
      && IsServing(serving, sid, fired)
      && did == [Start(sid)] + Finding(sid, spawned) + serving + [Release(sid), Finish(sid)]
  }

  lemma SessionOf(serving: seq<Action>, sid: nat, spawned: bool, fired: nat) returns (did: seq<Action>)
    requires IsServing(serving, sid, fired)
    ensures did == [Start(sid)] + Finding(sid, spawned) + serving + [Release(sid), Finish(sid)]
    ensures IsSession(did, sid, spawned, fired)
  {
    did := [Start(sid)] + Finding(sid, spawned) + serving + [Release(sid), Finish(sid)];
  }

  /** The version check lets the client on. */
  predicate Supported(hello: Option<ClientMsg>, minVersion: nat) {
    hello.Some? && hello.value.Hello? && hello.value.version >= minVersion
  }

  predicate Admits(login: Option<ClientMsg>, auth: AuthResult) {
    login.Some? && login.value.Login? && auth.Granted?
  }

  /** What the version check answers. */
  function HelloAnswer(hello: Option<ClientMsg>, minVersion: nat): seq<ServerMsg> {
    if hello.None? || !hello.value.Hello? then []
    else if hello.value.version < minVersion then [VersionResult(false, minVersion)]
    else [VersionResult(true, 0)]
  }

  /** What the login answers. */
  function LoginAnswer(login: Option<ClientMsg>, auth: AuthResult): seq<ServerMsg> {
    if login.None? || !login.value.Login? then []
    else
      match auth
      case Granted(_) => [LoginResult(true, "")]
      case Invalid => [LoginResult(false, "invalid credentials")]
      case Unavailable => [LoginResult(false, "authentication unavailable")]
  }

  /** A handshake: the hello is read, and if it was accepted and that could be said, the login. */
  predicate IsHandshake(did: seq<Action>, sid: nat, hello: Option<ClientMsg>, login: Option<ClientMsg>,
                        auth: AuthResult, minVersion: nat, ok: bool)
  {
    && 1 <= |did| <= 2 && did[0].ReadHello? && did[0] == ReadHello(sid, hello, did[0].ok)
    && (|did| == 2 <==> Supported(hello, minVersion) && did[0].ok)
    && (|did| == 2 ==> did[1].ReadLogin? && did[1] == ReadLogin(sid, login, auth, did[1].ok))
    && (ok <==> |did| == 2 && Admits(login, auth) && did[1].ok)
  }

  /** A visit: a handshake, and a live session if it succeeds. */
  ghost predicate IsVisit(did: seq<Action>, sid: nat, hello: Option<ClientMsg>, login: Option<ClientMsg>,
                          auth: AuthResult, minVersion: nat, fired: nat)
  {
    forall t: Token {:trigger VisitAt(did, sid, hello, login, auth, minVersion, fired, t)} ::
      VisitAt(did, sid, hello, login, auth, minVersion, fired, t)
  }

  ghost predicate VisitAt(did: seq<Action>, sid: nat, hello: Option<ClientMsg>, login: Option<ClientMsg>,
                          auth: AuthResult, minVersion: nat, fired: nat, t: Token)
  {
    || IsHandshake(did, sid, hello, login, auth, minVersion, false)
    || (&& |did| >= 2 && IsHandshake(did[..2], sid, hello, login, auth, minVersion, true)
        && exists spawned :: IsSession(did[2..], sid, spawned, fired))
  }

  lemma VisitOfFailed(shake: seq<Action>, sid: nat, hello: Option<ClientMsg>, login: Option<ClientMsg>,
                      auth: AuthResult, minVersion: nat, fired: nat)
    requires IsHandshake(shake, sid, hello, login, auth, minVersion, false)
    ensures IsVisit(shake, sid, hello, login, auth, minVersion, fired)
  {
  }

  lemma VisitOf(shake: seq<Action>, session: seq<Action>, sid: nat, hello: Option<ClientMsg>, login: Option<ClientMsg>,
                auth: AuthResult, minVersion: nat, spawned: bool, fired: nat)
    requires IsHandshake(shake, sid, hello, login, auth, minVersion, true) && IsSession(session, sid, spawned, fired)
    ensures IsVisit(shake + session, sid, hello, login, auth, minVersion, fired)
  {
    assert (shake + session)[..2] == shake && (shake + session)[2..] == session;
  }
}
