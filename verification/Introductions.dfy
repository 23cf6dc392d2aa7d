/**
 What a session tells its client before the stream begins: whether it may come in, which object is
 its own, and where that is. Each is traced to the step of the run that decided it.
 */
module Introductions {
  import opened Wrappers
  import opened Motion
  import opened Universe
  import opened Protocol
  import opened Machine
  import opened Invariants
  import opened Theorems

  // ---------- the handshake ----------

  /** The answer to a Hello of version `v`. */
  ghost predicate AnswersHello(acts: seq<Action>, sid: nat, minVersion: nat, m: ServerMsg) {
    exists v: nat, ok: bool ::
      && ReadHello(sid, Some(Hello(v)), ok) in acts
      && m == if v < minVersion then VersionResult(false, minVersion) else VersionResult(true, 0)
  }

  function Reason(auth: AuthResult): string {
    match auth
    case Granted(_) => ""
    case Invalid => "invalid credentials"
    case Unavailable => "authentication unavailable"
  }

  /** The answer to a login on which the authenticator said `auth`. */
  ghost predicate AnswersLogin(acts: seq<Action>, sid: nat, m: ServerMsg, identity: nat) {
    exists user: string, secret: string, auth: AuthResult, ok: bool ::
      && ReadLogin(sid, Some(Login(user, secret)), auth, ok) in acts
      && m == LoginResult(auth.Granted?, Reason(auth))
      && (auth.Granted? ==> identity == auth.objectID)
  }

  ghost predicate Handshaken(acts: seq<Action>, sid: nat, minVersion: nat, p: Session) {
    && (|p.out| >= 1 ==> AnswersHello(acts, sid, minVersion, p.out[0]))
    && (|p.out| >= 2 ==> AnswersLogin(acts, sid, p.out[1], p.identity))
  }

  lemma HandshakenMore(acts: seq<Action>, a: Action, sid: nat, minVersion: nat, p: Session, q: Session)
    requires Handshaken(acts, sid, minVersion, p)
    requires q.identity == p.identity && p.out <= q.out && (q.out == p.out || |p.out| >= 2)
    ensures Handshaken(acts + [a], sid, minVersion, q)
  {
    if |p.out| >= 1 {
      var v: nat, ok: bool :|
        && ReadHello(sid, Some(Hello(v)), ok) in acts
        && p.out[0] == if v < minVersion then VersionResult(false, minVersion) else VersionResult(true, 0);
      assert ReadHello(sid, Some(Hello(v)), ok) in acts + [a];
    }
    if |p.out| >= 2 {
      var user: string, secret: string, auth: AuthResult, ok: bool :|
        && ReadLogin(sid, Some(Login(user, secret)), auth, ok) in acts
        && p.out[1] == LoginResult(auth.Granted?, Reason(auth))
        && (auth.Granted? ==> p.identity == auth.objectID);
      assert ReadLogin(sid, Some(Login(user, secret)), auth, ok) in acts + [a];
    }
  }

  lemma HandshakenByHello(acts: seq<Action>, sid: nat, minVersion: nat, p: Session, msg: Option<ClientMsg>, ok: bool)
    requires p.out == []
    ensures Handshaken(acts + [ReadHello(sid, msg, ok)], sid, minVersion, OnHello(p, minVersion, msg, ok))
  {
    assert ReadHello(sid, msg, ok) in acts + [ReadHello(sid, msg, ok)];
  }

  lemma HandshakenByLogin(acts: seq<Action>, sid: nat, minVersion: nat, p: Session, msg: Option<ClientMsg>,
                          auth: AuthResult, ok: bool)
    requires |p.out| == 1 && Handshaken(acts, sid, minVersion, p)
    ensures Handshaken(acts + [ReadLogin(sid, msg, auth, ok)], sid, minVersion, OnLogin(p, msg, auth, ok))
  {
    var a, q := ReadLogin(sid, msg, auth, ok), OnLogin(p, msg, auth, ok);
    HandshakenMore(acts, a, sid, minVersion, p, p);
    assert a in acts + [a];
    if msg.Some? && msg.value.Login? {
      assert q.out[0] == p.out[0];
      assert AnswersLogin(acts + [a], sid, q.out[1], q.identity);
    }
  }

  /** The steps that send a message outside the handshake. */
  predicate Writes(a: Action) {
    a.Assign? || a.Greet? || a.Send? || a.Look?
  }

  /** What a step outside the handshake leaves of a session. */
  lemma LaterStepAppends(s: System, a: Action)
    requires Enabled(s, a) && !a.Ticked? && !a.Connect? && !a.ReadHello? && !a.ReadLogin?
    ensures var p, q := s.sessions[a.sid], NextSession(s, a);
            && q.identity == p.identity && p.out <= q.out
            && (q.out == p.out || p.phase.Assigning? || p.phase.Greeting? || p.phase.Sending? || p.phase.Waiting?)
  {
    if Writes(a) {
      WriterAppends(s, a);
    } else {
      OthersAreSilent(s, a);
    }
  }

  lemma WriterAppends(s: System, a: Action)
    requires Enabled(s, a) && Writes(a)
    ensures var p, q := s.sessions[a.sid], NextSession(s, a);
            && q.identity == p.identity && p.out <= q.out
            && (p.phase.Assigning? || p.phase.Greeting? || p.phase.Sending? || p.phase.Waiting?)
  {
  }

  lemma OthersAreSilent(s: System, a: Action)
    requires Enabled(s, a) && !a.Ticked? && !a.Connect? && !a.ReadHello? && !a.ReadLogin? && !Writes(a)
    ensures var p, q := s.sessions[a.sid], NextSession(s, a); q.identity == p.identity && q.out == p.out
  {
  }

  /** How many messages were sent by when. */
  lemma Lengths(p: Session)
    requires TraceOk(p)
    ensures p.phase.AwaitHello? ==> p.out == []
    ensures p.phase.AwaitLogin? ==> |p.out| == 1
    ensures p.phase.Authenticated? || p.phase.Started? || p.phase.Spawning? || p.phase.Assigning? ==> |p.out| == 2
    ensures p.phase.Greeting? ==> |p.out| == 3
    ensures p.phase.Sampling? || p.phase.Sending? || p.phase.Waiting? ==> |p.out| >= 4
  {
    StagesAreSafe(p.out);
  }

  lemma TraceIsOk(s: System, sid: nat)
    requires Inv(s) && sid in s.sessions
    ensures TraceOk(s.sessions[sid])
  {
    assert SessionOk(s, sid, s.sessions[sid]);
  }

  lemma HandshakenStep(h: Hypot, acts: seq<Action>, s: System, a: Action, sid: nat)
    requires Inv(s) && Enabled(s, a) && sid in Apply(h, s, a).sessions
    requires sid in s.sessions ==> Handshaken(acts, sid, s.minVersion, s.sessions[sid])
    ensures Handshaken(acts + [a], sid, s.minVersion, Apply(h, s, a).sessions[sid])
  {
    if a.Ticked? || a.sid != sid {
      StepIsLocal(h, s, a, sid);
      HandshakenMore(acts, a, sid, s.minVersion, s.sessions[sid], s.sessions[sid]);
    } else {
      StepOfSession(h, s, a);
      if !a.Connect? {
        TraceIsOk(s, sid);
        Lengths(s.sessions[sid]);
        HandshakenOwnStep(acts, s, a);
      }
    }
  }

  lemma HandshakenOwnStep(acts: seq<Action>, s: System, a: Action)
    requires Enabled(s, a) && !a.Ticked? && !a.Connect?
    requires Handshaken(acts, a.sid, s.minVersion, s.sessions[a.sid])
    requires var p := s.sessions[a.sid];
             && (p.phase.AwaitHello? ==> p.out == []) && (p.phase.AwaitLogin? ==> |p.out| == 1)
             && (p.phase.Assigning? || p.phase.Greeting? || p.phase.Sending? || p.phase.Waiting? ==> |p.out| >= 2)
    ensures Handshaken(acts + [a], a.sid, s.minVersion, NextSession(s, a))
  {
    var p := s.sessions[a.sid];
    if a.ReadHello? {
      HandshakenByHello(acts, a.sid, s.minVersion, p, a.msg, a.ok);
    } else if a.ReadLogin? {
      HandshakenByLogin(acts, a.sid, s.minVersion, p, a.msg, a.auth, a.ok);
    } else {
      LaterStepAppends(s, a);
      HandshakenMore(acts, a, a.sid, s.minVersion, p, NextSession(s, a));
    }
  }

  lemma {:induction false} RunKeepsVersion(h: Hypot, s: System, acts: seq<Action>)
    requires Run(h, s, acts).Some?
    ensures Run(h, s, acts).value.minVersion == s.minVersion
  {
    if acts == [] {
    } else {
      RunKeepsVersion(h, s, acts[..|acts| - 1]);
      StepKeepsVersion(h, Run(h, s, acts[..|acts| - 1]).value, acts[|acts| - 1]);
    }
  }

  lemma StepKeepsVersion(h: Hypot, s: System, a: Action)
    requires Enabled(s, a)
    ensures Apply(h, s, a).minVersion == s.minVersion
  {
  }

  /** The first two messages of every session answer what was read: the version is accepted exactly
      when it is not below the oldest supported, else that one is named; the login is granted
      exactly when the authenticator grants it, with its object id, else the reason is given. */
  lemma {:induction false} HandshakeIsTrue(h: Hypot, seeds: seq<Seed>, minVersion: nat, acts: seq<Action>, s: System,
                                           sid: nat)
    requires Reached(h, seeds, minVersion, acts, s) && sid in s.sessions
    ensures Handshaken(acts, sid, minVersion, s.sessions[sid])
    decreases |acts|
  {
    if acts == [] {
    } else {
      var before, a := acts[..|acts| - 1], acts[|acts| - 1];
      var t := Run(h, Boot(seeds, minVersion), before).value;
      ReachedInv(h, seeds, minVersion, before, t);
      RunKeepsVersion(h, Boot(seeds, minVersion), before);
      if sid in t.sessions {
        HandshakeIsTrue(h, seeds, minVersion, before, t, sid);
      }
      HandshakenStep(h, before, t, a, sid);
      assert acts == before + [a];
    }
  }

  // ---------- the session's own object ----------

  /** The step in which a session last looked for its object. */
  function LastFind(acts: seq<Action>, sid: nat): (r: Option<nat>)
    ensures r.Some? ==> r.value < |acts|
  {
    if acts == [] then None
    else
      var a := acts[|acts| - 1];
      if (a.LookUp? || a.SpawnOwn?) && a.sid == sid then Some(|acts| - 1) else LastFind(acts[..|acts| - 1], sid)
  }

  /** `st` is how the world had the object of `sid` right after that step. */
  ghost predicate ShowsFind(h: Hypot, boot: System, acts: seq<Action>, sid: nat, st: ObjectState) {
    LastFind(acts, sid).Some?
    && var t := Run(h, boot, acts[..LastFind(acts, sid).value + 1]);
       && t.Some? && Has(t.value, sid) && IsRounded(t.value.world, t.value.sessions[sid].control.id, st)
  }

  predicate IsRounded(w: WorldState, n: nat, st: ObjectState) {
    n in w.objects && var o := w.objects[n]; st == ObjectState(n, Round(o.body.x), Round(o.body.y), o.typeKey)
  }

  ghost predicate Found(h: Hypot, boot: System, acts: seq<Action>, sid: nat, s: System) {
    Has(s, sid) ==>
      var p := s.sessions[sid];
      && ShowsFind(h, boot, acts, sid, p.st)
      && p.st.id == p.control.id && p.control.id in s.issued && p.st.typeKey == s.issued[p.control.id]
  }

  lemma FindShows(h: Hypot, s: System, a: Action)
    requires WorldOk(s) && Enabled(s, a) && Assumed(s, a) && (a.LookUp? || a.SpawnOwn?)
    requires !NextSession(s, a).control.Nobody? && (a.LookUp? ==> s.sessions[a.sid].control.Nobody?)
    ensures var p := NextSession(s, a);
            && IsRounded(NextWorld(h, s, a), p.control.id, p.st) && p.st.id == p.control.id
            && (a.LookUp? ==> p.control.id in s.issued && p.st.typeKey == s.issued[p.control.id])
            && (a.SpawnOwn? ==> p.control.id == SpawnId(s.world) && p.st.typeKey == "")
  {
    if a.SpawnOwn? {
      RoundExact(0);
    }
  }

  lemma OtherStepsKeepObject(s: System, a: Action)
    requires Enabled(s, a) && !a.Ticked? && !a.Connect? && !a.LookUp? && !a.SpawnOwn?
    ensures NextSession(s, a).control == s.sessions[a.sid].control && NextSession(s, a).st == s.sessions[a.sid].st
  {
    if a.ReadHello? || a.ReadLogin? {
      HandshakeKeepsObject(s.sessions[a.sid], s.minVersion, a);
    } else {
      LiveStepKeepsObject(s, a);
    }
  }

  lemma HandshakeKeepsObject(p: Session, minVersion: nat, a: Action)
    ensures a.ReadHello? ==> var q := OnHello(p, minVersion, a.msg, a.ok); q.control == p.control && q.st == p.st
    ensures a.ReadLogin? ==> var q := OnLogin(p, a.msg, a.auth, a.ok); q.control == p.control && q.st == p.st
  {
  }

  lemma LiveStepKeepsObject(s: System, a: Action)
    requires Enabled(s, a) && !a.Ticked? && !a.Connect? && !a.ReadHello? && !a.ReadLogin? && !a.LookUp? && !a.SpawnOwn?
    ensures NextSession(s, a).control == s.sessions[a.sid].control && NextSession(s, a).st == s.sessions[a.sid].st
  {
  }

  lemma StepKeepsKeys(h: Hypot, s: System, a: Action, id: nat)
    requires WorldOk(s) && Enabled(s, a) && Assumed(s, a) && id in s.issued
    ensures id in Apply(h, s, a).issued && Apply(h, s, a).issued[id] == s.issued[id]
  {
    if a.SpawnOwn? {
      SpawnIdIsNew(s);
    }
  }

  lemma ShowsFindNow(h: Hypot, boot: System, acts: seq<Action>, sid: nat, t: System, st: ObjectState)
    requires acts != [] && (acts[|acts| - 1].LookUp? || acts[|acts| - 1].SpawnOwn?) && acts[|acts| - 1].sid == sid
    requires Run(h, boot, acts) == Some(t) && Has(t, sid) && IsRounded(t.world, t.sessions[sid].control.id, st)
    ensures ShowsFind(h, boot, acts, sid, st)
  {
    assert acts[..|acts| - 1 + 1] == acts;
  }

  predicate Finds(a: Action, sid: nat) {
    (a.LookUp? || a.SpawnOwn?) && a.sid == sid
  }

  lemma ShowsFindStill(h: Hypot, boot: System, acts: seq<Action>, a: Action, sid: nat, st: ObjectState)
    requires ShowsFind(h, boot, acts, sid, st) && !Finds(a, sid)
    ensures ShowsFind(h, boot, acts + [a], sid, st)
  {
    var more := acts + [a];
    assert more[..|more| - 1] == acts;
    assert more[..LastFind(acts, sid).value + 1] == acts[..LastFind(acts, sid).value + 1];
  }

  /** The step that finds the object. */
  lemma FoundByFind(h: Hypot, boot: System, acts: seq<Action>, s: System, a: Action)
    requires Run(h, boot, acts) == Some(s) && Inv(s) && Enabled(s, a) && Assumed(s, a) && (a.LookUp? || a.SpawnOwn?)
    ensures Found(h, boot, acts + [a], a.sid, Apply(h, s, a))
  {
    var t := Apply(h, s, a);
    StepOfSession(h, s, a);
    FindSteps(h, s, a);
    RunNext(h, boot, acts, s, a);
    if Has(t, a.sid) {
      ShowsFindNow(h, boot, acts + [a], a.sid, t, t.sessions[a.sid].st);
    }
  }

  lemma RunNext(h: Hypot, boot: System, acts: seq<Action>, s: System, a: Action)
    requires Run(h, boot, acts) == Some(s) && Enabled(s, a) && Assumed(s, a)
    ensures Run(h, boot, acts + [a]) == Some(Apply(h, s, a))
  {
    assert (acts + [a])[..|acts|] == acts;
  }

  lemma FindSteps(h: Hypot, s: System, a: Action)
    requires Inv(s) && Enabled(s, a) && Assumed(s, a) && (a.LookUp? || a.SpawnOwn?)
    ensures var p, t := NextSession(s, a), Apply(h, s, a);
            !p.control.Nobody? ==>
              && IsRounded(t.world, p.control.id, p.st) && p.st.id == p.control.id
              && p.control.id in t.issued && p.st.typeKey == t.issued[p.control.id]
  {
    ControlIsOk(s, a.sid);
    if !NextSession(s, a).control.Nobody? {
      FindShows(h, s, a);
      IssuedByFind(h, s, a);
    }
  }

  lemma IssuedByFind(h: Hypot, s: System, a: Action)
    requires WorldOk(s) && Enabled(s, a) && (a.LookUp? || a.SpawnOwn?)
    ensures Apply(h, s, a).world == NextWorld(h, s, a)
    ensures Apply(h, s, a).issued == if a.SpawnOwn? then s.issued[SpawnId(s.world) := ""] else s.issued
  {
  }

  lemma ObjectKept(h: Hypot, s: System, a: Action, sid: nat)
    requires Enabled(s, a) && !Finds(a, sid) && Has(Apply(h, s, a), sid)
    ensures Has(s, sid)
    ensures var p, q := s.sessions[sid], Apply(h, s, a).sessions[sid]; q.control == p.control && q.st == p.st
  {
    if a.Ticked? || a.sid != sid {
      StepIsLocal(h, s, a, sid);
    } else {
      StepOfSession(h, s, a);
      if !a.Connect? {
        OtherStepsKeepObject(s, a);
      }
    }
  }

  /** A step that is no such step of `sid`. */
  lemma FoundByOther(h: Hypot, boot: System, acts: seq<Action>, sid: nat, s: System, a: Action)
    requires Found(h, boot, acts, sid, s) && WorldOk(s) && Enabled(s, a) && Assumed(s, a) && !Finds(a, sid)
    ensures Found(h, boot, acts + [a], sid, Apply(h, s, a))
  {
    if Has(Apply(h, s, a), sid) {
      ObjectKept(h, s, a, sid);
      StepKeepsKeys(h, s, a, s.sessions[sid].control.id);
      ShowsFindStill(h, boot, acts, a, sid, s.sessions[sid].st);
    }
  }

  lemma {:induction false} FoundAlways(h: Hypot, seeds: seq<Seed>, minVersion: nat, acts: seq<Action>, s: System,
                                       sid: nat)
    requires Reached(h, seeds, minVersion, acts, s)
    ensures Found(h, Boot(seeds, minVersion), acts, sid, s)
    decreases |acts|
  {
    if acts == [] {
    } else {
      var before, a := acts[..|acts| - 1], acts[|acts| - 1];
      var t := Run(h, Boot(seeds, minVersion), before).value;
      ReachedInv(h, seeds, minVersion, before, t);
      FoundAlways(h, seeds, minVersion, before, t, sid);
      FoundStep(h, Boot(seeds, minVersion), before, t, a, sid);
      assert acts == before + [a];
    }
  }

  lemma FoundStep(h: Hypot, boot: System, acts: seq<Action>, s: System, a: Action, sid: nat)
    requires Run(h, boot, acts) == Some(s) && Inv(s) && Found(h, boot, acts, sid, s) && Enabled(s, a) && Assumed(s, a)
    ensures Found(h, boot, acts + [a], sid, Apply(h, s, a))
  {
    if Finds(a, sid) {
      FoundByFind(h, boot, acts, s, a);
    } else {
      FoundByOther(h, boot, acts, sid, s, a);
    }
  }

  // ---------- telling it ----------

  /** The third and fourth message are about the object that was found. */
  predicate Introduces(p: Session) {
    && (|p.out| >= 3 ==>
          !p.control.Nobody? && p.out[2] == SelfAssign(p.control.id, p.st.x, p.st.y, p.st.typeKey))
    && (|p.out| >= 4 ==> p.out[3] == SelfUpdate(p.control.id, p.st.x, p.st.y))
  }

  lemma EarlyIsShort(s: System, a: Action)
    requires Enabled(s, a) && (a.ReadHello? || a.ReadLogin?)
    requires var p := s.sessions[a.sid];
             (p.phase.AwaitHello? ==> p.out == []) && (p.phase.AwaitLogin? ==> |p.out| == 1)
    ensures |NextSession(s, a).out| <= 2
  {
    AnswersOnce(s.sessions[a.sid], s.minVersion, a);
  }

  lemma AnswersOnce(p: Session, minVersion: nat, a: Action)
    ensures a.ReadHello? ==> |OnHello(p, minVersion, a.msg, a.ok).out| <= |p.out| + 1
    ensures a.ReadLogin? ==> |OnLogin(p, a.msg, a.auth, a.ok).out| <= |p.out| + 1
  {
  }

  lemma IntroducesNext(s: System, a: Action)
    requires Enabled(s, a) && !a.Ticked? && !a.Connect? && Introduces(s.sessions[a.sid])
    requires var p := s.sessions[a.sid];
             && (p.phase.AwaitHello? ==> p.out == []) && (p.phase.AwaitLogin? ==> |p.out| == 1)
             && (p.phase.Started? || p.phase.Spawning? || p.phase.Assigning? ==> |p.out| == 2)
             && (p.phase.Greeting? ==> |p.out| == 3)
             && (p.phase.Sending? || p.phase.Waiting? ==> |p.out| >= 4)
    ensures Introduces(NextSession(s, a))
  {
    if a.ReadHello? || a.ReadLogin? {
      EarlyIsShort(s, a);
    } else if !a.LookUp? && !a.SpawnOwn? {
      LaterStepAppends(s, a);
      LiveStepKeepsObject(s, a);
    }
  }

  lemma {:induction false} IntroducesAlways(h: Hypot, seeds: seq<Seed>, minVersion: nat, acts: seq<Action>, s: System,
                                            sid: nat)
    requires Reached(h, seeds, minVersion, acts, s) && sid in s.sessions
    ensures Introduces(s.sessions[sid])
    decreases |acts|
  {
    if acts == [] {
    } else {
      var before, a := acts[..|acts| - 1], acts[|acts| - 1];
      var t := Run(h, Boot(seeds, minVersion), before).value;
      ReachedInv(h, seeds, minVersion, before, t);
      if sid in t.sessions {
        IntroducesAlways(h, seeds, minVersion, before, t, sid);
      }
      IntroducesStep(h, t, a, sid);
    }
  }

  lemma IntroducesStep(h: Hypot, s: System, a: Action, sid: nat)
    requires Inv(s) && Enabled(s, a) && sid in Apply(h, s, a).sessions
    requires sid in s.sessions ==> Introduces(s.sessions[sid])
    ensures Introduces(Apply(h, s, a).sessions[sid])
  {
    if a.Ticked? || a.sid != sid {
      StepIsLocal(h, s, a, sid);
    } else {
      StepOfSession(h, s, a);
      if !a.Connect? {
        TraceIsOk(s, sid);
        Lengths(s.sessions[sid]);
        IntroducesNext(s, a);
      }
    }
  }

  /** A session that tells its client which object is its own, tells it the object it controls, the
      rounded position this had in the world when the session found or spawned it, and the type key
      its id was issued with; and tells that position once more. */
  lemma IntroductionIsTrue(h: Hypot, seeds: seq<Seed>, minVersion: nat, acts: seq<Action>, s: System, sid: nat)
    returns (k: nat, t: System)
    requires Reached(h, seeds, minVersion, acts, s) && sid in s.sessions && |s.sessions[sid].out| >= 3
    ensures LastFind(acts, sid) == Some(k) && Run(h, Boot(seeds, minVersion), acts[..k + 1]) == Some(t)
    ensures var p := s.sessions[sid];
            && Has(s, sid) && p.control.id in t.world.objects && p.control.id in s.issued
            && Has(t, sid) && t.sessions[sid].control.id == p.control.id
            && var n, b := p.control.id, t.world.objects[p.control.id].body;
               && p.out[2] == SelfAssign(n, Round(b.x), Round(b.y), s.issued[n])
               && (|p.out| > 3 ==> p.out[3] == SelfUpdate(n, Round(b.x), Round(b.y)))
  {
    IntroducesAlways(h, seeds, minVersion, acts, s, sid);
    FoundAlways(h, seeds, minVersion, acts, s, sid);
    k := LastFind(acts, sid).value;
    t := Run(h, Boot(seeds, minVersion), acts[..k + 1]).value;
  }
}
