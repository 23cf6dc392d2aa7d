/**
 The reader of a session: when it runs, and that a client's commands then reach the world.
 */
module Readers {
  import opened Wrappers
  import opened Motion
  import opened Universe
  import opened Protocol
  import opened Machine
  import opened Theorems
  import opened Steps

  /** A session nobody has yet took no step. */
  lemma {:induction false} UnknownTookNothing(h: Hypot, s: System, acts: seq<Action>, sid: nat)
    requires Run(h, s, acts).Some? && sid !in Run(h, s, acts).value.sessions
    ensures sid !in s.sessions && Mine(acts, sid) == [] && Heard(acts, sid) == []
  {
    if acts == [] {
    } else {
      var before, a := acts[..|acts| - 1], acts[|acts| - 1];
      var t := Run(h, s, before).value;
      StepNamesSession(h, t, a, sid);
      UnknownTookNothing(h, s, before, sid);
    }
  }

  lemma StepNamesSession(h: Hypot, s: System, a: Action, sid: nat)
    requires Enabled(s, a) && sid !in Apply(h, s, a).sessions
    ensures sid !in s.sessions && (a.Ticked? || a.sid != sid)
  {
    if !a.Ticked? && a.sid == sid {
      StepOfSession(h, s, a);
    } else {
      StepIsLocal(h, s, a, sid);
    }
  }

  /** What the steps and the reads of a session say of its reader: it starts when the first sync is
      complete and ends with the first read that fails. */
  ghost predicate ReaderIs(mine: seq<Action>, heard: seq<Option<ClientMsg>>, sid: nat, p: Session) {
    && (p.reader.NotStarted? <==> Settle(sid) !in mine)
    && (p.reader.Ended? <==> None in heard)
    && (p.phase.Waiting? ==> Settle(sid) in mine)
  }

  lemma ReaderNext(s: System, a: Action, mine: seq<Action>, heard: seq<Option<ClientMsg>>)
    requires Enabled(s, a) && !a.Ticked? && !a.Connect? && ReaderIs(mine, heard, a.sid, s.sessions[a.sid])
    ensures a.Command? ==> ReaderIs(mine, heard + [a.msg], a.sid, NextSession(s, a))
    ensures !a.Command? ==> ReaderIs(mine + [a], heard, a.sid, NextSession(s, a))
  {
    if a.ReadHello? || a.ReadLogin? {
      HandshakeKeepsReader(s.sessions[a.sid], s.minVersion, a);
    } else {
      LiveStepMovesReader(s, a);
    }
  }

  lemma HandshakeKeepsReader(p: Session, minVersion: nat, a: Action)
    ensures a.ReadHello? ==> var q := OnHello(p, minVersion, a.msg, a.ok); q.reader == p.reader && !q.phase.Waiting?
    ensures a.ReadLogin? ==> var q := OnLogin(p, a.msg, a.auth, a.ok); q.reader == p.reader && !q.phase.Waiting?
  {
  }

  lemma LiveStepMovesReader(s: System, a: Action)
    requires Enabled(s, a) && !a.Ticked? && !a.Connect? && !a.ReadHello? && !a.ReadLogin?
    ensures var p, q := s.sessions[a.sid], NextSession(s, a);
            && q.reader == (if a.Settle? && p.reader.NotStarted? then Running
                            else if a.Command? && a.msg.None? then Ended else p.reader)
            && (q.phase.Waiting? ==> a.Settle? || (a.Command? && p.phase.Waiting?))
            && (a.Command? ==> p.reader.Running?)
  {
  }

  lemma ReaderStep(h: Hypot, acts: seq<Action>, s: System, a: Action, sid: nat)
    requires Enabled(s, a) && sid in Apply(h, s, a).sessions
    requires if sid in s.sessions then ReaderIs(Mine(acts, sid), Heard(acts, sid), sid, s.sessions[sid])
             else Mine(acts, sid) == [] && Heard(acts, sid) == []
    ensures ReaderIs(Mine(acts + [a], sid), Heard(acts + [a], sid), sid, Apply(h, s, a).sessions[sid])
  {
    MineNext(acts, a, sid);
    HeardNext(acts, a, sid);
    if a.Ticked? || a.sid != sid {
      StepIsLocal(h, s, a, sid);
    } else {
      StepOfSession(h, s, a);
      if !a.Connect? {
        ReaderNext(s, a, Mine(acts, sid), Heard(acts, sid));
      }
    }
  }

  /** In every reachable state a session's reader has not started before its first sync is complete,
      has ended if and only if a read failed, and runs in between; so a session in its select loop
      has started it. */
  lemma {:induction false} ReaderRuns(h: Hypot, seeds: seq<Seed>, minVersion: nat, acts: seq<Action>, s: System,
                                      sid: nat)
    requires Reached(h, seeds, minVersion, acts, s) && sid in s.sessions
    ensures var p := s.sessions[sid];
            && (p.reader.NotStarted? <==> Settle(sid) !in Mine(acts, sid))
            && (p.reader.Ended? <==> None in Heard(acts, sid))
            && (p.phase.Waiting? ==> Settle(sid) in Mine(acts, sid))
    decreases |acts|
  {
    if acts == [] {
    } else {
      var before, a := acts[..|acts| - 1], acts[|acts| - 1];
      var t := Run(h, Boot(seeds, minVersion), before).value;
      if sid in t.sessions {
        ReaderRuns(h, seeds, minVersion, before, t, sid);
      } else {
        UnknownTookNothing(h, Boot(seeds, minVersion), before, sid);
      }
      ReaderStep(h, before, t, a, sid);
      assert acts == before + [a];
    }
  }

  /** So a client in a session's select loop is heard, whatever it says, unless a read failed. */
  lemma ClientIsHeard(h: Hypot, seeds: seq<Seed>, minVersion: nat, acts: seq<Action>, s: System, sid: nat,
                      msg: Option<ClientMsg>)
    requires Reached(h, seeds, minVersion, acts, s) && At(s, sid, Waiting) && None !in Heard(acts, sid)
    ensures Enabled(s, Command(sid, msg)) && s.sessions[sid].control.id in s.world.objects
  {
    ReaderRuns(h, seeds, minVersion, acts, s, sid);
    ReachedInv(h, seeds, minVersion, acts, s);
    SelfIsThere(s, sid);
  }
}
