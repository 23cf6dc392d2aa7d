/**
 Movement in the running server. While nobody directs an object, it does what a world of ticks
 alone would make of it, whatever the sessions do in between; so what is proved of ticks holds of
 every run, and of the stream of positions a client is sent.
 */
module Course {
  import opened Wrappers
  import opened Motion
  import opened Universe
  import opened Protocol
  import opened Machine
  import opened Invariants
  import opened Theorems
  import opened Runs
  import opened Steps
  import opened Readers

  /** The durations of the ticks of a run. */
  function Ticks(acts: seq<Action>): seq<int> {
    if acts == [] then []
    else
      var before, a := Ticks(acts[..|acts| - 1]), acts[|acts| - 1];
      if a.Ticked? then before + [a.ns] else before
  }

  /** A command that steers or halts object `n`. */
  predicate Directs(s: System, a: Action, n: nat) {
    && a.Command? && Has(s, a.sid) && s.sessions[a.sid].control.id == n
    && a.msg.Some? && (a.msg.value.StopMoving? || (a.msg.value.Move? && a.msg.value.target.Some?))
  }

  /** No step of the run directs object `n`. */
  ghost predicate Undirected(h: Hypot, s: System, acts: seq<Action>, n: nat) {
    if acts == [] then true
    else
      var before := Run(h, s, acts[..|acts| - 1]);
      && Undirected(h, s, acts[..|acts| - 1], n)
      && (before.Some? ==> !Directs(before.value, acts[|acts| - 1], n))
  }

  lemma StepFollowsTicks(h: Hypot, s: System, a: Action, n: nat)
    requires Enabled(s, a) && !Directs(s, a, n) && (a.SpawnOwn? ==> SpawnId(s.world) != n)
    requires n in s.world.objects && n in Apply(h, s, a).world.objects
    ensures Apply(h, s, a).world.objects[n] ==
              if a.Ticked? then Tick(h, s.world, a.ns).objects[n] else s.world.objects[n]
  {
  }

  lemma StepKeepsIssued(h: Hypot, s: System, a: Action)
    requires Enabled(s, a)
    ensures s.issued.Keys <= Apply(h, s, a).issued.Keys
  {
  }

  lemma {:induction false} RunKeepsIssued(h: Hypot, s: System, acts: seq<Action>)
    requires Run(h, s, acts).Some?
    ensures s.issued.Keys <= Run(h, s, acts).value.issued.Keys
  {
    if acts == [] {
    } else {
      RunKeepsIssued(h, s, acts[..|acts| - 1]);
      StepKeepsIssued(h, Run(h, s, acts[..|acts| - 1]).value, acts[|acts| - 1]);
    }
  }

  lemma TickSees(h: Hypot, w: WorldState, w': WorldState, ns: int, n: nat)
    requires n in w.objects && n in w'.objects && w.objects[n] == w'.objects[n]
    ensures n in Tick(h, w, ns).objects && n in Tick(h, w', ns).objects
    ensures Tick(h, w, ns).objects[n] == Tick(h, w', ns).objects[n]
  {
  }

  lemma TickAllNext(h: Hypot, w: WorldState, ticks: seq<int>, ns: int)
    ensures TickAll(h, w, ticks + [ns]) == Tick(h, TickAll(h, w, ticks), ns)
  {
    assert (ticks + [ns])[..|ticks|] == ticks;
  }

  /** Over any run in which nobody directs it, an object that is there at both ends does what the
      ticks of the run alone make of it. */
  lemma {:induction false} ObjectFollowsTicks(h: Hypot, s: System, acts: seq<Action>, n: nat)
    requires Inv(s) && Run(h, s, acts).Some? && Undirected(h, s, acts, n)
    requires n in s.world.objects && n in Run(h, s, acts).value.world.objects
    ensures n in TickAll(h, s.world, Ticks(acts)).objects
    ensures Run(h, s, acts).value.world.objects[n] == TickAll(h, s.world, Ticks(acts)).objects[n]
  {
    if acts == [] {
    } else {
      var before, a := acts[..|acts| - 1], acts[|acts| - 1];
      var t := Run(h, s, before).value;
      RunKeeps(h, s, before);
      RunKeepsIssued(h, s, before);
      if n !in t.world.objects {
        StepNeverReissues(h, t, a, n);
        assert false;
      }
      ObjectFollowsTicks(h, s, before, n);
      if a.SpawnOwn? {
        SpawnIdIsNew(t);
      }
      StepFollowsTicks(h, t, a, n);
      if a.Ticked? {
        TickSees(h, t.world, TickAll(h, s.world, Ticks(before)), a.ns, n);
        TickAllNext(h, s.world, Ticks(before), a.ns);
      }
    }
  }

  /** Two runs from one state, of equal elapsed time, leave an object nobody directs in one place,
      whatever their ticks and whatever the sessions did in either. */
  lemma RunsAgree(h: Hypot, s: System, acts: seq<Action>, acts': seq<Action>, n: nat)
    requires IsHypot(h) && Inv(s) && n in s.world.objects && Elapsed(Ticks(acts)) == Elapsed(Ticks(acts'))
    requires Run(h, s, acts).Some? && Undirected(h, s, acts, n) && n in Run(h, s, acts).value.world.objects
    requires Run(h, s, acts').Some? && Undirected(h, s, acts', n) && n in Run(h, s, acts').value.world.objects
    ensures Run(h, s, acts).value.world.objects[n] == Run(h, s, acts').value.world.objects[n]
  {
    ObjectFollowsTicks(h, s, acts, n);
    ObjectFollowsTicks(h, s, acts', n);
    TickRateIndependent(h, s.world, Ticks(acts), Ticks(acts'));
  }

  // ---------- commands ----------

  lemma CommandSteps(h: Hypot, s: System, sid: nat, msg: Option<ClientMsg>)
    requires Enabled(s, Command(sid, msg))
    ensures Apply(h, s, Command(sid, msg)).world == AfterCommand(s.world, s.sessions[sid].control.id, msg)
  {
  }

  /** A Move that is read is carried out by the running server exactly, whatever state its session is
      in: the object has arrived if and only if speed times elapsed time covers the distance, and is
      then seen at the very point. */
  lemma MoveIsObeyed(h: Hypot, s: System, sid: nat, tx: int, ty: int, more: seq<Action>)
    requires IsHypot(h) && Inv(s) && Enabled(s, Command(sid, Some(Move(Some((tx, ty))))))
    requires var n := s.sessions[sid].control.id;
             && n in s.world.objects && s.world.objects[n].attrs.maxSpeed > 0.0 && Elapsed(Ticks(more)) > 0
             && var t := Apply(h, s, Command(sid, Some(Move(Some((tx, ty))))));
                && Run(h, t, more).Some? && Undirected(h, t, more, n) && n in Run(h, t, more).value.world.objects
    ensures var n := s.sessions[sid].control.id;
            var o, t := s.world.objects[n], Apply(h, s, Command(sid, Some(Move(Some((tx, ty))))));
            var w', sec := Run(h, t, more).value.world, Seconds(Elapsed(Ticks(more)));
            && ArrivesExactly(h, Steer(o, tx, ty).body, o.attrs.maxSpeed, sec, w'.objects[n].body)
            && (!w'.objects[n].body.hasTarget ==> Get(w', n) == Some(ObjectState(o.id, tx, ty, o.typeKey)))
  {
    var n, cmd := s.sessions[sid].control.id, Command(sid, Some(Move(Some((tx, ty)))));
    CommandSteps(h, s, sid, cmd.msg);
    StepKeeps(h, s, cmd);
    ObjectFollowsTicks(h, Apply(h, s, cmd), more, n);
    MoveArrives(h, s.world, n, tx, ty, Ticks(more));
  }

  /** A Stop that is read holds: the object is seen in one place until someone directs it again. */
  lemma StopIsObeyed(h: Hypot, s: System, sid: nat, more: seq<Action>)
    requires IsHypot(h) && Inv(s) && Enabled(s, Command(sid, Some(StopMoving)))
    requires var n, t := s.sessions[sid].control.id, Apply(h, s, Command(sid, Some(StopMoving)));
             && n in s.world.objects
             && Run(h, t, more).Some? && Undirected(h, t, more, n) && n in Run(h, t, more).value.world.objects
    ensures var n := s.sessions[sid].control.id;
            Get(Run(h, Apply(h, s, Command(sid, Some(StopMoving))), more).value.world, n) == Get(s.world, n)
  {
    var n, cmd := s.sessions[sid].control.id, Command(sid, Some(StopMoving));
    CommandSteps(h, s, sid, cmd.msg);
    StepKeeps(h, s, cmd);
    ObjectFollowsTicks(h, Apply(h, s, cmd), more, n);
    StopHolds(h, s.world, n, Ticks(more));
  }

  /** `more` is a run in which nobody directs object `n`, which is still there at its end. */
  ghost predicate LeavesBe(h: Hypot, s: System, more: seq<Action>, n: nat) {
    Run(h, s, more).Some? && Undirected(h, s, more, n) && n in Run(h, s, more).value.world.objects
  }

  /** A client whose session is in its select loop, and whose connection still reads, can send a Move
      at any moment: it is obeyed, and its object has arrived if and only if speed times elapsed
      time covers the distance, and is then seen at the very point. */
  lemma MoveIsCarriedOut(h: Hypot, seeds: seq<Seed>, minVersion: nat, acts: seq<Action>, s: System, sid: nat,
                         tx: int, ty: int, more: seq<Action>)
    requires IsHypot(h) && Reached(h, seeds, minVersion, acts, s) && At(s, sid, Waiting) && None !in Heard(acts, sid)
    ensures Enabled(s, Command(sid, Some(Move(Some((tx, ty)))))) && s.sessions[sid].control.id in s.world.objects
    ensures var n := s.sessions[sid].control.id;
            var o, t := s.world.objects[n], Apply(h, s, Command(sid, Some(Move(Some((tx, ty))))));
            o.attrs.maxSpeed > 0.0 && Elapsed(Ticks(more)) > 0 && LeavesBe(h, t, more, n) ==>
              var w', sec := Run(h, t, more).value.world, Seconds(Elapsed(Ticks(more)));
              && ArrivesExactly(h, Steer(o, tx, ty).body, o.attrs.maxSpeed, sec, w'.objects[n].body)
              && (!w'.objects[n].body.hasTarget ==> Get(w', n) == Some(ObjectState(o.id, tx, ty, o.typeKey)))
  {
    ClientIsHeard(h, seeds, minVersion, acts, s, sid, Some(Move(Some((tx, ty)))));
    ReachedInv(h, seeds, minVersion, acts, s);
    var n := s.sessions[sid].control.id;
    if s.world.objects[n].attrs.maxSpeed > 0.0 && Elapsed(Ticks(more)) > 0
       && LeavesBe(h, Apply(h, s, Command(sid, Some(Move(Some((tx, ty)))))), more, n) {
      MoveIsObeyed(h, s, sid, tx, ty, more);
    }
  }

  /** So can it send a Stop, and that holds. */
  lemma StopIsCarriedOut(h: Hypot, seeds: seq<Seed>, minVersion: nat, acts: seq<Action>, s: System, sid: nat,
                         more: seq<Action>)
    requires IsHypot(h) && Reached(h, seeds, minVersion, acts, s) && At(s, sid, Waiting) && None !in Heard(acts, sid)
    ensures Enabled(s, Command(sid, Some(StopMoving))) && s.sessions[sid].control.id in s.world.objects
    ensures var n, t := s.sessions[sid].control.id, Apply(h, s, Command(sid, Some(StopMoving)));
            LeavesBe(h, t, more, n) ==> Get(Run(h, t, more).value.world, n) == Get(s.world, n)
  {
    ClientIsHeard(h, seeds, minVersion, acts, s, sid, Some(StopMoving));
    ReachedInv(h, seeds, minVersion, acts, s);
    if LeavesBe(h, Apply(h, s, Command(sid, Some(StopMoving))), more, s.sessions[sid].control.id) {
      StopIsObeyed(h, s, sid, more);
    }
  }

  /** A loaded object that nobody directed is seen where its row put it, under its row's type key. */
  lemma LoadedStaysPut(h: Hypot, seeds: seq<Seed>, minVersion: nat, acts: seq<Action>, s: System, id: nat)
    requires IsHypot(h) && Reached(h, seeds, minVersion, acts, s)
    requires id in s.loaded && Undirected(h, Boot(seeds, minVersion), acts, id)
    ensures LastSeed(seeds, id).Some?
    ensures var seed := LastSeed(seeds, id).value;
            Get(s.world, id) == Some(ObjectState(id, seed.x, seed.y, seed.typeKey))
  {
    var boot := Boot(seeds, minVersion);
    BootOk(seeds, minVersion);
    RunKeepsConstants(h, boot, acts);
    ReachedInv(h, seeds, minVersion, acts, s);
    ObjectFollowsTicks(h, boot, acts, id);
    LoadedIs(seeds, id);
    UntargetedStays(h, boot.world, id, Ticks(acts));
  }

  // ---------- the stream a client is sent ----------

  lemma StepKeepsControl(h: Hypot, s: System, a: Action, sid: nat)
    requires Inv(s) && Enabled(s, a) && Has(s, sid)
    ensures Has(Apply(h, s, a), sid) && Apply(h, s, a).sessions[sid].control == s.sessions[sid].control
  {
    ControlIsOk(s, sid);
    if a.Ticked? || a.sid != sid {
      StepIsLocal(h, s, a, sid);
    } else {
      StepOfSession(h, s, a);
      LiveStepKeepsControl(s, a);
    }
  }

  lemma LiveStepKeepsControl(s: System, a: Action)
    requires Enabled(s, a) && !a.Ticked? && !a.Connect? && !Early(s.sessions[a.sid].phase)
    ensures NextSession(s, a).control == s.sessions[a.sid].control
  {
  }

  lemma {:induction false} RunKeepsControl(h: Hypot, s: System, acts: seq<Action>, sid: nat)
    requires Inv(s) && Run(h, s, acts).Some? && Has(s, sid)
    ensures Has(Run(h, s, acts).value, sid)
    ensures Run(h, s, acts).value.sessions[sid].control == s.sessions[sid].control
  {
    if acts == [] {
    } else {
      var before := acts[..|acts| - 1];
      RunKeepsControl(h, s, before, sid);
      RunKeeps(h, s, before);
      StepKeepsControl(h, Run(h, s, before).value, acts[|acts| - 1], sid);
    }
  }

  /** Where a client believes itself to be after a look that goes well. */
  function SelfAfterLook(s: System, sid: nat): Option<(nat, int, int)>
    requires At(s, sid, Waiting) && Has(s, sid)
  {
    ReceiveAll(Fresh, OnLook(s.sessions[sid], s.world, true).out).self
  }

  lemma SelfIsSnapshot(h: Hypot, seeds: seq<Seed>, minVersion: nat, acts: seq<Action>, s: System, sid: nat)
    requires Reached(h, seeds, minVersion, acts, s) && At(s, sid, Waiting)
    ensures Has(s, sid) && s.sessions[sid].control.id in s.world.objects
    ensures var n := s.sessions[sid].control.id; var cur := Snapshot(s.world.objects[n]);
            SelfAfterLook(s, sid) == Some((n, cur.x, cur.y))
  {
    ReachedInv(h, seeds, minVersion, acts, s);
    SelfIsThere(s, sid);
    LookTells(s.sessions[sid], s.world);
  }

  /** The client's own position, over any two looks of its session between which nobody directs its
      object: the later is between the earlier and the target in each coordinate, and is the target
      once the object has arrived, whatever the rest of the server did and however many unchanged
      updates were left out. */
  lemma SelfStreamApproaches(h: Hypot, seeds: seq<Seed>, minVersion: nat, acts: seq<Action>, s: System,
                             more: seq<Action>, sid: nat, tx: int, ty: int)
    requires IsHypot(h) && Reached(h, seeds, minVersion, acts, s) && At(s, sid, Waiting) && Has(s, sid)
    requires Run(h, s, more).Some? && At(Run(h, s, more).value, sid, Waiting)
    requires var n := s.sessions[sid].control.id;
             && Undirected(h, s, more, n) && n in s.world.objects
             && var b := s.world.objects[n].body; b.hasTarget && b.tx == tx as real && b.ty == ty as real
    ensures var n, s' := s.sessions[sid].control.id, Run(h, s, more).value;
            && Has(s', sid) && n in s'.world.objects
            && SelfAfterLook(s, sid).Some? && SelfAfterLook(s', sid).Some?
            && var self, self' := SelfAfterLook(s, sid).value, SelfAfterLook(s', sid).value;
               && self.0 == self'.0 == n
               && Between(self.1, self'.1, tx) && Between(self.2, self'.2, ty)
               && (!s'.world.objects[n].body.hasTarget ==> self'.1 == tx && self'.2 == ty)
  {
    var n, s' := s.sessions[sid].control.id, Run(h, s, more).value;
    ReachedInv(h, seeds, minVersion, acts, s);
    RunJoin(h, Boot(seeds, minVersion), acts, more);
    RunKeepsControl(h, s, more, sid);
    SelfIsSnapshot(h, seeds, minVersion, acts, s, sid);
    SelfIsSnapshot(h, seeds, minVersion, acts + more, s', sid);
    ObjectFollowsTicks(h, s, more, n);
    SnapshotsApproach(h, s.world, Ticks(more), n, tx, ty);
  }
}
