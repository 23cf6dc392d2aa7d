/**
 What the hypothesis on account ids buys. `World.Load` keeps only the ids of one sector apart from
 the ids of spawned objects, while an account may name an object of any sector. The hypothesis is
 exact: a login is safe in every continuation if and only if it is granted such an id.
 */
module Accounts {
  import opened Wrappers
  import opened Motion
  import opened Universe
  import opened Protocol
  import opened Machine
  import opened Invariants
  import opened Theorems
  import opened Runs

  // ---------- every session can leave ----------

  /** Session `a` got from `s` to its deferred calls alone, and nothing else changed. */
  ghost predicate Left(s: System, s': System, a: nat)
    requires a in s.sessions
  {
    && At(s', a, Leaving) && s'.sessions[a].control == s.sessions[a].control
    && Elsewhere(s, s', a)
  }

  /** A session between syncs, or before its first, leaves in one step. */
  lemma LeavesAtOnce(h: Hypot, s: System, a: nat) returns (act: Action)
    requires a in s.sessions && !s.sessions[a].control.Nobody?
    requires var p := s.sessions[a].phase; p.Assigning? || p.Greeting? || p.Waiting?
    ensures Enabled(s, act) && Assumed(s, act) && Left(s, Apply(h, s, act), a)
  {
    match s.sessions[a].phase
    case Assigning => act := Assign(a, false);
    case Greeting => act := Greet(a, false);
    case _ => act := Quit(a);
  }

  lemma LeavesAfterSync(h: Hypot, s: System, a: nat) returns (acts: seq<Action>)
    requires At(s, a, Sending) && !s.sessions[a].control.Nobody?
    ensures Run(h, s, acts).Some? && Left(s, Run(h, s, acts).value, a)
  {
    if s.sessions[a].pending != [] {
      RunOne(h, s, Send(a, false));
      return [Send(a, false)];
    }
    var t := Apply(h, s, Settle(a));
    RunOne(h, s, Settle(a));
    RunOne(h, t, Quit(a));
    RunJoin(h, s, [Settle(a)], [Quit(a)]);
    acts := [Settle(a)] + [Quit(a)];
  }

  lemma CanLeave(h: Hypot, s: System, a: nat) returns (acts: seq<Action>)
    requires a in s.sessions && Holding(s.sessions[a].phase) && !s.sessions[a].control.Nobody? && Filed(s.world)
    ensures Run(h, s, acts).Some? && Left(s, Run(h, s, acts).value, a)
  {
    match s.sessions[a].phase
    case Leaving =>
      acts := [];
    case Sending =>
      acts := LeavesAfterSync(h, s, a);
    case Sampling =>
      var act := Syncs(h, s, a);
      var rest := LeavesAfterSync(h, Apply(h, s, act), a);
      RunOne(h, s, act);
      RunJoin(h, s, [act], rest);
      acts := [act] + rest;
    case _ =>
      var act := LeavesAtOnce(h, s, a);
      RunOne(h, s, act);
      acts := [act];
  }

  // ---------- a login that names an object in the world ----------

  /** Session `b` has an object that is not there. */
  predicate Bereft(s: System, b: nat) {
    && b in s.sessions && Holding(s.sessions[b].phase)
    && (s.sessions[b].control.Nobody? || s.sessions[b].control.id !in s.world.objects)
  }

  lemma TakesObject(h: Hypot, s: System, b: nat)
    requires At(s, b, Authenticated) && s.sessions[b].identity != 0 && s.sessions[b].identity in s.world.objects
    ensures var acts := [Start(b)] + [LookUp(b)];
            && Run(h, s, acts).Some?
            && var t := Run(h, s, acts).value;
               At(t, b, Assigning) && t.sessions[b].control == Loaded(s.sessions[b].identity) && Elsewhere(s, t, b)
  {
    RunOne(h, s, Start(b));
    RunOne(h, Apply(h, s, Start(b)), LookUp(b));
    RunJoin(h, s, [Start(b)], [LookUp(b)]);
  }

  lemma Releases(h: Hypot, s: System, a: nat)
    requires At(s, a, Leaving) && s.sessions[a].control.Own?
    ensures Run(h, s, [Release(a)]).Some?
    ensures var t := Run(h, s, [Release(a)]).value;
            && s.sessions[a].control.id !in t.world.objects
            && forall i :: i in s.sessions && i != a ==> i in t.sessions && t.sessions[i] == s.sessions[i]
  {
    RunOne(h, s, Release(a));
  }

  /** The spawner leaves, and takes away the object another session was assigned. */
  lemma SpawnerTakesAway(h: Hypot, s: System, a: nat, b: nat) returns (more: seq<Action>)
    requires a != b && a in s.sessions && Holding(s.sessions[a].phase) && s.sessions[a].control.Own? && Filed(s.world)
    requires At(s, b, Authenticated) && s.sessions[b].identity == s.sessions[a].control.id
    requires s.sessions[b].identity != 0 && s.sessions[b].identity in s.world.objects
    ensures Run(h, s, more).Some? && Bereft(Run(h, s, more).value, b)
  {
    var taking := [Start(b)] + [LookUp(b)];
    TakesObject(h, s, b);
    var t := Run(h, s, taking).value;
    var leaving := CanLeave(h, t, a);
    var u := Run(h, t, leaving).value;
    Releases(h, u, a);
    RunJoin(h, s, taking, leaving);
    RunJoin(h, s, taking + leaving, [Release(a)]);
    more := taking + leaving + [Release(a)];
  }

  /** Whose an object above the loaded ids is. */
  lemma SpawnerOf(s: System, n: nat) returns (a: nat)
    requires Inv(s) && n in s.world.objects && n > s.top
    ensures a in s.sessions && s.sessions[a].control == Own(n) && Holding(s.sessions[a].phase)
  {
    a := s.owner[n];
    ControlIsOk(s, a);
  }

  function Granting(b: nat, n: uint64, user: string, secret: string): Action {
    ReadLogin(b, Some(Login(user, secret)), Granted(n), true)
  }

  /** A login for an object another session has: its spawner can take it away. */
  lemma TakenIsUnsafe(h: Hypot, s: System, b: nat, n: uint64, user: string, secret: string) returns (more: seq<Action>)
    requires Inv(s) && At(s, b, AwaitLogin) && n in s.world.objects && n > s.top
    ensures var t := Apply(h, s, Granting(b, n, user, secret));
            Run(h, t, more).Some? && Bereft(Run(h, t, more).value, b)
  {
    var a := SpawnerOf(s, n);
    ControlIsOk(s, b);
    more := SpawnerTakesAway(h, Apply(h, s, Granting(b, n, user, secret)), a, b);
  }

  /** A login for an id the counter has not reached: new sessions can spawn up to it before the
      object is looked up, and the last of them can take it away. */
  lemma ComingIsUnsafe(h: Hypot, s: System, b: nat, n: uint64, user: string, secret: string) returns (more: seq<Action>)
    requires Inv(s) && At(s, b, AwaitLogin) && n > s.world.nextID
    ensures var t := Apply(h, s, Granting(b, n, user, secret));
            Run(h, t, more).Some? && Bereft(Run(h, t, more).value, b)
  {
    var t := Apply(h, s, Granting(b, n, user, secret));
    var spawning, c := SpawnsUpTo(h, t, n);
    var taking := SpawnerTakesAway(h, Run(h, t, spawning).value, c, b);
    RunJoin(h, t, spawning, taking);
    more := spawning + taking;
  }

  lemma NobodyIsBereft(s: System, b: nat)
    requires Inv(s)
    ensures !Bereft(s, b)
  {
    if b in s.sessions {
      ControlIsOk(s, b);
    }
  }

  /** A login granted any id is safe, whatever happens next, if and only if the id is not above the
      loaded ones, or is one that was reached and whose object is gone. Otherwise the object is one
      that another session spawned, or can spawn before it is looked up; the account takes it over,
      and can be left without it. */
  lemma LoginIsSafeIff(h: Hypot, s: System, b: nat, n: uint64, user: string, secret: string)
    requires Inv(s) && At(s, b, AwaitLogin)
    ensures var t := Apply(h, s, Granting(b, n, user, secret));
            (n <= s.top || (n <= s.world.nextID && n !in s.world.objects))
            <==> forall more :: Run(h, t, more).Some? ==> !Bereft(Run(h, t, more).value, b)
  {
    var t := Apply(h, s, Granting(b, n, user, secret));
    if SafeId(s, n) {
      StepKeeps(h, s, Granting(b, n, user, secret));
      forall more | Run(h, t, more).Some?
        ensures !Bereft(Run(h, t, more).value, b)
      {
        RunKeeps(h, t, more);
        NobodyIsBereft(Run(h, t, more).value, b);
      }
    } else if n in s.world.objects {
      var more := TakenIsUnsafe(h, s, b, n, user, secret);
    } else {
      var more := ComingIsUnsafe(h, s, b, n, user, secret);
    }
  }
}
