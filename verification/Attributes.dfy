/**
 The attributes derived from an object's base mass, modules and cargo. The derivation is a sum
 over the fitting followed by a prioritised power cutoff; `Derive` is that function, which the
 accumulator loops of `Object.Recompute` compute. Reals stand for float64 and unbounded
 integers for int64 masses.
 */
module Attributes {
  datatype Params = Params(powerOutput: real, shieldCapacity: real, powerDraw: real,
                           thrust: real, scanner: real, jammer: real)

  datatype Module = Module(mass: int, params: Params)

  datatype Cargo = Cargo(unitMass: int, quantity: int)

  datatype Attrs = Attrs(totalMass: int, maxSpeed: real, powerProduction: real, powerDraw: real,
                         shieldCapacity: real, scanner: real, jammer: real,
                         thrusterActive: bool, shieldActive: bool)

  /** The running totals of the derivation. */
  datatype Tally = Tally(mass: int, production: real, thrust: real, thrusterDraw: real,
                         shieldDraw: real, shieldCap: real, scanner: real, jammer: real)
  {
    function Plus(t: Tally): Tally {
      Tally(mass + t.mass, production + t.production, thrust + t.thrust, thrusterDraw + t.thrusterDraw,
            shieldDraw + t.shieldDraw, shieldCap + t.shieldCap, scanner + t.scanner, jammer + t.jammer)
    }
  }

  function Bare(mass: int): Tally {
    Tally(mass, 0.0, 0.0, 0.0, 0.0, 0.0, 0.0, 0.0)
  }

  /** What one module adds. Its roles are read off its parameters: one that both thrusts and
      shields draws its power twice. */
  function OfModule(m: Module): Tally {
    var p := m.params;
    Tally(m.mass, p.powerOutput,
          if p.thrust > 0.0 then p.thrust else 0.0,
          if p.thrust > 0.0 then p.powerDraw else 0.0,
          if p.shieldCapacity > 0.0 then p.powerDraw else 0.0,
          if p.shieldCapacity > 0.0 then p.shieldCapacity else 0.0,
          p.scanner, p.jammer)
  }

  function OfCargo(c: Cargo): Tally {
    Bare(c.unitMass * c.quantity)
  }

  function Total<T>(of: T -> Tally, s: seq<T>): Tally {
    if s == [] then Bare(0) else Total(of, s[..|s| - 1]).Plus(of(s[|s| - 1]))
  }

  function Fitting(baseMass: int, modules: seq<Module>, cargo: seq<Cargo>): Tally {
    Bare(baseMass).Plus(Total(OfModule, modules)).Plus(Total(OfCargo, cargo))
  }

  /** The power cutoff: the thruster goes first, then the shield. */
  function Cutoff(t: Tally): Attrs {
    var thruster := t.thrusterDraw + t.shieldDraw <= t.production;
    var shield := thruster || t.shieldDraw <= t.production;
    Attrs(t.mass,
          if thruster && t.mass > 0 then t.thrust / t.mass as real else 0.0,
          t.production,
          (if thruster then t.thrusterDraw else 0.0) + (if shield then t.shieldDraw else 0.0),
          if shield then t.shieldCap else 0.0,
          t.scanner, t.jammer, thruster, shield)
  }

  function Derive(baseMass: int, modules: seq<Module>, cargo: seq<Cargo>): Attrs {
    Cutoff(Fitting(baseMass, modules, cargo))
  }

  // ---------- the order of the rows does not matter ----------

  lemma {:induction false} TotalConcat<T>(of: T -> Tally, s: seq<T>, t: seq<T>)
    ensures Total(of, s + t) == Total(of, s).Plus(Total(of, t))
  {
    if t == [] {
      assert s + t == s;
    } else {
      var n := |t| - 1;
      assert (s + t)[..|s + t| - 1] == s + t[..n];
      TotalConcat(of, s, t[..n]);
    }
  }

  lemma TotalNext<T>(of: T -> Tally, s: seq<T>, i: nat)
    requires i < |s|
    ensures Total(of, s[..i + 1]) == Total(of, s[..i]).Plus(of(s[i]))
  {
    assert s[..i + 1][..i] == s[..i];
  }

  lemma TotalOne<T>(of: T -> Tally, x: T)
    ensures Total(of, [x]) == of(x)
  {
    assert [x][..0] == [];
  }

  lemma TotalMiddle<T>(of: T -> Tally, before: seq<T>, middle: seq<T>, after: seq<T>)
    ensures Total(of, before + middle + after) == Total(of, before).Plus(Total(of, middle)).Plus(Total(of, after))
  {
    TotalConcat(of, before + middle, after);
    TotalConcat(of, before, middle);
  }

  /** Taking one element out of a sequence takes its contribution out of the total. */
  lemma TotalRemove<T>(of: T -> Tally, s: seq<T>, i: nat)
    requires i < |s|
    ensures Total(of, s) == Total(of, s[..i] + s[i + 1..]).Plus(of(s[i]))
  {
    SplitAt(s, i);
    TotalMiddle(of, s[..i], [s[i]], s[i + 1..]);
    TotalOne(of, s[i]);
    TotalConcat(of, s[..i], s[i + 1..]);
    PlusSwap(Total(of, s[..i]), of(s[i]), Total(of, s[i + 1..]));
  }

  lemma SplitAt<T>(s: seq<T>, i: nat)
    requires i < |s|
    ensures s == s[..i] + [s[i]] + s[i + 1..]
  {
  }

  lemma PlusSwap(t: Tally, u: Tally, v: Tally)
    ensures t.Plus(u).Plus(v) == t.Plus(v).Plus(u)
  {
  }

  lemma {:induction false} TotalPermutation<T>(of: T -> Tally, s: seq<T>, t: seq<T>)
    requires multiset(s) == multiset(t)
    ensures Total(of, s) == Total(of, t)
    decreases |s|
  {
    if s == [] {
      assert |multiset(t)| == 0;
    } else {
      var n := |s| - 1;
      assert s == s[..n] + [s[n]];
      assert s[n] in multiset(t);
      var i :| 0 <= i < |t| && t[i] == s[n];
      assert t == t[..i] + ([t[i]] + t[i + 1..]);
      assert multiset(t[..i] + t[i + 1..]) == multiset(t) - multiset{t[i]};
      TotalPermutation(of, s[..n], t[..i] + t[i + 1..]);
      TotalRemove(of, t, i);
    }
  }

  /** The derivation is a function of the multisets of modules and cargo stacks. */
  lemma DeriveIgnoresOrder(baseMass: int, modules: seq<Module>, modules': seq<Module>, cargo: seq<Cargo>,
                           cargo': seq<Cargo>)
    requires multiset(modules) == multiset(modules') && multiset(cargo) == multiset(cargo')
    ensures Derive(baseMass, modules, cargo) == Derive(baseMass, modules', cargo')
  {
    TotalPermutation(OfModule, modules, modules');
    TotalPermutation(OfCargo, cargo, cargo');
  }

  /** Splitting a stack anywhere among the others, into any two quantities, changes nothing. */
  lemma DeriveIgnoresSplit(baseMass: int, modules: seq<Module>, before: seq<Cargo>, unitMass: int, q: int, q': int,
                           after: seq<Cargo>)
    ensures Derive(baseMass, modules, before + [Cargo(unitMass, q + q')] + after)
         == Derive(baseMass, modules, before + [Cargo(unitMass, q), Cargo(unitMass, q')] + after)
  {
    SplitStack(unitMass, q, q');
    TotalMiddle(OfCargo, before, [Cargo(unitMass, q + q')], after);
    TotalMiddle(OfCargo, before, [Cargo(unitMass, q), Cargo(unitMass, q')], after);
  }

  lemma SplitStack(unitMass: int, q: int, q': int)
    ensures Total(OfCargo, [Cargo(unitMass, q + q')]) == Total(OfCargo, [Cargo(unitMass, q), Cargo(unitMass, q')])
  {
    var part, part' := Cargo(unitMass, q), Cargo(unitMass, q');
    assert [part, part'] == [part] + [part'];
    TotalConcat(OfCargo, [part], [part']);
    TotalOne(OfCargo, Cargo(unitMass, q + q'));
    TotalOne(OfCargo, part);
    TotalOne(OfCargo, part');
    SplitMass(unitMass, q, q');
  }

  lemma SplitMass(unitMass: int, q: int, q': int)
    ensures OfCargo(Cargo(unitMass, q + q')) == OfCargo(Cargo(unitMass, q)).Plus(OfCargo(Cargo(unitMass, q')))
  {
    assert unitMass * (q + q') == unitMass * q + unitMass * q';
  }

  // ---------- the cutoff ----------

  /** The candidate sets of active consumers, largest first. */
  datatype Keep = Both | ShieldOnly | Neither
  {
    function Draw(t: Tally): real {
      match this
      case Both => t.thrusterDraw + t.shieldDraw
      case ShieldOnly => t.shieldDraw
      case Neither => 0.0
    }

    predicate Larger(than: Keep) {
      (Both? && !than.Both?) || (ShieldOnly? && than.Neither?)
    }
  }

  function Kept(a: Attrs): Keep {
    if a.thrusterActive then Both else if a.shieldActive then ShieldOnly else Neither
  }

  predicate NonNegativePower(modules: seq<Module>) {
    forall m :: m in modules ==> m.params.powerOutput >= 0.0 && m.params.powerDraw >= 0.0
  }

  lemma {:induction false} TotalPowerNonNegative(modules: seq<Module>)
    requires NonNegativePower(modules)
    ensures var t := Total(OfModule, modules);
            t.production >= 0.0 && t.thrusterDraw >= 0.0 && t.shieldDraw >= 0.0
  {
    if modules == [] {
    } else {
      TotalPowerNonNegative(modules[..|modules| - 1]);
    }
  }

  lemma {:induction false} CargoIsMass(cargo: seq<Cargo>)
    ensures Total(OfCargo, cargo) == Bare(Total(OfCargo, cargo).mass)
  {
    if cargo == [] {
    } else {
      CargoIsMass(cargo[..|cargo| - 1]);
    }
  }

  /** With no negative rating, the cutoff keeps the largest set of the chain that fits the
      production, and the reported draw is that set's. */
  lemma CutoffKeepsLargest(baseMass: int, modules: seq<Module>, cargo: seq<Cargo>)
    requires NonNegativePower(modules)
    ensures var t, a := Fitting(baseMass, modules, cargo), Derive(baseMass, modules, cargo);
            && a.powerDraw == Kept(a).Draw(t) <= a.powerProduction
            && (a.thrusterActive ==> a.shieldActive)
            && forall k: Keep :: k.Larger(Kept(a)) ==> k.Draw(t) > a.powerProduction
  {
    TotalPowerNonNegative(modules);
    CargoIsMass(cargo);
  }

  /** For arbitrary ratings the final draw fits the production exactly when some set of the
      chain does. */
  lemma DrawFitsIff(t: Tally)
    ensures Cutoff(t).powerDraw <= Cutoff(t).powerProduction <==> exists k: Keep :: k.Draw(t) <= t.production
  {
    var a := Cutoff(t);
    if a.powerDraw <= a.powerProduction {
      assert a.thrusterActive ==> Both.Draw(t) <= t.production;
      assert !a.thrusterActive && a.shieldActive ==> ShieldOnly.Draw(t) <= t.production;
      assert !a.shieldActive ==> Neither.Draw(t) <= t.production;
    } else {
      assert Both.Draw(t) > t.production && ShieldOnly.Draw(t) > t.production && Neither.Draw(t) > t.production;
    }
  }

  /** The ratings are not checked: a lone generator with a negative one breaks the bound. */
  lemma NegativeGeneratorOverdraws(baseMass: int, m: Module)
    requires m.params == Params(m.params.powerOutput, 0.0, 0.0, 0.0, 0.0, 0.0) && m.params.powerOutput < 0.0
    ensures var a := Derive(baseMass, [m], []);
            a.powerDraw > a.powerProduction && !a.thrusterActive && !a.shieldActive
  {
    TotalOne(OfModule, m);
  }

  // ---------- the attributes, rating by rating ----------

  function SumOf<T>(rating: T -> real, s: seq<T>): real {
    if s == [] then 0.0 else SumOf(rating, s[..|s| - 1]) + rating(s[|s| - 1])
  }

  function SumOfInts<T>(rating: T -> int, s: seq<T>): int {
    if s == [] then 0 else SumOfInts(rating, s[..|s| - 1]) + rating(s[|s| - 1])
  }

  function Output(m: Module): real {
    m.params.powerOutput
  }

  function Thrust(m: Module): real {
    if m.params.thrust > 0.0 then m.params.thrust else 0.0
  }

  function ThrusterDraw(m: Module): real {
    if m.params.thrust > 0.0 then m.params.powerDraw else 0.0
  }

  function Shield(m: Module): real {
    if m.params.shieldCapacity > 0.0 then m.params.shieldCapacity else 0.0
  }

  function ShieldDraw(m: Module): real {
    if m.params.shieldCapacity > 0.0 then m.params.powerDraw else 0.0
  }

  function Scanner(m: Module): real {
    m.params.scanner
  }

  function Jammer(m: Module): real {
    m.params.jammer
  }

  function ModuleMass(m: Module): int {
    m.mass
  }

  function StackMass(c: Cargo): int {
    c.unitMass * c.quantity
  }

  lemma {:induction false} TotalOfModules(modules: seq<Module>)
    ensures Total(OfModule, modules) ==
              Tally(SumOfInts(ModuleMass, modules), SumOf(Output, modules), SumOf(Thrust, modules),
                    SumOf(ThrusterDraw, modules), SumOf(ShieldDraw, modules), SumOf(Shield, modules),
                    SumOf(Scanner, modules), SumOf(Jammer, modules))
  {
    if modules == [] {
    } else {
      TotalOfModules(modules[..|modules| - 1]);
    }
  }

  lemma {:induction false} TotalOfCargo(cargo: seq<Cargo>)
    ensures Total(OfCargo, cargo) == Bare(SumOfInts(StackMass, cargo))
  {
    if cargo == [] {
    } else {
      TotalOfCargo(cargo[..|cargo| - 1]);
    }
  }

  lemma FittingIs(baseMass: int, modules: seq<Module>, cargo: seq<Cargo>)
    ensures Fitting(baseMass, modules, cargo) ==
              Tally(baseMass + SumOfInts(ModuleMass, modules) + SumOfInts(StackMass, cargo), SumOf(Output, modules),
                    SumOf(Thrust, modules), SumOf(ThrusterDraw, modules), SumOf(ShieldDraw, modules),
                    SumOf(Shield, modules), SumOf(Scanner, modules), SumOf(Jammer, modules))
  {
    TotalOfModules(modules);
    TotalOfCargo(cargo);
  }

  /** Mass, output and sensors are plain sums over the fitting. */
  lemma DerivedSums(baseMass: int, modules: seq<Module>, cargo: seq<Cargo>)
    ensures var a := Derive(baseMass, modules, cargo);
            && a.totalMass == baseMass + SumOfInts(ModuleMass, modules) + SumOfInts(StackMass, cargo)
            && a.powerProduction == SumOf(Output, modules)
            && a.scanner == SumOf(Scanner, modules) && a.jammer == SumOf(Jammer, modules)
  {
    FittingIs(baseMass, modules, cargo);
  }

  /** The thruster and the shield draw more than is produced. */
  predicate Overdrawn(modules: seq<Module>) {
    SumOf(ThrusterDraw, modules) + SumOf(ShieldDraw, modules) > SumOf(Output, modules)
  }

  predicate IsQuotient(q: real, n: real, d: real) {
    q * d == n
  }

  /** An overdrawn ship does not drive; one that is not is as fast as its thrust drives its mass. */
  lemma DerivedSpeed(baseMass: int, modules: seq<Module>, cargo: seq<Cargo>)
    ensures var a := Derive(baseMass, modules, cargo);
            && (Overdrawn(modules) || a.totalMass <= 0 ==> a.maxSpeed == 0.0)
            && (!Overdrawn(modules) && a.totalMass > 0 ==>
                  IsQuotient(a.maxSpeed, SumOf(Thrust, modules), a.totalMass as real))
  {
    FittingIs(baseMass, modules, cargo);
    CutoffSpeed(Fitting(baseMass, modules, cargo));
  }

  /** The thruster is cut when the ship is overdrawn, the shield when it is by the shield alone; what
      is cut neither counts nor draws. */
  lemma DerivedPower(baseMass: int, modules: seq<Module>, cargo: seq<Cargo>)
    ensures var a := Derive(baseMass, modules, cargo);
            && (a.thrusterActive <==> !Overdrawn(modules))
            && (a.shieldActive <==> !Overdrawn(modules) || SumOf(ShieldDraw, modules) <= SumOf(Output, modules))
            && a.powerDraw == (if a.thrusterActive then SumOf(ThrusterDraw, modules) else 0.0)
                              + (if a.shieldActive then SumOf(ShieldDraw, modules) else 0.0)
    ensures var a := Derive(baseMass, modules, cargo);
            a.shieldCapacity == if Overdrawn(modules) && SumOf(ShieldDraw, modules) > SumOf(Output, modules) then 0.0
                                else SumOf(Shield, modules)
  {
    FittingIs(baseMass, modules, cargo);
  }

  lemma CutoffSpeed(t: Tally)
    ensures var a := Cutoff(t);
            && (t.thrusterDraw + t.shieldDraw > t.production || t.mass <= 0 ==> a.maxSpeed == 0.0)
            && (t.thrusterDraw + t.shieldDraw <= t.production && t.mass > 0 ==>
                  IsQuotient(a.maxSpeed, t.thrust, t.mass as real))
  {
    if t.mass > 0 {
      Quotient(t.thrust, t.mass as real);
    }
  }

  lemma Quotient(n: real, d: real)
    requires d > 0.0
    ensures IsQuotient(n / d, n, d)
  {
  }

  // ---------- load ----------

  /** More cargo makes a powered ship strictly slower, and changes nothing but mass and speed. */
  lemma LoadSlows(baseMass: int, modules: seq<Module>, cargo: seq<Cargo>, extra: Cargo)
    requires extra.unitMass > 0 && extra.quantity > 0
    requires var a := Derive(baseMass, modules, cargo); a.thrusterActive && a.totalMass > 0
    requires Fitting(baseMass, modules, cargo).thrust > 0.0
    ensures var a, laden := Derive(baseMass, modules, cargo), Derive(baseMass, modules, cargo + [extra]);
            && 0.0 < laden.maxSpeed < a.maxSpeed
            && laden.totalMass == a.totalMass + extra.unitMass * extra.quantity
            && laden == a.(totalMass := laden.totalMass, maxSpeed := laden.maxSpeed)
  {
    assert (cargo + [extra])[..|cargo|] == cargo;
    assert extra.unitMass * extra.quantity > 0;
    var t := Fitting(baseMass, modules, cargo);
    var t' := Fitting(baseMass, modules, cargo + [extra]);
    assert t' == t.Plus(OfCargo(extra));
    QuotientFalls(t.thrust, t.mass as real, t'.mass as real);
  }

  lemma QuotientFalls(n: real, d: real, d': real)
    requires n > 0.0 && 0.0 < d < d'
    ensures 0.0 < n / d' < n / d
  {
    var q, q' := n / d, n / d';
    assert q * d == n && q' * d' == n;
    assert q * d' > n == q' * d';
  }
}
