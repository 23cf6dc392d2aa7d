/**
 The movement of one object toward its target, and the rounding of positions for the wire.
 Reals stand for float64. `h` stands for math.Hypot, which this model does not compute: every
 result holds for any function with its defining property, and by uniqueness of non-negative
 roots there is at most one.
 */
module Motion {
  datatype Body = Body(x: real, y: real, tx: real, ty: real, hasTarget: bool)

  type Hypot = (real, real) -> real

  ghost predicate IsRoot(d: real, dx: real, dy: real) {
    d >= 0.0 && d * d == dx * dx + dy * dy
  }

  ghost predicate IsHypot(h: Hypot) {
    forall dx: real, dy: real :: Lengths(h, dx, dy)
  }

  ghost predicate Lengths(h: Hypot, dx: real, dy: real) {
    IsRoot(h(dx, dy), dx, dy)
  }

  function Distance(h: Hypot, b: Body): real {
    h(b.tx - b.x, b.ty - b.y)
  }

  /** The state `b` with its target reached. */
  function Arrived(b: Body): Body {
    b.(x := b.tx, y := b.ty, hasTarget := false)
  }

  /** A coordinate moved `step` along a displacement of length `dist`. */
  function Toward(a: real, target: real, dist: real, step: real): real
    requires dist != 0.0
  {
    a + (target - a) / dist * step
  }

  /** One step of positive length toward the target, halting there. */
  function Step(h: Hypot, b: Body, step: real): Body {
    var dist := Distance(h, b);
    if dist <= step || dist == 0.0 then Arrived(b) else Along(b, step, dist)
  }

  /** A body `gone` along the segment to its target, `d` away. */
  function Along(b: Body, gone: real, d: real): Body
    requires d != 0.0
  {
    b.(x := Toward(b.x, b.tx, d, gone), y := Toward(b.y, b.ty, d, gone))
  }

  /** One object's share of a tick of `sec` seconds at speed `v`. */
  function Advance(h: Hypot, b: Body, v: real, sec: real): Body {
    if !b.hasTarget || v * sec <= 0.0 then b else Step(h, b, v * sec)
  }

  function AdvanceAll(h: Hypot, b: Body, v: real, secs: seq<real>): Body {
    if secs == [] then b else Advance(h, AdvanceAll(h, b, v, secs[..|secs| - 1]), v, secs[|secs| - 1])
  }

  function Sum(secs: seq<real>): real {
    if secs == [] then 0.0 else Sum(secs[..|secs| - 1]) + secs[|secs| - 1]
  }

  predicate Positive(secs: seq<real>) {
    forall i :: 0 <= i < |secs| ==> secs[i] > 0.0
  }

  // ---------- distances ----------

  lemma RootUnique(a: real, b: real)
    requires a >= 0.0 && b >= 0.0 && a * a == b * b
    ensures a == b
  {
    assert (a - b) * (a + b) == 0.0;
    if a + b > 0.0 {
      assert a - b == (a - b) * (a + b) / (a + b);
    }
  }

  lemma HypotUnique(h: Hypot, g: Hypot, dx: real, dy: real)
    requires IsHypot(h) && IsHypot(g)
    ensures h(dx, dy) == g(dx, dy)
  {
    assert Lengths(h, dx, dy) && Lengths(g, dx, dy);
    RootUnique(h(dx, dy), g(dx, dy));
  }

  /** A displacement of length `d` scaled by a non-negative factor has length that factor of `d`. */
  lemma ScaledHypot(h: Hypot, dx: real, dy: real, k: real)
    requires IsHypot(h) && k >= 0.0
    ensures h(k * dx, k * dy) == k * h(dx, dy)
  {
    var d := h(dx, dy);
    assert Lengths(h, dx, dy) && Lengths(h, k * dx, k * dy);
    assert (k * d) * (k * d) == (k * k) * (d * d) == (k * dx) * (k * dx) + (k * dy) * (k * dy);
    assert k * d >= 0.0;
    RootUnique(h(k * dx, k * dy), k * d);
  }

  lemma Fraction(a: real, d: real)
    requires a >= 0.0 && d > 0.0
    ensures a / d >= 0.0 && a / d * d == a
  {
  }

  /** What is left of one coordinate part-way along: a scaled-down displacement. */
  lemma Remainder(a: real, target: real, d: real, gone: real)
    requires d > 0.0
    ensures target - Toward(a, target, d, gone) == (d - gone) / d * (target - a)
  {
    var dx := target - a;
    var u, k := dx / d, (d - gone) / d;
    assert u * d == dx && k * d == d - gone;
    assert k * dx == k * (u * d) == u * (k * d) == u * (d - gone);
  }

  /** Part-way along the segment, the distance left is what has not been gone. */
  lemma DistanceLeft(h: Hypot, b: Body, gone: real)
    requires IsHypot(h) && Distance(h, b) > 0.0 && 0.0 <= gone <= Distance(h, b)
    ensures Distance(h, Along(b, gone, Distance(h, b))) == Distance(h, b) - gone
  {
    var d, dx, dy := Distance(h, b), b.tx - b.x, b.ty - b.y;
    Remainder(b.x, b.tx, d, gone);
    Remainder(b.y, b.ty, d, gone);
    Fraction(d - gone, d);
    var k := (d - gone) / d;
    ScaledHypot(h, dx, dy, k);
    var c := Along(b, gone, d);
    assert c.tx - c.x == k * dx && c.ty - c.y == k * dy;
  }

  /** The distance is the Euclidean one, from the object to its target. */
  lemma DistanceIs(h: Hypot, b: Body)
    requires IsHypot(h)
    ensures var d, dx, dy := Distance(h, b), b.tx - b.x, b.ty - b.y; d >= 0.0 && d * d == dx * dx + dy * dy
  {
    assert Lengths(h, b.tx - b.x, b.ty - b.y);
  }

  /** Part-way along is on the straight line from start to target, in that proportion. */
  lemma AlongIs(b: Body, gone: real, d: real)
    requires d > 0.0
    ensures var c := Along(b, gone, d);
            && d * (c.x - b.x) == gone * (b.tx - b.x) && d * (c.y - b.y) == gone * (b.ty - b.y)
            && c.tx == b.tx && c.ty == b.ty && c.hasTarget == b.hasTarget
  {
    TowardIs(b.x, b.tx, d, gone);
    TowardIs(b.y, b.ty, d, gone);
  }

  lemma TowardIs(a: real, target: real, d: real, gone: real)
    requires d > 0.0
    ensures d * (Toward(a, target, d, gone) - a) == gone * (target - a)
  {
    var u := (target - a) / d;
    assert u * d == target - a;
    assert Toward(a, target, d, gone) - a == u * gone;
    assert d * (u * gone) == (u * d) * gone;
  }

  // ---------- ticks compose ----------

  /** The direction of travel does not change on the way. */
  lemma TowardTwice(a: real, target: real, d: real, s: real, t: real)
    requires 0.0 < s && s + t < d && 0.0 < t
    ensures Toward(Toward(a, target, d, s), target, d - s, t) == Toward(a, target, d, s + t)
  {
    var dx, u, k := target - a, (target - a) / d, (d - s) / d;
    var a' := Toward(a, target, d, s);
    Remainder(a, target, d, s);
    assert u * d == dx && k * d == d - s;
    assert target - a' == k * dx == u * (d - s);
    assert (target - a') / (d - s) == u;
    assert u * (s + t) == u * s + u * t;
  }

  lemma TwoSteps(h: Hypot, b: Body, s: real, t: real)
    requires IsHypot(h) && s > 0.0 && t > 0.0
    ensures var c := Step(h, b, s);
            (if Distance(h, b) <= s then c else Step(h, c, t)) == Step(h, b, s + t)
  {
    var d := Distance(h, b);
    if d > s {
      DistanceLeft(h, b, s);
      if s + t < d {
        TowardTwice(b.x, b.tx, d, s, t);
        TowardTwice(b.y, b.ty, d, s, t);
      }
    }
  }

  /** Two ticks are one tick of their summed duration, arrival in either of them included. */
  lemma TwoTicks(h: Hypot, b: Body, v: real, s: real, t: real)
    requires IsHypot(h) && s > 0.0 && t > 0.0
    ensures Advance(h, Advance(h, b, v, s), v, t) == Advance(h, b, v, s + t)
  {
    Products(v, s, t);
    if b.hasTarget && v > 0.0 {
      TwoSteps(h, b, v * s, v * t);
    }
  }

  lemma Products(v: real, s: real, t: real)
    requires s > 0.0 && t > 0.0
    ensures v * (s + t) == v * s + v * t
    ensures if v > 0.0 then v * s > 0.0 && v * t > 0.0 else v * s <= 0.0 && v * t <= 0.0
  {
    if v <= 0.0 {
      assert (-v) * s >= 0.0 && (-v) * t >= 0.0;
    }
  }

  /** Any number of ticks is one tick of their summed duration. */
  lemma {:induction false} TicksCollapse(h: Hypot, b: Body, v: real, secs: seq<real>)
    requires IsHypot(h) && Positive(secs) && secs != []
    ensures Sum(secs) > 0.0 && AdvanceAll(h, b, v, secs) == Advance(h, b, v, Sum(secs))
  {
    var n := |secs| - 1;
    if n == 0 {
      assert secs[..0] == [];
    } else {
      TicksCollapse(h, b, v, secs[..n]);
      TwoTicks(h, b, v, Sum(secs[..n]), secs[n]);
    }
  }

  /** The tick rate does not matter: only the total time does. */
  lemma RateIndependent(h: Hypot, b: Body, v: real, secs: seq<real>, secs': seq<real>)
    requires IsHypot(h) && Positive(secs) && Positive(secs') && Sum(secs) == Sum(secs')
    ensures AdvanceAll(h, b, v, secs) == AdvanceAll(h, b, v, secs')
  {
    if secs != [] {
      TicksCollapse(h, b, v, secs);
    }
    if secs' != [] {
      TicksCollapse(h, b, v, secs');
    }
  }

  // ---------- arrival ----------

  /** What a step leaves: nothing, or exactly what was not covered. */
  lemma StepDistance(h: Hypot, b: Body, step: real)
    requires IsHypot(h) && step > 0.0
    ensures var d, c := Distance(h, b), Step(h, b, step);
            && (step >= d ==> c == Arrived(b) && Distance(h, c) == 0.0)
            && (step < d ==> c == Along(b, step, d) && Distance(h, c) == d - step)
  {
    if step < Distance(h, b) {
      DistanceLeft(h, b, step);
    } else {
      NoDistance(h);
    }
  }

  /** Where an object is `t` seconds on: at its target if and only if the distance it can have
      covered reaches the initial distance, else exactly that far along the segment. */
  ghost predicate ArrivesExactly(h: Hypot, b: Body, v: real, t: real, c: Body) {
    var d, gone := Distance(h, b), v * t;
    && (!c.hasTarget <==> gone >= d)
    && (gone >= d ==> c == Arrived(b) && Distance(h, c) == 0.0)
    && (gone < d ==> 0.0 < gone && c == Along(b, gone, d) && Distance(h, c) == d - gone)
  }

  lemma AdvanceArrives(h: Hypot, b: Body, v: real, t: real)
    requires IsHypot(h) && t > 0.0 && b.hasTarget && v > 0.0
    ensures ArrivesExactly(h, b, v, t, Advance(h, b, v, t))
  {
    Products(v, t, t);
    StepDistance(h, b, v * t);
  }

  /** Exact arrival, after any run of ticks. */
  lemma ExactArrival(h: Hypot, b: Body, v: real, secs: seq<real>)
    requires IsHypot(h) && Positive(secs) && secs != [] && b.hasTarget && v > 0.0
    ensures ArrivesExactly(h, b, v, Sum(secs), AdvanceAll(h, b, v, secs))
  {
    TicksCollapse(h, b, v, secs);
    AdvanceArrives(h, b, v, Sum(secs));
  }

  lemma NoDistance(h: Hypot)
    requires IsHypot(h)
    ensures h(0.0, 0.0) == 0.0
  {
    assert Lengths(h, 0.0, 0.0);
    RootUnique(h(0.0, 0.0), 0.0);
  }

  lemma DistanceNonNegative(h: Hypot, b: Body)
    requires IsHypot(h)
    ensures Distance(h, b) >= 0.0
  {
    assert Lengths(h, b.tx - b.x, b.ty - b.y);
  }

  function Repeat(sec: real, n: nat): (secs: seq<real>)
    ensures |secs| == n && forall i :: 0 <= i < n ==> secs[i] == sec
  {
    seq(n, _ => sec)
  }

  lemma {:induction false} SumRepeat(sec: real, n: nat)
    ensures Sum(Repeat(sec, n)) == n as real * sec
  {
    if n == 0 {
    } else {
      assert Repeat(sec, n)[..n - 1] == Repeat(sec, n - 1);
      SumRepeat(sec, n - 1);
      assert n as real * sec == (n - 1) as real * sec + sec;
    }
  }

  /** How many ticks of `step` a distance takes; at least the one that notices arrival. */
  function TicksToArrive(d: real, step: real): (n: nat)
    requires d >= 0.0 && step > 0.0
    ensures n >= 1
  {
    var q := d / step;
    assert q >= 0.0 by { assert q * step == d; }
    if q == 0.0 then 1
    else if q.Floor as real == q then q.Floor else q.Floor + 1
  }

  lemma ArrivalAfter(h: Hypot, b: Body, v: real, sec: real, n: nat)
    requires IsHypot(h) && b.hasTarget && v > 0.0 && sec > 0.0 && n > 0
    ensures AdvanceAll(h, b, v, Repeat(sec, n)).hasTarget <==> n as real * (v * sec) < Distance(h, b)
  {
    var t := n as real * sec;
    SumRepeat(sec, n);
    TicksCollapse(h, b, v, Repeat(sec, n));
    AdvanceArrives(h, b, v, t);
    Reassociate(v, n as real, sec);
  }

  /** At a fixed rate an object arrives on precisely the tick `TicksToArrive` gives. */
  lemma ArrivalTick(h: Hypot, b: Body, v: real, sec: real, n: nat)
    requires IsHypot(h) && b.hasTarget && v > 0.0 && sec > 0.0
    ensures v * sec > 0.0 && Distance(h, b) >= 0.0
    ensures AdvanceAll(h, b, v, Repeat(sec, n)).hasTarget <==> n < TicksToArrive(Distance(h, b), v * sec)
  {
    DistanceNonNegative(h, b);
    Products(v, sec, sec);
    if n > 0 {
      ArrivalAfter(h, b, v, sec, n);
      TicksCover(Distance(h, b), v * sec, n);
    } else {
      assert Repeat(sec, 0) == [];
    }
  }

  lemma Reassociate(a: real, b: real, c: real)
    ensures a * (b * c) == b * (a * c)
  {
  }

  lemma TicksCover(d: real, step: real, n: nat)
    requires d >= 0.0 && step > 0.0 && n > 0
    ensures n as real * step >= d <==> n >= TicksToArrive(d, step)
  {
    var q := d / step;
    assert q * step == d;
    if n as real >= q {
      assert (n as real - q) * step >= 0.0;
    } else {
      assert (q - n as real) * step > 0.0;
    }
  }

  lemma ShorterStep(h: Hypot, b: Body, s: real, t: real)
    requires IsHypot(h) && 0.0 < s <= t
    ensures Distance(h, Step(h, b, s)) >= Distance(h, Step(h, b, t))
  {
    StepDistance(h, b, s);
    StepDistance(h, b, t);
  }

  lemma SlowerTick(h: Hypot, b: Body, slow: real, fast: real, t: real)
    requires IsHypot(h) && t > 0.0 && b.hasTarget && 0.0 <= slow <= fast
    ensures Distance(h, Advance(h, b, slow, t)) >= Distance(h, Advance(h, b, fast, t))
  {
    ProductMonotone(slow, fast, t);
    if slow * t > 0.0 {
      ShorterStep(h, b, slow * t, fast * t);
    } else if fast * t > 0.0 {
      StepDistance(h, b, fast * t);
      DistanceNonNegative(h, b);
    }
  }

  /** A slower object on the same course is never ahead. */
  lemma SlowerNeverAhead(h: Hypot, b: Body, slow: real, fast: real, secs: seq<real>)
    requires IsHypot(h) && Positive(secs) && b.hasTarget && 0.0 <= slow <= fast
    ensures Distance(h, AdvanceAll(h, b, slow, secs)) >= Distance(h, AdvanceAll(h, b, fast, secs))
  {
    if secs != [] {
      TicksCollapse(h, b, slow, secs);
      TicksCollapse(h, b, fast, secs);
      SlowerTick(h, b, slow, fast, Sum(secs));
    }
  }

  lemma ProductMonotone(a: real, b: real, t: real)
    requires a <= b && t >= 0.0
    ensures a * t <= b * t
  {
    assert (b - a) * t >= 0.0;
  }

  // ---------- rounding ----------

  /** math.Round: to the nearest integer, halves away from zero. */
  function Round(v: real): int {
    if v >= 0.0 then (v + 0.5).Floor else -((0.5 - v).Floor)
  }

  lemma RoundNearest(v: real)
    ensures -0.5 <= Round(v) as real - v <= 0.5
    ensures v - v.Floor as real == 0.5 ==> Round(v) == if v > 0.0 then v.Floor + 1 else v.Floor
  {
  }

  lemma RoundExact(n: int)
    ensures Round(n as real) == n
  {
  }

  lemma RoundMonotone(v: real, w: real)
    requires v <= w
    ensures Round(v) <= Round(w)
  {
  }

  predicate Between(a: int, b: int, c: int) {
    a <= b <= c || c <= b <= a
  }

  /** A coordinate between its start and the integer target rounds to one between the two. */
  lemma RoundBetween(x: real, x': real, target: int)
    requires x <= x' <= target as real || target as real <= x' <= x
    ensures Between(Round(x), Round(x'), target)
  {
    RoundExact(target);
    if x <= x' {
      RoundMonotone(x, x');
      if x' <= target as real {
        RoundMonotone(x', target as real);
      }
    }
    if x' <= x {
      RoundMonotone(x', x);
      if target as real <= x' {
        RoundMonotone(target as real, x');
      }
    }
  }

  /** A tick moves a coordinate toward the target, never past it. */
  lemma AdvanceBetween(h: Hypot, b: Body, v: real, sec: real)
    requires IsHypot(h)
    ensures var c := Advance(h, b, v, sec);
            && (b.x <= c.x <= b.tx || b.tx <= c.x <= b.x || c.x == b.x)
            && (b.y <= c.y <= b.ty || b.ty <= c.y <= b.y || c.y == b.y)
            && c.tx == b.tx && c.ty == b.ty
  {
    var d := Distance(h, b);
    if b.hasTarget && 0.0 < v * sec < d {
      TowardBetween(b.x, b.tx, d, v * sec);
      TowardBetween(b.y, b.ty, d, v * sec);
    }
  }

  lemma TowardBetween(a: real, target: real, d: real, step: real)
    requires 0.0 < step < d
    ensures a <= Toward(a, target, d, step) <= target || target <= Toward(a, target, d, step) <= a
  {
    var u := (target - a) / d;
    assert u * d == target - a;
    if u >= 0.0 {
      assert u * step >= 0.0 && u * (d - step) >= 0.0;
    } else {
      assert (-u) * step >= 0.0 && (-u) * (d - step) >= 0.0;
    }
  }

  /** Tick by tick, the rounded position of a moving object nears its integer target
      monotonically in each coordinate, and equals it on arrival. */
  lemma RoundedStream(h: Hypot, b: Body, v: real, sec: real, tx: int, ty: int)
    requires IsHypot(h) && b.hasTarget && b.tx == tx as real && b.ty == ty as real
    ensures var c := Advance(h, b, v, sec);
            && Between(Round(b.x), Round(c.x), tx) && Between(Round(b.y), Round(c.y), ty)
            && (!c.hasTarget ==> Round(c.x) == tx && Round(c.y) == ty)
  {
    AdvanceBetween(h, b, v, sec);
    var c := Advance(h, b, v, sec);
    RoundBetween(b.x, c.x, tx);
    RoundBetween(b.y, c.y, ty);
    RoundExact(tx);
    RoundExact(ty);
  }
}
