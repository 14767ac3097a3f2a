/** The equal-angle sweep shared by the orbit generator and the inspection waypoints, in exact
    reals. `pi` stands for M_PI; only 6.283 < 2 pi < 6.284 is used of it. */
module Orbit {
  import opened Reals

  predicate PiBounds(pi: real) { 6.283 < 2.0 * pi < 6.284 }

  /** A range this close to a full turn must not repeat its first view at the end. */
  predicate FullCircle(a0: real, a1: real, pi: real) {
    Abs(Abs(a1 - a0) - 2.0 * pi) < 0.001
  }

  function StepOf(a0: real, a1: real, n: int, pi: real): real {
    if n > 1 then
      if FullCircle(a0, a1, pi) then (a1 - a0) / n as real else (a1 - a0) / (n - 1) as real
    else 0.0
  }

  function AngleAt(a0: real, a1: real, n: int, pi: real, i: nat): real {
    a0 + Mul(StepOf(a0, a1, n, pi), i as real)
  }

  /** Two angles are the same direction when they differ by whole turns. */
  ghost predicate SameView(x: real, y: real, pi: real) {
    exists m: int :: x - y == Turns(m, pi)
  }

  function Turns(m: int, pi: real): real { Mul(2.0 * pi, m as real) }

  // ---------- distances along the sweep ----------

  /** n steps make up the range of a full sweep; n - 1 steps that of any other. */
  lemma StepsMakeRange(a0: real, a1: real, n: int, pi: real)
    requires n > 1
    ensures FullCircle(a0, a1, pi) ==> Mul(StepOf(a0, a1, n, pi), n as real) == a1 - a0
    ensures !FullCircle(a0, a1, pi) ==> Mul(StepOf(a0, a1, n, pi), (n - 1) as real) == a1 - a0
  {
    hide Mul;
    Quotient(a1 - a0, n as real);
    Quotient(a1 - a0, (n - 1) as real);
    MulCommutes(StepOf(a0, a1, n, pi), n as real);
    MulCommutes(StepOf(a0, a1, n, pi), (n - 1) as real);
  }

  lemma AngleLaw(a0: real, a1: real, n: int, pi: real, i: nat)
    requires n > 1
    ensures var steps := if Abs(Abs(a1 - a0) - 2.0 * pi) < 0.001 then n else n - 1;
            (AngleAt(a0, a1, n, pi, i) - a0) * steps as real == (a1 - a0) * i as real
  {
    hide StepOf;
    var step, k := StepOf(a0, a1, n, pi), i as real;
    var steps := if Abs(Abs(a1 - a0) - 2.0 * pi) < 0.001 then n else n - 1;
    StepsMakeRange(a0, a1, n, pi);
    MulAssociates(step, k, steps as real);
    MulAssociates(step, steps as real, k);
    MulCommutes(k, steps as real);
    AsProduct(Mul(step, k), steps as real);
    AsProduct(a1 - a0, k);
    hide Mul;
  }

  /** The angle law at every view. */
  lemma SweepLaw(a0: real, a1: real, n: int, pi: real)
    ensures AngleAt(a0, a1, n, pi, 0) == a0
    ensures var steps := if Abs(Abs(a1 - a0) - 2.0 * pi) < 0.001 then n else n - 1;
            n > 1 ==> forall i: nat :: (AngleAt(a0, a1, n, pi, i) - a0) * steps as real == (a1 - a0) * i as real
  {
    MulUnits(StepOf(a0, a1, n, pi));
    if n > 1 {
      hide AngleAt;
      forall i: nat
        ensures var steps := if Abs(Abs(a1 - a0) - 2.0 * pi) < 0.001 then n else n - 1;
                (AngleAt(a0, a1, n, pi, i) - a0) * steps as real == (a1 - a0) * i as real
      {
        AngleLaw(a0, a1, n, pi, i);
      }
    }
  }

  /** Angle i is i of the equal steps from the start: n of them make up a range within 0.001 of a
      full turn, n - 1 any other, and a single view sits at the start. */
  method OrbitAngles(a0: real, a1: real, n: int, pi: real) returns (angles: seq<real>)
    ensures |angles| == if n <= 0 then 0 else n
    ensures forall i :: 0 <= i < |angles| ==> angles[i] == AngleAt(a0, a1, n, pi, i)
    ensures n > 0 ==> angles[0] == a0
    ensures var steps := if Abs(Abs(a1 - a0) - 2.0 * pi) < 0.001 then n else n - 1;
            n > 1 ==> forall i :: 0 <= i < |angles| ==> (angles[i] - a0) * steps as real == (a1 - a0) * i as real
  {
    angles := [];
    if n <= 0 { return; }
    var range := a1 - a0;
    var full := Abs(Abs(range) - 2.0 * pi) < 0.001;
    var step := 0.0;
    if n > 1 {
      step := if full then range / n as real else range / (n - 1) as real;
    }
    var i := 0;
    while i < n
      invariant 0 <= i <= n && |angles| == i
      invariant forall k :: 0 <= k < i ==> angles[k] == AngleAt(a0, a1, n, pi, k)
    {
      angles := angles + [a0 + Mul(step, i as real)];
      i := i + 1;
    }
    SweepLaw(a0, a1, n, pi);
  }

  lemma AngleDifference(a0: real, a1: real, n: int, pi: real, i: nat, j: nat)
    requires j <= i
    ensures AngleAt(a0, a1, n, pi, i) - AngleAt(a0, a1, n, pi, j) == Mul(StepOf(a0, a1, n, pi), (i - j) as real)
  {
    hide Mul, StepOf;
    MulAdds(StepOf(a0, a1, n, pi), i as real, j as real);
    assert i as real - j as real == (i - j) as real;
  }

  /** k steps of a full sweep stay strictly between nothing and a turn: either a step is at least
      0.001, the tolerance, or 6283 of them are shorter than 6.283. */
  lemma ShortOfATurn(size: real, last: real, k: real, range: real, pi: real)
    requires PiBounds(pi) && 1.0 <= k <= last <= 6283.0 && size >= 0.0
    requires Mul(size, last + 1.0) == range && Abs(range - 2.0 * pi) < 0.001
    ensures 0.0 < Mul(size, k) < 2.0 * pi
  {
    hide Mul;
    MulAdds(size, last, 1.0);
    MulUnits(size);
    MulUnits(last + 1.0);
    MulGrows(size, 1.0, k);
    MulGrows(size, k, last);
    MulGrows(size, last, 6283.0);
    TimesBound(size);
  }

  lemma TimesBound(size: real)
    ensures size < 0.001 ==> Mul(size, 6283.0) < 6.283
  {}

  lemma NotATurn(d: real, m: int, pi: real)
    requires PiBounds(pi) && 0.0 < Abs(d) < 2.0 * pi
    ensures d != Turns(m, pi)
  {
    hide Mul;
    MulUnits(2.0 * pi);
    MulNegates(2.0 * pi, 1.0);
    if m >= 1 { MulGrows(2.0 * pi, 1.0, m as real); }
    if m <= -1 { MulGrows(2.0 * pi, m as real, -1.0); }
  }

  /** A full-circle sweep of at most 6284 views has no duplicate view. */
  lemma NoDuplicateView(a0: real, a1: real, n: int, pi: real, i: nat, j: nat)
    requires PiBounds(pi) && FullCircle(a0, a1, pi) && n <= 6284
    requires j < i < n
    ensures !SameView(AngleAt(a0, a1, n, pi, i), AngleAt(a0, a1, n, pi, j), pi)
  {
    hide Mul, StepOf, AngleAt, Turns;
    var step := StepOf(a0, a1, n, pi);
    var d := AngleAt(a0, a1, n, pi, i) - AngleAt(a0, a1, n, pi, j);
    AngleDifference(a0, a1, n, pi, i, j);
    StepsMakeRange(a0, a1, n, pi);
    AbsProduct(step, n as real);
    AbsProduct(step, (i - j) as real);
    assert (n - 1) as real + 1.0 == n as real;
    ShortOfATurn(Abs(step), (n - 1) as real, (i - j) as real, Abs(a1 - a0), pi);
    forall m: int ensures d != Turns(m, pi) { NotATurn(d, m, pi); }
  }

  /** From 6285 views on, the tolerance of the full-circle test admits a range whose last view
      repeats the first. */
  lemma DuplicateBeyondBound(a0: real, n: int, pi: real) returns (a1: real)
    requires PiBounds(pi) && n >= 6285
    ensures FullCircle(a0, a1, pi)
    ensures SameView(AngleAt(a0, a1, n, pi, n - 1), AngleAt(a0, a1, n, pi, 0), pi)
  {
    hide Mul;
    var last := (n - 1) as real;
    var extra := 2.0 * pi / last;
    Quotient(2.0 * pi, last);
    MulCommutes(last, extra);
    ExtraIsSmall(extra, last, pi);
    a1 := a0 + 2.0 * pi + extra;
    var step := StepOf(a0, a1, n, pi);
    StepsMakeRange(a0, a1, n, pi);
    MulAdds(extra, last, 1.0);
    MulUnits(extra);
    assert n as real == last + 1.0;
    MulCommutes(step, n as real);
    MulCommutes(extra, n as real);
    MulCancels(n as real, step, extra);
    AngleDifference(a0, a1, n, pi, n - 1, 0);
    MulUnits(2.0 * pi);
    assert AngleAt(a0, a1, n, pi, n - 1) - AngleAt(a0, a1, n, pi, 0) == Turns(1, pi);
  }

  lemma ExtraIsSmall(extra: real, last: real, pi: real)
    requires PiBounds(pi) && last >= 6284.0 && Mul(extra, last) == 2.0 * pi
    ensures 0.0 < extra < 0.001
  {
    hide Mul;
    MulNegates(extra, last);
    if extra <= 0.0 { MulPositive(-extra, last); }
    if extra >= 0.001 {
      MulGrows(extra, 6284.0, last);
      SixThousand(extra);
    }
  }

  lemma SixThousand(x: real)
    requires x >= 0.001
    ensures Mul(x, 6284.0) >= 6.284
  {}

  ghost predicate AllViewsDiffer(a0: real, a1: real, n: int, pi: real) {
    forall i: nat, j: nat :: j < i < n ==> !SameView(AngleAt(a0, a1, n, pi, i), AngleAt(a0, a1, n, pi, j), pi)
  }

  /** The exact bound: full-circle sweeps of n views never repeat a view, whatever the range within
      tolerance, if and only if n is at most 6284. */
  lemma NoDuplicatesExactly(n: int, pi: real)
    requires PiBounds(pi)
    ensures n <= 6284 <==> forall a0: real, a1: real :: FullCircle(a0, a1, pi) ==> AllViewsDiffer(a0, a1, n, pi)
  {
    hide AngleAt, FullCircle, SameView;
    if n <= 6284 {
      forall a0: real, a1: real | FullCircle(a0, a1, pi) ensures AllViewsDiffer(a0, a1, n, pi) {
        forall i: nat, j: nat | j < i < n
          ensures !SameView(AngleAt(a0, a1, n, pi, i), AngleAt(a0, a1, n, pi, j), pi)
        {
          NoDuplicateView(a0, a1, n, pi, i, j);
        }
      }
    } else {
      var a1 := DuplicateBeyondBound(0.0, n, pi);
      assert !AllViewsDiffer(0.0, a1, n, pi);
    }
  }

  /** Circular gaps of a full sweep: between neighbours exactly |range| / n, and the wrap from the
      last view back to the first within 0.001 of that. */
  lemma GapsEven(a0: real, a1: real, n: int, pi: real, i: nat)
    requires FullCircle(a0, a1, pi) && n > 1 && i + 1 < n
    ensures var gap := Abs(a1 - a0) / n as real;
            && Abs(AngleAt(a0, a1, n, pi, i + 1) - AngleAt(a0, a1, n, pi, i)) == gap
            && Abs(2.0 * pi - Abs(AngleAt(a0, a1, n, pi, n - 1) - AngleAt(a0, a1, n, pi, 0)) - gap) < 0.001
  {
    hide Mul, StepOf, AngleAt;
    var step, gap, last := StepOf(a0, a1, n, pi), Abs(a1 - a0) / n as real, (n - 1) as real;
    StepsMakeRange(a0, a1, n, pi);
    Quotient(Abs(a1 - a0), n as real);
    AbsProduct(step, n as real);
    MulCommutes(Abs(step), n as real);
    MulCancels(n as real, Abs(step), gap);
    AngleDifference(a0, a1, n, pi, i + 1, i);
    MulUnits(step);
    AngleDifference(a0, a1, n, pi, n - 1, 0);
    AbsProduct(step, last);
    assert n as real == last + 1.0;
    MulAdds(gap, last, 1.0);
    MulUnits(gap);
  }

  /** Off the full circle the sweep runs exactly from the first requested angle to the last; a
      single view sits at the start. */
  lemma EndpointsExact(a0: real, a1: real, n: int, pi: real)
    requires n >= 1
    ensures AngleAt(a0, a1, n, pi, 0) == a0
    ensures n > 1 && !FullCircle(a0, a1, pi) ==> AngleAt(a0, a1, n, pi, n - 1) == a1
  {
    hide Mul, StepOf;
    MulUnits(StepOf(a0, a1, n, pi));
    if n > 1 { StepsMakeRange(a0, a1, n, pi); }
  }
}
