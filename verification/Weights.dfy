/** Traffic weights: Istio percentages, which must total 100. */
module Weights {
  import opened RouteTypes

  const ISTIO_EXPECTED_WEIGHT: int := 100

  function Sum(ws: seq<int>): int
  {
    if ws == [] then 0 else Sum(ws[..|ws| - 1]) + ws[|ws| - 1]
  }

  function Declared(destinations: seq<RouteDestination>): (ws: seq<int>)
    ensures |ws| == |destinations|
  {
    seq(|destinations|, i requires 0 <= i < |destinations| =>
      if destinations[i].weight.Some? then destinations[i].weight.value else 0)
  }

  predicate NoneSet(destinations: seq<RouteDestination>)
  {
    forall d :: d in destinations ==> d.weight.None?
  }

  predicate AllSet(destinations: seq<RouteDestination>)
  {
    forall d :: d in destinations ==> d.weight.Some?
  }

  /** What `validateWeights` accepts. The total is taken in 64-bit arithmetic. */
  predicate WeightsValid(destinations: seq<RouteDestination>)
  {
    NoneSet(destinations) ||
    (AllSet(destinations) && Wrap64(Sum(Declared(destinations))) == ISTIO_EXPECTED_WEIGHT)
  }

  /** The weight written for destination `i`. */
  function EmittedWeight(destinations: seq<RouteDestination>, i: nat): int32
    requires i < |destinations|
  {
    if destinations[0].weight.Some? then
      (if destinations[i].weight.Some? then ToInt32(destinations[i].weight.value) else 0)
    else
      var share := ISTIO_EXPECTED_WEIGHT / |destinations|;
      if i == 0 then ToInt32(share + (ISTIO_EXPECTED_WEIGHT - |destinations| * share)) else ToInt32(share)
  }

  function Emitted(destinations: seq<RouteDestination>): (ws: seq<int>)
    ensures |ws| == |destinations|
  {
    seq(|destinations|, i requires 0 <= i < |destinations| => EmittedWeight(destinations, i) as int)
  }

  // ---- sums ----

  lemma SumAppend(ws: seq<int>, w: int)
    ensures Sum(ws + [w]) == Sum(ws) + w
  {
    assert (ws + [w])[..|ws|] == ws;
  }

  lemma {:induction false} SumOfEqualTail(ws: seq<int>, first: int, rest: int)
    requires |ws| > 0 && ws[0] == first
    requires forall i :: 1 <= i < |ws| ==> ws[i] == rest
    ensures Sum(ws) == first + (|ws| - 1) * rest
  {
    if |ws| > 1 {
      SumOfEqualTail(ws[..|ws| - 1], first, rest);
      assert (|ws| - 2) * rest + rest == (|ws| - 1) * rest;
    } else {
      assert ws[..0] == [];
    }
  }

  /** Among non-negative numbers no part exceeds the total. */
  lemma {:induction false} PartBelowSum(ws: seq<int>, i: nat)
    requires forall k :: 0 <= k < |ws| ==> 0 <= ws[k]
    requires i <= |ws|
    ensures 0 <= Sum(ws)
    ensures i < |ws| ==> ws[i] <= Sum(ws)
  {
    if ws != [] {
      var init := ws[..|ws| - 1];
      PartBelowSum(init, if i <= |init| then i else |init|);
    }
  }

  // ---- 32-bit and 64-bit arithmetic ----

  lemma ShiftResidue(x: int, k: int)
    ensures (x - 0x1_0000_0000 * k) % 0x1_0000_0000 == x % 0x1_0000_0000
  {
    var q, r := x / 0x1_0000_0000, x % 0x1_0000_0000;
    assert x - 0x1_0000_0000 * k == 0x1_0000_0000 * (q - k) + r;
  }

  lemma WrapPreservesResidue(x: int)
    ensures Wrap64(x) % 0x1_0000_0000 == x % 0x1_0000_0000
    ensures ToInt32(x) % 0x1_0000_0000 == x % 0x1_0000_0000
  {
    var q := (x + 0x8000_0000_0000_0000) / 0x1_0000_0000_0000_0000;
    assert Wrap64(x) == x - 0x1_0000_0000 * (0x1_0000_0000 * q);
    ShiftResidue(x, 0x1_0000_0000 * q);
    var p := (x + 0x8000_0000) / 0x1_0000_0000;
    assert ToInt32(x) == x - 0x1_0000_0000 * p;
    ShiftResidue(x, p);
  }

  /** Running wrap-around totals are the wrapped total. */
  lemma WrapAdd(x: int, y: int)
    ensures Wrap64(Wrap64(x) + y) == Wrap64(x + y)
  {
    var m := 0x1_0000_0000_0000_0000;
    var q := (x + 0x8000_0000_0000_0000) / m;
    assert Wrap64(x) + y == x + y - m * q;
    var z := x + y + 0x8000_0000_0000_0000;
    assert (z - m * q) % m == z % m by {
      assert z - m * q == m * (z / m - q) + z % m;
    }
  }

  // ---- default weights ----

  lemma ShareOf100(n: nat)
    requires n > 0
    ensures var share, rest := 100 / n, 100 % n;
      && 0 <= share && 0 <= rest && share + rest <= 100
      && 100 - n * share == rest
      && share + rest + (n - 1) * share == 100
  {
    var share := 100 / n;
    assert (n - 1) * share == n * share - share;
    assert (n - 1) * share >= 0;
  }

  /** For every number of destinations, 100 and more included, the default weights
      total 100; all but the first are equal, and the first exceeds them by 100 mod n. */
  lemma {:induction false} DefaultWeights(destinations: seq<RouteDestination>)
    requires destinations != [] && NoneSet(destinations)
    ensures var ws := Emitted(destinations);
      && Sum(ws) == ISTIO_EXPECTED_WEIGHT
      && (forall i :: 0 <= i < |ws| ==> 0 <= ws[i] <= 100)
      && (forall i :: 1 <= i < |ws| ==> ws[0] - ws[i] == ISTIO_EXPECTED_WEIGHT % |destinations|)
  {
    var n, ws := |destinations|, Emitted(destinations);
    assert destinations[0] in destinations;
    ShareOf100(n);
    SumOfEqualTail(ws, ws[0], ISTIO_EXPECTED_WEIGHT / n);
  }

  // ---- explicit weights ----

  lemma AddResidues(a: int, b: int, c: int, d: int)
    requires a % 0x1_0000_0000 == b % 0x1_0000_0000 && c % 0x1_0000_0000 == d % 0x1_0000_0000
    ensures (a + c) % 0x1_0000_0000 == (b + d) % 0x1_0000_0000
  {
    var m := 0x1_0000_0000;
    var k := (a / m - b / m) + (c / m - d / m);
    assert (b + d) == (a + c) - m * k;
    ShiftResidue(a + c, k);
  }

  lemma {:induction false} SameResidues(xs: seq<int>, ys: seq<int>)
    requires |xs| == |ys|
    requires forall i :: 0 <= i < |xs| ==> xs[i] % 0x1_0000_0000 == ys[i] % 0x1_0000_0000
    ensures Sum(xs) % 0x1_0000_0000 == Sum(ys) % 0x1_0000_0000
  {
    if xs != [] {
      var n := |xs| - 1;
      SameResidues(xs[..n], ys[..n]);
      assert xs[n] % 0x1_0000_0000 == ys[n] % 0x1_0000_0000;
      AddResidues(Sum(xs[..n]), Sum(ys[..n]), xs[n], ys[n]);
    }
  }

  /** Without any assumption on the declared numbers, an accepted rule's 32-bit weights
      still total 100 modulo 2^32: both conversions lose only multiples of 2^32. */
  lemma {:induction false} AcceptedWeightsTotalModulo(destinations: seq<RouteDestination>)
    requires destinations != [] && WeightsValid(destinations)
    ensures Sum(Emitted(destinations)) % 0x1_0000_0000 == ISTIO_EXPECTED_WEIGHT
  {
    assert destinations[0] in destinations;
    if NoneSet(destinations) {
      DefaultWeights(destinations);
    } else {
      var declared := Declared(destinations);
      forall i | 0 <= i < |declared|
        ensures Emitted(destinations)[i] % 0x1_0000_0000 == declared[i] % 0x1_0000_0000
      {
        assert destinations[i] in destinations;
        WrapPreservesResidue(declared[i]);
      }
      SameResidues(Emitted(destinations), declared);
      WrapPreservesResidue(Sum(declared));
    }
  }

  predicate Fits32(ws: seq<int>)
  {
    forall i :: 0 <= i < |ws| ==> -0x8000_0000 <= ws[i] < 0x8000_0000
  }

  predicate Percentages(ws: seq<int>)
  {
    Sum(ws) == ISTIO_EXPECTED_WEIGHT && forall i :: 0 <= i < |ws| ==> 0 <= ws[i] <= 100
  }

  /** The conversion to 32 bits changes nothing exactly when every declared weight fits. */
  lemma {:induction false} ConversionIsExact(destinations: seq<RouteDestination>)
    requires destinations != [] && AllSet(destinations)
    ensures Emitted(destinations) == Declared(destinations) <==> Fits32(Declared(destinations))
  {
    var declared, emitted := Declared(destinations), Emitted(destinations);
    assert destinations[0] in destinations;
    forall i | 0 <= i < |destinations|
      ensures emitted[i] == declared[i] <==> -0x8000_0000 <= declared[i] < 0x8000_0000
    {
      assert destinations[i] in destinations;
    }
    if forall i :: 0 <= i < |destinations| ==> emitted[i] == declared[i] {
      assert emitted == declared;
    }
  }

  /** How many times 2^32 the conversion takes away from a declared weight. */
  function Carry(w: int): int
  {
    (w + 0x8000_0000) / 0x1_0000_0000
  }

  function Carries(ws: seq<int>): (cs: seq<int>)
    ensures |cs| == |ws|
  {
    seq(|ws|, i requires 0 <= i < |ws| => Carry(ws[i]))
  }

  lemma {:induction false} SumOfConverted(declared: seq<int>, emitted: seq<int>)
    requires |emitted| == |declared| && forall i :: 0 <= i < |declared| ==> emitted[i] == ToInt32(declared[i])
    ensures Sum(emitted) == Sum(declared) - 0x1_0000_0000 * Sum(Carries(declared))
  {
    if declared != [] {
      var n := |declared| - 1;
      SumOfConverted(declared[..n], emitted[..n]);
      assert Carries(declared)[..n] == Carries(declared[..n]);
      assert emitted[n] == declared[n] - 0x1_0000_0000 * Carry(declared[n]);
    }
  }

  /** Explicit weights, accepted or not, total 100 as emitted exactly when their true total
      exceeds 100 by what the conversion takes away. */
  lemma {:induction false} EmittedTotalIff(destinations: seq<RouteDestination>)
    requires destinations != [] && AllSet(destinations)
    ensures Sum(Emitted(destinations)) == ISTIO_EXPECTED_WEIGHT <==>
            Sum(Declared(destinations)) == ISTIO_EXPECTED_WEIGHT + 0x1_0000_0000 * Sum(Carries(Declared(destinations)))
  {
    assert destinations[0] in destinations;
    forall i | 0 <= i < |destinations|
      ensures Emitted(destinations)[i] == ToInt32(Declared(destinations)[i])
    {
      assert destinations[i] in destinations;
    }
    SumOfConverted(Declared(destinations), Emitted(destinations));
  }

  /** Accepted weights, negative ones included, reach Istio as they were declared and total
      100 if and only if each fits in 32 bits and their true total is 100. */
  lemma {:induction false} ExplicitWeightsAreKept(destinations: seq<RouteDestination>)
    requires destinations != [] && AllSet(destinations) && WeightsValid(destinations)
    ensures Emitted(destinations) == Declared(destinations) && Sum(Emitted(destinations)) == ISTIO_EXPECTED_WEIGHT <==>
            Fits32(Declared(destinations)) && Sum(Declared(destinations)) == ISTIO_EXPECTED_WEIGHT
  {
    ConversionIsExact(destinations);
  }

  /** Accepted weights reach Istio as they were declared and are percentages if and only if
      none is negative and their total does not overflow. */
  lemma {:induction false} ExplicitWeightsArePercentages(destinations: seq<RouteDestination>)
    requires destinations != [] && AllSet(destinations) && WeightsValid(destinations)
    ensures Emitted(destinations) == Declared(destinations) && Percentages(Emitted(destinations)) <==>
            (forall i :: 0 <= i < |destinations| ==> 0 <= Declared(destinations)[i]) && Sum(Declared(destinations)) < 0x8000_0000_0000_0000
  {
    var declared := Declared(destinations);
    assert destinations[0] in destinations;
    if forall i :: 0 <= i < |destinations| ==> 0 <= declared[i] {
      PartBelowSum(declared, 0);
      forall i | 0 <= i < |declared|
        ensures declared[i] <= Sum(declared)
      {
        PartBelowSum(declared, i);
      }
    }
    ConversionIsExact(destinations);
  }

  lemma SumOfTwo(a: int, b: int)
    ensures Sum([a, b]) == a + b
  {
    SumAppend([a], b);
    SumAppend([], a);
    assert [a] + [b] == [a, b] && [] + [a] == [a];
  }

  /** Overflow is not caught: the 64-bit total wraps round to 100 although no weight is
      negative, and what reaches Istio is not what was declared. */
  lemma {:induction false} OverflowIsAccepted(d: RouteDestination)
    ensures var big := d.(weight := Some(0x7FFF_FFFF_FFFF_FFFF));
      var destinations := [big, big, d.(weight := Some(102))];
      && WeightsValid(destinations)
      && Emitted(destinations) == [-1, -1, 102]
      && Declared(destinations) != Emitted(destinations)
  {
    var big := d.(weight := Some(0x7FFF_FFFF_FFFF_FFFF));
    var destinations := [big, big, d.(weight := Some(102))];
    var ws := Declared(destinations);
    assert ws == [0x7FFF_FFFF_FFFF_FFFF, 0x7FFF_FFFF_FFFF_FFFF] + [102];
    SumAppend([0x7FFF_FFFF_FFFF_FFFF, 0x7FFF_FFFF_FFFF_FFFF], 102);
    SumAppend([0x7FFF_FFFF_FFFF_FFFF], 0x7FFF_FFFF_FFFF_FFFF);
    SumAppend([], 0x7FFF_FFFF_FFFF_FFFF);
    assert [0x7FFF_FFFF_FFFF_FFFF, 0x7FFF_FFFF_FFFF_FFFF] == [0x7FFF_FFFF_FFFF_FFFF] + [0x7FFF_FFFF_FFFF_FFFF];
    assert [] + [0x7FFF_FFFF_FFFF_FFFF] == [0x7FFF_FFFF_FFFF_FFFF];
    assert Emitted(destinations)[0] == -1 && Emitted(destinations)[2] == 102;
  }

  /** Negative weights are not caught either: only the total is checked. These reach Istio as
      they were declared, and total 100, but are no percentages. */
  lemma {:induction false} NegativeWeightsAreAccepted(d: RouteDestination)
    ensures var destinations := [d.(weight := Some(-50)), d.(weight := Some(150))];
      WeightsValid(destinations) && Emitted(destinations) == [-50, 150]
  {
    var destinations := [d.(weight := Some(-50)), d.(weight := Some(150))];
    assert Declared(destinations) == [-50, 150];
    SumOfTwo(-50, 150);
    assert Emitted(destinations)[0] == -50 && Emitted(destinations)[1] == 150;
  }

  /** An accepted list whose emitted weights do not total 100: one declared weight is just too
      large for 32 bits. */
  lemma {:induction false} WrongTotalIsEmitted(d: RouteDestination)
    ensures var destinations := [d.(weight := Some(0x8000_0000)), d.(weight := Some(100 - 0x8000_0000))];
      WeightsValid(destinations) && Sum(Emitted(destinations)) == 100 - 0x1_0000_0000
  {
    var destinations := [d.(weight := Some(0x8000_0000)), d.(weight := Some(100 - 0x8000_0000))];
    assert Declared(destinations) == [0x8000_0000, 100 - 0x8000_0000];
    assert Emitted(destinations) == [-0x8000_0000, 100 - 0x8000_0000];
    SumOfTwo(0x8000_0000, 100 - 0x8000_0000);
    SumOfTwo(-0x8000_0000, 100 - 0x8000_0000);
  }

  /** And one that becomes percentages by accident, though nothing like them was declared. */
  lemma {:induction false} PercentagesByAccident(d: RouteDestination)
    ensures var destinations := [d.(weight := Some(50 - 0x1_0000_0000)), d.(weight := Some(50 + 0x1_0000_0000))];
      WeightsValid(destinations) && Emitted(destinations) == [50, 50]
  {
    var destinations := [d.(weight := Some(50 - 0x1_0000_0000)), d.(weight := Some(50 + 0x1_0000_0000))];
    assert Declared(destinations) == [50 - 0x1_0000_0000, 50 + 0x1_0000_0000];
    SumOfTwo(50 - 0x1_0000_0000, 50 + 0x1_0000_0000);
    assert Emitted(destinations)[0] == 50 && Emitted(destinations)[1] == 50;
  }
}
