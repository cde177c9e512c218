/** The strategy builders of strategy.py: each starts a fresh Strategy with
    a label naming the shape and adds the shape's fixed legs in order. No
    builder checks the strikes it is given. */
module Builders {
  import opened Product
  import opened Strategies

  function Min(a: real, b: real): real {
    if a <= b then a else b
  }

  /** `x` held inside `[lo, hi]`. */
  function Clamp(x: real, lo: real, hi: real): real {
    Max(lo, Min(x, hi))
  }

  /** `ceil`, from `Floor`. */
  function Ceil(x: real): (n: int)
    ensures n as real - 1.0 < x <= n as real
  {
    -((-x).Floor)
  }

  // ---- CallSpread: long `callLong`, short `callShort`, one each ----

  function CallSpreadLabel(callLong: Option, callShort: Option): Label {
    Label("Call Spread", [callLong.strike, callShort.strike])
  }

  function CallSpreadLegs(callLong: Option, callShort: Option): seq<Leg> {
    [Leg(callLong, "long", 1), Leg(callShort, "short", 1)]
  }

  method CallSpread(callLong: Option, callShort: Option) returns (s: Strategy)
    ensures fresh(s)
    ensures s.name == CallSpreadLabel(callLong, callShort)
    ensures s.legs == CallSpreadLegs(callLong, callShort)
  {
    s := new Strategy(CallSpreadLabel(callLong, callShort));
    var _ := s.Add(callLong, "long", 1);
    var _ := s.Add(callShort, "short", 1);
  }

  // ---- PutSpread: long `putLong`, short `putShort`, one each ----

  function PutSpreadLabel(putLong: Option, putShort: Option): Label {
    Label("Put Spread", [putLong.strike, putShort.strike])
  }

  function PutSpreadLegs(putLong: Option, putShort: Option): seq<Leg> {
    [Leg(putLong, "long", 1), Leg(putShort, "short", 1)]
  }

  method PutSpread(putLong: Option, putShort: Option) returns (s: Strategy)
    ensures fresh(s)
    ensures s.name == PutSpreadLabel(putLong, putShort)
    ensures s.legs == PutSpreadLegs(putLong, putShort)
  {
    s := new Strategy(PutSpreadLabel(putLong, putShort));
    var _ := s.Add(putLong, "long", 1);
    var _ := s.Add(putShort, "short", 1);
  }

  // ---- BoxSpread: `callLong` short, `callShort` long, `putLong` short,
  //      `putShort` long (the parameter names are strategy.py's) ----

  function BoxSpreadLabel(callLong: Option, callShort: Option, putLong: Option, putShort: Option): Label {
    Label("Box Spread", [callLong.strike, putShort.strike])
  }

  function BoxSpreadLegs(callLong: Option, callShort: Option, putLong: Option, putShort: Option): seq<Leg> {
    [Leg(callLong, "short", 1), Leg(callShort, "long", 1), Leg(putLong, "short", 1), Leg(putShort, "long", 1)]
  }

  method BoxSpread(callLong: Option, callShort: Option, putLong: Option, putShort: Option) returns (s: Strategy)
    ensures fresh(s)
    ensures s.name == BoxSpreadLabel(callLong, callShort, putLong, putShort)
    ensures s.legs == BoxSpreadLegs(callLong, callShort, putLong, putShort)
  {
    s := new Strategy(BoxSpreadLabel(callLong, callShort, putLong, putShort));
    var _ := s.Add(callLong, "short", 1);
    var _ := s.Add(callShort, "long", 1);
    var _ := s.Add(putLong, "short", 1);
    var _ := s.Add(putShort, "long", 1);
  }

  // ---- Butterfly: long 1 low, short 2 middle, long 1 high ----

  function ButterflyLabel(callLow: Option, callMiddle: Option, callHigh: Option): Label {
    Label("Butterfly", [callLow.strike, callMiddle.strike, callHigh.strike])
  }

  function ButterflyLegs(callLow: Option, callMiddle: Option, callHigh: Option): seq<Leg> {
    [Leg(callLow, "long", 1), Leg(callMiddle, "short", 2), Leg(callHigh, "long", 1)]
  }

  method Butterfly(callLow: Option, callMiddle: Option, callHigh: Option) returns (s: Strategy)
    ensures fresh(s)
    ensures s.name == ButterflyLabel(callLow, callMiddle, callHigh)
    ensures s.legs == ButterflyLegs(callLow, callMiddle, callHigh)
  {
    s := new Strategy(ButterflyLabel(callLow, callMiddle, callHigh));
    var _ := s.Add(callLow, "long", 1);
    var _ := s.Add(callMiddle, "short", 2);
    var _ := s.Add(callHigh, "long", 1);
  }

  // ---- IronCondor: short put K1, long put K2, short call K3, long call K4;
  //      the label is always the bare name ----

  function IronCondorLegs(putK1: Option, putK2: Option, callK3: Option, callK4: Option): seq<Leg> {
    [Leg(putK1, "short", 1), Leg(putK2, "long", 1), Leg(callK3, "short", 1), Leg(callK4, "long", 1)]
  }

  method IronCondor(putK1: Option, putK2: Option, callK3: Option, callK4: Option) returns (s: Strategy)
    ensures fresh(s)
    ensures s.name == Label("Iron Condor", [])
    ensures s.legs == IronCondorLegs(putK1, putK2, callK3, callK4)
  {
    s := new Strategy(Label("Iron Condor", []));
    var t := s.Add(putK1, "short", 1);
    t := t.Add(putK2, "long", 1);
    t := t.Add(callK3, "short", 1);
    t := t.Add(callK4, "long", 1);
  }

  // ---- RatioSpread: long 1 `callLong`, short `ratio` `callShort` ----

  /** `not ratio`: no ratio given, or a zero one. */
  predicate Falsy(ratio: Maybe<int>) {
    ratio.None? || ratio.value == 0
  }

  /** The short quantity: the given ratio, or else `ceil(achat / vente)`,
      which divides by zero when `vente` is 0. By default it is the fewest
      whole contracts whose premium received covers the premium paid. */
  function RatioQuantity(callLong: Option, callShort: Option, ratio: Maybe<int>): (q: Result<int>)
    ensures q.Err? <==> Falsy(ratio) && callShort.vente == 0.0
    ensures q.Err? ==> q.error == ZeroDivision
    ensures !Falsy(ratio) ==> q == Ok(ratio.value)
    ensures Falsy(ratio) && callShort.vente > 0.0 ==>
      q.value as real * callShort.vente >= callLong.achat &&
      (q.value - 1) as real * callShort.vente < callLong.achat
  {
    if !Falsy(ratio) then Ok(ratio.value)
    else if callShort.vente == 0.0 then Err(ZeroDivision)
    else
      var n := Ceil(callLong.achat / callShort.vente);
      if callShort.vente > 0.0 then
        CeilCovers(callLong.achat, callShort.vente);
        Ok(n)
      else
        Ok(n)
  }

  /** `ceil(a / v)` whole units of `v` are the fewest that reach `a`. */
  lemma CeilCovers(a: real, v: real)
    requires v > 0.0
    ensures Ceil(a / v) as real * v >= a && (Ceil(a / v) - 1) as real * v < a
  {
    var x := a / v;
    var n := Ceil(x);
    assert x * v == a;
    ScaleStrict((n - 1) as real, x, v);
    assert (n - 1) as real * v < a;
    if n as real > x {
      ScaleStrict(x, n as real, v);
    }
    assert n as real * v >= a;
  }

  lemma ScaleStrict(x: real, y: real, v: real)
    requires x < y && v > 0.0
    ensures x * v < y * v
  {
    assert (y - x) * v > 0.0;
    assert y * v - x * v == (y - x) * v;
  }

  function RatioSpreadLabel(callLong: Option, callShort: Option, ratio: int): Label {
    Label("Ratio Spread", [callLong.strike, callShort.strike, ratio as real])
  }

  function RatioSpreadLegs(callLong: Option, callShort: Option, ratio: int): seq<Leg> {
    [Leg(callLong, "long", 1), Leg(callShort, "short", ratio)]
  }

  method RatioSpread(callLong: Option, callShort: Option, ratio: Maybe<int> := None) returns (r: Result<Strategy>)
    ensures r.Err? <==> RatioQuantity(callLong, callShort, ratio).Err?
    ensures r.Err? ==> r.error == ZeroDivision
    ensures r.Ok? ==>
      var q := RatioQuantity(callLong, callShort, ratio).value;
      fresh(r.value) && r.value.name == RatioSpreadLabel(callLong, callShort, q) &&
      r.value.legs == RatioSpreadLegs(callLong, callShort, q)
  {
    var quantity := RatioQuantity(callLong, callShort, ratio);
    if quantity.Err? {
      return Err(quantity.error);
    }
    var q := quantity.value;
    var s := new Strategy(RatioSpreadLabel(callLong, callShort, q));
    var t := s.Add(callLong, "long", 1);
    t := t.Add(callShort, "short", q);
    r := Ok(t);
  }

  // ---- Payoff shapes of the vertical spreads ----

  lemma TotalOfTwo(first: Leg, second: Leg, m: Measure)
    requires LegValue(first, m).Ok? && LegValue(second, m).Ok?
    ensures Total([first, second], m).Ok?
    ensures Total([first, second], m).value == LegValue(first, m).value + LegValue(second, m).value
  {
    assert [first, second][..1] == [first];
    assert [first][..0] == [];
    assert Total([first], m) == Ok(0.0 + LegValue(first, m).value);
  }

  lemma ScaleMono(x: real, y: real, v: real)
    requires x <= y && v >= 0.0
    ensures x * v <= y * v
  {
    assert (y - x) * v >= 0.0;
    assert y * v - x * v == (y - x) * v;
  }

  lemma ScaledOrder(p1: real, p2: real, x1: real, x2: real, v: real)
    requires x1 <= x2 && v >= 0.0 && p1 == x1 * v && p2 == x2 * v
    ensures p1 <= p2
  {
    ScaleMono(x1, x2, v);
  }

  /** The break-even point of `CallSpread(a, b)`: the lower strike plus the
      net premium paid. */
  function CallSpreadBreakEven(a: Option, b: Option): real {
    a.strike + (a.achat - b.vente)
  }

  /** `CallSpread(a, b)` on two calls with a common multiplier pays the
      underlying held between the two strikes, less the break-even point,
      times the multiplier. */
  lemma CallSpreadPayoff(a: Option, b: Option, sT: real)
    requires a.cat == "Call" && b.cat == "Call" && a.strike < b.strike && a.multiplier == b.multiplier
    ensures Total(CallSpreadLegs(a, b), PayoffAt(sT)).Ok?
    ensures Total(CallSpreadLegs(a, b), PayoffAt(sT)).value
         == (Clamp(sT, a.strike, b.strike) - CallSpreadBreakEven(a, b)) * a.multiplier
  {
    var m := a.multiplier;
    var ia, ib := a.Intrinsic(sT), b.Intrinsic(sT);
    var legs := CallSpreadLegs(a, b);
    assert LegValue(legs[0], PayoffAt(sT)).value == ((ia - a.achat) * m) * 1.0;
    assert LegValue(legs[1], PayoffAt(sT)).value == ((ib - b.vente) * (m * -1.0)) * 1.0;
    TotalOfTwo(legs[0], legs[1], PayoffAt(sT));
    assert ia - ib == Clamp(sT, a.strike, b.strike) - a.strike;
    assert ((ia - a.achat) * m) * 1.0 + ((ib - b.vente) * (m * -1.0)) * 1.0
        == (ia - ib - (a.achat - b.vente)) * m;
  }

  /** The shape drawn in the CallSpread docstring: with a non-negative
      multiplier the payoff never falls as the underlying rises. */
  lemma CallSpreadMonotone(a: Option, b: Option, s1: real, s2: real)
    requires a.cat == "Call" && b.cat == "Call" && a.strike < b.strike
    requires a.multiplier == b.multiplier && a.multiplier >= 0.0 && s1 <= s2
    ensures Total(CallSpreadLegs(a, b), PayoffAt(s1)).Ok? && Total(CallSpreadLegs(a, b), PayoffAt(s2)).Ok?
    ensures Total(CallSpreadLegs(a, b), PayoffAt(s1)).value <= Total(CallSpreadLegs(a, b), PayoffAt(s2)).value
  {
    CallSpreadPayoff(a, b, s1);
    CallSpreadPayoff(a, b, s2);
    var k := CallSpreadBreakEven(a, b);
    ScaledOrder(Total(CallSpreadLegs(a, b), PayoffAt(s1)).value, Total(CallSpreadLegs(a, b), PayoffAt(s2)).value,
                Clamp(s1, a.strike, b.strike) - k, Clamp(s2, a.strike, b.strike) - k, a.multiplier);
  }

  /** The payoff is flat below the lower strike and flat above the upper
      one. */
  lemma CallSpreadFlat(a: Option, b: Option, s1: real, s2: real)
    requires a.cat == "Call" && b.cat == "Call" && a.strike < b.strike && a.multiplier == b.multiplier
    requires (s1 <= a.strike && s2 <= a.strike) || (b.strike <= s1 && b.strike <= s2)
    ensures Total(CallSpreadLegs(a, b), PayoffAt(s1)).Ok? && Total(CallSpreadLegs(a, b), PayoffAt(s2)).Ok?
    ensures Total(CallSpreadLegs(a, b), PayoffAt(s1)).value == Total(CallSpreadLegs(a, b), PayoffAt(s2)).value
  {
    CallSpreadPayoff(a, b, s1);
    CallSpreadPayoff(a, b, s2);
    assert Clamp(s1, a.strike, b.strike) == Clamp(s2, a.strike, b.strike);
  }

  /** The most the spread loses is the net premium paid; the most it gains
      is the strike width less that premium. */
  lemma CallSpreadBounds(a: Option, b: Option, sT: real)
    requires a.cat == "Call" && b.cat == "Call" && a.strike < b.strike
    requires a.multiplier == b.multiplier && a.multiplier >= 0.0
    ensures Total(CallSpreadLegs(a, b), PayoffAt(sT)).Ok?
    ensures -(a.achat - b.vente) * a.multiplier <= Total(CallSpreadLegs(a, b), PayoffAt(sT)).value
    ensures Total(CallSpreadLegs(a, b), PayoffAt(sT)).value <= (b.strike - a.strike - (a.achat - b.vente)) * a.multiplier
  {
    CallSpreadPayoff(a, b, sT);
    var k := CallSpreadBreakEven(a, b);
    var p := Total(CallSpreadLegs(a, b), PayoffAt(sT)).value;
    var c := Clamp(sT, a.strike, b.strike);
    ScaledOrder(-(a.achat - b.vente) * a.multiplier, p, a.strike - k, c - k, a.multiplier);
    ScaledOrder(p, (b.strike - a.strike - (a.achat - b.vente)) * a.multiplier, c - k, b.strike - k, a.multiplier);
  }

  /** The break-even point of `PutSpread(hi, lo)`: the higher strike less
      the net premium paid. */
  function PutSpreadBreakEven(hi: Option, lo: Option): real {
    hi.strike - (hi.achat - lo.vente)
  }

  /** `PutSpread(hi, lo)` on two puts with a common multiplier (long the
      higher strike, as the PutSpread explorator builds it) pays the
      break-even point less the underlying held between the two strikes,
      times the multiplier. */
  lemma PutSpreadPayoff(hi: Option, lo: Option, sT: real)
    requires hi.cat == "Put" && lo.cat == "Put" && lo.strike < hi.strike && hi.multiplier == lo.multiplier
    ensures Total(PutSpreadLegs(hi, lo), PayoffAt(sT)).Ok?
    ensures Total(PutSpreadLegs(hi, lo), PayoffAt(sT)).value
         == (PutSpreadBreakEven(hi, lo) - Clamp(sT, lo.strike, hi.strike)) * hi.multiplier
  {
    var m := hi.multiplier;
    var ih, il := hi.Intrinsic(sT), lo.Intrinsic(sT);
    var legs := PutSpreadLegs(hi, lo);
    assert LegValue(legs[0], PayoffAt(sT)).value == ((ih - hi.achat) * m) * 1.0;
    assert LegValue(legs[1], PayoffAt(sT)).value == ((il - lo.vente) * (m * -1.0)) * 1.0;
    TotalOfTwo(legs[0], legs[1], PayoffAt(sT));
    assert ih - il == hi.strike - Clamp(sT, lo.strike, hi.strike);
    assert ((ih - hi.achat) * m) * 1.0 + ((il - lo.vente) * (m * -1.0)) * 1.0
        == (ih - il - (hi.achat - lo.vente)) * m;
  }

  /** The shape drawn in the PutSpread docstring: with a non-negative
      multiplier the payoff never rises as the underlying rises. */
  lemma PutSpreadMonotone(hi: Option, lo: Option, s1: real, s2: real)
    requires hi.cat == "Put" && lo.cat == "Put" && lo.strike < hi.strike
    requires hi.multiplier == lo.multiplier && hi.multiplier >= 0.0 && s1 <= s2
    ensures Total(PutSpreadLegs(hi, lo), PayoffAt(s1)).Ok? && Total(PutSpreadLegs(hi, lo), PayoffAt(s2)).Ok?
    ensures Total(PutSpreadLegs(hi, lo), PayoffAt(s2)).value <= Total(PutSpreadLegs(hi, lo), PayoffAt(s1)).value
  {
    PutSpreadPayoff(hi, lo, s1);
    PutSpreadPayoff(hi, lo, s2);
    var k := PutSpreadBreakEven(hi, lo);
    var legs := PutSpreadLegs(hi, lo);
    var p1, p2 := Total(legs, PayoffAt(s1)).value, Total(legs, PayoffAt(s2)).value;
    var x1, x2 := k - Clamp(s1, lo.strike, hi.strike), k - Clamp(s2, lo.strike, hi.strike);
    assert x2 <= x1;
    ScaledOrder(p2, p1, x2, x1, hi.multiplier);
  }
}
