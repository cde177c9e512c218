/** A strategy: an ordered, append-only list of legs (option, direction,
    quantity) whose payoff and cost are quantity-weighted sums over the legs
    (strategy.py, class Strategy; product.py carries the same class without
    `summary`). */
module Strategies {
  import opened Product

  /** A strategy's label, kept abstract: the kind of strategy and the
      figures that strategy.py formats into the text. */
  datatype Label = Label(kind: string, figures: seq<real>)

  /** One entry of `self.options`: `{'option', 'direction', 'quantity'}`.
      The direction is not checked when the leg is added. */
  datatype Leg = Leg(option: Option, direction: string, quantity: int)

  /** The quantity summed over the legs: the payoff at one underlying price,
      or the cost of opening the position. */
  datatype Measure = PayoffAt(sT: real) | OpeningCost

  /** One leg's term: `option.payoff(sT, direct) * quantity` or
      `option.cost(direction) * quantity`. A payoff of `None` (unknown
      category) times a quantity raises. */
  function LegValue(leg: Leg, m: Measure): (r: Result<real>)
    ensures r.Err? <==> !ValidDirection(leg.direction) || (m.PayoffAt? && !leg.option.Priced())
    ensures !ValidDirection(leg.direction) ==> r == Err(InvalidDirection(leg.direction))
    ensures ValidDirection(leg.direction) && m.PayoffAt? && !leg.option.Priced() ==> r == Err(UnsupportedOperand)
  {
    match m
    case PayoffAt(sT) =>
      (match leg.option.Payoff(sT, leg.direction)
       case Err(e) => Err(e)
       case Ok(None) => Err(UnsupportedOperand)
       case Ok(Some(p)) => Ok(p * leg.quantity as real))
    case OpeningCost =>
      (match leg.option.Cost(leg.direction)
       case Err(e) => Err(e)
       case Ok(c) => Ok(c * leg.quantity as real))
  }

  /** The sum from 0 of the legs' terms, left to right; the first leg whose
      term fails aborts the whole sum with that leg's error. */
  function Total(legs: seq<Leg>, m: Measure): Result<real>
  {
    if legs == [] then Ok(0.0)
    else
      var acc := Total(legs[..|legs| - 1], m);
      if acc.Err? then acc
      else
        match LegValue(legs[|legs| - 1], m)
        case Err(e) => Err(e)
        case Ok(v) => Ok(acc.value + v)
  }

  predicate AllDefined(legs: seq<Leg>, m: Measure) {
    forall i :: 0 <= i < |legs| ==> LegValue(legs[i], m).Ok?
  }

  /** Two results that agree on success and on the value. */
  predicate SameOutcome(r: Result<real>, s: Result<real>) {
    r.Ok? == s.Ok? && (r.Ok? ==> r.value == s.value)
  }

  /** With no legs, payoff and cost are 0. */
  lemma NoLegs(m: Measure)
    ensures Total([], m) == Ok(0.0)
  {
  }

  /** The sum succeeds exactly when every leg's term does; otherwise it fails
      with the error of the first failing leg. */
  lemma {:induction false} TotalFails(legs: seq<Leg>, m: Measure)
    ensures Total(legs, m).Ok? <==> AllDefined(legs, m)
    ensures Total(legs, m).Err? ==>
      exists i :: 0 <= i < |legs| && AllDefined(legs[..i], m) && LegValue(legs[i], m) == Err(Total(legs, m).error)
  {
    if legs != [] {
      var n := |legs| - 1;
      var init := legs[..n];
      TotalFails(init, m);
      assert forall i :: 0 <= i < n ==> init[i] == legs[i];
      if Total(init, m).Err? {
        var i :| 0 <= i < n && AllDefined(init[..i], m) && LegValue(init[i], m) == Err(Total(init, m).error);
        assert init[..i] == legs[..i];
      } else if LegValue(legs[n], m).Err? {
        assert legs[..n] == init;
      }
    }
  }

  /** Once a prefix fails, the whole sum fails the same way. */
  lemma {:induction false} TotalFailedPrefix(legs: seq<Leg>, j: nat, m: Measure)
    requires j <= |legs| && Total(legs[..j], m).Err?
    ensures Total(legs, m) == Total(legs[..j], m)
  {
    if j < |legs| {
      var n := |legs| - 1;
      assert legs[..n][..j] == legs[..j];
      TotalFailedPrefix(legs[..n], j, m);
    } else {
      assert legs[..j] == legs;
    }
  }

  /** The sum over a concatenation is the sum of the sums. */
  lemma {:induction false} TotalConcat(a: seq<Leg>, b: seq<Leg>, m: Measure)
    ensures Total(a + b, m).Ok? <==> Total(a, m).Ok? && Total(b, m).Ok?
    ensures Total(a + b, m).Ok? ==> Total(a + b, m).value == Total(a, m).value + Total(b, m).value
  {
    if b == [] {
      assert a + b == a;
    } else {
      var n := |b| - 1;
      TotalConcat(a, b[..n], m);
      assert (a + b)[..|a + b| - 1] == a + b[..n];
      assert (a + b)[|a + b| - 1] == b[n];
    }
  }

  /** Taking one leg out of the sum takes out exactly its term. */
  lemma TotalRemove(b: seq<Leg>, j: nat, m: Measure)
    requires j < |b|
    ensures Total(b, m).Ok? <==> Total(b[..j] + b[j + 1..], m).Ok? && LegValue(b[j], m).Ok?
    ensures Total(b, m).Ok? ==>
      Total(b, m).value == Total(b[..j] + b[j + 1..], m).value + LegValue(b[j], m).value
  {
    var x := b[j];
    assert b == (b[..j] + [x]) + b[j + 1..];
    assert [x][..0] == [];
    TotalConcat(b[..j] + [x], b[j + 1..], m);
    TotalConcat(b[..j], [x], m);
    TotalConcat(b[..j], b[j + 1..], m);
  }

  /** Removing one copy of the same element from two permutations of each
      other leaves two permutations of each other. */
  lemma MultisetRemove<T>(a: seq<T>, i: nat, b: seq<T>, j: nat)
    requires i < |a| && j < |b| && a[i] == b[j] && multiset(a) == multiset(b)
    ensures multiset(a[..i] + a[i + 1..]) == multiset(b[..j] + b[j + 1..])
  {
    var x := a[i];
    assert a == a[..i] + [x] + a[i + 1..];
    assert b == b[..j] + [x] + b[j + 1..];
    assert multiset(a) == multiset(a[..i] + a[i + 1..]) + multiset{x};
    assert multiset(b) == multiset(b[..j] + b[j + 1..]) + multiset{x};
    assert multiset(a[..i] + a[i + 1..]) == multiset(a) - multiset{x};
    assert multiset(b[..j] + b[j + 1..]) == multiset(b) - multiset{x};
  }

  /** Payoff and cost do not depend on the order of the legs: reordering
      them changes neither whether the sum succeeds nor its value. */
  lemma {:induction false} TotalPermutation(a: seq<Leg>, b: seq<Leg>, m: Measure)
    requires multiset(a) == multiset(b)
    ensures SameOutcome(Total(a, m), Total(b, m))
  {
    if a == [] {
      assert |b| == |multiset(b)| == 0;
    } else {
      var n := |a| - 1;
      assert a[n] in multiset(b);
      var j :| 0 <= j < |b| && b[j] == a[n];
      MultisetRemove(a, n, b, j);
      assert a[..n] + a[n + 1..] == a[..n];
      TotalPermutation(a[..n], b[..j] + b[j + 1..], m);
      TotalRemove(a, n, m);
      TotalRemove(b, j, m);
    }
  }

  /** One line of `summary`. */
  datatype Record = Record(cat: string, strike: real, direction: string, quantity: int, cost: real)

  function SumCosts(records: seq<Record>): real {
    if records == [] then 0.0
    else SumCosts(records[..|records| - 1]) + records[|records| - 1].cost
  }

  /** `summary`: one record per leg in insertion order, whose cost is the
      leg's term of `cost`; it fails exactly when `cost` does, with the same
      error, and otherwise its costs add up to `cost`. */
  function Records(legs: seq<Leg>): (r: Result<seq<Record>>)
    ensures r.Ok? <==> Total(legs, OpeningCost).Ok?
    ensures r.Err? ==> r.error == Total(legs, OpeningCost).error
    ensures r.Ok? ==> |r.value| == |legs|
    ensures r.Ok? ==> forall k :: 0 <= k < |legs| ==>
      r.value[k].cat == legs[k].option.cat && r.value[k].strike == legs[k].option.strike &&
      r.value[k].direction == legs[k].direction && r.value[k].quantity == legs[k].quantity &&
      Ok(r.value[k].cost) == LegValue(legs[k], OpeningCost)
    ensures r.Ok? ==> SumCosts(r.value) == Total(legs, OpeningCost).value
  {
    if legs == [] then Ok([])
    else
      var n := |legs| - 1;
      var init := Records(legs[..n]);
      if init.Err? then init
      else
        var leg := legs[n];
        match LegValue(leg, OpeningCost)
        case Err(e) => Err(e)
        case Ok(c) =>
          var recs := init.value + [Record(leg.option.cat, leg.option.strike, leg.direction, leg.quantity, c)];
          assert recs[..n] == init.value;
          Ok(recs)
  }

  class Strategy {
    var name: Label  // `self.label`
    var legs: seq<Leg>

    constructor (title: Label := Label("", []))
      ensures name == title && legs == []
    {
      name := title;
      legs := [];
    }

    /** `add`: appends one leg at the end, keeps the earlier legs, and
        returns the same object so that calls chain. */
    method Add(option: Option, direction: string, quantity: int) returns (self: Strategy)
      modifies this
      ensures self == this && name == old(name)
      ensures legs == old(legs) + [Leg(option, direction, quantity)]
    {
      legs := legs + [Leg(option, direction, quantity)];
      self := this;
    }

    /** `payoff`: the running sum over the legs; its own `direction`
        argument plays no part. */
    method Payoff(sT: real, direction: string := "long") returns (r: Result<real>)
      ensures r == Total(legs, PayoffAt(sT))
    {
      var payoffSum := 0.0;
      for i := 0 to |legs|
        invariant Total(legs[..i], PayoffAt(sT)) == Ok(payoffSum)
      {
        var option, direct, quantity := legs[i].option, legs[i].direction, legs[i].quantity;
        assert legs[..i + 1][..i] == legs[..i];
        var p := option.Payoff(sT, direct);
        if p.Err? {
          TotalFailedPrefix(legs, i + 1, PayoffAt(sT));
          return Err(p.error);
        }
        if p.value.None? {
          TotalFailedPrefix(legs, i + 1, PayoffAt(sT));
          return Err(UnsupportedOperand);
        }
        var payoff := p.value.value * quantity as real;
        assert p == legs[i].option.Payoff(sT, legs[i].direction);
        var lv := LegValue(legs[i], PayoffAt(sT));
        assert lv.Ok?;
        assert lv.value == payoff;
        assert lv == Ok(payoff);
        payoffSum := payoffSum + payoff;
      }
      assert legs[..|legs|] == legs;
      r := Ok(payoffSum);
    }

    /** `cost`: the quantity-weighted sum of the legs' opening costs; it
        fails exactly when some leg has a direction other than "long" or
        "short", and then with the first such leg's direction. */
    function Cost(): (r: Result<real>)
      reads this
      ensures r.Ok? <==> forall i :: 0 <= i < |legs| ==> ValidDirection(legs[i].direction)
      ensures r.Err? ==>
        exists i :: (0 <= i < |legs| && !ValidDirection(legs[i].direction) &&
                     r.error == InvalidDirection(legs[i].direction) &&
                     forall k :: 0 <= k < i ==> ValidDirection(legs[k].direction))
    {
      TotalFails(legs, OpeningCost);
      Total(legs, OpeningCost)
    }

    /** `summary`: available exactly when `cost` is, and its records' costs
        add up to `cost`. */
    function Summary(): (r: Result<seq<Record>>)
      reads this
      ensures r.Ok? <==> Cost().Ok?
      ensures r.Ok? ==> |r.value| == |legs| && SumCosts(r.value) == Cost().value
    {
      Records(legs)
    }
  }
}
