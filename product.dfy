/** An option contract valued at expiry (product.py, class Option).
    Prices, strikes and multipliers are exact reals; category and direction
    stay the strings the program compares against. */
module Product {

  /** Python's `None` or a value. */
  datatype Maybe<T> = None | Some(value: T)

  /** The exceptions the core can raise. */
  datatype Error =
    | InvalidDirection(direction: string)  // `Exception('direction not good ...')`
    | UnsupportedOperand                   // `None * quantity` (TypeError)
    | ZeroDivision                         // `plong / pshort` with `pshort == 0`

  datatype Result<T> = Ok(value: T) | Err(error: Error)

  predicate ValidDirection(direction: string) {
    direction == "long" || direction == "short"
  }

  /** Reference definition of `max`, against which the strict comparisons
      of product.py are checked. */
  function Max(a: real, b: real): real {
    if a >= b then a else b
  }

  /** An option of the chain, with the defaults of product.py's constructor. */
  datatype Option = Option(cat: string := "Call", strike: real := 0.0, achat: real := 0.0,
                           vente: real := 0.0, multiplier: real := 1.0)
  {
    predicate Priced() {
      cat == "Call" || cat == "Put"
    }

    /** Intrinsic value at expiry, in the textbook `max` form. */
    function Intrinsic(sT: real): (v: real)
      requires Priced()
      ensures v >= 0.0
      ensures cat == "Call" ==> v >= sT - strike && (sT <= strike ==> v == 0.0)
      ensures cat == "Put" ==> v >= strike - sT && (sT >= strike ==> v == 0.0)
    {
      if cat == "Call" then Max(sT - strike, 0.0) else Max(strike - sT, 0.0)
    }

    /** `_payoff`: intrinsic value by strict comparison, less the premium,
        times the multiplier; no value for a category other than Call/Put. */
    function PayoffWith(sT: real, premium: real, mult: real): (r: Maybe<real>)
      ensures r.Some? <==> Priced()
      ensures r.Some? ==> r.value == (Intrinsic(sT) - premium) * mult
    {
      if cat == "Call" then Some(((if sT > strike then sT - strike else 0.0) - premium) * mult)
      else if cat == "Put" then Some(((if sT < strike then strike - sT else 0.0) - premium) * mult)
      else None
    }

    /** `payoff_long`: the premium paid is `achat`. */
    function PayoffLong(sT: real): (r: Maybe<real>)
      ensures r.Some? <==> Priced()
      ensures r.Some? ==> r.value == (Intrinsic(sT) - achat) * multiplier
    {
      PayoffWith(sT, achat, multiplier)
    }

    /** `payoff_short`: the premium received is `vente` and the multiplier
        is negated. */
    function PayoffShort(sT: real): (r: Maybe<real>)
      ensures r.Some? <==> Priced()
      ensures r.Some? ==> r.value == (Intrinsic(sT) - vente) * (multiplier * -1.0)
    {
      PayoffWith(sT, vente, multiplier * -1.0)
    }

    /** `payoff`: dispatch on the direction string; anything but "long" or
        "short" raises. */
    function Payoff(sT: real, direction: string): (r: Result<Maybe<real>>)
      ensures r.Err? <==> !ValidDirection(direction)
      ensures r.Err? ==> r.error == InvalidDirection(direction)
      ensures r.Ok? ==> (r.value.Some? <==> Priced())
    {
      if direction == "long" then Ok(PayoffLong(sT))
      else if direction == "short" then Ok(PayoffShort(sT))
      else Err(InvalidDirection(direction))
    }

    /** `cost`: the cash paid to open the position (negative when received). */
    function Cost(direction: string): (r: Result<real>)
      ensures r.Err? <==> !ValidDirection(direction)
      ensures r.Err? ==> r.error == InvalidDirection(direction)
      ensures direction == "long" ==> r.value == multiplier * achat
      ensures direction == "short" ==> r.value == -(multiplier * vente)
    {
      if direction == "long" then Ok(multiplier * achat)
      else if direction == "short" then Ok(-multiplier * vente)
      else Err(InvalidDirection(direction))
    }
  }

  /** A long position pays `(intrinsic - achat) * multiplier`; at the strike
      the intrinsic value of a call or a put is zero. */
  lemma LongPayoff(o: Option, sT: real)
    requires o.Priced()
    ensures o.Payoff(sT, "long") == Ok(Some((o.Intrinsic(sT) - o.achat) * o.multiplier))
    ensures sT == o.strike ==> o.Payoff(sT, "long") == Ok(Some(-o.achat * o.multiplier))
  {
    var v := (o.Intrinsic(sT) - o.achat) * o.multiplier;
    var w := o.PayoffWith(sT, o.achat, o.multiplier);
    assert w.Some?;
    assert w.value == v;
    assert o.PayoffLong(sT) == w;
    if sT == o.strike {
      assert o.Intrinsic(sT) == 0.0;
      assert v == -o.achat * o.multiplier;
    }
  }

  /** A short position is the long formula with `vente` as premium and the
      multiplier negated, i.e. the negation of a long entered at `vente`. */
  lemma ShortPayoff(o: Option, sT: real)
    requires o.Priced()
    ensures o.Payoff(sT, "short") == Ok(Some((o.Intrinsic(sT) - o.vente) * -o.multiplier))
    ensures o.Payoff(sT, "short").value.value
         == -(o.(achat := o.vente).Payoff(sT, "long").value.value)
  {
  }

  /** An unknown category yields no value (Python `None`) for a valid
      direction, and the direction is still checked first. */
  lemma UnpricedPayoff(o: Option, sT: real, direction: string)
    requires !o.Priced()
    ensures ValidDirection(direction) ==> o.Payoff(sT, direction) == Ok(None)
    ensures !ValidDirection(direction) ==> o.Payoff(sT, direction) == Err(InvalidDirection(direction))
  {
  }

  /** With a non-negative multiplier the most a long position loses is what
      it cost to open. */
  lemma LongMaxLoss(o: Option, sT: real)
    requires o.Priced() && o.multiplier >= 0.0
    ensures o.PayoffLong(sT).value >= -o.Cost("long").value
  {
    var x := o.Intrinsic(sT);
    assert x * o.multiplier >= 0.0;
    assert (x - o.achat) * o.multiplier == x * o.multiplier - o.achat * o.multiplier;
  }

  /** With a non-negative multiplier the most a short position gains is the
      premium it received. */
  lemma ShortMaxGain(o: Option, sT: real)
    requires o.Priced() && o.multiplier >= 0.0
    ensures o.PayoffShort(sT).value <= -o.Cost("short").value
  {
    var x := o.Intrinsic(sT);
    assert x * o.multiplier >= 0.0;
    assert (x - o.vente) * (o.multiplier * -1.0) == o.vente * o.multiplier - x * o.multiplier;
  }

  /** A long call never loses value as the underlying rises. */
  lemma LongCallMonotone(o: Option, s1: real, s2: real)
    requires o.cat == "Call" && o.multiplier >= 0.0 && s1 <= s2
    ensures o.PayoffLong(s1).value <= o.PayoffLong(s2).value
  {
    var x1, x2 := o.Intrinsic(s1), o.Intrinsic(s2);
    assert x1 <= x2;
    assert (x2 - x1) * o.multiplier >= 0.0;
    assert (x2 - o.achat) * o.multiplier - (x1 - o.achat) * o.multiplier == (x2 - x1) * o.multiplier;
  }

  /** A long put never gains value as the underlying rises. */
  lemma LongPutAntitone(o: Option, s1: real, s2: real)
    requires o.cat == "Put" && o.multiplier >= 0.0 && s1 <= s2
    ensures o.PayoffLong(s1).value >= o.PayoffLong(s2).value
  {
    var x1, x2 := o.Intrinsic(s1), o.Intrinsic(s2);
    assert x1 >= x2;
    assert (x1 - x2) * o.multiplier >= 0.0;
    assert (x1 - o.achat) * o.multiplier - (x2 - o.achat) * o.multiplier == (x1 - x2) * o.multiplier;
  }
}
