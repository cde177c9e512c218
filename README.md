# Options payoff engine at expiry

A Dafny model of a small options-strategy library. It covers five parts:

- **The option** (module `Product`, product.py). An option is a call or a put with a strike, an ask price (`achat`), a bid price (`vente`) and a multiplier. It is valued at expiry for a long or a short position, and it has an opening cost.
- **The strategy** (module `Strategies`, strategy.py). A strategy is an append-only list of legs: an option, a direction and a quantity. Its payoff, its cost and its per-leg summary are quantity-weighted sums over the legs. product.py:38-59 carries a second copy of the class without `summary`. Both copies are the one class `Strategies.Strategy`.
- **The builders** (module `Builders`, strategy.py). Call spread, put spread, box spread, butterfly, iron condor and ratio spread are fixed leg templates added to a fresh strategy.
- **The explorators** (module `Explorators`, strategy.py). They scan a chain's strike ladder in input order and build one strategy at every starting strike whose partner strikes, at fixed offsets, are all listed.
- **`pivot_sr`** (module `Analyse`, analyse.py). It computes the pivot point and three supports and three resistances from a high, a low and a close.

Values are modelled as follows:

- Prices, strikes and multipliers are Dafny `real`s.
- Category (`"Call"`/`"Put"`) and direction (`"long"`/`"short"`) stay the strings the program compares. A bad direction is reported when a payoff or cost is asked for, not when the leg is added.
- Python's `None` is `Maybe.None`. The three exceptions the core can raise are `Error` values inside a `Result`:
  - the "direction not good" exception;
  - the `TypeError` of `None * quantity`, for an option whose category is neither Call nor Put;
  - the `ZeroDivisionError` of `RatioSpread` with a zero bid.
- `Strategy` is a class whose `legs` field `Add` appends to. `Payoff` is its loop, proved equal to `Total`, the left-to-right sum that the first failing leg aborts. `Cost` and `Summary` are functions of the field.
- The explorators are loops that append to a list of strategies. Each is specified through three definitions:
  - `ByStrike`/`ZipMap` is `dict(zip(...))`: the shorter list wins, and a repeated key keeps its last pairing.
  - `DropLast` is `s[:-k]`.
  - `Hits(window, keys, offsets)` lists, in order, the starts whose partner strikes are all keys.
- The quirks of the program are kept as written:
  - The box-spread explorator builds both of its tables from the call list, so its table holds only calls.
  - Its put strikes still lengthen the scanned window `(calls + puts)[:-3]`. A call strike that also appears among the put strikes before the last three entries of `calls + puts` is scanned a second time. If its four strikes are all call strikes, its box is then emitted twice.
  - `IronCondor` always has the bare label "Iron Condor".
  - `Strategy.payoff` ignores its `direction` argument.
  - `spread` is unused by the box-spread explorator.

## Model

| member | source | states |
|---|---|---|
| `Product.Option.Intrinsic` | product.py:20-24 | The intrinsic value is never negative. It is at least `S-K` for a call and `K-S` for a put, and it is zero out of the money. |
| `Product.Option.PayoffWith` | product.py:20-24 | `_payoff` has a value exactly for Call and Put. The strict comparisons give `(max(S-K,0) - premium) * multiplier`, or `max(K-S,0)` for a put. |
| `Product.Option.PayoffLong` | product.py:16-17 | A long position has a value exactly for Call and Put. The value is `(intrinsic - achat) * multiplier`. |
| `Product.Option.PayoffShort` | product.py:18-19 | A short position has a value exactly for Call and Put. The value is `(intrinsic - vente) * -multiplier`. |
| `Product.Option.Payoff` | product.py:25-30 | It raises exactly for a direction other than "long"/"short", with that direction. Otherwise it has a value exactly when the category is Call or Put. |
| `Product.Option.Cost` | product.py:31-36 | Long costs `multiplier*achat` and short costs `-(multiplier*vente)`. Any other direction raises with that direction. |
| `Product.LongPayoff` | product.py:16-24 | A long position pays `(intrinsic - achat) * multiplier`. At `S = K` it pays `-achat * multiplier`. |
| `Product.ShortPayoff` | product.py:18-24 | A short position pays `(intrinsic - vente) * -multiplier`. This is the negation of a long entered at `vente`. |
| `Product.UnpricedPayoff` | product.py:20-30 | An unknown category gives no value for a valid direction. The direction is still checked first. |
| `Product.LongMaxLoss` | product.py:16-35 | With multiplier ≥ 0, a long payoff is never below `-cost("long")`. |
| `Product.ShortMaxGain` | product.py:18-35 | With multiplier ≥ 0, a short payoff is never above `-cost("short")`. |
| `Product.LongCallMonotone` | product.py:16-22 | With multiplier ≥ 0, a long call's payoff never falls as the underlying rises. |
| `Product.LongPutAntitone` | product.py:23-24 | With multiplier ≥ 0, a long put's payoff never rises as the underlying rises. |
| `Strategies.LegValue` | strategy.py:22 | One leg's term fails exactly when its direction is bad, or when a payoff is asked of an option that is neither Call nor Put. Each failure has its error. |
| `Strategies.NoLegs` | strategy.py:16-24 | With no legs, payoff and cost are 0. |
| `Strategies.TotalFails` | strategy.py:16-24 | The sum succeeds exactly when every leg's term does. Otherwise it fails with the error of the first failing leg. |
| `Strategies.TotalFailedPrefix` | strategy.py:17-24 | Once a prefix of the legs fails, the whole sum fails the same way. |
| `Strategies.TotalConcat` | strategy.py:16-24 | The sum over two lists of legs placed one after the other is the sum of their sums. |
| `Strategies.TotalPermutation` | strategy.py:16-24 | Reordering the legs changes neither whether payoff/cost succeed nor their value. |
| `Strategies.Records` | strategy.py:29-38 | There is one record per leg, in insertion order, with the leg's category, strike, direction and quantity. Its cost is `option.cost(dir) * qty`. It fails exactly when `cost()` does, and the record costs add up to `cost()`. |
| `Strategies.Strategy.constructor` | strategy.py:6-8 | A new strategy has the given label and no legs. |
| `Strategies.Strategy.Add` | strategy.py:10-14 | `add` appends exactly one leg at the end, keeps the label and the earlier legs, and returns the same object. |
| `Strategies.Strategy.Payoff` | strategy.py:16-24 | The loop yields the left-to-right sum of `payoff(S, dir) * qty` over the legs, or the first leg's error. The `direction` argument plays no part. |
| `Strategies.Strategy.Cost` | strategy.py:40-41 | It succeeds exactly when every leg's direction is valid. Otherwise it fails with the first bad direction. |
| `Strategies.Strategy.Summary` | strategy.py:29-41 | `summary` is available exactly when `cost()` is. It has one record per leg, and the record costs add up to `cost()`. |
| `Builders.Ceil` | strategy.py:55 | `ceil(x)` is the integer `n` with `n-1 < x <= n`. |
| `Builders.CallSpread` | strategy.py:74-84 | It returns a fresh strategy labelled with both strikes, with legs long `call_long` 1 then short `call_short` 1. |
| `Builders.PutSpread` | strategy.py:115-120 | It returns a fresh strategy with legs long `put_long` 1 then short `put_short` 1. |
| `Builders.BoxSpread` | strategy.py:149-158 | It returns a fresh strategy labelled with `call_long` and `put_short`'s strikes. The legs are `call_long` short, `call_short` long, `put_long` short, `put_short` long, 1 each. |
| `Builders.Butterfly` | strategy.py:205-212 | It returns a fresh strategy with legs long 1 low, short 2 middle, long 1 high. |
| `Builders.IronCondor` | strategy.py:233-259 | The label is always "Iron Condor". The legs are short put K1, long put K2, short call K3, long call K4. |
| `Builders.RatioQuantity` | strategy.py:53-55 | A truthy ratio is kept. A missing or zero ratio becomes `ceil(achat/vente)`, which divides by zero exactly when `vente` is 0. For `vente > 0` it is the fewest whole short contracts whose premium covers the premium paid. |
| `Builders.CeilCovers` | strategy.py:55 | `ceil(a/v)` units of `v > 0` reach `a`, and one unit fewer falls short. |
| `Builders.RatioSpread` | strategy.py:44-60 | It fails exactly on the division by zero. Otherwise it is a fresh strategy: long `call_long` 1, short `call_short` with the ratio quantity. |
| `Builders.CallSpreadPayoff` | strategy.py:63-84 | On two calls with a common multiplier, the payoff is `(clamp(S, Ka, Kb) - break-even) * multiplier`. |
| `Builders.CallSpreadMonotone` | strategy.py:64-73 | With multiplier ≥ 0, the call spread's payoff never falls as the underlying rises. |
| `Builders.CallSpreadFlat` | strategy.py:64-73 | The call spread's payoff is constant below the lower strike and constant above the upper one. |
| `Builders.CallSpreadBounds` | strategy.py:74-84 | The call spread loses at most the net premium. It gains at most the strike width less that premium. |
| `Builders.PutSpreadPayoff` | strategy.py:101-120 | `PutSpread(hi, lo)` pays `(break-even - clamp(S, Klo, Khi)) * multiplier`. |
| `Builders.PutSpreadMonotone` | strategy.py:101-114 | With multiplier ≥ 0, the put spread's payoff never rises as the underlying rises. |
| `Explorators.StrikesOf` | strategy.py:88 | The strike list has one entry per option, in order, each the option's strike. |
| `Explorators.ZipMap` | strategy.py:89 | The keys of `dict(zip(keys, values))` are exactly the keys among the first `min(len)` entries. |
| `Explorators.ZipMapLastWins` | strategy.py:89 | Each entry pairs a key with the value zipped at that key's last occurrence. |
| `Explorators.ByStrike` | strategy.py:88-89 | The strike table's keys are exactly the listed strikes. |
| `Explorators.ByStrikeSound` | strategy.py:95-96 | The option found under a strike is a listed option with that strike. |
| `Explorators.DropLast` | strategy.py:91 | `s[:-k]` is the prefix that leaves out the last `k` elements, or nothing when there are not more than `k`. |
| `Explorators.HitsExact` | strategy.py:91-94 | A start is emitted exactly when it is in the window and all its partner strikes are present. There are never more starts than the window holds. |
| `Explorators.HitsConcat` | strategy.py:91-98 | Starts are emitted in input order. |
| `Explorators.HitsStep` | strategy.py:91-98 | One more turn of the loop appends the new start exactly when all its partner strikes are present. |
| `Explorators.CallSpreadLadderExample` | strategy.py:86-98 | Strikes 100, 120, 140, 200 with step 20 give the starts 100 and 120. |
| `Explorators.CallSpreadGapExample` | strategy.py:86-98 | Strikes 100 and 140 with step 20 give nothing, because no nearest strike is substituted. |
| `Explorators.CallSpreadScan` | strategy.py:90-98 | For each start in order whose `a+step` is listed, the loop emits `CallSpread(by[a], by[a+step])`, and nothing else. Every emitted strategy is a fresh object, and no object is emitted twice. |
| `Explorators.CallSpreadExplorator` | strategy.py:86-98 | The call-spread scan runs over `strikes[:-1]` of the chain indexed by strike. Every emitted strategy is a fresh object, and no object is emitted twice. |
| `Explorators.PutSpreadScan` | strategy.py:126-134 | The starts are the same as for the call spread, but each emits `PutSpread(by[a+step], by[a])`, long at the higher strike. Every emitted strategy is a fresh object, and no object is emitted twice. |
| `Explorators.PutSpreadExplorator` | strategy.py:122-134 | The put-spread scan runs over `strikes[:-1]`. Every emitted strategy is a fresh object, and no object is emitted twice. |
| `Explorators.ButterflyScan` | strategy.py:218-230 | It emits `Butterfly(by[a], by[a+step], by[a+step+step])` exactly for the starts whose two partner strikes are listed. Every emitted strategy is a fresh object, and no object is emitted twice. |
| `Explorators.ButterflyExplorator` | strategy.py:214-230 | The butterfly scan runs over `strikes[:-2]`. Every emitted strategy is a fresh object, and no object is emitted twice. |
| `Explorators.BoxSpreadScan` | strategy.py:174-190 | It emits `BoxSpread(b, a, c, d)`, with `b=a+step`, `c=b+gap` and `d=c+step`, exactly when all four are keys, in order. Every emitted strategy is a fresh object, and no object is emitted twice. |
| `Explorators.BoxSpreadExplorator` | strategy.py:160-190 | The box scan runs over `(call strikes + put strikes)[:-3]` with the table zipped from the calls. `spread` is unused. Every emitted strategy is a fresh object, and no object is emitted twice. |
| `Explorators.BoxTable` | strategy.py:167-172 | The table zipped from call and put strikes with the calls has exactly the call strikes as keys. |
| `Explorators.BoxTableIsCallTable` | strategy.py:167-172 | The box table is the call chain indexed by strike, so every box is built from calls only. |
| `Explorators.BoxSpreadRepeatExample` | strategy.py:168-175 | With calls and puts both at 100, 125, 225, 250, gap 100 and step 25, the window `(calls + puts)[:-3]` yields the start 100 twice. |
| `Analyse.PivotSR` | analyse.py:1-25 | The result has exactly the seven keys pivot, S1, R1, S2, R2, S3, R3, and `3*pivot = H+B+C`. |
| `Analyse.PivotBands` | analyse.py:11-17 | `S2+R2 = 2*pivot`, `S1+R1 = S3+R3 = 4*pivot-H-B`, and `Rk-Sk = k*(H-B)`. |
| `Analyse.PivotOrdered` | analyse.py:11-17 | When `B <= C <= H`, the levels are ordered `S3 <= S2 <= S1 <= pivot <= R1 <= R2 <= R3`. |

## Left out

- NumPy arrays: payoffs are computed at one underlying price. `np.where` over an array is the same formula applied price by price.
- Floating point: prices and strikes are exact reals. So membership of `strike + step` in the strike list is exact equality, with no rounding.
- Labels: they are kept abstract as a kind and the figures formatted into them. `__str__`, `__repr__` and number formatting are not modelled.
- The `print` in `RatioSpread` (strategy.py:56) is output only and is not modelled.
- `Butterfly`'s `label` parameter is overwritten before use (strategy.py:205-206), so the model has no such parameter.
- `Builders.RatioSpread`: the ratio is an integer (or absent). A non-integer ratio passed by a caller is not modelled.
- Dead code is not modelled: the unused `plong`/`pshort` locals of the builders, strategy.py:169, and the first `IronCondor` label (strategy.py:250-252).
- Options are values, not objects. Two legs holding the same Python object are indistinguishable from two equal options, and nothing in the core mutates an option.
- `Explorators.BoxSpreadScan`: one strike table stands for both `call_by_strike` and `put_by_strike`. strategy.py:171-172 builds the two from the same `zip`, so they are equal.
- euronext.py (HTTP fetching and HTML parsing of option chains) is not part of this model. Chains are given as sequences of `Option`.
- graph.py (plotting and table display) is not part of this model.
