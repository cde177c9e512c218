/** The explorators of strategy.py: each walks the strikes of a chain in
    input order and, at every starting strike whose partner strikes (fixed
    offsets from it) are all listed, emits the shape's strategy built from
    the options found under those strikes. A missing strike is not an error:
    that start is skipped. */
module Explorators {
  import opened Product
  import opened Strategies
  import opened Builders

  /** `[o.strike for o in options]`. */
  function StrikesOf(options: seq<Option>): (r: seq<real>)
    ensures |r| == |options| && forall i :: 0 <= i < |r| ==> r[i] == options[i].strike
  {
    seq(|options|, i requires 0 <= i < |options| => options[i].strike)
  }

  function MinLen(a: nat, b: nat): nat {
    if a <= b then a else b
  }

  /** Where `k` last occurs in `s`. */
  function LastIndexOf(s: seq<real>, k: real): (i: nat)
    requires k in s
    ensures i < |s| && s[i] == k
  {
    var n := |s| - 1;
    if s[n] == k then n
    else
      assert k in s[..n] by {
        var j :| 0 <= j < |s| && s[j] == k;
        assert s[..n][j] == k;
      }
      LastIndexOf(s[..n], k)
  }

  /** No occurrence of `k` follows the one `LastIndexOf` finds. */
  lemma {:induction false} LastIndexIsLast(s: seq<real>, k: real)
    requires k in s
    ensures k !in s[LastIndexOf(s, k) + 1..]
  {
    var n := |s| - 1;
    if s[n] != k {
      assert k in s[..n] by {
        var j :| 0 <= j < |s| && s[j] == k;
        assert s[..n][j] == k;
      }
      LastIndexIsLast(s[..n], k);
      var i := LastIndexOf(s, k);
      assert s[i + 1..] == s[..n][i + 1..] + [s[n]];
    }
  }

  /** `dict(zip(keys, values))`: `zip` stops at the shorter sequence, and a
      key listed twice keeps the value paired with its last occurrence. */
  function ZipMap(keys: seq<real>, values: seq<Option>): (r: map<real, Option>)
    ensures forall k :: k in r <==> k in keys[..MinLen(|keys|, |values|)]
  {
    var n := MinLen(|keys|, |values|);
    map k | k in keys[..n] :: values[LastIndexOf(keys[..n], k)]
  }

  /** Every entry of `dict(zip(keys, values))` pairs a key with the value
      zipped with its last occurrence. */
  lemma ZipMapLastWins(keys: seq<real>, values: seq<Option>, k: real)
    requires k in ZipMap(keys, values)
    ensures exists i :: (0 <= i < MinLen(|keys|, |values|) && keys[i] == k && ZipMap(keys, values)[k] == values[i] &&
                         k !in keys[i + 1..MinLen(|keys|, |values|)])
  {
    var n := MinLen(|keys|, |values|);
    var i := LastIndexOf(keys[..n], k);
    LastIndexIsLast(keys[..n], k);
    assert keys[..n][i + 1..] == keys[i + 1..n];
  }

  /** `by_strike = dict(zip(strikes, options))`: the keys are exactly the
      listed strikes. */
  function ByStrike(options: seq<Option>): (r: map<real, Option>)
    ensures forall k :: k in r <==> k in StrikesOf(options)
  {
    var strikes := StrikesOf(options);
    assert strikes[..MinLen(|strikes|, |options|)] == strikes;
    ZipMap(strikes, options)
  }

  /** The option found under a strike is a listed option with that strike. */
  lemma ByStrikeSound(options: seq<Option>, k: real)
    requires k in ByStrike(options)
    ensures ByStrike(options)[k].strike == k && ByStrike(options)[k] in options
  {
    ZipMapLastWins(StrikesOf(options), options, k);
  }

  /** `s[:-k]`: all but the last `k` elements, nothing when there are not
      more than `k` (and, as in Python, nothing for `k == 0`). */
  function DropLast(s: seq<real>, k: nat): (r: seq<real>)
    ensures |r| <= |s| && r == s[..|r|]
    ensures |r| == if k == 0 || |s| < k then 0 else |s| - k
  {
    if k == 0 || |s| < k then [] else s[..|s| - k]
  }

  /** Every partner strike `a + offset` is present. */
  predicate AllPresent(a: real, present: set<real>, offsets: seq<real>) {
    forall j :: 0 <= j < |offsets| ==> a + offsets[j] in present
  }

  /** The starting strikes of `window`, in order, whose partner strikes at
      `offsets` are all present: exactly the starts an explorator emits a
      strategy for. */
  function Hits(window: seq<real>, present: set<real>, offsets: seq<real>): seq<real>
  {
    if window == [] then []
    else
      var n := |window| - 1;
      var init := Hits(window[..n], present, offsets);
      if AllPresent(window[n], present, offsets) then init + [window[n]] else init
  }

  /** No more starts than the window holds; every start is one of the
      window's strikes with all its partners present; and every such strike
      is a start. */
  lemma {:induction false} HitsExact(window: seq<real>, present: set<real>, offsets: seq<real>)
    ensures |Hits(window, present, offsets)| <= |window|
    ensures forall a :: a in Hits(window, present, offsets) <==> a in window && AllPresent(a, present, offsets)
  {
    if window != [] {
      var n := |window| - 1;
      HitsExact(window[..n], present, offsets);
      assert window == window[..n] + [window[n]];
    }
  }

  /** The scan emits in input order: scanning two stretches of the ladder
      one after the other gives the two outputs one after the other. */
  lemma {:induction false} HitsConcat(w1: seq<real>, w2: seq<real>, present: set<real>, offsets: seq<real>)
    ensures Hits(w1 + w2, present, offsets) == Hits(w1, present, offsets) + Hits(w2, present, offsets)
  {
    if w2 == [] {
      assert w1 + w2 == w1;
    } else {
      var n := |w2| - 1;
      HitsConcat(w1, w2[..n], present, offsets);
      assert (w1 + w2)[..|w1 + w2| - 1] == w1 + w2[..n];
      assert (w1 + w2)[|w1 + w2| - 1] == w2[n];
    }
  }

  /** Advancing the loop over `window` by one start. */
  lemma HitsStep(window: seq<real>, i: nat, present: set<real>, offsets: seq<real>)
    requires i < |window|
    ensures Hits(window[..i + 1], present, offsets)
         == Hits(window[..i], present, offsets) + (if AllPresent(window[i], present, offsets) then [window[i]] else [])
  {
    assert window[..i + 1][..i] == window[..i];
  }

  /** The ladder 100, 120, 140, 200 with step 20 yields the starts 100 and
      120 (spreads 100-120 and 120-140), and not 140 (160 is not listed). */
  lemma CallSpreadLadderExample(strikes: seq<real>, present: set<real>)
    requires strikes == [100.0, 120.0, 140.0, 200.0] && present == {100.0, 120.0, 140.0, 200.0}
    ensures Hits(DropLast(strikes, 1), present, [20.0]) == [100.0, 120.0]
  {
    var w := DropLast(strikes, 1);
    assert w == [100.0, 120.0, 140.0];
    assert AllPresent(100.0, present, [20.0]);
    assert AllPresent(120.0, present, [20.0]);
    assert !AllPresent(140.0, present, [20.0]) by {
      assert 140.0 + [20.0][0] == 160.0;
    }
    HitsStep(w, 0, present, [20.0]);
    HitsStep(w, 1, present, [20.0]);
    HitsStep(w, 2, present, [20.0]);
    assert w[..0] == [] && w[..3] == w;
  }

  /** No nearest-strike substitution: 100 and 140 with step 20 yield
      nothing. */
  lemma CallSpreadGapExample(strikes: seq<real>, present: set<real>)
    requires strikes == [100.0, 140.0] && present == {100.0, 140.0}
    ensures Hits(DropLast(strikes, 1), present, [20.0]) == []
  {
    var w := DropLast(strikes, 1);
    assert w == [100.0];
    assert !AllPresent(100.0, present, [20.0]) by {
      assert 100.0 + [20.0][0] == 120.0;
    }
    HitsStep(w, 0, present, [20.0]);
    assert w[..0] == [] && w[..1] == w;
  }

  /** No strategy object is emitted twice. */
  predicate AllDistinct(ss: seq<Strategy>) {
    forall i, j :: 0 <= i < j < |ss| ==> ss[i] != ss[j]
  }

  /** `css` holds, in order, `CallSpread(by[a], by[a + step])` for each start
      `a` of `starts`, and nothing else. */
  predicate EmitsCallSpreads(css: seq<Strategy>, starts: seq<real>, byStrike: map<real, Option>, step: real)
    reads css
  {
    |css| == |starts| &&
    forall j :: 0 <= j < |css| ==>
      starts[j] in byStrike && starts[j] + step in byStrike &&
      css[j].name == CallSpreadLabel(byStrike[starts[j]], byStrike[starts[j] + step]) &&
      css[j].legs == CallSpreadLegs(byStrike[starts[j]], byStrike[starts[j] + step])
  }

  /** `pss` holds, in order, `PutSpread(by[a + step], by[a])` for each start
      `a` of `starts`, and nothing else. */
  predicate EmitsPutSpreads(pss: seq<Strategy>, starts: seq<real>, byStrike: map<real, Option>, step: real)
    reads pss
  {
    |pss| == |starts| &&
    forall j :: 0 <= j < |pss| ==>
      starts[j] in byStrike && starts[j] + step in byStrike &&
      pss[j].name == PutSpreadLabel(byStrike[starts[j] + step], byStrike[starts[j]]) &&
      pss[j].legs == PutSpreadLegs(byStrike[starts[j] + step], byStrike[starts[j]])
  }

  /** `bfs` holds, in order, `Butterfly(by[a], by[a + step], by[a + step + step])`
      for each start `a` of `starts`, and nothing else. */
  predicate EmitsButterflies(bfs: seq<Strategy>, starts: seq<real>, byStrike: map<real, Option>, step: real)
    reads bfs
  {
    |bfs| == |starts| &&
    forall j :: 0 <= j < |bfs| ==>
      starts[j] in byStrike && starts[j] + step in byStrike && starts[j] + step + step in byStrike &&
      bfs[j].name == ButterflyLabel(byStrike[starts[j]], byStrike[starts[j] + step], byStrike[starts[j] + step + step]) &&
      bfs[j].legs == ButterflyLegs(byStrike[starts[j]], byStrike[starts[j] + step], byStrike[starts[j] + step + step])
  }

  /** `bfs` holds, in order, `BoxSpread(b, a, c, d)` with `b = a + step`,
      `c = b + gap` and `d = c + step` looked up in `table`, for each start `a`
      of `starts`, and nothing else. */
  predicate EmitsBoxSpreads(bfs: seq<Strategy>, starts: seq<real>, table: map<real, Option>, gap: real, step: real)
    reads bfs
  {
    |bfs| == |starts| &&
    forall j :: 0 <= j < |bfs| ==>
      starts[j] in table && starts[j] + step in table &&
      starts[j] + step + gap in table && starts[j] + step + gap + step in table &&
      bfs[j].name == BoxSpreadLabel(table[starts[j] + step], table[starts[j]],
                                    table[starts[j] + step + gap], table[starts[j] + step + gap + step]) &&
      bfs[j].legs == BoxSpreadLegs(table[starts[j] + step], table[starts[j]],
                                   table[starts[j] + step + gap], table[starts[j] + step + gap + step])
  }

  /** The loop of `CallSpread.explorator`: for each start `a` of `window`
      (a prefix of `strikes`) whose `a + step` is listed, `CallSpread(a, a + step)`
      over the options found under those strikes. */
  method CallSpreadScan(strikes: seq<real>, window: seq<real>, byStrike: map<real, Option>, step: real)
    returns (css: seq<Strategy>)
    requires forall k :: k in byStrike <==> k in strikes
    requires |window| <= |strikes| && window == strikes[..|window|]
    ensures EmitsCallSpreads(css, Hits(window, byStrike.Keys, [step]), byStrike, step)
    ensures forall j :: 0 <= j < |css| ==> fresh(css[j])
    ensures AllDistinct(css)
  {
    ghost var starts: seq<real> := [];
    css := [];
    for i := 0 to |window|
      invariant starts == Hits(window[..i], byStrike.Keys, [step])
      invariant |css| == |starts|
      invariant forall j :: 0 <= j < |css| ==> fresh(css[j])
      invariant AllDistinct(css)
      invariant forall j :: 0 <= j < |css| ==>
        starts[j] in byStrike && starts[j] + step in byStrike &&
        css[j].name == CallSpreadLabel(byStrike[starts[j]], byStrike[starts[j] + step]) &&
        css[j].legs == CallSpreadLegs(byStrike[starts[j]], byStrike[starts[j] + step])
    {
      var strikeA := window[i];
      var strikeB := strikeA + step;
      HitsStep(window, i, byStrike.Keys, [step]);
      assert AllPresent(strikeA, byStrike.Keys, [step]) <==> strikeB in byStrike by {
        assert strikeA + [step][0] == strikeB;
      }
      if strikeB !in strikes {
        continue;
      }
      assert strikeA in strikes by {
        assert strikeA == strikes[i];
      }
      var a := byStrike[strikeA];
      var b := byStrike[strikeB];
      var cs := CallSpread(a, b);
      css := css + [cs];
      starts := starts + [strikeA];
    }
    assert window[..|window|] == window;
  }

  /** `CallSpread.explorator(list_put, step)`: index the chain by strike,
      then scan all strikes but the last. */
  method CallSpreadExplorator(listPut: seq<Option>, step: real := 50.0) returns (css: seq<Strategy>)
    ensures EmitsCallSpreads(css, Hits(DropLast(StrikesOf(listPut), 1), ByStrike(listPut).Keys, [step]),
                             ByStrike(listPut), step)
    ensures forall j :: 0 <= j < |css| ==> fresh(css[j])
    ensures AllDistinct(css)
  {
    var strikes := StrikesOf(listPut);
    css := CallSpreadScan(strikes, DropLast(strikes, 1), ByStrike(listPut), step);
  }

  /** The loop of `PutSpread.explorator`: the same scan as `CallSpreadScan`,
      emitting `PutSpread(b, a)`, long at the higher strike. */
  method PutSpreadScan(strikes: seq<real>, window: seq<real>, byStrike: map<real, Option>, step: real)
    returns (pss: seq<Strategy>)
    requires forall k :: k in byStrike <==> k in strikes
    requires |window| <= |strikes| && window == strikes[..|window|]
    ensures EmitsPutSpreads(pss, Hits(window, byStrike.Keys, [step]), byStrike, step)
    ensures forall j :: 0 <= j < |pss| ==> fresh(pss[j])
    ensures AllDistinct(pss)
  {
    ghost var starts: seq<real> := [];
    pss := [];
    for i := 0 to |window|
      invariant starts == Hits(window[..i], byStrike.Keys, [step])
      invariant |pss| == |starts|
      invariant forall j :: 0 <= j < |pss| ==> fresh(pss[j])
      invariant AllDistinct(pss)
      invariant forall j :: 0 <= j < |pss| ==>
        starts[j] in byStrike && starts[j] + step in byStrike &&
        pss[j].name == PutSpreadLabel(byStrike[starts[j] + step], byStrike[starts[j]]) &&
        pss[j].legs == PutSpreadLegs(byStrike[starts[j] + step], byStrike[starts[j]])
    {
      var strikeA := window[i];
      var strikeB := strikeA + step;
      HitsStep(window, i, byStrike.Keys, [step]);
      assert AllPresent(strikeA, byStrike.Keys, [step]) <==> strikeB in byStrike by {
        assert strikeA + [step][0] == strikeB;
      }
      if strikeB !in strikes {
        continue;
      }
      assert strikeA in strikes by {
        assert strikeA == strikes[i];
      }
      var a := byStrike[strikeA];
      var b := byStrike[strikeB];
      var ps := PutSpread(b, a);
      pss := pss + [ps];
      starts := starts + [strikeA];
    }
    assert window[..|window|] == window;
  }

  /** `PutSpread.explorator(list_put, step)`. */
  method PutSpreadExplorator(listPut: seq<Option>, step: real := 50.0) returns (pss: seq<Strategy>)
    ensures EmitsPutSpreads(pss, Hits(DropLast(StrikesOf(listPut), 1), ByStrike(listPut).Keys, [step]),
                            ByStrike(listPut), step)
    ensures forall j :: 0 <= j < |pss| ==> fresh(pss[j])
    ensures AllDistinct(pss)
  {
    var strikes := StrikesOf(listPut);
    pss := PutSpreadScan(strikes, DropLast(strikes, 1), ByStrike(listPut), step);
  }

  /** The loop of `Butterfly.explorator`: for each start `a` of `window`
      whose `a + step` and `a + step + step` are both listed,
      `Butterfly(a, a + step, a + step + step)`. */
  method ButterflyScan(strikes: seq<real>, window: seq<real>, byStrike: map<real, Option>, step: real)
    returns (bfs: seq<Strategy>)
    requires forall k :: k in byStrike <==> k in strikes
    requires |window| <= |strikes| && window == strikes[..|window|]
    ensures EmitsButterflies(bfs, Hits(window, byStrike.Keys, [step, step + step]), byStrike, step)
    ensures forall j :: 0 <= j < |bfs| ==> fresh(bfs[j])
    ensures AllDistinct(bfs)
  {
    ghost var starts: seq<real> := [];
    bfs := [];
    for i := 0 to |window|
      invariant starts == Hits(window[..i], byStrike.Keys, [step, step + step])
      invariant |bfs| == |starts|
      invariant forall j :: 0 <= j < |bfs| ==> fresh(bfs[j])
      invariant AllDistinct(bfs)
      invariant forall j :: 0 <= j < |bfs| ==>
        starts[j] in byStrike && starts[j] + step in byStrike && starts[j] + step + step in byStrike &&
        bfs[j].name == ButterflyLabel(byStrike[starts[j]], byStrike[starts[j] + step], byStrike[starts[j] + step + step]) &&
        bfs[j].legs == ButterflyLegs(byStrike[starts[j]], byStrike[starts[j] + step], byStrike[starts[j] + step + step])
    {
      var strikeA := window[i];
      var strikeB := strikeA + step;
      var strikeC := strikeB + step;
      HitsStep(window, i, byStrike.Keys, [step, step + step]);
      assert AllPresent(strikeA, byStrike.Keys, [step, step + step]) <==> strikeB in byStrike && strikeC in byStrike by {
        assert strikeA + [step, step + step][0] == strikeB;
        assert strikeA + [step, step + step][1] == strikeC;
      }
      if strikeB !in strikes || strikeC !in strikes {
        continue;
      }
      assert strikeA in strikes by {
        assert strikeA == strikes[i];
      }
      var a := byStrike[strikeA];
      var b := byStrike[strikeB];
      var c := byStrike[strikeC];
      var bf := Butterfly(a, b, c);
      bfs := bfs + [bf];
      starts := starts + [strikeA];
    }
    assert window[..|window|] == window;
  }

  /** `Butterfly.explorator(list_call, step)`: all strikes but the last two. */
  method ButterflyExplorator(listCall: seq<Option>, step: real := 50.0) returns (bfs: seq<Strategy>)
    ensures EmitsButterflies(bfs, Hits(DropLast(StrikesOf(listCall), 2), ByStrike(listCall).Keys, [step, step + step]),
                             ByStrike(listCall), step)
    ensures forall j :: 0 <= j < |bfs| ==> fresh(bfs[j])
    ensures AllDistinct(bfs)
  {
    var strikes := StrikesOf(listCall);
    bfs := ButterflyScan(strikes, DropLast(strikes, 2), ByStrike(listCall), step);
  }

  /** The loop of `BoxSpread.explorator`, over one strike table standing for
      both `call_by_strike` and `put_by_strike`: for each start `a` of
      `window` such that `a`, `b = a + step`, `c = b + gap` and `d = c + step`
      are all keys, `BoxSpread(b, a, c, d)`. */
  method BoxSpreadScan(window: seq<real>, table: map<real, Option>, gap: real, step: real)
    returns (bfs: seq<Strategy>)
    ensures EmitsBoxSpreads(bfs, Hits(window, table.Keys, [0.0, step, step + gap, step + gap + step]), table, gap, step)
    ensures forall j :: 0 <= j < |bfs| ==> fresh(bfs[j])
    ensures AllDistinct(bfs)
  {
    ghost var starts: seq<real> := [];
    bfs := [];
    for i := 0 to |window|
      invariant starts == Hits(window[..i], table.Keys, [0.0, step, step + gap, step + gap + step])
      invariant |bfs| == |starts|
      invariant forall j :: 0 <= j < |bfs| ==> fresh(bfs[j])
      invariant AllDistinct(bfs)
      invariant forall j :: 0 <= j < |bfs| ==>
        starts[j] in table && starts[j] + step in table &&
        starts[j] + step + gap in table && starts[j] + step + gap + step in table &&
        bfs[j].name == BoxSpreadLabel(table[starts[j] + step], table[starts[j]],
                                      table[starts[j] + step + gap], table[starts[j] + step + gap + step]) &&
        bfs[j].legs == BoxSpreadLegs(table[starts[j] + step], table[starts[j]],
                                     table[starts[j] + step + gap], table[starts[j] + step + gap + step])
    {
      var strikeA := window[i];
      var strikeB := strikeA + step;
      var strikeC := strikeB + gap;
      var strikeD := strikeC + step;
      var offsets := [0.0, step, step + gap, step + gap + step];
      HitsStep(window, i, table.Keys, offsets);
      assert AllPresent(strikeA, table.Keys, offsets)
        <==> strikeA in table && strikeB in table && strikeC in table && strikeD in table by {
        assert strikeA + offsets[0] == strikeA;
        assert strikeA + offsets[1] == strikeB;
        assert strikeA + offsets[2] == strikeC;
        assert strikeA + offsets[3] == strikeD;
      }
      if strikeA !in table || strikeB !in table || strikeC !in table || strikeD !in table {
        continue;
      }
      var a := table[strikeA];
      var b := table[strikeB];
      var c := table[strikeC];
      var d := table[strikeD];
      var bf := BoxSpread(b, a, c, d);
      bfs := bfs + [bf];
      starts := starts + [strikeA];
    }
    assert window[..|window|] == window;
  }

  /** The strike table of `BoxSpread.explorator`: `dict(zip(strikes_call +
      strikes_put, list_call))`, the one table behind both `call_by_strike`
      and `put_by_strike`. The zip stops with the calls, so its keys are
      exactly the call strikes. */
  function BoxTable(listCall: seq<Option>, listPut: seq<Option>): (r: map<real, Option>)
    ensures forall k :: k in r <==> k in StrikesOf(listCall)
  {
    var strikes := StrikesOf(listCall) + StrikesOf(listPut);
    assert strikes[..MinLen(|strikes|, |listCall|)] == StrikesOf(listCall);
    ZipMap(strikes, listCall)
  }

  /** `BoxSpread.explorator(list_call, list_put, spread, gap, step)`: scans
      the call strikes followed by the put strikes, all but the last three;
      `spread` plays no part. */
  method BoxSpreadExplorator(listCall: seq<Option>, listPut: seq<Option>, spread: real := 50.0, gap: real := 100.0, step: real := 25.0)
    returns (bfs: seq<Strategy>)
    ensures EmitsBoxSpreads(bfs, Hits(DropLast(StrikesOf(listCall) + StrikesOf(listPut), 3), BoxTable(listCall, listPut).Keys,
                                      [0.0, step, step + gap, step + gap + step]),
                            BoxTable(listCall, listPut), gap, step)
    ensures forall j :: 0 <= j < |bfs| ==> fresh(bfs[j])
    ensures AllDistinct(bfs)
  {
    var strikesCall := StrikesOf(listCall);
    var strikesPut := StrikesOf(listPut);
    var strikes := strikesCall + strikesPut;
    var table := BoxTable(listCall, listPut);
    var window := DropLast(strikes, 3);
    bfs := BoxSpreadScan(window, table, gap, step);
  }

  /** The Box table is the call chain indexed by strike, so every option a
      Box Spread is built from is a call with the strike it is found under. */
  lemma BoxTableIsCallTable(listCall: seq<Option>, listPut: seq<Option>)
    ensures BoxTable(listCall, listPut) == ByStrike(listCall)
  {
    var strikes := StrikesOf(listCall) + StrikesOf(listPut);
    var n := |listCall|;
    assert MinLen(|strikes|, n) == n;
    assert strikes[..n] == StrikesOf(listCall);
    assert StrikesOf(listCall)[..MinLen(|StrikesOf(listCall)|, n)] == StrikesOf(listCall);
  }

  /** The put strikes still lengthen the scanned window: with the same
      ladder 100, 125, 225, 250 of calls and of puts (gap 100, step 25), the
      window `(calls + puts)[:-3]` ends with the put strike 100, so the box
      starting at 100 is emitted twice. */
  lemma BoxSpreadRepeatExample(strikesCall: seq<real>, strikesPut: seq<real>, present: set<real>)
    requires strikesCall == [100.0, 125.0, 225.0, 250.0] && strikesPut == strikesCall
    requires present == {100.0, 125.0, 225.0, 250.0}
    ensures Hits(DropLast(strikesCall + strikesPut, 3), present, [0.0, 25.0, 25.0 + 100.0, 25.0 + 100.0 + 25.0])
         == [100.0, 100.0]
  {
    var offsets := [0.0, 25.0, 25.0 + 100.0, 25.0 + 100.0 + 25.0];
    var w := DropLast(strikesCall + strikesPut, 3);
    assert w == [100.0, 125.0, 225.0, 250.0, 100.0];
    assert AllPresent(100.0, present, offsets);
    assert !AllPresent(125.0, present, offsets) by {
      assert 125.0 + offsets[2] == 250.0 && 125.0 + offsets[3] == 275.0;
    }
    assert !AllPresent(225.0, present, offsets) by {
      assert 225.0 + offsets[1] == 250.0 && 225.0 + offsets[2] == 350.0;
    }
    assert !AllPresent(250.0, present, offsets) by {
      assert 250.0 + offsets[1] == 275.0;
    }
    HitsStep(w, 0, present, offsets);
    HitsStep(w, 1, present, offsets);
    HitsStep(w, 2, present, offsets);
    HitsStep(w, 3, present, offsets);
    HitsStep(w, 4, present, offsets);
    assert w[..0] == [] && w[..5] == w;
  }
}
