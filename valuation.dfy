/** Portfolio valuation (server/routes.ts, lines 88-117) and holdings
    enrichment (lines 120-141): a holding is worth balance × price of its
    symbol's snapshot, and a holding whose symbol has no snapshot is worth 0. */
module Valuation {
  import opened Schema

  /** `parseFloat(holding.balance) * parseFloat(marketData.price)`, or 0 without market data. */
  function HoldingValue(h: Holding, md: map<string, MarketData>): real
  {
    if h.cryptocurrency in md then h.balance * md[h.cryptocurrency].price else 0.0
  }

  /** `currentValue * (change24h / 100)`, or 0 without market data. */
  function HoldingPnL(h: Holding, md: map<string, MarketData>): real
  {
    if h.cryptocurrency in md then HoldingValue(h, md) * (md[h.cryptocurrency].priceChange24h / 100.0) else 0.0
  }

  /** Σ of the holdings' values. */
  function TotalValue(hs: seq<Holding>, md: map<string, MarketData>): real
  {
    if hs == [] then 0.0 else TotalValue(hs[..|hs| - 1], md) + HoldingValue(hs[|hs| - 1], md)
  }

  /** Σ of the holdings' daily profit and loss. */
  function TotalPnL(hs: seq<Holding>, md: map<string, MarketData>): real
  {
    if hs == [] then 0.0 else TotalPnL(hs[..|hs| - 1], md) + HoldingPnL(hs[|hs| - 1], md)
  }

  /** `totalBalance > 0 ? (dailyPnL / totalBalance) * 100 : 0` */
  function PnLPercent(total: real, pnl: real): real
  {
    if total > 0.0 then pnl / total * 100.0 else 0.0
  }

  /** The `/api/portfolio` response. */
  datatype Portfolio = Portfolio(
    totalBalance: real,
    availableBalance: real,
    dailyPnL: real,
    dailyPnLPercent: real,
    totalTrades: int)

  /** One element of the `/api/holdings` response: the holding and its
      `currentPrice`, `priceChange24h` and `usdValue`. */
  datatype EnrichedHolding = EnrichedHolding(
    holding: Holding,
    currentPrice: real,
    priceChange24h: real,
    usdValue: real)

  function Enrich(h: Holding, md: map<string, MarketData>): EnrichedHolding
  {
    if h.cryptocurrency in md then
      var snapshot := md[h.cryptocurrency];
      EnrichedHolding(h, snapshot.price, snapshot.priceChange24h, h.balance * snapshot.price)
    else EnrichedHolding(h, 0.0, 0.0, 0.0)
  }

  /** `holdings.map(...)`: each holding, in order, with its market figures
      (all three 0 when the symbol has no snapshot). */
  function EnrichAll(hs: seq<Holding>, md: map<string, MarketData>): (r: seq<EnrichedHolding>)
    ensures |r| == |hs|
    ensures forall i :: 0 <= i < |hs| ==> r[i].holding == hs[i]
    ensures forall i :: 0 <= i < |hs| && hs[i].cryptocurrency in md ==>
              && r[i].currentPrice == md[hs[i].cryptocurrency].price
              && r[i].priceChange24h == md[hs[i].cryptocurrency].priceChange24h
    ensures forall i :: 0 <= i < |hs| ==> r[i].usdValue == HoldingValue(hs[i], md)
    ensures forall i :: 0 <= i < |hs| && hs[i].cryptocurrency !in md ==>
              r[i].currentPrice == 0.0 && r[i].priceChange24h == 0.0
  {
    seq(|hs|, i requires 0 <= i < |hs| => Enrich(hs[i], md))
  }

  function SumUsd(r: seq<EnrichedHolding>): real
  {
    if r == [] then 0.0 else SumUsd(r[..|r| - 1]) + r[|r| - 1].usdValue
  }

  /** The `usdValue`s of `/api/holdings` add up to the `totalBalance` of `/api/portfolio`. */
  lemma {:induction false} EnrichedSumIsTotal(hs: seq<Holding>, md: map<string, MarketData>)
    ensures SumUsd(EnrichAll(hs, md)) == TotalValue(hs, md)
  {
    if hs != [] {
      var init := hs[..|hs| - 1];
      var r := EnrichAll(hs, md);
      assert r[..|r| - 1] == EnrichAll(init, md);
      EnrichedSumIsTotal(init, md);
    }
  }

  ghost predicate NonNegativeBalances(hs: seq<Holding>)
  {
    forall i :: 0 <= i < |hs| ==> hs[i].balance >= 0.0
  }

  ghost predicate NonNegativePrices(md: map<string, MarketData>)
  {
    forall c :: c in md ==> md[c].price >= 0.0
  }

  /** With no negative balance and no negative price the total is not negative. */
  lemma {:induction false} TotalValueNonNegative(hs: seq<Holding>, md: map<string, MarketData>)
    requires NonNegativeBalances(hs) && NonNegativePrices(md)
    ensures TotalValue(hs, md) >= 0.0
  {
    if hs != [] {
      var init := hs[..|hs| - 1];
      assert forall i :: 0 <= i < |init| ==> init[i] == hs[i];
      TotalValueNonNegative(init, md);
      var last := hs[|hs| - 1];
      if last.cryptocurrency in md {
        MulNonNegative(last.balance, md[last.cryptocurrency].price);
      }
    }
  }

  lemma MulNonNegative(a: real, b: real)
    requires a >= 0.0 && b >= 0.0
    ensures a * b >= 0.0
  {
  }

  /** Holdings without market data are worth nothing: if no symbol has a
      snapshot, the total, the daily P&L and its percentage are all 0. */
  lemma {:induction false} UnpricedWorthNothing(hs: seq<Holding>, md: map<string, MarketData>)
    requires forall h :: h in hs ==> h.cryptocurrency !in md
    ensures TotalValue(hs, md) == 0.0 && TotalPnL(hs, md) == 0.0
    ensures PnLPercent(TotalValue(hs, md), TotalPnL(hs, md)) == 0.0
  {
    if hs != [] {
      var init := hs[..|hs| - 1];
      assert forall h :: h in init ==> h in hs;
      UnpricedWorthNothing(init, md);
      assert hs[|hs| - 1] in hs;
    }
  }

  /** When every priced holding moved by the same `change` percent, the daily
      P&L is that percentage of the total. */
  lemma {:induction false} UniformChange(hs: seq<Holding>, md: map<string, MarketData>, change: real)
    requires forall c :: c in md ==> md[c].priceChange24h == change
    ensures TotalPnL(hs, md) == TotalValue(hs, md) * (change / 100.0)
  {
    if hs != [] {
      var init := hs[..|hs| - 1];
      UniformChange(init, md, change);
      var last := hs[|hs| - 1];
      assert HoldingPnL(last, md) == HoldingValue(last, md) * (change / 100.0);
    }
  }

  /** ... and so the daily P&L percentage is that change whenever the total is positive. */
  lemma UniformChangePercent(hs: seq<Holding>, md: map<string, MarketData>, change: real)
    requires forall c :: c in md ==> md[c].priceChange24h == change
    requires TotalValue(hs, md) > 0.0
    ensures PnLPercent(TotalValue(hs, md), TotalPnL(hs, md)) == change
  {
    UniformChange(hs, md, change);
    var t := TotalValue(hs, md);
    assert TotalPnL(hs, md) / t == change / 100.0;
  }

  lemma MulMonotone(v: real, a: real, b: real)
    requires v >= 0.0 && a <= b
    ensures v * a <= v * b
  {
  }

  /** Every holding's daily P&L is at least its value scaled by the smallest
      change, so the sums keep that order. */
  lemma {:induction false} PnLAtLeast(hs: seq<Holding>, md: map<string, MarketData>, lo: real, hi: real)
    requires NonNegativeBalances(hs) && NonNegativePrices(md)
    requires forall c :: c in md ==> lo <= md[c].priceChange24h <= hi
    ensures TotalValue(hs, md) * (lo / 100.0) <= TotalPnL(hs, md)
    decreases |hs|
  {
    if hs != [] {
      var init, last := hs[..|hs| - 1], hs[|hs| - 1];
      InitNonNegative(hs);
      PnLAtLeast(init, md, lo, hi);
      HoldingPnLBetween(last, md, lo, hi);
      AddLower(TotalValue(hs, md), TotalValue(init, md), HoldingValue(last, md), lo / 100.0,
               TotalPnL(hs, md), TotalPnL(init, md), HoldingPnL(last, md));
    }
  }

  /** ... and at most its value scaled by the largest change. */
  lemma {:induction false} PnLAtMost(hs: seq<Holding>, md: map<string, MarketData>, lo: real, hi: real)
    requires NonNegativeBalances(hs) && NonNegativePrices(md)
    requires forall c :: c in md ==> lo <= md[c].priceChange24h <= hi
    ensures TotalPnL(hs, md) <= TotalValue(hs, md) * (hi / 100.0)
    decreases |hs|
  {
    if hs != [] {
      var init, last := hs[..|hs| - 1], hs[|hs| - 1];
      InitNonNegative(hs);
      PnLAtMost(init, md, lo, hi);
      HoldingPnLBetween(last, md, lo, hi);
      AddUpper(TotalValue(hs, md), TotalValue(init, md), HoldingValue(last, md), hi / 100.0,
               TotalPnL(hs, md), TotalPnL(init, md), HoldingPnL(last, md));
    }
  }

  lemma InitNonNegative(hs: seq<Holding>)
    requires hs != [] && NonNegativeBalances(hs)
    ensures NonNegativeBalances(hs[..|hs| - 1]) && hs[|hs| - 1].balance >= 0.0
  {
    var init := hs[..|hs| - 1];
    assert forall i :: 0 <= i < |init| ==> init[i] == hs[i];
  }

  /** Lower bounds on the two parts of a sum bound the sum: t0·k + v·k = (t0 + v)·k. */
  lemma AddLower(t: real, t0: real, v: real, k: real, p: real, p0: real, q: real)
    requires t == t0 + v && p == p0 + q
    requires t0 * k <= p0 && v * k <= q
    ensures t * k <= p
  {
    assert t * k == t0 * k + v * k;
  }

  /** Upper bounds likewise. */
  lemma AddUpper(t: real, t0: real, v: real, k: real, p: real, p0: real, q: real)
    requires t == t0 + v && p == p0 + q
    requires p0 <= t0 * k && q <= v * k
    ensures p <= t * k
  {
    assert t * k == t0 * k + v * k;
  }

  /** With non-negative values, the daily P&L lies between the smallest and
      the largest 24h change applied to the whole total. */
  lemma PnLBetweenChanges(hs: seq<Holding>, md: map<string, MarketData>, lo: real, hi: real)
    requires NonNegativeBalances(hs) && NonNegativePrices(md)
    requires forall c :: c in md ==> lo <= md[c].priceChange24h <= hi
    ensures TotalValue(hs, md) * (lo / 100.0) <= TotalPnL(hs, md) <= TotalValue(hs, md) * (hi / 100.0)
  {
    PnLAtLeast(hs, md, lo, hi);
    PnLAtMost(hs, md, lo, hi);
  }

  lemma HoldingPnLBetween(h: Holding, md: map<string, MarketData>, lo: real, hi: real)
    requires h.balance >= 0.0 && NonNegativePrices(md)
    requires forall c :: c in md ==> lo <= md[c].priceChange24h <= hi
    ensures HoldingValue(h, md) * (lo / 100.0) <= HoldingPnL(h, md) <= HoldingValue(h, md) * (hi / 100.0)
  {
    if h.cryptocurrency in md {
      var v := HoldingValue(h, md);
      var ch := md[h.cryptocurrency].priceChange24h;
      MulNonNegative(h.balance, md[h.cryptocurrency].price);
      MulMonotone(v, lo / 100.0, ch / 100.0);
      MulMonotone(v, ch / 100.0, hi / 100.0);
    }
  }

  /** Hence a positive total's daily P&L percentage is a value-weighted mean
      of the 24h changes: it lies between the smallest and the largest. */
  lemma PercentBetweenChanges(hs: seq<Holding>, md: map<string, MarketData>, lo: real, hi: real)
    requires NonNegativeBalances(hs) && NonNegativePrices(md)
    requires forall c :: c in md ==> lo <= md[c].priceChange24h <= hi
    requires TotalValue(hs, md) > 0.0
    ensures lo <= PnLPercent(TotalValue(hs, md), TotalPnL(hs, md)) <= hi
  {
    PnLBetweenChanges(hs, md, lo, hi);
    var t, p := TotalValue(hs, md), TotalPnL(hs, md);
    ScaledShare(t, p, lo, hi);
  }

  /** If t·lo/100 <= p <= t·hi/100 with t > 0 then lo <= p / t · 100 <= hi. */
  lemma ScaledShare(t: real, p: real, lo: real, hi: real)
    requires t > 0.0
    requires t * (lo / 100.0) <= p <= t * (hi / 100.0)
    ensures lo <= p / t * 100.0 <= hi
  {
    DivideBounds(t * (lo / 100.0), p, t);
    DivideBounds(p, t * (hi / 100.0), t);
    assert t * (lo / 100.0) / t * 100.0 == lo;
    assert t * (hi / 100.0) / t * 100.0 == hi;
  }

  lemma DivideBounds(x: real, y: real, t: real)
    requires t > 0.0 && x <= y
    ensures x / t * 100.0 <= y / t * 100.0
  {
  }
}
