/** The holding update of the trade handler (server/routes.ts, lines 195-209):
    weighted-average cost basis on a buy, a balance clamped at zero and an
    untouched cost on a sell. Amounts, prices and costs are `real`. */
module CostBasis {

  datatype TradeKind = Buy | Sell

  /** The `type` string the trade handler records for a kind. */
  function KindName(k: TradeKind): string
  {
    match k
    case Buy => "buy"
    case Sell => "sell"
  }

  /** How the holding update reads a `type`: `type === 'buy'` is a buy and
      anything else is handled as a sell. */
  function KindOf(s: string): (k: TradeKind)
    ensures k == Buy <==> s == "buy"
  {
    if s == "buy" then Buy else Sell
  }

  lemma KindRoundTrip(k: TradeKind)
    ensures KindOf(KindName(k)) == k
  {
    match k
    case Buy =>
    case Sell => assert KindName(Sell) != "buy";
  }

  /** A holding's balance and average cost. */
  datatype Position = Position(balance: real, averageCost: real)

  /** What a missing holding counts as. */
  const NoPosition := Position(0.0, 0.0)

  function RealMax(a: real, b: real): real
  {
    if a >= b then a else b
  }

  function RealMin(a: real, b: real): real
  {
    if a <= b then a else b
  }

  /** The new position after one trade of `amount` at `price`. */
  function NextPosition(kind: TradeKind, cur: Position, amount: real, price: real): Position
  {
    match kind
    case Buy =>
      var newBalance := cur.balance + amount;
      var totalCost := cur.balance * cur.averageCost + amount * price;
      Position(newBalance, if newBalance > 0.0 then totalCost / newBalance else price)
    case Sell =>
      Position(RealMax(0.0, cur.balance - amount), cur.averageCost)
  }

  /** From x*n <= y*n with n > 0 follows x <= y. */
  lemma CancelPositive(x: real, y: real, n: real)
    requires n > 0.0 && x * n <= y * n
    ensures x <= y
  {
  }

  /** A buy adds the amount to the balance, and the new average cost times the
      new balance is the old cost basis plus what the amount cost: the average
      is the true weighted mean. */
  lemma BuyIsWeightedMean(cur: Position, amount: real, price: real)
    requires cur.balance + amount > 0.0
    ensures var next := NextPosition(Buy, cur, amount, price);
            && next.balance == cur.balance + amount
            && next.balance * next.averageCost == cur.balance * cur.averageCost + amount * price
  {
  }

  /** Only a buy that leaves no positive balance takes the price as the cost. */
  lemma BuyWithoutBalance(cur: Position, amount: real, price: real)
    requires cur.balance + amount <= 0.0
    ensures NextPosition(Buy, cur, amount, price) == Position(cur.balance + amount, price)
  {
  }

  /** The first buy of a symbol sets the average cost to the trade price. */
  lemma FirstBuy(amount: real, price: real)
    requires amount > 0.0
    ensures NextPosition(Buy, NoPosition, amount, price) == Position(amount, price)
  {
    var next := NextPosition(Buy, NoPosition, amount, price);
    assert next.averageCost * amount == amount * price;
    CancelPositive(next.averageCost, price, amount);
    CancelPositive(price, next.averageCost, amount);
  }

  /** From a non-negative balance, a buy of a positive amount moves the average
      cost to a value between the old cost and the trade price. */
  lemma BuyCostBetween(cur: Position, amount: real, price: real)
    requires cur.balance >= 0.0 && amount > 0.0
    ensures var next := NextPosition(Buy, cur, amount, price);
            RealMin(cur.averageCost, price) <= next.averageCost <= RealMax(cur.averageCost, price)
  {
    var next := NextPosition(Buy, cur, amount, price);
    var n := cur.balance + amount;
    var b, c := cur.balance, cur.averageCost;
    assert next.averageCost * n == b * c + amount * price;
    var lo, hi := RealMin(c, price), RealMax(c, price);
    assert b * lo <= b * c <= b * hi;
    assert amount * lo <= amount * price <= amount * hi;
    assert lo * n == b * lo + amount * lo;
    assert hi * n == b * hi + amount * hi;
    CancelPositive(lo, next.averageCost, n);
    CancelPositive(next.averageCost, hi, n);
  }

  /** A sell clamps the balance at zero, never goes negative, and leaves the
      average cost as it was. */
  lemma SellClamps(cur: Position, amount: real, price: real)
    ensures var next := NextPosition(Sell, cur, amount, price);
            && next.balance >= 0.0
            && next.balance == (if amount >= cur.balance then 0.0 else cur.balance - amount)
            && next.averageCost == cur.averageCost
  {
  }

  /** A position with no negative part stays so after any validated trade
      (positive amount) at a non-negative price. */
  lemma NextPositionNonNegative(kind: TradeKind, cur: Position, amount: real, price: real)
    requires cur.balance >= 0.0 && cur.averageCost >= 0.0
    requires amount > 0.0 && price >= 0.0
    ensures NextPosition(kind, cur, amount, price).balance >= 0.0
    ensures NextPosition(kind, cur, amount, price).averageCost >= 0.0
  {
    if kind == Buy {
      BuyCostBetween(cur, amount, price);
    }
  }

  /** One executed trade, as the holding update sees it. */
  datatype Fill = Fill(kind: TradeKind, amount: real, price: real)

  /** The position reached from `start` by the fills, oldest first. */
  function Replay(start: Position, fills: seq<Fill>): Position
  {
    if fills == [] then start
    else
      var last := fills[|fills| - 1];
      NextPosition(last.kind, Replay(start, fills[..|fills| - 1]), last.amount, last.price)
  }

  function TotalAmount(fills: seq<Fill>): real
  {
    if fills == [] then 0.0 else TotalAmount(fills[..|fills| - 1]) + fills[|fills| - 1].amount
  }

  /** The summed `amount × price` of the fills. */
  function TotalCost(fills: seq<Fill>): real
  {
    if fills == [] then 0.0
    else TotalCost(fills[..|fills| - 1]) + fills[|fills| - 1].amount * fills[|fills| - 1].price
  }

  ghost predicate AllBuys(fills: seq<Fill>)
  {
    forall i :: 0 <= i < |fills| ==> fills[i].kind == Buy && fills[i].amount > 0.0
  }

  ghost predicate AllSells(fills: seq<Fill>)
  {
    forall i :: 0 <= i < |fills| ==> fills[i].kind == Sell && fills[i].amount >= 0.0
  }

  /** After a run of buys the balance is the start balance plus every amount,
      and balance × average cost is the start cost basis plus every amount × price. */
  lemma {:induction false} BuysAccumulate(start: Position, fills: seq<Fill>)
    requires start.balance >= 0.0 && AllBuys(fills)
    ensures Replay(start, fills).balance == start.balance + TotalAmount(fills)
    ensures Replay(start, fills).balance * Replay(start, fills).averageCost
            == start.balance * start.averageCost + TotalCost(fills)
  {
    if fills != [] {
      var init := fills[..|fills| - 1];
      var last := fills[|fills| - 1];
      assert AllBuys(init) by {
        forall i | 0 <= i < |init| ensures init[i].kind == Buy && init[i].amount > 0.0 {
          assert init[i] == fills[i];
        }
      }
      BuysAccumulate(start, init);
      var mid := Replay(start, init);
      assert mid.balance >= 0.0 by {
        TotalAmountNonNegative(init);
      }
      BuyIsWeightedMean(mid, last.amount, last.price);
    }
  }

  lemma {:induction false} TotalAmountNonNegative(fills: seq<Fill>)
    requires AllBuys(fills)
    ensures TotalAmount(fills) >= 0.0
  {
    if fills != [] {
      var init := fills[..|fills| - 1];
      assert forall i :: 0 <= i < |init| ==> init[i] == fills[i];
      TotalAmountNonNegative(init);
    }
  }

  /** Starting from no holding, a non-empty run of buys gives the average
      cost Σ amount·price / Σ amount: the weighted mean of the buy prices. */
  lemma AverageOfBuys(fills: seq<Fill>)
    requires |fills| > 0 && AllBuys(fills)
    ensures TotalAmount(fills) > 0.0
    ensures Replay(NoPosition, fills).averageCost == TotalCost(fills) / TotalAmount(fills)
  {
    BuysFromNothing(fills);
    var r := Replay(NoPosition, fills);
    DivideOut(r.balance, r.averageCost, TotalCost(fills));
  }

  /** From no holding, a non-empty run of buys gives a positive balance equal
      to the total amount, and a cost basis equal to the total cost. */
  lemma BuysFromNothing(fills: seq<Fill>)
    requires |fills| > 0 && AllBuys(fills)
    ensures Replay(NoPosition, fills).balance == TotalAmount(fills) > 0.0
    ensures Replay(NoPosition, fills).balance * Replay(NoPosition, fills).averageCost == TotalCost(fills)
  {
    BuysAccumulate(NoPosition, fills);
    var init := fills[..|fills| - 1];
    assert AllBuys(init) by {
      assert forall i :: 0 <= i < |init| ==> init[i] == fills[i];
    }
    TotalAmountNonNegative(init);
  }

  /** From b·a = c with b > 0 follows a = c / b. */
  lemma DivideOut(b: real, a: real, c: real)
    requires b > 0.0 && b * a == c
    ensures a == c / b
  {
  }

  /** A run of sells clamps once: the balance is the start balance less every
      amount, or zero if that is negative; the average cost is untouched. */
  lemma {:induction false} SellsClamp(start: Position, fills: seq<Fill>)
    requires AllSells(fills)
    ensures Replay(start, fills).balance
            == (if |fills| == 0 then start.balance else RealMax(0.0, start.balance - TotalAmount(fills)))
    ensures Replay(start, fills).averageCost == start.averageCost
  {
    if fills != [] {
      var init := fills[..|fills| - 1];
      assert forall i :: 0 <= i < |init| ==> init[i] == fills[i];
      SellsClamp(start, init);
    }
  }

  ghost predicate Validated(fills: seq<Fill>)
  {
    forall i :: 0 <= i < |fills| ==> fills[i].amount > 0.0 && fills[i].price >= 0.0
  }

  /** Whatever the mix of buys and sells, validated fills at non-negative
      prices never make the balance or the average cost negative. */
  lemma {:induction false} ReplayNonNegative(start: Position, fills: seq<Fill>)
    requires start.balance >= 0.0 && start.averageCost >= 0.0 && Validated(fills)
    ensures Replay(start, fills).balance >= 0.0 && Replay(start, fills).averageCost >= 0.0
  {
    if fills != [] {
      var init := fills[..|fills| - 1];
      var last := fills[|fills| - 1];
      assert forall i :: 0 <= i < |init| ==> init[i] == fills[i];
      ReplayNonNegative(start, init);
      NextPositionNonNegative(last.kind, Replay(start, init), last.amount, last.price);
    }
  }

  /** The worked example: buy 0.5 at 40000, buy 0.5 at 44000, sell 0.3
      gives balance 0.7 at average cost 42000; selling 10 out of 2 gives 0. */
  lemma LedgerScenario()
    ensures Replay(NoPosition, [Fill(Buy, 0.5, 40000.0), Fill(Buy, 0.5, 44000.0)])
            == Position(1.0, 42000.0)
    ensures Replay(NoPosition, [Fill(Buy, 0.5, 40000.0), Fill(Buy, 0.5, 44000.0), Fill(Sell, 0.3, 0.0)])
            == Position(0.7, 42000.0)
    ensures NextPosition(Sell, Position(2.0, 42000.0), 10.0, 43521.0) == Position(0.0, 42000.0)
  {
    var f := [Fill(Buy, 0.5, 40000.0), Fill(Buy, 0.5, 44000.0), Fill(Sell, 0.3, 0.0)];
    assert f[..2][..1] == [Fill(Buy, 0.5, 40000.0)];
    assert f[..2] == [Fill(Buy, 0.5, 40000.0), Fill(Buy, 0.5, 44000.0)];
    FirstBuy(0.5, 40000.0);
  }
}
