/** How the holdings list and the transaction log of one user relate when every
    change to them came from the trade handler (server/routes.ts, lines 183-216):
    each symbol's holding is the replay, oldest first, of that symbol's logged
    trades through the holding update. */
module Ledger {
  import opened Schema
  import opened Storage
  import opened CostBasis

  /** The trade handler's reading of an existing holding: balance and average
      cost, or zero and zero when there is none (server/routes.ts, lines 195-197). */
  function PositionOf(existing: Option<Holding>): Position
  {
    if existing.Some? then Position(existing.value.balance, existing.value.averageCost) else NoPosition
  }

  /** A logged transaction as the holding update sees it. */
  function FillOf(t: Transaction): Fill
  {
    Fill(KindOf(t.kind), t.amount, t.price)
  }

  /** The position obtained by replaying the trades of symbol `c` in a
      newest-first log, starting from no holding. */
  function LogPosition(txs: seq<Transaction>, c: string): Position
  {
    if txs == [] then NoPosition
    else
      var older := LogPosition(txs[1..], c);
      if txs[0].cryptocurrency == c then NextPosition(KindOf(txs[0].kind), older, txs[0].amount, txs[0].price)
      else older
  }

  /** The fills of symbol `c` in a newest-first log, oldest first. */
  function SymbolFills(txs: seq<Transaction>, c: string): seq<Fill>
  {
    if txs == [] then []
    else SymbolFills(txs[1..], c) + (if txs[0].cryptocurrency == c then [FillOf(txs[0])] else [])
  }

  /** Replaying a newest-first log is replaying its fills in chronological order. */
  lemma {:induction false} LogPositionIsReplay(txs: seq<Transaction>, c: string)
    ensures LogPosition(txs, c) == Replay(NoPosition, SymbolFills(txs, c))
  {
    if txs != [] {
      LogPositionIsReplay(txs[1..], c);
      var older := SymbolFills(txs[1..], c);
      if txs[0].cryptocurrency == c {
        var fills := older + [FillOf(txs[0])];
        assert fills[..|fills| - 1] == older;
      } else {
        assert older + [] == older;
      }
    }
  }

  /** Symbol `c`'s holding (or its absence) is what its logged trades give. */
  ghost predicate LedgerAgreesOn(hs: seq<Holding>, txs: seq<Transaction>, c: string)
  {
    PositionOf(Find(hs, c)) == LogPosition(txs, c)
  }

  /** Every symbol's holding is what its logged trades give. */
  ghost predicate LedgerAgrees(hs: seq<Holding>, txs: seq<Transaction>)
  {
    forall c :: LedgerAgreesOn(hs, txs, c)
  }

  /** An empty holdings list agrees with an empty log. */
  lemma EmptyLedgerAgrees()
    ensures LedgerAgrees([], [])
  {
  }

  /** Prepending a trade to the log and upserting the holding the handler
      computes for it keeps each symbol that agreed in agreement, whatever
      the other symbols do. */
  lemma RecordTradeKeepsAgreementOn(hs: seq<Holding>, txs: seq<Transaction>, tx: Transaction, h: Holding, c: string)
    requires LedgerAgreesOn(hs, txs, c)
    requires h.cryptocurrency == tx.cryptocurrency
    requires Position(h.balance, h.averageCost)
             == NextPosition(KindOf(tx.kind), PositionOf(Find(hs, tx.cryptocurrency)), tx.amount, tx.price)
    ensures LedgerAgreesOn(Upserted(hs, h), [tx] + txs, c)
  {
    UpsertedFind(hs, h, c);
    assert ([tx] + txs)[1..] == txs;
  }

  /** Hence a ledger that agrees on every symbol keeps agreeing. */
  lemma RecordTradeKeepsAgreement(hs: seq<Holding>, txs: seq<Transaction>, tx: Transaction, h: Holding)
    requires LedgerAgrees(hs, txs)
    requires h.cryptocurrency == tx.cryptocurrency
    requires Position(h.balance, h.averageCost)
             == NextPosition(KindOf(tx.kind), PositionOf(Find(hs, tx.cryptocurrency)), tx.amount, tx.price)
    ensures LedgerAgrees(Upserted(hs, h), [tx] + txs)
  {
    forall c
      ensures LedgerAgreesOn(Upserted(hs, h), [tx] + txs, c)
    {
      RecordTradeKeepsAgreementOn(hs, txs, tx, h, c);
    }
  }

  /** When the ledger agrees on a symbol that was only ever bought, the
      symbol is held at the balance-weighted mean of its buy prices. */
  lemma OnlyBoughtHoldingIsWeightedMean(hs: seq<Holding>, txs: seq<Transaction>, c: string)
    requires LedgerAgreesOn(hs, txs, c)
    requires |SymbolFills(txs, c)| > 0 && AllBuys(SymbolFills(txs, c))
    ensures Find(hs, c).Some? && TotalAmount(SymbolFills(txs, c)) > 0.0
    ensures Find(hs, c).value.balance == TotalAmount(SymbolFills(txs, c))
    ensures Find(hs, c).value.averageCost == TotalCost(SymbolFills(txs, c)) / TotalAmount(SymbolFills(txs, c))
  {
    var fills := SymbolFills(txs, c);
    LogPositionIsReplay(txs, c);
    AverageOfBuys(fills);
    BuysAccumulate(NoPosition, fills);
    assert PositionOf(Find(hs, c)) == Replay(NoPosition, fills);
  }
}
