/** The API handlers of server/routes.ts that carry logic, each a method over
    the store: trade execution, portfolio valuation, holdings enrichment,
    transaction history, plus the start-up seeding and the asset-name table.
    Every handler acts for the single demo user, as the source does. HTTP
    routing and JSON serialisation are not modelled: a handler returns its
    response body, or `BadRequest` with the failing fields for a 400. */
module Routes {
  import opened Schema
  import opened Storage
  import opened CostBasis
  import opened Ledger
  import opened Valuation
  import opened JsParseInt

  const DemoUserId := "demo-user"
  /** The flat fee recorded on every trade. */
  const TradeFee: real := 2.99
  /** The 24h change given to a snapshot the trade handler seeds. */
  const SeedChange: real := 2.34
  /** Placeholders of the portfolio response, not derived from the ledger. */
  const AvailableBalance: real := 15243.67
  const TotalTrades: int := 127
  const DefaultLimit: int := 10

  /** The trade handler's fallback price table. */
  const MockPrices: map<string, real> :=
    map["BTC" := 43521.0, "ETH" := 2341.0, "ADA" := 0.5, "SOL" := 98.45, "DOT" := 6.78]

  /** `mockPrices[symbol] || 100`: the table price, else 100; never zero or negative. */
  function MockPrice(symbol: string): (p: real)
    ensures p > 0.0
    ensures symbol in MockPrices ==> p == MockPrices[symbol]
    ensures symbol !in MockPrices ==> p == 100.0
  {
    if symbol in MockPrices then MockPrices[symbol] else 100.0
  }

  const AssetNames: map<string, string> :=
    map["BTC" := "Bitcoin", "ETH" := "Ethereum", "ADA" := "Cardano", "SOL" := "Solana",
        "DOT" := "Polkadot", "MATIC" := "Polygon", "AVAX" := "Avalanche", "LINK" := "Chainlink"]

  /** `getAssetName`: the full name of a known symbol; any other symbol is its own name. */
  function AssetName(symbol: string): (name: string)
    ensures name == symbol <==> symbol !in AssetNames
    ensures symbol in AssetNames ==> name == AssetNames[symbol]
  {
    if symbol in AssetNames then AssetNames[symbol] else symbol
  }

  // ---------------------------------------------------------------------------
  // Request validation (the zod schema `tradeSchema`)

  /** A JSON value as the request body parser delivers it. */
  datatype Json =
    | JNull
    | JBool(b: bool)
    | JNum(n: real)
    | JStr(s: string)
    | JArray(items: seq<Json>)
    | JObject(fields: map<string, Json>)

  /** A request that passed the schema: `type`, `cryptocurrency`, `amount`, `fiatAmount`. */
  datatype TradeRequest = TradeRequest(kind: TradeKind, cryptocurrency: string, amount: real, fiatAmount: real)

  datatype Result<+T, +E> = Success(value: T) | Failure(error: E)

  /** `body[key]`, `None` when the body is not an object or lacks the key. */
  function Member(body: Json, key: string): Option<Json>
  {
    if body.JObject? && key in body.fields then Some(body.fields[key]) else None
  }

  /** `z.enum(['buy', 'sell'])` */
  predicate IsKind(v: Option<Json>)
  {
    v == Some(JStr("buy")) || v == Some(JStr("sell"))
  }

  /** `z.string()` */
  predicate IsString(v: Option<Json>)
  {
    v.Some? && v.value.JStr?
  }

  /** `z.number().positive()` */
  predicate IsPositiveNumber(v: Option<Json>)
  {
    v.Some? && v.value.JNum? && v.value.n > 0.0
  }

  /** The paths of the fields that fail the schema, in the schema's order;
      the root path "" alone when the body is not an object. */
  function Issues(body: Json): seq<string>
  {
    if !body.JObject? then [""]
    else
      (if IsKind(Member(body, "type")) then [] else ["type"])
      + (if IsString(Member(body, "cryptocurrency")) then [] else ["cryptocurrency"])
      + (if IsPositiveNumber(Member(body, "amount")) then [] else ["amount"])
      + (if IsPositiveNumber(Member(body, "fiatAmount")) then [] else ["fiatAmount"])
  }

  /** `tradeSchema.parse(req.body)`: the typed request exactly when every
      field passes, otherwise every failing field. */
  function Validate(body: Json): (r: Result<TradeRequest, seq<string>>)
    ensures r.Success? <==>
              && body.JObject?
              && IsKind(Member(body, "type"))
              && IsString(Member(body, "cryptocurrency"))
              && IsPositiveNumber(Member(body, "amount"))
              && IsPositiveNumber(Member(body, "fiatAmount"))
    ensures r.Success? ==>
              && Member(body, "type") == Some(JStr(KindName(r.value.kind)))
              && Member(body, "cryptocurrency") == Some(JStr(r.value.cryptocurrency))
              && Member(body, "amount") == Some(JNum(r.value.amount)) && r.value.amount > 0.0
              && Member(body, "fiatAmount") == Some(JNum(r.value.fiatAmount)) && r.value.fiatAmount > 0.0
    ensures r.Failure? ==> r.error != []
    ensures r.Failure? && !body.JObject? ==> r.error == [""]
    ensures r.Failure? && body.JObject? ==>
              && ("type" in r.error <==> !IsKind(Member(body, "type")))
              && ("cryptocurrency" in r.error <==> !IsString(Member(body, "cryptocurrency")))
              && ("amount" in r.error <==> !IsPositiveNumber(Member(body, "amount")))
              && ("fiatAmount" in r.error <==> !IsPositiveNumber(Member(body, "fiatAmount")))
  {
    var issues := Issues(body);
    if issues != [] then Failure(issues)
    else
      Success(TradeRequest(
        if Member(body, "type") == Some(JStr("buy")) then Buy else Sell,
        Member(body, "cryptocurrency").value.s,
        Member(body, "amount").value.n,
        Member(body, "fiatAmount").value.n))
  }

  // ---------------------------------------------------------------------------
  // POST /api/trades

  /** The response of the trade handler: `{success: true, transaction}`, or a 400. */
  datatype TradeOutcome = Executed(transaction: Transaction) | BadRequest(issues: seq<string>)

  /** The snapshot the handler seeds for a symbol without market data. */
  function SeedSnapshot(symbol: string): MarketData
  {
    MarketData(symbol, MockPrice(symbol), SeedChange, 0.0, 0.0)
  }

  /** The price a trade of `symbol` executes at: the stored snapshot's, else the table's. */
  function ResolvedPrice(md: map<string, MarketData>, symbol: string): real
  {
    if symbol in md then md[symbol].price else MockPrice(symbol)
  }

  ghost predicate NonNegativeHoldings(hs: seq<Holding>)
  {
    forall h :: h in hs ==> h.balance >= 0.0 && h.averageCost >= 0.0
  }

  /** No holding has a negative balance or cost, and no snapshot a negative price. */
  ghost predicate Sound(store: MemStorage)
    reads store
  {
    && (forall u :: u in store.holdings ==> NonNegativeHoldings(store.holdings[u]))
    && NonNegativePrices(store.marketData)
  }

  /** The demo user's holdings are the replay of the demo user's transaction log. */
  ghost predicate DemoLedgerAgrees(store: MemStorage)
    reads store
  {
    LedgerAgrees(store.UserHoldings(DemoUserId), store.UserTransactions(DemoUserId))
  }

  /** The demo user's holding of `c` is the replay of the demo user's logged trades of `c`. */
  ghost predicate DemoLedgerAgreesOn(store: MemStorage, c: string)
    reads store
  {
    LedgerAgreesOn(store.UserHoldings(DemoUserId), store.UserTransactions(DemoUserId), c)
  }

  /** The price step of the trade handler: the stored snapshot's price, or,
      for a symbol without one, the table price after seeding a snapshot
      with it. Only the market data can change. */
  method ResolvePrice(store: MemStorage, c: string) returns (price: real)
    requires store.Valid()
    modifies store
    ensures store.Valid()
    ensures price == ResolvedPrice(old(store.marketData), c)
    ensures store.marketData == (if c in old(store.marketData) then old(store.marketData)
                                 else old(store.marketData)[c := SeedSnapshot(c)])
    ensures store.users == old(store.users) && store.holdings == old(store.holdings)
    ensures store.transactions == old(store.transactions)
    ensures old(Sound(store)) ==> Sound(store) && price >= 0.0
  {
    var marketData := store.GetMarketData(c);
    if marketData.None? {
      var seeded := store.UpsertMarketData(c, MockPrice(c), Some(SeedChange));
      marketData := Some(seeded);
    }
    price := marketData.value.price;
  }

  /** The recording step of the trade handler: prepends one completed
      transaction at `price` with the flat fee to the demo user's log, and
      upserts the holding with the cost-basis update of the existing one. */
  method RecordTrade(store: MemStorage, req: TradeRequest, price: real) returns (tx: Transaction)
    requires store.Valid()
    modifies store
    ensures store.Valid()
    ensures tx == Transaction(DemoUserId, KindName(req.kind), req.cryptocurrency, req.amount, req.fiatAmount,
                              price, TradeFee, "completed")
    ensures store.transactions
            == old(store.transactions)[DemoUserId := [tx] + old(store.UserTransactions(DemoUserId))]
    ensures var next := NextPosition(req.kind, PositionOf(Find(old(store.UserHoldings(DemoUserId)), req.cryptocurrency)),
                                     req.amount, price);
            store.holdings
            == old(store.holdings)[DemoUserId := Upserted(old(store.UserHoldings(DemoUserId)),
                                                          Holding(DemoUserId, req.cryptocurrency, next.balance, next.averageCost))]
    ensures store.users == old(store.users) && store.marketData == old(store.marketData)
    ensures old(Sound(store)) && req.amount > 0.0 && price >= 0.0 ==> Sound(store)
    ensures forall c :: old(DemoLedgerAgreesOn(store, c)) ==> DemoLedgerAgreesOn(store, c)
    ensures old(DemoLedgerAgrees(store)) ==> DemoLedgerAgrees(store)
  {
    ghost var wasSound := Sound(store);
    ghost var oldHoldings := store.UserHoldings(DemoUserId);
    ghost var oldTransactions := store.UserTransactions(DemoUserId);

    tx := store.CreateTransaction(InsertTransaction(
      DemoUserId, KindName(req.kind), req.cryptocurrency, Some(req.amount),
      Some(req.fiatAmount), Some(price), Some(TradeFee), Some("completed")));

    var existingHolding := store.GetHolding(DemoUserId, req.cryptocurrency);
    var current := PositionOf(existingHolding);
    var next := NextPosition(req.kind, current, req.amount, price);
    var holding := store.UpsertHolding(InsertHolding(
      DemoUserId, req.cryptocurrency, Some(next.balance), Some(next.averageCost)));

    if wasSound && req.amount > 0.0 && price >= 0.0 {
      assert current.balance >= 0.0 && current.averageCost >= 0.0 by {
        if existingHolding.Some? {
          assert existingHolding.value in oldHoldings;
        }
      }
      NextPositionNonNegative(req.kind, current, req.amount, price);
      assert NonNegativeHoldings(store.holdings[DemoUserId]);
    }
    KindRoundTrip(req.kind);
    forall c | LedgerAgreesOn(oldHoldings, oldTransactions, c)
      ensures LedgerAgreesOn(store.UserHoldings(DemoUserId), store.UserTransactions(DemoUserId), c)
    {
      RecordTradeKeepsAgreementOn(oldHoldings, oldTransactions, tx, holding, c);
    }
  }

  /** `POST /api/trades`: validates the body and on failure changes nothing;
      otherwise resolves the price and records the trade at it. Keeps every
      balance, cost and price non-negative, and keeps the demo user's
      holdings equal to the replay of the demo user's log. */
  method ExecuteTrade(store: MemStorage, body: Json) returns (out: TradeOutcome)
    requires store.Valid()
    modifies store
    ensures store.Valid()
    ensures Validate(body).Failure? ==> out == BadRequest(Validate(body).error) && unchanged(store)
    ensures Validate(body).Success? ==>
              var req := Validate(body).value;
              var c := req.cryptocurrency;
              var price := ResolvedPrice(old(store.marketData), c);
              var next := NextPosition(req.kind, PositionOf(Find(old(store.UserHoldings(DemoUserId)), c)),
                                       req.amount, price);
              && out == Executed(Transaction(DemoUserId, KindName(req.kind), c, req.amount, req.fiatAmount,
                                             price, TradeFee, "completed"))
              && store.marketData == (if c in old(store.marketData) then old(store.marketData)
                                      else old(store.marketData)[c := SeedSnapshot(c)])
              && store.transactions
                 == old(store.transactions)[DemoUserId := [out.transaction] + old(store.UserTransactions(DemoUserId))]
              && store.holdings
                 == old(store.holdings)[DemoUserId := Upserted(old(store.UserHoldings(DemoUserId)),
                                                               Holding(DemoUserId, c, next.balance, next.averageCost))]
              && store.users == old(store.users)
    ensures old(Sound(store)) ==> Sound(store)
    ensures forall c :: old(DemoLedgerAgreesOn(store, c)) ==> DemoLedgerAgreesOn(store, c)
    ensures old(DemoLedgerAgrees(store)) ==> DemoLedgerAgrees(store)
  {
    var parsed := Validate(body);
    if parsed.Failure? {
      return BadRequest(parsed.error);
    }
    var tradeData := parsed.value;
    var price := ResolvePrice(store, tradeData.cryptocurrency);
    var transaction := RecordTrade(store, tradeData, price);
    out := Executed(transaction);
  }

  // ---------------------------------------------------------------------------
  // GET /api/portfolio

  /** Sums `balance × price` and its daily change over the demo user's
      holdings, skipping those without market data; the percentage is 0
      unless the total is positive. */
  method GetPortfolio(store: MemStorage) returns (p: Portfolio)
    requires store.Valid()
    ensures var hs := store.UserHoldings(DemoUserId);
            && p.totalBalance == TotalValue(hs, store.marketData)
            && p.dailyPnL == TotalPnL(hs, store.marketData)
            && p.dailyPnLPercent == PnLPercent(p.totalBalance, p.dailyPnL)
    ensures p.totalBalance <= 0.0 ==> p.dailyPnLPercent == 0.0
    ensures p.availableBalance == AvailableBalance && p.totalTrades == TotalTrades
  {
    var holdings := store.GetUserHoldings(DemoUserId);
    var totalBalance, dailyPnL := 0.0, 0.0;
    for i := 0 to |holdings|
      invariant totalBalance == TotalValue(holdings[..i], store.marketData)
      invariant dailyPnL == TotalPnL(holdings[..i], store.marketData)
    {
      var marketData := store.GetMarketData(holdings[i].cryptocurrency);
      if marketData.Some? {
        var currentValue := holdings[i].balance * marketData.value.price;
        totalBalance := totalBalance + currentValue;
        var change24h := marketData.value.priceChange24h;
        dailyPnL := dailyPnL + currentValue * (change24h / 100.0);
      }
      assert holdings[..i + 1][..i] == holdings[..i];
    }
    assert holdings[..|holdings|] == holdings;
    p := Portfolio(totalBalance, AvailableBalance, dailyPnL,
                   if totalBalance > 0.0 then dailyPnL / totalBalance * 100.0 else 0.0, TotalTrades);
  }

  // ---------------------------------------------------------------------------
  // GET /api/holdings

  /** Each of the demo user's holdings with its current price, 24h change and
      USD value; the USD values add up to the portfolio's total balance. */
  method GetHoldings(store: MemStorage) returns (r: seq<EnrichedHolding>)
    requires store.Valid()
    ensures |r| == |store.UserHoldings(DemoUserId)|
    ensures forall i :: 0 <= i < |r| ==> r[i].holding == store.UserHoldings(DemoUserId)[i]
    ensures r == EnrichAll(store.UserHoldings(DemoUserId), store.marketData)
    ensures SumUsd(r) == TotalValue(store.UserHoldings(DemoUserId), store.marketData)
  {
    var holdings := store.GetUserHoldings(DemoUserId);
    r := EnrichAll(holdings, store.marketData);
    EnrichedSumIsTotal(holdings, store.marketData);
  }

  // ---------------------------------------------------------------------------
  // GET /api/transactions

  /** `parseInt(req.query.limit as string) || 10`; an absent parameter is
      `undefined`, which `parseInt` reads as the text "undefined". */
  function LimitOf(query: Option<string>): int
  {
    var parsed := ParseInt(if query.Some? then query.value else "undefined");
    if parsed.None? || parsed.value == 0 then DefaultLimit else parsed.value
  }

  /** Without the parameter, or with text that has no digit, the limit is 10. */
  lemma LimitDefaults(s: string)
    requires NoDecimalDigit(s)
    ensures LimitOf(None) == DefaultLimit
    ensures LimitOf(Some(s)) == DefaultLimit
  {
    assert LimitOf(None) == DefaultLimit by {
      UndefinedIsNaN();
    }
    assert LimitOf(Some(s)) == DefaultLimit by {
      NoDigitIsNaN(s);
    }
  }

  /** An absent parameter reaches `parseInt` as the text "undefined", which is NaN. */
  lemma UndefinedIsNaN()
    ensures ParseInt("undefined") == None
  {
    assert NoDecimalDigit("undefined");
    NoDigitIsNaN("undefined");
  }

  /** A numeral gives its value as the limit, except 0 which gives 10;
      negative values pass through. */
  lemma LimitOfNumeral(n: int, rest: string)
    requires rest == [] || !IsDecimalDigitOrX(rest[0])
    ensures LimitOf(Some(DecimalString(n) + rest)) == if n == 0 then DefaultLimit else n
  {
    ParseDecimal(n, rest);
  }

  /** The newest transactions of the demo user, as many as the limit says
      (a negative limit drops that many of the oldest). */
  method GetTransactions(store: MemStorage, query: Option<string>) returns (r: seq<Transaction>)
    requires store.Valid()
    ensures var txs := store.UserTransactions(DemoUserId);
            var n := LimitOf(query);
            && (n >= 0 ==> r == txs[..Min(n, |txs|)])
            && (n < 0 ==> r == txs[..Max(|txs| + n, 0)])
    ensures query.None? ==> r == store.UserTransactions(DemoUserId)[..Min(DefaultLimit, |store.UserTransactions(DemoUserId)|)]
  {
    var limit := LimitOf(query);
    r := store.GetUserTransactions(DemoUserId, Some(limit));
    if query.None? {
      LimitDefaults("");
    }
  }

  // ---------------------------------------------------------------------------
  // Start-up seeding (`initializeDemoData`)

  /** A row of the seeded price table. */
  datatype SeedQuote = SeedQuote(symbol: string, price: real, change: real)

  const DemoQuotes: seq<SeedQuote> := [
    SeedQuote("BTC", 43521.0, 2.34),
    SeedQuote("ETH", 2341.0, -1.23),
    SeedQuote("ADA", 0.5, 5.67),
    SeedQuote("SOL", 98.45, 3.21),
    SeedQuote("DOT", 6.78, -0.89)
  ]

  /** A row of the seeded transaction table. */
  datatype SeedTrade = SeedTrade(kind: string, crypto: string, amount: real, fiatAmount: real, price: real)

  const DemoTrades: seq<SeedTrade> := [
    SeedTrade("buy", "BTC", 0.1, 4350.0, 43500.0),
    SeedTrade("sell", "ETH", 1.2, 2800.0, 2333.0),
    SeedTrade("buy", "ADA", 500.0, 250.0, 0.5)
  ]

  const DemoUserData := UpsertUser(DemoUserId, Some("demo@cryptox.com"), Some("Demo"), Some("User"), None)

  const DemoBtc := Holding(DemoUserId, "BTC", 0.5234, 42000.0)
  const DemoEth := Holding(DemoUserId, "ETH", 5.8, 2200.0)
  const DemoAda := Holding(DemoUserId, "ADA", 1250.0, 0.48)
  const DemoHoldingRows: seq<Holding> := [DemoBtc, DemoEth, DemoAda]

  /** The snapshots after upserting the quotes in order. */
  function Quoted(md: map<string, MarketData>, quotes: seq<SeedQuote>): map<string, MarketData>
  {
    if quotes == [] then md
    else
      var q := quotes[|quotes| - 1];
      Quoted(md, quotes[..|quotes| - 1])[q.symbol := MarketData(q.symbol, q.price, q.change, 0.0, 0.0)]
  }

  function SeedTransaction(t: SeedTrade): Transaction
  {
    Transaction(DemoUserId, t.kind, t.crypto, t.amount, t.fiatAmount, t.price, TradeFee, "completed")
  }

  /** The newest-first log after creating the trades' transactions in order. */
  function Logged(txs: seq<Transaction>, trades: seq<SeedTrade>): seq<Transaction>
  {
    if trades == [] then txs
    else [SeedTransaction(trades[|trades| - 1])] + Logged(txs, trades[..|trades| - 1])
  }

  /** Upserts the price table's rows in order. */
  method SeedMarketData(store: MemStorage)
    requires store.Valid()
    modifies store
    ensures store.Valid()
    ensures store.marketData == Quoted(old(store.marketData), DemoQuotes)
    ensures store.users == old(store.users) && store.holdings == old(store.holdings)
    ensures store.transactions == old(store.transactions)
  {
    for i := 0 to |DemoQuotes|
      invariant store.Valid()
      invariant store.marketData == Quoted(old(store.marketData), DemoQuotes[..i])
      invariant store.users == old(store.users) && store.holdings == old(store.holdings)
      invariant store.transactions == old(store.transactions)
    {
      var data := DemoQuotes[i];
      var _ := store.UpsertMarketData(data.symbol, data.price, Some(data.change));
      assert DemoQuotes[..i + 1][..i] == DemoQuotes[..i];
    }
    assert DemoQuotes[..|DemoQuotes|] == DemoQuotes;
  }

  /** The holdings after upserting the three demo rows in order. */
  function SeededHoldings(hs: seq<Holding>): seq<Holding>
  {
    Upserted(Upserted(Upserted(hs, DemoBtc), DemoEth), DemoAda)
  }

  /** Upserts the three demo holdings in order. */
  method SeedHoldings(store: MemStorage)
    requires store.Valid()
    modifies store
    ensures store.Valid()
    ensures store.holdings
            == old(store.holdings)[DemoUserId := SeededHoldings(old(store.UserHoldings(DemoUserId)))]
    ensures store.users == old(store.users) && store.marketData == old(store.marketData)
    ensures store.transactions == old(store.transactions)
  {
    SeedHolding(store, DemoBtc);
    SeedHolding(store, DemoEth);
    SeedHolding(store, DemoAda);
  }

  /** One `upsertHolding` call of the seeding, with both amounts given. */
  method SeedHolding(store: MemStorage, row: Holding)
    requires store.Valid()
    modifies store
    ensures store.Valid()
    ensures store.holdings == old(store.holdings)[row.userId := Upserted(old(store.UserHoldings(row.userId)), row)]
    ensures store.users == old(store.users) && store.marketData == old(store.marketData)
    ensures store.transactions == old(store.transactions)
  {
    var _ := store.UpsertHolding(InsertHolding(row.userId, row.cryptocurrency, Some(row.balance), Some(row.averageCost)));
  }

  /** Creates the seeded transactions in order, each completed with the flat fee. */
  method SeedTransactions(store: MemStorage)
    requires store.Valid()
    modifies store
    ensures store.Valid()
    ensures store.transactions
            == old(store.transactions)[DemoUserId := Logged(old(store.UserTransactions(DemoUserId)), DemoTrades)]
    ensures store.users == old(store.users) && store.marketData == old(store.marketData)
    ensures store.holdings == old(store.holdings)
  {
    ghost var txs0 := store.UserTransactions(DemoUserId);
    for i := 0 to |DemoTrades|
      invariant store.Valid()
      invariant store.transactions == if i == 0 then old(store.transactions)
                                      else old(store.transactions)[DemoUserId := Logged(txs0, DemoTrades[..i])]
      invariant store.users == old(store.users) && store.marketData == old(store.marketData)
      invariant store.holdings == old(store.holdings)
    {
      var tx := DemoTrades[i];
      var _ := store.CreateTransaction(InsertTransaction(
        DemoUserId, tx.kind, tx.crypto, Some(tx.amount), Some(tx.fiatAmount), Some(tx.price),
        Some(TradeFee), Some("completed")));
      assert DemoTrades[..i + 1][..i] == DemoTrades[..i];
    }
    assert DemoTrades[..|DemoTrades|] == DemoTrades;
  }

  /** `initializeDemoData`: upserts the demo user, the price table, three
      holdings and three completed transactions, in that order. */
  method InitializeDemoData(store: MemStorage)
    requires store.Valid()
    modifies store
    ensures store.Valid()
    ensures store.users == old(store.users)[DemoUserId := User(DemoUserId, Some("demo@cryptox.com"),
                                                               Some("Demo"), Some("User"), None)]
    ensures store.marketData == Quoted(old(store.marketData), DemoQuotes)
    ensures store.holdings
            == old(store.holdings)[DemoUserId := SeededHoldings(old(store.UserHoldings(DemoUserId)))]
    ensures store.transactions
            == old(store.transactions)[DemoUserId := Logged(old(store.UserTransactions(DemoUserId)), DemoTrades)]
  {
    var _ := store.UpsertUser(DemoUserData);
    SeedMarketData(store);
    SeedHoldings(store);
    SeedTransactions(store);
  }

  /** The snapshots, holdings and log the server starts with. */
  const DemoMarket: map<string, MarketData> := Quoted(map[], DemoQuotes)
  const DemoLog: seq<Transaction> :=
    [SeedTransaction(DemoTrades[2]), SeedTransaction(DemoTrades[1]), SeedTransaction(DemoTrades[0])]

  lemma SeededFromEmpty()
    ensures SeededHoldings([]) == DemoHoldingRows
    ensures Logged([], DemoTrades) == DemoLog
  {
    var r0, r1, r2 := DemoHoldingRows[0], DemoHoldingRows[1], DemoHoldingRows[2];
    assert Find([r0], r1.cryptocurrency).None?;
    assert Find([r0, r1], r2.cryptocurrency).None?;
    var t0, t1, t2 := SeedTransaction(DemoTrades[0]), SeedTransaction(DemoTrades[1]), SeedTransaction(DemoTrades[2]);
    assert Logged([], DemoTrades[..1]) == [t0] by {
      assert DemoTrades[..1][..0] == [];
    }
    assert Logged([], DemoTrades[..2]) == [t1, t0] by {
      assert DemoTrades[..2][..1] == DemoTrades[..1];
    }
    assert Logged([], DemoTrades[..3]) == [t2, t1, t0] by {
      assert DemoTrades[..3][..2] == DemoTrades[..2];
    }
    assert DemoTrades[..3] == DemoTrades;
  }

  /** Upserting a list of quotes: the last quote of a symbol is its snapshot... */
  lemma {:induction false} QuotedLatest(md: map<string, MarketData>, quotes: seq<SeedQuote>, i: int)
    requires 0 <= i < |quotes|
    requires forall j :: i < j < |quotes| ==> quotes[j].symbol != quotes[i].symbol
    ensures quotes[i].symbol in Quoted(md, quotes)
    ensures Quoted(md, quotes)[quotes[i].symbol]
            == MarketData(quotes[i].symbol, quotes[i].price, quotes[i].change, 0.0, 0.0)
  {
    var n := |quotes|;
    if i < n - 1 {
      var init := quotes[..n - 1];
      assert forall j :: i < j < |init| ==> init[j] == quotes[j];
      QuotedLatest(md, init, i);
    }
  }

  /** ... and a symbol no quote names keeps its old snapshot, or stays absent. */
  lemma {:induction false} QuotedUntouched(md: map<string, MarketData>, quotes: seq<SeedQuote>, c: string)
    requires forall j :: 0 <= j < |quotes| ==> quotes[j].symbol != c
    ensures c in Quoted(md, quotes) <==> c in md
    ensures c in md ==> Quoted(md, quotes)[c] == md[c]
  {
    if quotes != [] {
      var init := quotes[..|quotes| - 1];
      assert forall j :: 0 <= j < |init| ==> init[j] == quotes[j];
      QuotedUntouched(md, init, c);
    }
  }

  /** Upserting quotes whose prices are not negative keeps every price non-negative. */
  lemma {:induction false} QuotedNonNegative(md: map<string, MarketData>, quotes: seq<SeedQuote>)
    requires NonNegativePrices(md)
    requires forall j :: 0 <= j < |quotes| ==> quotes[j].price >= 0.0
    ensures NonNegativePrices(Quoted(md, quotes))
  {
    if quotes != [] {
      var init := quotes[..|quotes| - 1];
      assert forall j :: 0 <= j < |init| ==> init[j] == quotes[j];
      QuotedNonNegative(md, init);
    }
  }

  /** No seeded holding has a negative balance or cost, and no seeded snapshot a negative price. */
  lemma StartUpSound()
    ensures NonNegativeHoldings(DemoHoldingRows)
    ensures NonNegativePrices(DemoMarket)
  {
    QuotedNonNegative(map[], DemoQuotes);
  }

  /** The seeded snapshots of BTC, ETH and ADA, whose holdings are seeded too. */
  lemma DemoMarketPrices()
    ensures "BTC" in DemoMarket && DemoMarket["BTC"] == MarketData("BTC", 43521.0, 2.34, 0.0, 0.0)
    ensures "ETH" in DemoMarket && DemoMarket["ETH"] == MarketData("ETH", 2341.0, -1.23, 0.0, 0.0)
    ensures "ADA" in DemoMarket && DemoMarket["ADA"] == MarketData("ADA", 0.5, 5.67, 0.0, 0.0)
  {
    var q := DemoQuotes;
    QuotedLatest(map[], q, 0);
    QuotedLatest(map[], q, 1);
    QuotedLatest(map[], q, 2);
  }

  /** The store as the server starts: an empty store after `initializeDemoData`. */
  method StartUp() returns (store: MemStorage)
    ensures fresh(store) && store.Valid()
    ensures store.users == map[DemoUserId := User(DemoUserId, Some("demo@cryptox.com"), Some("Demo"), Some("User"), None)]
    ensures store.marketData == DemoMarket
    ensures store.holdings == map[DemoUserId := DemoHoldingRows]
    ensures store.transactions == map[DemoUserId := DemoLog]
    ensures forall c :: DemoLedgerAgreesOn(store, c) <==> c != "BTC" && c != "ETH" && c != "ADA"
    ensures Sound(store)
  {
    store := new MemStorage();
    InitializeDemoData(store);
    SeededFromEmpty();
    StartUpSound();
    forall c
      ensures LedgerAgreesOn(DemoHoldingRows, DemoLog, c) <==> c != "BTC" && c != "ETH" && c != "ADA"
    {
      StartUpAgreesOn(c);
    }
  }

  /** The start-up portfolio: 0.5234 BTC at 43521, 5.8 ETH at 2341 and 1250
      ADA at 0.5 are worth 36981.6914 and moved by 401.45661876 on the day. */
  lemma DemoPortfolio()
    ensures TotalValue(DemoHoldingRows, DemoMarket) == 36981.6914
    ensures TotalPnL(DemoHoldingRows, DemoMarket) == 401.45661876
    ensures 1.0 < PnLPercent(TotalValue(DemoHoldingRows, DemoMarket), TotalPnL(DemoHoldingRows, DemoMarket)) < 1.1
  {
    DemoMarketPrices();
    var rows, md := DemoHoldingRows, DemoMarket;
    assert TotalValue(rows[..1], md) == 22778.8914 && TotalPnL(rows[..1], md) == 533.02605876 by {
      assert rows[..1][..0] == [];
    }
    assert TotalValue(rows[..2], md) == 36356.6914 && TotalPnL(rows[..2], md) == 366.01911876 by {
      assert rows[..2][..1] == rows[..1];
    }
    assert TotalValue(rows[..3], md) == 36981.6914 && TotalPnL(rows[..3], md) == 401.45661876 by {
      assert rows[..3][..2] == rows[..2];
    }
    assert rows[..3] == rows;
  }

  /** The seeded holdings are not what the seeded log replays to: the log
      holds one buy of 0.1 BTC at 43500, the holdings 0.5234 BTC at 42000.
      So the store does not start in full agreement. */
  lemma DemoLedgerDisagrees()
    ensures !LedgerAgrees(DemoHoldingRows, DemoLog)
  {
    StartUpAgreesOn("BTC");
  }

  /** At start-up the holdings agree with the log on exactly the symbols
      that were not seeded: every symbol but BTC, ETH and ADA. The seeded
      ETH sell of 1.2 replays to nothing held (5.8 are), and the seeded ADA
      buy of 500 at 0.5 to 500 at 0.5 (1250 at 0.48 are). */
  lemma StartUpAgreesOn(c: string)
    ensures LedgerAgreesOn(DemoHoldingRows, DemoLog, c) <==> c != "BTC" && c != "ETH" && c != "ADA"
  {
    var rows, log := DemoHoldingRows, DemoLog;
    if c == "BTC" {
      assert Find(rows, "BTC") == Some(rows[0]);
      assert LogPosition(log[2..], "BTC") == Position(0.1, 43500.0) by {
        FirstBuy(0.1, 43500.0);
      }
      assert LogPosition(log, "BTC") == Position(0.1, 43500.0);
    } else if c == "ETH" {
      assert Find(rows, "ETH") == Some(rows[1]);
      assert LogPosition(log[2..], "ETH") == NoPosition;
      assert LogPosition(log[1..], "ETH") == Position(0.0, 0.0);
    } else if c == "ADA" {
      assert Find(rows, "ADA") == Some(rows[2]);
      assert LogPosition(log[2..], "ADA") == NoPosition;
      assert LogPosition(log[1..], "ADA") == NoPosition;
      assert LogPosition(log, "ADA") == Position(500.0, 0.5) by {
        FirstBuy(500.0, 0.5);
      }
    } else {
      assert Find(rows, c) == None;
      assert LogPosition(log[2..], c) == NoPosition;
      assert LogPosition(log[1..], c) == NoPosition;
      assert LogPosition(log, c) == NoPosition;
    }
  }
}
