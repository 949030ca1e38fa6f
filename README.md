# Cost-basis ledger of the crypto trading demo server

This project models the server side of a small crypto trading demo. The server
keeps, per user, a list of holdings (one per symbol, each with a balance and an
average cost) and a newest-first transaction log. It also keeps one market
snapshot per symbol. The model covers:

- the in-memory store `MemStorage` (`server/storage.ts`), as a Dafny class with
  `map` and `seq` fields whose methods state the whole new state;
- the trade handler `POST /api/trades`: request validation, price resolution
  (stored snapshot, else a fixed table, else 100, seeding a snapshot when none
  exists), one completed transaction with a flat 2.99 fee, and the holding
  update. A buy moves the holding to the weighted-average cost; a sell clamps
  the balance at zero and keeps the cost;
- the portfolio valuation loop of `GET /api/portfolio` and the enrichment of
  `GET /api/holdings`;
- the `limit` parameter of `GET /api/transactions`, read with JavaScript's
  `parseInt` (section 19.2.5 of ECMA-262) and defaulted with `|| 10`;
- `getAssetName`, and the start-up seeding `initializeDemoData`.

Balances, prices and costs are `real`. The source stores them as decimal
strings and reads them back with `parseFloat`.

Modules:

- `Schema`: the records.
- `Storage`: the store and its list helpers.
- `CostBasis`: the holding update and the replay of a sequence of trades.
- `Ledger`: how a holdings list relates to a transaction log.
- `Valuation`: the portfolio sums.
- `JsParseInt`: `parseInt`.
- `Routes`: the handlers, each a method over a `MemStorage`.

The main invariant is `Ledger.LedgerAgreesOn`: a symbol's holding is the
replay of that symbol's logged trades through the holding update. The trade
handler preserves it symbol by symbol, whatever the other symbols do. The store
the server starts with satisfies it for every symbol except BTC, ETH and ADA,
whose seeded holdings are not what the seeded transactions replay to
(`Routes.StartUpAgreesOn`). So from start-up on, every other symbol's holding is
the replay of its trades, and such a symbol, if only ever bought, is held at the
weighted mean of its buy prices.

## Model

| member | source | states |
|---|---|---|
| Storage.MemStorage.constructor | server/storage.ts:146-150 | the store starts with four empty maps and satisfies its invariant |
| Storage.MemStorage.GetUser | server/storage.ts:152-154 | returns the user stored under the id, and nothing exactly when there is none |
| Storage.OrNull | server/storage.ts:159-162 | a missing or empty string becomes null, any other string is kept |
| Storage.MemStorage.UpsertUser | server/storage.ts:156-168 | overwrites the user with that id, with missing or empty email, names and image set to null; nothing else changes |
| Storage.MemStorage.GetUserHoldings | server/storage.ts:170-172 | returns the user's list, [] for an unknown user; its entries belong to the user and have distinct symbols |
| Storage.Find | server/storage.ts:174-177 | returns the first entry of the list with that symbol, and nothing exactly when no entry has it |
| Storage.MemStorage.GetHolding | server/storage.ts:174-177 | returns the user's entry with that symbol, and undefined exactly when the user holds no such entry |
| Storage.FindIndex | server/storage.ts:191 | returns the first index whose symbol matches, and -1 exactly when none matches |
| Storage.Upserted | server/storage.ts:190-199 | the new holding is in the list; the first entry with its symbol is replaced in place (same length), otherwise the holding is appended; every other position keeps its entry |
| Storage.UpsertedFind | server/storage.ts:179-201 | after an upsert, looking up its symbol gives the written holding and looking up any other symbol gives what it gave before |
| Storage.UpsertedUnique | server/storage.ts:190-199 | an upsert keeps at most one entry per symbol |
| Storage.MemStorage.UpsertHolding | server/storage.ts:179-201 | writes the holding with missing balance or cost set to 0 into the user's list by replace-or-append; the other users, the transactions and the snapshots are unchanged; the store invariant (one entry per symbol) is kept |
| Storage.OrDefault | server/storage.ts:213 | a missing or empty status becomes the default, any other status is kept |
| Storage.MemStorage.CreateTransaction | server/storage.ts:203-221 | prepends one transaction, missing amounts set to 0 and a missing status set to "completed"; nothing else changes |
| Storage.RelativeIndex | server/storage.ts:225 | a bound x >= 0 becomes min(x, length); a negative bound counts |x| back from the end, stopping at 0 |
| Storage.MemStorage.GetUserTransactions | server/storage.ts:223-226 | a limit n >= 0 gives the newest min(n, count) entries; a negative n drops |n| from the oldest end; a missing limit means 10; the store is unchanged |
| Storage.MemStorage.GetMarketData | server/storage.ts:228-230 | returns the symbol's snapshot, and nothing exactly when there is none |
| Storage.MemStorage.UpsertMarketData | server/storage.ts:232-244 | overwrites the symbol's whole snapshot with the price, the change (0 when missing) and volume and market cap 0; nothing else changes |
| CostBasis.KindOf | server/routes.ts:202 | the holding update treats `type` as a buy exactly when it is "buy" |
| CostBasis.KindRoundTrip | server/routes.ts:185-202 | the kind recorded in a transaction reads back as the kind that was traded |
| CostBasis.BuyIsWeightedMean | server/routes.ts:202-205 | a buy adds the amount to the balance, and new balance x new cost = old balance x old cost + amount x price |
| CostBasis.BuyWithoutBalance | server/routes.ts:205 | a buy that leaves no positive balance takes the trade price as the cost |
| CostBasis.FirstBuy | server/routes.ts:195-205 | a first buy (no holding counts as balance 0 and cost 0) gives balance = amount and cost = price |
| CostBasis.BuyCostBetween | server/routes.ts:203-205 | from a non-negative balance, the new cost of a buy lies between the old cost and the trade price |
| CostBasis.SellClamps | server/routes.ts:206-208 | a sell gives max(0, balance - amount), never negative even when the amount exceeds the balance, and leaves the cost unchanged |
| CostBasis.NextPositionNonNegative | server/routes.ts:199-209 | a validated trade at a non-negative price keeps balance and cost non-negative |
| CostBasis.BuysAccumulate | server/routes.ts:202-205 | a run of buys adds up the amounts and the amount x price products |
| CostBasis.AverageOfBuys | server/routes.ts:202-205 | after buys only, the cost is the amount-weighted mean of the buy prices |
| CostBasis.SellsClamp | server/routes.ts:206-208 | a run of sells subtracts the total amount once, clamped at 0, and leaves the cost unchanged |
| CostBasis.ReplayNonNegative | server/routes.ts:199-209 | any mix of validated trades keeps balance and cost non-negative |
| CostBasis.LedgerScenario | server/routes.ts:199-209 | buy 0.5 at 40000 and buy 0.5 at 44000 give 1.0 at 42000; selling 0.3 then leaves 0.7 at 42000; selling 10 out of 2 gives 0 |
| Ledger.LogPositionIsReplay | server/routes.ts:183-216 | replaying a newest-first log symbol by symbol is replaying that symbol's fills oldest first |
| Ledger.EmptyLedgerAgrees | server/storage.ts:148-149 | empty holdings agree with an empty log |
| Ledger.RecordTradeKeepsAgreementOn | server/routes.ts:183-216 | prepending a trade and upserting the holding computed for it keeps a symbol's agreement between holding and log, for the traded symbol and any other |
| Ledger.RecordTradeKeepsAgreement | server/routes.ts:183-216 | prepending a trade and upserting the holding computed for it keeps holdings and log in agreement |
| Ledger.OnlyBoughtHoldingIsWeightedMean | server/routes.ts:183-216 | when holdings and log agree on a symbol only ever bought, it is held at the total bought, at the weighted mean of the buy prices |
| Valuation.EnrichAll | server/routes.ts:124-134 | each holding in order, with its snapshot's price and change and balance x price as USD value, or all three 0 without a snapshot |
| Valuation.EnrichedSumIsTotal | server/routes.ts:120-141 | the USD values of the holdings response add up to the portfolio's total balance |
| Valuation.TotalValueNonNegative | server/routes.ts:95-104 | with no negative balance or price the total balance is not negative |
| Valuation.UnpricedWorthNothing | server/routes.ts:95-110 | holdings without market data contribute nothing; the total, the daily P&L and its percentage are then 0 |
| Valuation.UniformChange | server/routes.ts:101-102 | when every snapshot moved by the same change, the daily P&L is that percentage of the total |
| Valuation.UniformChangePercent | server/routes.ts:106-110 | and the daily percentage then equals that change when the total is positive |
| Valuation.HoldingPnLBetween | server/routes.ts:98-102 | one holding's daily P&L lies between its value scaled by the smallest and by the largest change |
| Valuation.PnLAtLeast | server/routes.ts:95-104 | the daily P&L is at least the total scaled by the smallest change |
| Valuation.PnLAtMost | server/routes.ts:95-104 | the daily P&L is at most the total scaled by the largest change |
| Valuation.PnLBetweenChanges | server/routes.ts:95-104 | the daily P&L lies between the total scaled by the smallest and by the largest change |
| Valuation.PercentBetweenChanges | server/routes.ts:106-110 | a positive total's daily percentage lies between the smallest and the largest 24h change |
| JsParseInt.TrimStart | server/routes.ts:146 | `parseInt` skips a prefix of white space and stops at the first other character |
| JsParseInt.LeadingDigits | server/routes.ts:146 | `parseInt` reads the longest prefix of digits of the radix |
| JsParseInt.NatDigitsValue | server/routes.ts:146 | a decimal numeral is a non-empty run of digits denoting its number |
| JsParseInt.DecimalRunIsRead | server/routes.ts:146 | a digit run not followed by a digit or "x" is read whole in radix 10 |
| JsParseInt.ParseNegative | server/routes.ts:146 | a leading "-" negates the value |
| JsParseInt.ParseDecimal | server/routes.ts:146 | `parseInt` reads back any integer's numeral, whatever text follows it that starts with neither a digit nor "x" |
| JsParseInt.NoDigitIsNaN | server/routes.ts:146 | text without any decimal digit is NaN |
| Routes.MockPrice | server/routes.ts:169-176 | the fallback price is the table's price for a listed symbol and 100 for any other, so it is always positive |
| Routes.AssetName | server/routes.ts:302-314 | a known symbol gets its table name; a symbol is its own name exactly when it is unknown |
| Routes.Validate | server/routes.ts:156-165 | the request is accepted exactly when type is "buy" or "sell", the symbol a string and both amounts positive numbers; otherwise every failing field is reported (the root alone for a non-object body) |
| Routes.ResolvePrice | server/routes.ts:167-180 | the price is the stored snapshot's, else the table's after seeding a snapshot with change 2.34; only the snapshots change, and prices stay non-negative |
| Routes.RecordTrade | server/routes.ts:181-216 | prepends one completed transaction at the resolved price with fee 2.99, and upserts the holding with the buy/sell update of the existing one; keeps holdings non-negative, and keeps every symbol on which holdings and log agreed in agreement |
| Routes.ExecuteTrade | server/routes.ts:163-227 | an invalid request changes nothing and reports its issues; a valid one gives exactly the new snapshots, log and holdings above and returns the transaction; it keeps every balance, cost and price non-negative and keeps each symbol whose holding was the replay of its logged trades so |
| Routes.GetPortfolio | server/routes.ts:88-117 | total balance = sum of balance x price over priced holdings, daily P&L = sum of value x change / 100, the percentage 0 unless the total is positive, and the constants 15243.67 and 127 |
| Routes.GetHoldings | server/routes.ts:120-141 | the enriched holdings, in order, whose USD values add up to the total balance |
| Routes.UndefinedIsNaN | server/routes.ts:146 | an absent `limit` reaches `parseInt` as "undefined", which is NaN |
| Routes.LimitDefaults | server/routes.ts:146 | an absent or digit-free `limit` gives 10 |
| Routes.LimitOfNumeral | server/routes.ts:146 | a numeral gives its value, negative ones included, except 0 which gives 10 |
| Routes.GetTransactions | server/routes.ts:144-153 | the demo user's newest transactions as many as the parsed limit says, 10 when it is absent |
| Routes.QuotedLatest | server/routes.ts:31-33 | upserting quotes in order leaves each symbol with its last quote's snapshot |
| Routes.QuotedUntouched | server/routes.ts:31-33 | a symbol no quote names keeps its snapshot or stays absent |
| Routes.SeedMarketData | server/routes.ts:23-33 | upserts the five seeded quotes in order and changes nothing else |
| Routes.SeedHolding | server/routes.ts:37-42 | one seeding upsert with both amounts given writes exactly that row by replace-or-append and changes nothing else |
| Routes.SeedHoldings | server/routes.ts:36-55 | upserts the three seeded holdings in order and changes nothing else |
| Routes.SeedTransactions | server/routes.ts:58-75 | prepends the three seeded transactions in order, each completed with fee 2.99 |
| Routes.InitializeDemoData | server/routes.ts:12-76 | upserts the demo user, then the quotes, the holdings and the transactions |
| Routes.SeededFromEmpty | server/routes.ts:36-75 | from an empty store the holdings are BTC, ETH, ADA in that order and the log is the three trades newest first |
| Routes.StartUp | server/routes.ts:78-79 | the store the server starts with, given in full; no balance, cost or price is negative; its holdings agree with its log on exactly the symbols other than BTC, ETH and ADA |
| Routes.QuotedNonNegative | server/routes.ts:23-33 | upserting quotes with non-negative prices keeps every snapshot's price non-negative |
| Routes.StartUpSound | server/routes.ts:23-55 | no seeded holding has a negative balance or cost, and no seeded snapshot a negative price |
| Routes.DemoMarketPrices | server/routes.ts:23-33 | the seeded BTC, ETH and ADA snapshots |
| Routes.DemoPortfolio | server/routes.ts:92-110 | the start-up portfolio is worth 36981.6914 with a daily P&L of 401.45661876, between 1 and 1.1 percent |
| Routes.StartUpAgreesOn | server/routes.ts:36-75 | the seeded holdings are the replay of the seeded log for a symbol exactly when it is not BTC, ETH or ADA |
| Routes.DemoLedgerDisagrees | server/routes.ts:36-75 | the seeded holdings are not the replay of the seeded log: 0.5234 BTC at 42000 against one buy of 0.1 at 43500 |

## Left out

- `DatabaseStorage` and `server/db.ts` are not part of this model. They are Postgres I/O through a foreign library, and `MemStorage` is the store the server exports.
- Express routing, HTTP status codes, JSON serialisation and the 500 paths are left out. `MemStorage` never throws, so a handler returns either its response body or `BadRequest`.
- Record ids and timestamps (`Math.random()`, `new Date()`) are not modelled because they are nondeterministic.
- `/api/market/:symbol` and `/api/markets` are left out: for a symbol without a snapshot they seed one with the table price (100 for an unlisted symbol) and a random 24h change. `getAssetName` is modelled on its own.
- `/api/auth/user` is only a `getUser` of the demo user, which `Storage.MemStorage.GetUser` covers.
- JavaScript numbers and the `toString`/`parseFloat` round trip through decimal strings are modelled as exact `real` arithmetic, so IEEE-754 rounding is not captured.
- JsParseInt.ParseInt: integers are unbounded, so the loss of precision beyond 2^53 is not modelled. A `limit` given as an array of values (a repeated query key) is not modelled either.
- Concurrency is left out: the handlers are `async`, and two trades on one holding can interleave and lose an update. The model runs each handler to completion.
- Aliasing is not captured. `getUserHoldings` and `getHolding` return the stored array or object itself, and a later in-place update is visible through them. Here the lists are values reassigned in the map.
- Lookups of JavaScript object-prototype keys (a symbol such as "constructor" in the price and name tables) are not modelled. Both tables are modelled as plain maps.
- Storage.MemStorage.UpsertMarketData: the change parameter is `Option<real>`, with `None` for `undefined`. The source's default applies only to `undefined`, and the trade handler and the seeding always pass a number.
- The trade handler accepts a sell larger than the balance; the model keeps that behaviour (the balance is clamped at 0 and the trade is still logged).
- The `fiatAmount` of a trade is recorded but affects neither the price nor the holding. The model keeps this: `CostBasis.NextPosition` does not take it.
