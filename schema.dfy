/** Records shared by the API layer and the store (shared/schema.ts).

    Decimal columns, which the source keeps as decimal strings, are `real` here.
    In the insert records a decimal that the caller may leave out (or pass as
    the empty string, which the store's `|| "0"` treats the same way) is an
    `Option<real>`. Record ids (random numbers) and timestamps are not modelled. */
module Schema {

  /** `undefined`/`null` versus a present value. */
  datatype Option<+T> = None | Some(value: T)

  /** A row of `users`. */
  datatype User = User(
    id: string,
    email: Option<string>,
    firstName: Option<string>,
    lastName: Option<string>,
    profileImageUrl: Option<string>)

  /** The argument of `upsertUser`: every field but the id may be absent. */
  datatype UpsertUser = UpsertUser(
    id: string,
    email: Option<string>,
    firstName: Option<string>,
    lastName: Option<string>,
    profileImageUrl: Option<string>)

  /** A row of `holdings`: one user's balance and average cost in one asset. */
  datatype Holding = Holding(userId: string, cryptocurrency: string, balance: real, averageCost: real)

  /** The argument of `upsertHolding`. */
  datatype InsertHolding = InsertHolding(
    userId: string,
    cryptocurrency: string,
    balance: Option<real>,
    averageCost: Option<real>)

  /** A row of `transactions`. `kind` is the `type` column (buy, sell, swap, deposit, withdraw). */
  datatype Transaction = Transaction(
    userId: string,
    kind: string,
    cryptocurrency: string,
    amount: real,
    fiatAmount: real,
    price: real,
    fee: real,
    status: string)

  /** The argument of `createTransaction`. */
  datatype InsertTransaction = InsertTransaction(
    userId: string,
    kind: string,
    cryptocurrency: string,
    amount: Option<real>,
    fiatAmount: Option<real>,
    price: Option<real>,
    fee: Option<real>,
    status: Option<string>)

  /** A row of `market_data`: the single current snapshot of one symbol. */
  datatype MarketData = MarketData(
    cryptocurrency: string,
    price: real,
    priceChange24h: real,
    volume24h: real,
    marketCap: real)
}
