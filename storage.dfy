/** The in-memory store `MemStorage` (server/storage.ts), the store the server
    exports and the API handlers use.

    The four JavaScript `Map` fields become `map` fields of a class; a user's
    holdings and transactions are `seq` values that the methods reassign. */
module Storage {
  import opened Schema

  /** `x || "0"` on an optional decimal: a missing value becomes zero. */
  function OrZero(x: Option<real>): real
  {
    if x.Some? then x.value else 0.0
  }

  /** `s || null`: a missing or empty string becomes null. */
  function OrNull(s: Option<string>): (r: Option<string>)
    ensures r.Some? <==> s.Some? && s.value != ""
    ensures r.Some? ==> r == s
  {
    if s.Some? && s.value != "" then s else None
  }

  /** `s || d` on an optional string: a missing or empty string becomes `d`. */
  function OrDefault(s: Option<string>, d: string): (r: string)
    ensures s.Some? && s.value != "" ==> r == s.value
    ensures s.None? || s.value == "" ==> r == d
  {
    if s.Some? && s.value != "" then s.value else d
  }

  function Min(a: int, b: int): int { if a <= b then a else b }
  function Max(a: int, b: int): int { if a <= b then b else a }

  /** `hs.findIndex(h => h.cryptocurrency === c)`: the first index holding
      symbol `c`, or -1 when there is none. */
  function FindIndex(hs: seq<Holding>, c: string): (i: int)
    ensures -1 <= i < |hs|
    ensures i >= 0 ==> hs[i].cryptocurrency == c
    ensures i < 0 <==> forall j :: 0 <= j < |hs| ==> hs[j].cryptocurrency != c
    ensures forall j :: 0 <= j < i ==> hs[j].cryptocurrency != c
  {
    if hs == [] then -1
    else if hs[0].cryptocurrency == c then 0
    else
      var k := FindIndex(hs[1..], c);
      if k >= 0 then k + 1 else -1
  }

  /** `hs.find(h => h.cryptocurrency === c)`. */
  function Find(hs: seq<Holding>, c: string): (r: Option<Holding>)
    ensures r.Some? ==> r.value in hs && r.value.cryptocurrency == c
    ensures r.None? <==> forall h :: h in hs ==> h.cryptocurrency != c
    ensures r.Some? ==> 0 <= FindIndex(hs, c) && r.value == hs[FindIndex(hs, c)]
  {
    var i := FindIndex(hs, c);
    if i >= 0 then Some(hs[i]) else None
  }

  /** At most one entry per symbol. */
  ghost predicate UniqueSymbols(hs: seq<Holding>)
  {
    forall i, j :: 0 <= i < j < |hs| ==> hs[i].cryptocurrency != hs[j].cryptocurrency
  }

  /** Replace the entry with the same symbol in place, or append (lines 190-197). */
  function Upserted(hs: seq<Holding>, h: Holding): (r: seq<Holding>)
    ensures h in r
    ensures forall x :: x in r ==> x in hs || x == h
    ensures Find(hs, h.cryptocurrency).Some? ==> |r| == |hs|
    ensures Find(hs, h.cryptocurrency).None? ==> r == hs + [h]
    ensures forall j :: 0 <= j < |hs| && hs[j].cryptocurrency != h.cryptocurrency ==> r[j] == hs[j]
    ensures FindIndex(hs, h.cryptocurrency) >= 0 ==> r[FindIndex(hs, h.cryptocurrency)] == h
    ensures forall j :: 0 <= j < |hs| && j != FindIndex(hs, h.cryptocurrency) ==> r[j] == hs[j]
  {
    var i := FindIndex(hs, h.cryptocurrency);
    if i >= 0 then
      assert hs[i := h][i] == h;
      hs[i := h]
    else hs + [h]
  }

  /** After an upsert the symbol's lookup finds the written entry, and every
      other symbol's lookup is what it was. */
  lemma UpsertedFind(hs: seq<Holding>, h: Holding, c: string)
    ensures Find(Upserted(hs, h), c) == if c == h.cryptocurrency then Some(h) else Find(hs, c)
  {
    var r := Upserted(hs, h);
    var i := FindIndex(hs, h.cryptocurrency);
    var k := FindIndex(r, c);
    var k0 := FindIndex(hs, c);
    if c == h.cryptocurrency {
      if i >= 0 {
        assert r[i] == h;
        assert k == i;
      } else {
        assert r[|hs|] == h;
        assert k == |hs|;
      }
    } else {
      assert forall j :: 0 <= j < |hs| ==> (r[j].cryptocurrency == c <==> hs[j].cryptocurrency == c);
      if k0 >= 0 {
        assert r[k0] == hs[k0];
        assert k == k0;
      } else {
        assert k < 0;
      }
    }
  }

  /** Upserting keeps "at most one entry per symbol". */
  lemma UpsertedUnique(hs: seq<Holding>, h: Holding)
    requires UniqueSymbols(hs)
    ensures UniqueSymbols(Upserted(hs, h))
  {
    var r := Upserted(hs, h);
    var i := FindIndex(hs, h.cryptocurrency);
    forall a, b | 0 <= a < b < |r|
      ensures r[a].cryptocurrency != r[b].cryptocurrency
    {
      if i >= 0 {
        if a != i && b != i {
          assert r[a] == hs[a] && r[b] == hs[b];
        } else if a == i {
          assert r[b] == hs[b] && hs[i].cryptocurrency == h.cryptocurrency;
        } else {
          assert r[a] == hs[a] && hs[i].cryptocurrency == h.cryptocurrency;
        }
      } else if b == |hs| {
        assert r[a] == hs[a];
      } else {
        assert r[a] == hs[a] && r[b] == hs[b];
      }
    }
  }

  /** ECMAScript's relative index of `Array.prototype.slice`: a negative
      index counts from the end, and the result is clamped to [0, len]. */
  function RelativeIndex(x: int, len: nat): (r: nat)
    ensures r <= len
    ensures x >= 0 ==> r == Min(x, len)
    ensures x < 0 ==> r == len - Min(-x, len)
  {
    if x < 0 then Max(len + x, 0) else Min(x, len)
  }

  /** `s.slice(start, end)`. */
  function Slice<T>(s: seq<T>, start: int, end: int): seq<T>
  {
    var from, to := RelativeIndex(start, |s|), RelativeIndex(end, |s|);
    if from < to then s[from..to] else []
  }

  /** Each entry of a user's holding list belongs to that user, one per symbol. */
  ghost predicate OwnedHoldings(hs: seq<Holding>, u: string)
  {
    UniqueSymbols(hs) && forall h :: h in hs ==> h.userId == u
  }

  ghost predicate OwnedTransactions(txs: seq<Transaction>, u: string)
  {
    forall t :: t in txs ==> t.userId == u
  }

  class MemStorage {
    var users: map<string, User>
    /** Per user, the holdings in insertion order. */
    var holdings: map<string, seq<Holding>>
    /** Per user, the transactions newest first. */
    var transactions: map<string, seq<Transaction>>
    /** Per symbol, the current snapshot. */
    var marketData: map<string, MarketData>

    /** Every record is filed under its own key, and no user holds a symbol twice. */
    ghost predicate Valid()
      reads this
    {
      && (forall id :: id in users ==> users[id].id == id)
      && (forall u :: u in holdings ==> OwnedHoldings(holdings[u], u))
      && (forall u :: u in transactions ==> OwnedTransactions(transactions[u], u))
      && (forall c :: c in marketData ==> marketData[c].cryptocurrency == c)
    }

    /** `this.holdings.get(u) || []` */
    ghost function UserHoldings(u: string): seq<Holding>
      reads this
    {
      if u in holdings then holdings[u] else []
    }

    /** `this.transactions.get(u) || []` */
    ghost function UserTransactions(u: string): seq<Transaction>
      reads this
    {
      if u in transactions then transactions[u] else []
    }

    constructor ()
      ensures Valid()
      ensures users == map[] && holdings == map[] && transactions == map[] && marketData == map[]
    {
      users := map[];
      holdings := map[];
      transactions := map[];
      marketData := map[];
    }

    method GetUser(id: string) returns (r: Option<User>)
      requires Valid()
      ensures r.Some? <==> id in users
      ensures r.Some? ==> r.value == users[id] && r.value.id == id
    {
      r := if id in users then Some(users[id]) else None;
    }

    /** Overwrites the user with that id; absent or empty optional fields become null. */
    method UpsertUser(data: UpsertUser) returns (user: User)
      requires Valid()
      modifies this
      ensures Valid()
      ensures user.id == data.id
      ensures user.email == OrNull(data.email) && user.firstName == OrNull(data.firstName)
      ensures user.lastName == OrNull(data.lastName) && user.profileImageUrl == OrNull(data.profileImageUrl)
      ensures users == old(users)[data.id := user]
      ensures holdings == old(holdings) && transactions == old(transactions) && marketData == old(marketData)
    {
      user := User(data.id, OrNull(data.email), OrNull(data.firstName), OrNull(data.lastName),
                   OrNull(data.profileImageUrl));
      users := users[data.id := user];
    }

    method GetUserHoldings(userId: string) returns (r: seq<Holding>)
      requires Valid()
      ensures r == UserHoldings(userId)
      ensures userId !in holdings ==> r == []
      ensures UniqueSymbols(r) && forall h :: h in r ==> h.userId == userId
    {
      r := if userId in holdings then holdings[userId] else [];
    }

    method GetHolding(userId: string, cryptocurrency: string) returns (r: Option<Holding>)
      requires Valid()
      ensures r == Find(UserHoldings(userId), cryptocurrency)
      ensures r.Some? ==> r.value in UserHoldings(userId)
      ensures r.Some? ==> r.value.userId == userId && r.value.cryptocurrency == cryptocurrency
      ensures r.None? <==> forall h :: h in UserHoldings(userId) ==> h.cryptocurrency != cryptocurrency
    {
      var userHoldings := if userId in holdings then holdings[userId] else [];
      r := Find(userHoldings, cryptocurrency);
    }

    /** Replaces the user's entry for that symbol in place, or appends one;
        a missing balance or average cost is stored as zero. */
    method UpsertHolding(data: InsertHolding) returns (holding: Holding)
      requires Valid()
      modifies this
      ensures Valid()
      ensures holding == Holding(data.userId, data.cryptocurrency, OrZero(data.balance), OrZero(data.averageCost))
      ensures holdings == old(holdings)[data.userId := Upserted(old(UserHoldings(data.userId)), holding)]
      ensures users == old(users) && transactions == old(transactions) && marketData == old(marketData)
    {
      holding := Holding(data.userId, data.cryptocurrency, OrZero(data.balance), OrZero(data.averageCost));
      var userHoldings := if data.userId in holdings then holdings[data.userId] else [];
      UpsertedUnique(userHoldings, holding);
      var existingIndex := FindIndex(userHoldings, data.cryptocurrency);
      if existingIndex >= 0 {
        userHoldings := userHoldings[existingIndex := holding];
      } else {
        userHoldings := userHoldings + [holding];
      }
      holdings := holdings[data.userId := userHoldings];
    }

    /** Prepends the new transaction to the user's list (`unshift`), so the
        list stays newest first; missing decimals become zero and a missing
        status becomes "completed". */
    method CreateTransaction(data: InsertTransaction) returns (tx: Transaction)
      requires Valid()
      modifies this
      ensures Valid()
      ensures tx == Transaction(data.userId, data.kind, data.cryptocurrency, OrZero(data.amount),
                                OrZero(data.fiatAmount), OrZero(data.price), OrZero(data.fee),
                                OrDefault(data.status, "completed"))
      ensures transactions == old(transactions)[data.userId := [tx] + old(UserTransactions(data.userId))]
      ensures users == old(users) && holdings == old(holdings) && marketData == old(marketData)
    {
      tx := Transaction(data.userId, data.kind, data.cryptocurrency, OrZero(data.amount),
                        OrZero(data.fiatAmount), OrZero(data.price), OrZero(data.fee),
                        OrDefault(data.status, "completed"));
      var userTransactions := if data.userId in transactions then transactions[data.userId] else [];
      userTransactions := [tx] + userTransactions;
      transactions := transactions[data.userId := userTransactions];
    }

    /** `slice(0, limit)` of the user's newest-first list; `limit` defaults
        to 10. A non-negative limit keeps the newest `limit` entries; a
        negative one drops that many entries from the oldest end. */
    method GetUserTransactions(userId: string, limit: Option<int>) returns (r: seq<Transaction>)
      requires Valid()
      ensures var n := if limit.Some? then limit.value else 10;
              var txs := UserTransactions(userId);
              && (n >= 0 ==> r == txs[..Min(n, |txs|)])
              && (n < 0 ==> r == txs[..Max(|txs| + n, 0)])
      ensures forall t :: t in r ==> t.userId == userId
    {
      var n := if limit.Some? then limit.value else 10;
      var userTransactions := if userId in transactions then transactions[userId] else [];
      r := Slice(userTransactions, 0, n);
    }

    method GetMarketData(cryptocurrency: string) returns (r: Option<MarketData>)
      requires Valid()
      ensures r.Some? <==> cryptocurrency in marketData
      ensures r.Some? ==> r.value == marketData[cryptocurrency] && r.value.cryptocurrency == cryptocurrency
    {
      r := if cryptocurrency in marketData then Some(marketData[cryptocurrency]) else None;
    }

    /** Overwrites the whole snapshot of the symbol: volume and market cap
        are reset to zero and the change defaults to zero. */
    method UpsertMarketData(cryptocurrency: string, price: real, priceChange24h: Option<real>)
      returns (data: MarketData)
      requires Valid()
      modifies this
      ensures Valid()
      ensures data == MarketData(cryptocurrency, price, OrZero(priceChange24h), 0.0, 0.0)
      ensures marketData == old(marketData)[cryptocurrency := data]
      ensures users == old(users) && holdings == old(holdings) && transactions == old(transactions)
    {
      data := MarketData(cryptocurrency, price, OrZero(priceChange24h), 0.0, 0.0);
      marketData := marketData[cryptocurrency := data];
    }
  }
}
