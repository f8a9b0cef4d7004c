/**
 * The portfolio ledger: a JSON document of four tables (portfolio
 * snapshots, transactions, options positions, stock positions) that
 * `PortfolioDB` reads, changes and writes back. The document is held here
 * as four sequences of typed records; every clock reading is an argument.
 */
module Database {
  import opened Wrappers
  import opened PyNum
  import opened Sequences

  datatype Snapshot = Snapshot(
    id: Option<int>, timestamp: string, shares: int, cash: real, totalValue: real, notes: Option<string>)

  datatype Transaction = Transaction(
    id: Option<int>, timestamp: string, kind: string, symbol: string, quantity: int, price: real,
    strike: Option<real>, expiration: Option<string>, premium: Option<real>, totalCost: real,
    notes: Option<string>)

  datatype OptionPosition = OptionPosition(
    id: Option<int>, createdAt: string, updatedAt: string, kind: string, action: string,
    symbol: string, strike: real, expiration: string, quantity: int, premium: real,
    status: string, closedAt: Option<string>, profitLoss: Option<real>, notes: Option<string>)

  datatype StockPosition = StockPosition(
    id: Option<int>, createdAt: string, updatedAt: string, symbol: string, quantity: int,
    avgCost: real, currentPrice: Option<real>, totalValue: real, notes: Option<string>)

  /** One of the four keys of the document as found on disk. */
  datatype Table<T> = Absent | NotAList | Rows(rows: seq<T>)

  /** The store file: unreadable (missing, not JSON), a JSON value that is not an object, or an object. */
  datatype StoreFile =
    | Unreadable
    | NotAnObject
    | Document(snapshots: Table<Snapshot>, transactions: Table<Transaction>,
               options: Table<OptionPosition>, stocks: Table<StockPosition>)

  /** The normalised document `_read_store` hands to every operation. */
  datatype Store = Store(snapshots: seq<Snapshot>, transactions: seq<Transaction>,
                         options: seq<OptionPosition>, stocks: seq<StockPosition>)

  function RowsOf<T>(t: Table<T>): seq<T>
  {
    if t.Rows? then t.rows else []
  }

  /** `_read_store`: an unusable file reads as four empty tables, an unusable table as an empty one. */
  function ReadStore(f: StoreFile): (s: Store)
    ensures !f.Document? ==> s == Store([], [], [], [])
    ensures f.Document? ==>
      && (s.snapshots == if f.snapshots.Rows? then f.snapshots.rows else [])
      && (s.transactions == if f.transactions.Rows? then f.transactions.rows else [])
      && (s.options == if f.options.Rows? then f.options.rows else [])
      && (s.stocks == if f.stocks.Rows? then f.stocks.rows else [])
  {
    match f
    case Document(ss, ts, os, ps) => Store(RowsOf(ss), RowsOf(ts), RowsOf(os), RowsOf(ps))
    case _ => Store([], [], [], [])
  }

  /** `_write_store`: the four tables written as lists. */
  function WriteStore(s: Store): StoreFile
  {
    Document(Rows(s.snapshots), Rows(s.transactions), Rows(s.options), Rows(s.stocks))
  }

  /** What one operation writes, the next one reads back unchanged. */
  lemma WriteThenRead(s: Store)
    ensures ReadStore(WriteStore(s)) == s
  {
  }

  /** `r.get("id", 0)`. */
  function IdOrZero(id: Option<int>): int
  {
    id.GetOr(0)
  }

  /** `_next_id`: one more than the largest id (a missing id counts as 0), or 1 for an empty table. */
  function NextId<T(!new)>(rows: seq<T>, idOf: T -> Option<int>): (n: int)
    ensures forall i :: 0 <= i < |rows| ==> IdOrZero(idOf(rows[i])) < n
    ensures rows == [] ==> n == 1
    ensures rows != [] ==> exists i :: 0 <= i < |rows| && n == IdOrZero(idOf(rows[i])) + 1
  {
    if rows == [] then 1
    else
      var here := IdOrZero(idOf(rows[0])) + 1;
      if |rows| == 1 then here
      else
        var rest := NextId(rows[1..], idOf);
        assert forall i :: 1 <= i < |rows| ==> rows[i] == rows[1..][i - 1];
        if here >= rest then here else rest
  }

  function SnapshotId(r: Snapshot): Option<int> { r.id }
  function TransactionId(r: Transaction): Option<int> { r.id }
  function OptionId(r: OptionPosition): Option<int> { r.id }
  function StockId(r: StockPosition): Option<int> { r.id }

  /** The statuses for which `update_options_position` stamps `closed_at`. */
  const ClosingStatuses: set<string> := {"closed", "assigned", "expired"}

  /** The changes `update_options_position` makes to the position it found. */
  function StatusUpdated(p: OptionPosition, status: string, profitLoss: Option<real>,
                         notes: Option<string>, now: string): (q: OptionPosition)
    ensures q.status == status && q.updatedAt == now
    ensures q.closedAt == if status in ClosingStatuses then Some(now) else p.closedAt
    ensures q.profitLoss == if profitLoss.Some? then profitLoss else p.profitLoss
    ensures q.notes == if Truthy(notes) then notes else p.notes
    ensures q.id == p.id && q.createdAt == p.createdAt && q.kind == p.kind && q.action == p.action
    ensures q.symbol == p.symbol && q.strike == p.strike && q.expiration == p.expiration
    ensures q.quantity == p.quantity && q.premium == p.premium
  {
    p.(status := status,
       updatedAt := now,
       profitLoss := if profitLoss.Some? then profitLoss else p.profitLoss,
       closedAt := if status in ClosingStatuses then Some(now) else p.closedAt,
       notes := if Truthy(notes) then notes else p.notes)
  }

  /** `quantity * current_price` when a price is given, `quantity * avg_cost` otherwise. */
  function HoldingValue(quantity: int, avgCost: real, currentPrice: Option<real>): real
  {
    if currentPrice.Some? then quantity as real * currentPrice.value else quantity as real * avgCost
  }

  /** The changes `update_stock_position` makes to an existing position. */
  function Repriced(p: StockPosition, quantity: int, avgCost: real, currentPrice: Option<real>,
                    notes: Option<string>, now: string): (q: StockPosition)
    ensures q.id == p.id && q.createdAt == p.createdAt && q.symbol == p.symbol
    ensures q.updatedAt == now && q.quantity == quantity && q.avgCost == avgCost
    ensures q.currentPrice == currentPrice && q.totalValue == HoldingValue(quantity, avgCost, currentPrice)
    ensures q.notes == if Truthy(notes) then notes else p.notes
  {
    p.(updatedAt := now, quantity := quantity, avgCost := avgCost, currentPrice := currentPrice,
       totalValue := HoldingValue(quantity, avgCost, currentPrice),
       notes := if Truthy(notes) then notes else p.notes)
  }

  /**
   * `update_stock_position` on the stock table: the first row of `symbol`
   * is repriced in place, or a new row with the next id is appended when
   * there is none; every other row is kept as it was.
   */
  function Upserted(stocks: seq<StockPosition>, symbol: string, quantity: int, avgCost: real,
                    currentPrice: Option<real>, notes: Option<string>, now: string): (r: seq<StockPosition>)
    ensures |r| == |stocks| + (if FirstIndex(stocks, HoldsSymbol(symbol)).None? then 1 else 0)
    ensures FirstIndex(r, HoldsSymbol(symbol)) == Some(FirstIndex(stocks, HoldsSymbol(symbol)).GetOr(|stocks|))
    ensures forall i :: 0 <= i < |stocks| && FirstIndex(stocks, HoldsSymbol(symbol)) != Some(i) ==> r[i] == stocks[i]
    ensures var k := FirstIndex(stocks, HoldsSymbol(symbol)).GetOr(|stocks|);
      && r[k].updatedAt == now && r[k].quantity == quantity && r[k].avgCost == avgCost
      && r[k].currentPrice == currentPrice && r[k].totalValue == HoldingValue(quantity, avgCost, currentPrice)
      && (k < |stocks| ==> r[k].id == stocks[k].id && r[k].createdAt == stocks[k].createdAt
                           && r[k].notes == (if Truthy(notes) then notes else stocks[k].notes))
      && (k == |stocks| ==> r[k].id == Some(NextId(stocks, StockId)) && r[k].createdAt == now && r[k].notes == notes)
  {
    match FirstIndex(stocks, HoldsSymbol(symbol))
    case Some(k) =>
      var r := stocks[k := Repriced(stocks[k], quantity, avgCost, currentPrice, notes, now)];
      assert HoldsSymbol(symbol)(r[k]);
      assert forall i :: 0 <= i < k ==> !HoldsSymbol(symbol)(r[i]);
      r
    case None =>
      var r := stocks + [StockPosition(Some(NextId(stocks, StockId)), now, now, symbol, quantity, avgCost, currentPrice,
                                       HoldingValue(quantity, avgCost, currentPrice), notes)];
      assert HoldsSymbol(symbol)(r[|stocks|]);
      assert forall i :: 0 <= i < |stocks| ==> !HoldsSymbol(symbol)(r[i]);
      r
  }

  /** Repeating the same `update_stock_position` call changes nothing more. */
  lemma UpsertedIdempotent(stocks: seq<StockPosition>, symbol: string, quantity: int, avgCost: real,
                           currentPrice: Option<real>, notes: Option<string>, now: string)
    ensures var once := Upserted(stocks, symbol, quantity, avgCost, currentPrice, notes, now);
            Upserted(once, symbol, quantity, avgCost, currentPrice, notes, now) == once
  {
    var once := Upserted(stocks, symbol, quantity, avgCost, currentPrice, notes, now);
    var k := FirstIndex(once, HoldsSymbol(symbol)).value;
    assert Repriced(once[k], quantity, avgCost, currentPrice, notes, now) == once[k];
    assert once[k := once[k]] == once;
  }

  /** Upserting `symbol` leaves the position of every other symbol where and as it was. */
  lemma UpsertedKeepsOthers(stocks: seq<StockPosition>, symbol: string, quantity: int, avgCost: real,
                            currentPrice: Option<real>, notes: Option<string>, now: string, other: string)
    requires other != symbol
    ensures var r := Upserted(stocks, symbol, quantity, avgCost, currentPrice, notes, now);
      && FirstIndex(r, HoldsSymbol(other)) == FirstIndex(stocks, HoldsSymbol(other))
      && (FirstIndex(stocks, HoldsSymbol(other)).Some? ==>
            r[FirstIndex(stocks, HoldsSymbol(other)).value] == stocks[FirstIndex(stocks, HoldsSymbol(other)).value])
  {
    var r := Upserted(stocks, symbol, quantity, avgCost, currentPrice, notes, now);
    var mine := FirstIndex(stocks, HoldsSymbol(symbol));
    var k := mine.GetOr(|stocks|);
    assert r[k].symbol == symbol by {
      assert HoldsSymbol(symbol)(r[k]);
    }
    forall i | 0 <= i < |r| ensures HoldsSymbol(other)(r[i]) <==> i < |stocks| && HoldsSymbol(other)(stocks[i]) {
      if i != k {
        assert r[i] == stocks[i];
      } else if i < |stocks| {
        assert HoldsSymbol(symbol)(stocks[i]);
      }
    }
    FirstIndexAgrees(r, stocks, HoldsSymbol(other));
  }

  function HasId(id: int): OptionPosition -> bool
  {
    (p: OptionPosition) => p.id == Some(id)
  }

  function OtherThan(id: int): OptionPosition -> bool
  {
    (p: OptionPosition) => p.id != Some(id)
  }

  function OfSymbol(symbol: string): OptionPosition -> bool
  {
    (p: OptionPosition) => p.symbol == symbol
  }

  function OpenOf(symbol: string): OptionPosition -> bool
  {
    (p: OptionPosition) => p.symbol == symbol && p.status == "open"
  }

  function HoldsSymbol(symbol: string): StockPosition -> bool
  {
    (p: StockPosition) => p.symbol == symbol
  }

  /** The key `(expiration, strike)` of `get_open_options_positions`, compared as a Python tuple. */
  predicate ExpiryStrikeLe(a: OptionPosition, b: OptionPosition)
  {
    (StrLe(a.expiration, b.expiration) && a.expiration != b.expiration)
    || (a.expiration == b.expiration && a.strike <= b.strike)
  }

  /** `sort(key=created_at, reverse=True)`. */
  predicate NewestCreatedFirst(a: OptionPosition, b: OptionPosition)
  {
    StrLe(b.createdAt, a.createdAt)
  }

  /** `sort(key=timestamp, reverse=True)` on transactions. */
  predicate NewestTransactionFirst(a: Transaction, b: Transaction)
  {
    StrLe(b.timestamp, a.timestamp)
  }

  /** `sort(key=timestamp, reverse=True)` on snapshots. */
  predicate NewestSnapshotFirst(a: Snapshot, b: Snapshot)
  {
    StrLe(b.timestamp, a.timestamp)
  }

  lemma ExpiryStrikeOrder()
    ensures TotalPreorder(ExpiryStrikeLe)
  {
    forall a: OptionPosition, b: OptionPosition ensures ExpiryStrikeLe(a, b) || ExpiryStrikeLe(b, a) {
      StrLeTotal(a.expiration, b.expiration);
    }
    forall a: OptionPosition, b: OptionPosition, c: OptionPosition
      | ExpiryStrikeLe(a, b) && ExpiryStrikeLe(b, c)
      ensures ExpiryStrikeLe(a, c)
    {
      if a.expiration != b.expiration && b.expiration != c.expiration {
        StrLeTransitive(a.expiration, b.expiration, c.expiration);
        if a.expiration == c.expiration {
          StrLeAntisymmetric(a.expiration, b.expiration);
        }
      }
    }
  }

  lemma CreatedOrder()
    ensures TotalPreorder(NewestCreatedFirst)
  {
    forall a: OptionPosition, b: OptionPosition ensures NewestCreatedFirst(a, b) || NewestCreatedFirst(b, a) {
      StrLeTotal(a.createdAt, b.createdAt);
    }
    forall a: OptionPosition, b: OptionPosition, c: OptionPosition
      | NewestCreatedFirst(a, b) && NewestCreatedFirst(b, c)
      ensures NewestCreatedFirst(a, c)
    {
      StrLeTransitive(c.createdAt, b.createdAt, a.createdAt);
    }
  }

  lemma TransactionOrder()
    ensures TotalPreorder(NewestTransactionFirst)
  {
    forall a: Transaction, b: Transaction ensures NewestTransactionFirst(a, b) || NewestTransactionFirst(b, a) {
      StrLeTotal(a.timestamp, b.timestamp);
    }
    forall a: Transaction, b: Transaction, c: Transaction
      | NewestTransactionFirst(a, b) && NewestTransactionFirst(b, c)
      ensures NewestTransactionFirst(a, c)
    {
      StrLeTransitive(c.timestamp, b.timestamp, a.timestamp);
    }
  }

  lemma SnapshotOrder()
    ensures TotalPreorder(NewestSnapshotFirst)
  {
    forall a: Snapshot, b: Snapshot ensures NewestSnapshotFirst(a, b) || NewestSnapshotFirst(b, a) {
      StrLeTotal(a.timestamp, b.timestamp);
    }
    forall a: Snapshot, b: Snapshot, c: Snapshot
      | NewestSnapshotFirst(a, b) && NewestSnapshotFirst(b, c)
      ensures NewestSnapshotFirst(a, c)
    {
      StrLeTransitive(c.timestamp, b.timestamp, a.timestamp);
    }
  }

  /** `PortfolioDB`: the ledger, one field per table of the document. */
  class PortfolioDB {
    var snapshots: seq<Snapshot>
    var transactions: seq<Transaction>
    var options: seq<OptionPosition>
    var stocks: seq<StockPosition>

    /** `__init__` and `_init_store`: the tables as the store file reads (a missing file reads as empty). */
    constructor (file: StoreFile)
      ensures Store(snapshots, transactions, options, stocks) == ReadStore(file)
    {
      var s := ReadStore(file);
      snapshots, transactions, options, stocks := s.snapshots, s.transactions, s.options, s.stocks;
    }

    method SavePortfolioSnapshot(shares: int, cash: real, totalValue: real, notes: Option<string>, now: string)
      modifies this
      ensures snapshots == old(snapshots) + [Snapshot(Some(NextId(old(snapshots), SnapshotId)), now, shares, cash, totalValue, notes)]
      ensures transactions == old(transactions) && options == old(options) && stocks == old(stocks)
    {
      var id := NextId(snapshots, SnapshotId);
      snapshots := snapshots + [Snapshot(Some(id), now, shares, cash, totalValue, notes)];
    }

    method AddTransaction(kind: string, symbol: string, quantity: int, price: real, totalCost: real,
                          strike: Option<real>, expiration: Option<string>, premium: Option<real>,
                          notes: Option<string>, now: string)
      modifies this
      ensures transactions == old(transactions) + [Transaction(Some(NextId(old(transactions), TransactionId)), now,
                                                               kind, symbol, quantity, price, strike, expiration,
                                                               premium, totalCost, notes)]
      ensures snapshots == old(snapshots) && options == old(options) && stocks == old(stocks)
    {
      var id := NextId(transactions, TransactionId);
      transactions := transactions + [Transaction(Some(id), now, kind, symbol, quantity, price, strike,
                                                  expiration, premium, totalCost, notes)];
    }

    /** A new position is open, not closed and without profit or loss; its id is above every other. */
    method AddOptionsPosition(kind: string, action: string, strike: real, expiration: string, quantity: int,
                              premium: real, symbol: string, notes: Option<string>, now: string)
      returns (id: int)
      modifies this
      ensures id == NextId(old(options), OptionId)
      ensures forall i :: 0 <= i < |old(options)| ==> IdOrZero(old(options)[i].id) < id
      ensures options == old(options) + [OptionPosition(Some(id), now, now, kind, action, symbol, strike, expiration,
                                                        quantity, premium, "open", None, None, notes)]
      ensures snapshots == old(snapshots) && transactions == old(transactions) && stocks == old(stocks)
    {
      id := NextId(options, OptionId);
      options := options + [OptionPosition(Some(id), now, now, kind, action, symbol, strike, expiration,
                                           quantity, premium, "open", None, None, notes)];
    }

    /** Changes the first position with the id, and nothing else; without a match nothing changes. */
    method UpdateOptionsPosition(positionId: int, status: string, profitLoss: Option<real>,
                                 notes: Option<string>, now: string)
      modifies this
      ensures match FirstIndex(old(options), HasId(positionId))
        case None => options == old(options)
        case Some(k) => options == old(options)[k := StatusUpdated(old(options)[k], status, profitLoss, notes, now)]
      ensures snapshots == old(snapshots) && transactions == old(transactions) && stocks == old(stocks)
    {
      var i := 0;
      while i < |options|
        invariant 0 <= i <= |options| && options == old(options)
        invariant forall j :: 0 <= j < i ==> !HasId(positionId)(options[j])
      {
        if options[i].id == Some(positionId) {
          options := options[i := StatusUpdated(options[i], status, profitLoss, notes, now)];
          return;
        }
        i := i + 1;
      }
    }

    /** Removes every position with the id and keeps the rest in order; reports whether any was removed. */
    method DeleteOptionsPosition(positionId: int) returns (deleted: bool)
      modifies this
      ensures deleted <==> exists i :: 0 <= i < |old(options)| && old(options)[i].id == Some(positionId)
      ensures options == if deleted then Filter(old(options), OtherThan(positionId)) else old(options)
      ensures forall p :: p in options ==> p.id != Some(positionId)
      ensures snapshots == old(snapshots) && transactions == old(transactions) && stocks == old(stocks)
    {
      var kept := Filter(options, OtherThan(positionId));
      FilterKeepsAll(options, OtherThan(positionId));
      if |kept| < |options| {
        options := kept;
        deleted := true;
      } else {
        deleted := false;
      }
    }

    /** `get_open_options_positions`: exactly the open positions of `symbol`, by (expiration, strike). */
    function OpenOptionsPositions(symbol: string := "TSLA"): (r: seq<OptionPosition>)
      reads this
      ensures forall p :: p in r <==> p in options && p.symbol == symbol && p.status == "open"
      ensures multiset(r) == multiset(Filter(options, OpenOf(symbol)))
      ensures SortedBy(r, ExpiryStrikeLe)
    {
      ExpiryStrikeOrder();
      var f := Filter(options, OpenOf(symbol));
      var r := SortBy(f, ExpiryStrikeLe);
      forall p ensures p in r <==> p in f {
        assert p in r <==> p in multiset(r);
        assert p in f <==> p in multiset(f);
      }
      r
    }

    /**
     * `get_all_options_positions`: the `limit` newest positions of `symbol`
     * (all of them when there are fewer), newest first; no position of
     * `symbol` that is left out was created after one that is returned.
     */
    function AllOptionsPositions(symbol: string := "TSLA", limit: int := 100): (r: seq<OptionPosition>)
      reads this
      ensures 0 <= limit ==> |r| == Min(limit, |Filter(options, OfSymbol(symbol))|)
      ensures multiset(r) <= multiset(Filter(options, OfSymbol(symbol)))
      ensures forall p :: p in r ==> p in options && p.symbol == symbol
      ensures SortedBy(r, NewestCreatedFirst)
      ensures forall p, q :: p in multiset(Filter(options, OfSymbol(symbol))) - multiset(r) && q in r ==>
                StrLe(p.createdAt, q.createdAt)
      ensures limit >= |Filter(options, OfSymbol(symbol))| ==> multiset(r) == multiset(Filter(options, OfSymbol(symbol)))
    {
      CreatedOrder();
      SortedTake(Filter(options, OfSymbol(symbol)), NewestCreatedFirst, limit)
    }

    /**
     * `get_recent_transactions`: the `limit` newest transactions (all of
     * them when there are fewer), newest first; none left out is newer
     * than one returned.
     */
    function RecentTransactions(limit: int := 50): (r: seq<Transaction>)
      reads this
      ensures 0 <= limit ==> |r| == Min(limit, |transactions|)
      ensures multiset(r) <= multiset(transactions)
      ensures forall t :: t in r ==> t in transactions
      ensures SortedBy(r, NewestTransactionFirst)
      ensures forall t, u :: t in multiset(transactions) - multiset(r) && u in r ==> StrLe(t.timestamp, u.timestamp)
      ensures limit >= |transactions| ==> multiset(r) == multiset(transactions)
    {
      TransactionOrder();
      SortedTake(transactions, NewestTransactionFirst, limit)
    }

    /**
     * `get_portfolio_history`: the `limit` newest snapshots (all of them
     * when there are fewer), newest first; none left out is newer than one
     * returned.
     */
    function PortfolioHistory(limit: int := 100): (r: seq<Snapshot>)
      reads this
      ensures 0 <= limit ==> |r| == Min(limit, |snapshots|)
      ensures multiset(r) <= multiset(snapshots)
      ensures forall s :: s in r ==> s in snapshots
      ensures SortedBy(r, NewestSnapshotFirst)
      ensures forall s, t :: s in multiset(snapshots) - multiset(r) && t in r ==> StrLe(s.timestamp, t.timestamp)
      ensures limit >= |snapshots| ==> multiset(r) == multiset(snapshots)
    {
      SnapshotOrder();
      SortedTake(snapshots, NewestSnapshotFirst, limit)
    }

    /** A smaller `limit` returns a prefix of what a larger one returns. */
    lemma AllOptionsPositionsExtend(symbol: string, k: int, k': int)
      requires 0 <= k <= k'
      ensures AllOptionsPositions(symbol, k) <= AllOptionsPositions(symbol, k')
    {
      CreatedOrder();
      SortedTakeExtends(Filter(options, OfSymbol(symbol)), NewestCreatedFirst, k, k');
    }

    /** A position of `symbol` created strictly after every other one of `symbol` is always returned. */
    lemma NewestOptionsPositionListed(symbol: string, limit: int, p: OptionPosition)
      requires 1 <= limit && p in options && p.symbol == symbol
      requires forall q :: q in options && q.symbol == symbol && StrLe(p.createdAt, q.createdAt) ==> q == p
      ensures p in AllOptionsPositions(symbol, limit)
    {
      CreatedOrder();
      var mine := Filter(options, OfSymbol(symbol));
      assert p in mine;
      SortedTakeKeepsFirst(mine, NewestCreatedFirst, limit, p);
    }

    /** A smaller `limit` returns a prefix of what a larger one returns. */
    lemma RecentTransactionsExtend(k: int, k': int)
      requires 0 <= k <= k'
      ensures RecentTransactions(k) <= RecentTransactions(k')
    {
      TransactionOrder();
      SortedTakeExtends(transactions, NewestTransactionFirst, k, k');
    }

    /** A transaction strictly newer than every other one is always returned. */
    lemma NewestTransactionListed(limit: int, t: Transaction)
      requires 1 <= limit && t in transactions
      requires forall u :: u in transactions && StrLe(t.timestamp, u.timestamp) ==> u == t
      ensures t in RecentTransactions(limit)
    {
      TransactionOrder();
      SortedTakeKeepsFirst(transactions, NewestTransactionFirst, limit, t);
    }

    /** A smaller `limit` returns a prefix of what a larger one returns. */
    lemma PortfolioHistoryExtend(k: int, k': int)
      requires 0 <= k <= k'
      ensures PortfolioHistory(k) <= PortfolioHistory(k')
    {
      SnapshotOrder();
      SortedTakeExtends(snapshots, NewestSnapshotFirst, k, k');
    }

    /** A snapshot strictly newer than every other one is always returned. */
    lemma NewestSnapshotListed(limit: int, s: Snapshot)
      requires 1 <= limit && s in snapshots
      requires forall t :: t in snapshots && StrLe(s.timestamp, t.timestamp) ==> t == s
      ensures s in PortfolioHistory(limit)
    {
      SnapshotOrder();
      SortedTakeKeepsFirst(snapshots, NewestSnapshotFirst, limit, s);
    }

    /** `get_latest_portfolio_snapshot`: none for an empty table, else a snapshot with the latest timestamp. */
    function LatestPortfolioSnapshot(): (r: Option<Snapshot>)
      reads this
      ensures r.None? <==> snapshots == []
      ensures r.Some? ==> r.value in snapshots && forall s :: s in snapshots ==> StrLe(s.timestamp, r.value.timestamp)
    {
      if snapshots == [] then None
      else
        SnapshotOrder();
        var all := SortBy(snapshots, NewestSnapshotFirst);
        assert all[0] in multiset(snapshots);
        assert forall s :: s in snapshots ==> StrLe(s.timestamp, all[0].timestamp) by {
          forall s | s in snapshots ensures StrLe(s.timestamp, all[0].timestamp) {
            assert s in multiset(all);
            var j :| 0 <= j < |all| && all[j] == s;
            if j == 0 {
              StrLeTotal(s.timestamp, s.timestamp);
            } else {
              assert NewestSnapshotFirst(all[0], all[j]);
            }
          }
        }
        Some(all[0])
    }

    /** `get_stock_position`: the first position held in `symbol`, if any. */
    function StockPositionOf(symbol: string := "TSLA"): (r: Option<StockPosition>)
      reads this
      ensures r.None? <==> forall p :: p in stocks ==> p.symbol != symbol
      ensures r.Some? ==>
        r.value.symbol == symbol &&
        exists k :: 0 <= k < |stocks| && stocks[k] == r.value && forall i :: 0 <= i < k ==> stocks[i].symbol != symbol
    {
      match FirstIndex(stocks, HoldsSymbol(symbol))
      case None => None
      case Some(k) => Some(stocks[k])
    }

    /**
     * `update_stock_position`: an upsert. A held symbol's first position is
     * changed in place and the table keeps its length; otherwise one position
     * with a fresh id is appended. Either way the symbol then reads back with
     * the new quantity and value.
     */
    method UpdateStockPosition(symbol: string, quantity: int, avgCost: real, currentPrice: Option<real>,
                               notes: Option<string>, now: string)
      modifies this
      ensures stocks == Upserted(old(stocks), symbol, quantity, avgCost, currentPrice, notes, now)
      ensures match FirstIndex(old(stocks), HoldsSymbol(symbol))
        case Some(k) => stocks == old(stocks)[k := Repriced(old(stocks)[k], quantity, avgCost, currentPrice, notes, now)]
        case None => stocks == old(stocks) + [StockPosition(Some(NextId(old(stocks), StockId)), now, now, symbol, quantity,
                                                            avgCost, currentPrice,
                                                            HoldingValue(quantity, avgCost, currentPrice), notes)]
      ensures StockPositionOf(symbol).Some? && StockPositionOf(symbol).value.quantity == quantity
      ensures StockPositionOf(symbol).value.avgCost == avgCost
      ensures StockPositionOf(symbol).value.currentPrice == currentPrice
      ensures StockPositionOf(symbol).value.totalValue == HoldingValue(quantity, avgCost, currentPrice)
      ensures snapshots == old(snapshots) && transactions == old(transactions) && options == old(options)
    {
      match FirstIndex(stocks, HoldsSymbol(symbol))
      case Some(k) =>
        stocks := stocks[k := Repriced(stocks[k], quantity, avgCost, currentPrice, notes, now)];
        assert HoldsSymbol(symbol)(stocks[k]);
        assert forall i :: 0 <= i < k ==> !HoldsSymbol(symbol)(stocks[i]);
      case None =>
        var id := NextId(stocks, StockId);
        stocks := stocks + [StockPosition(Some(id), now, now, symbol, quantity, avgCost, currentPrice,
                                          HoldingValue(quantity, avgCost, currentPrice), notes)];
        assert HoldsSymbol(symbol)(stocks[|stocks| - 1]);
        assert forall i :: 0 <= i < |stocks| - 1 ==> !HoldsSymbol(symbol)(stocks[i]);
    }
  }
}
