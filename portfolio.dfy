/**
 * The in-memory portfolio: shares, cash and a list of option positions,
 * with an optional ledger (`PortfolioDB`) that records what changes.
 */
module Portfolio {
  import opened Wrappers
  import opened PyNum
  import DB = Database

  /** The symbol every ledger record of the portfolio is filed under. */
  const Symbol: string := "TSLA"

  /** One entry of `positions`; `dbId` is present once the ledger has stored it. */
  datatype Position = Position(kind: string, strike: real, premium: real, qty: int, dbId: Option<int>)

  /** What `add_position` does: the stored position, or the "Insufficient cash" error. */
  datatype AddOutcome = Added(position: Position) | InsufficientCash

  /** A share purchase or sale as `update_shares` records it. */
  datatype StockTrade = StockTrade(kind: string, quantity: int, cost: real)

  /** The cash an option order costs or brings in: premium per share, 100 shares a contract. */
  function OrderCost(premium: real, qty: int): real
  {
    premium * qty as real * 100.0
  }

  /** `max(x, 0)` on the intrinsic value. */
  function Positive(x: real): real
  {
    MaxReal(x, 0.0)
  }

  /** What one position adds to `get_value`: intrinsic value plus half the premium paid. */
  function PositionValue(p: Position, price: real): real
  {
    var intrinsic :=
      if p.kind == "call" then Positive(price - p.strike) * p.qty as real * 100.0
      else Positive(p.strike - price) * p.qty as real * 100.0;
    intrinsic + p.premium * p.qty as real * 100.0 * 0.5
  }

  /** The options part of `get_value`: the sum of the positions' values. */
  function OptionsValue(ps: seq<Position>, price: real): real
  {
    if ps == [] then 0.0 else PositionValue(ps[0], price) + OptionsValue(ps[1..], price)
  }

  /** Adding a position adds exactly its own value. */
  lemma {:induction false} OptionsValueAppend(ps: seq<Position>, p: Position, price: real)
    ensures OptionsValue(ps + [p], price) == OptionsValue(ps, price) + PositionValue(p, price)
  {
    if ps == [] {
      assert [] + [p] == [p];
      assert [p][1..] == [];
    } else {
      assert (ps + [p])[1..] == ps[1..] + [p];
      OptionsValueAppend(ps[1..], p, price);
    }
  }

  /** What the positions cost when they were bought: the sum of their order costs. */
  function PremiumPaid(ps: seq<Position>): real
  {
    if ps == [] then 0.0 else OrderCost(ps[0].premium, ps[0].qty) + PremiumPaid(ps[1..])
  }

  /**
   * With every premium and quantity non-negative, the options are worth at
   * least half the premium paid for them, and so never a negative amount.
   */
  lemma {:induction false} OptionsValueLowerBound(ps: seq<Position>, price: real)
    requires forall i :: 0 <= i < |ps| ==> ps[i].premium >= 0.0 && ps[i].qty >= 0
    ensures OptionsValue(ps, price) >= PremiumPaid(ps) * 0.5
    ensures OptionsValue(ps, price) >= 0.0
  {
    if ps != [] {
      var p := ps[0];
      assert Positive(price - p.strike) * p.qty as real >= 0.0;
      assert Positive(p.strike - price) * p.qty as real >= 0.0;
      assert p.premium * p.qty as real >= 0.0;
      assert p.premium * p.qty as real * 100.0 * 0.5 == OrderCost(p.premium, p.qty) * 0.5;
      assert PositionValue(p, price) >= OrderCost(p.premium, p.qty) * 0.5 >= 0.0;
      OptionsValueLowerBound(ps[1..], price);
      assert OptionsValue(ps, price) == PositionValue(p, price) + OptionsValue(ps[1..], price);
      assert PremiumPaid(ps) == OrderCost(p.premium, p.qty) + PremiumPaid(ps[1..]);
    }
  }

  /**
   * The cash check and movement of `add_position`: a buy that costs more
   * than the cash is refused; otherwise a buy pays the cost and anything
   * else receives it.
   */
  function Settle(action: string, cost: real, cash: real): (r: Option<real>)
    ensures r.None? <==> action == "buy" && cost > cash
    ensures r.Some? && action == "buy" ==> r.value == cash - cost && r.value >= 0.0
    ensures r.Some? && action != "buy" ==> r.value == cash + cost
  {
    if action == "buy" && cost > cash then None
    else if action == "buy" then Some(cash - cost)
    else Some(cash + cost)
  }

  /** The transaction `update_shares` records when the share count moves from `before` to `after`. */
  function TradeFor(before: int, after: int, price: real): (t: Option<StockTrade>)
    ensures t.None? <==> before == after
    ensures t.Some? ==> t.value.kind == (if after > before then "buy_stock" else "sell_stock")
    ensures t.Some? ==> t.value.quantity > 0 && t.value.quantity as real * price == t.value.cost
    ensures t.Some? ==> before + t.value.quantity == after || after + t.value.quantity == before
  {
    if after == before then None
    else
      var diff := after - before;
      var qty := if diff >= 0 then diff else -diff;
      Some(StockTrade(if diff > 0 then "buy_stock" else "sell_stock", qty, qty as real * price))
  }

  /** The ledger transaction `update_shares` records for a move from `before` to `after` shares, if any. */
  function SharesTrade(transactions: seq<DB.Transaction>, before: int, after: int, price: real, now: string)
    : seq<DB.Transaction>
  {
    match TradeFor(before, after, price)
    case None => []
    case Some(t) => [DB.Transaction(Some(DB.NextId(transactions, DB.TransactionId)), now, t.kind,
                                    Symbol, t.quantity, price, None, None, None, t.cost, None)]
  }

  /** `Portfolio`: shares, cash and option positions, optionally backed by a ledger. */
  class Portfolio {
    var shares: int
    var cash: real
    var positions: seq<Position>
    const db: DB.PortfolioDB?

    /** `get_value`: stock value plus cash plus the options' value. */
    function Value(price: real): (v: real)
      reads this
      ensures positions == [] ==> v == shares as real * price + cash
    {
      shares as real * price + cash + OptionsValue(positions, price)
    }

    /**
     * `__init__`: the given shares and cash, unless the ledger holds a
     * snapshot (its shares and cash win) and then a TSLA stock position
     * (its quantity wins over both).
     */
    constructor (shares: int, cash: real, ledger: DB.PortfolioDB?)
      ensures db == ledger && positions == []
      ensures this.cash ==
        if ledger != null && ledger.LatestPortfolioSnapshot().Some?
        then ledger.LatestPortfolioSnapshot().value.cash else cash
      ensures this.shares ==
        if ledger != null && ledger.StockPositionOf(Symbol).Some? then ledger.StockPositionOf(Symbol).value.quantity
        else if ledger != null && ledger.LatestPortfolioSnapshot().Some? then ledger.LatestPortfolioSnapshot().value.shares
        else shares
    {
      this.shares := shares;
      this.cash := cash;
      positions := [];
      db := ledger;
      new;
      if ledger != null {
        var latest := ledger.LatestPortfolioSnapshot();
        if latest.Some? {
          this.shares := latest.value.shares;
          this.cash := latest.value.cash;
        }
        var stock := ledger.StockPositionOf(Symbol);
        if stock.Some? {
          this.shares := stock.value.quantity;
        }
      }
    }

    /** `get_value` as the source computes it, accumulating over the positions. */
    method GetValue(price: real) returns (v: real)
      ensures v == Value(price)
    {
      var optionsValue := 0.0;
      var i := 0;
      while i < |positions|
        invariant 0 <= i <= |positions|
        invariant optionsValue == OptionsValue(positions[..i], price)
      {
        assert positions[..i + 1] == positions[..i] + [positions[i]];
        OptionsValueAppend(positions[..i], positions[i], price);
        optionsValue := optionsValue + PositionValue(positions[i], price);
        i := i + 1;
      }
      assert positions[..i] == positions;
      v := shares as real * price + cash + optionsValue;
    }

    /**
     * `add_position`: refuses a buy the cash cannot pay for and changes
     * nothing; otherwise moves the cash, appends one position and, when
     * saving with a ledger and an expiration, records the position and its
     * transaction there.
     */
    method AddPosition(kind: string, strike: real, premium: real, qty: int, expiration: Option<string>,
                       action: string, saveToDb: bool, now: string)
      returns (outcome: AddOutcome)
      modifies this, db
      ensures outcome.InsufficientCash? <==> action == "buy" && OrderCost(premium, qty) > old(cash)
      ensures outcome.InsufficientCash? ==> cash == old(cash) && positions == old(positions)
      ensures outcome.Added? ==> Settle(action, OrderCost(premium, qty), old(cash)) == Some(cash)
      ensures outcome.Added? ==> positions == old(positions) + [outcome.position]
      ensures outcome.Added? ==>
        var p := outcome.position;
        p.kind == kind && p.strike == strike && p.premium == premium && p.qty == qty
      ensures shares == old(shares)
      ensures var recorded := outcome.Added? && saveToDb && db != null && Truthy(expiration);
        && (recorded ==>
              && outcome.position.dbId == Some(DB.NextId(old(db.options), DB.OptionId))
              && db.options == old(db.options) + [DB.OptionPosition(
                   outcome.position.dbId, now, now, kind, action, Symbol, strike, expiration.value, qty, premium,
                   "open", None, None, None)]
              && db.transactions == old(db.transactions) + [DB.Transaction(
                   Some(DB.NextId(old(db.transactions), DB.TransactionId)), now, action + "_" + kind, Symbol, qty,
                   premium, Some(strike), expiration, Some(premium),
                   if action == "buy" then OrderCost(premium, qty) else -OrderCost(premium, qty), None)]
              && db.snapshots == old(db.snapshots) && db.stocks == old(db.stocks))
        && (!recorded ==> outcome.Added? ==> outcome.position.dbId == None)
        && (!recorded && db != null ==> unchanged(db))
    {
      var cost := OrderCost(premium, qty);
      var settled := Settle(action, cost, cash);
      if settled.None? {
        return InsufficientCash;
      }
      cash := settled.value;
      var dbId: Option<int> := None;
      if saveToDb && db != null && Truthy(expiration) {
        var id := db.AddOptionsPosition(kind, action, strike, expiration.value, qty, premium, Symbol, None, now);
        db.AddTransaction(action + "_" + kind, Symbol, qty, premium, if action == "buy" then cost else -cost,
                          Some(strike), expiration, Some(premium), None, now);
        dbId := Some(id);
      }
      var p := Position(kind, strike, premium, qty, dbId);
      positions := positions + [p];
      outcome := Added(p);
    }

    /**
     * `update_shares`: sets the share count; when saving with a ledger, also
     * upserts the TSLA stock position, records a trade if the count moved,
     * and appends a snapshot valued at the new count (0 without a price).
     */
    method UpdateShares(newShares: int, currentPrice: Option<real>, saveToDb: bool, now: string)
      modifies this, db
      ensures shares == newShares && cash == old(cash) && positions == old(positions)
      ensures !(saveToDb && db != null) && db != null ==> unchanged(db)
      ensures saveToDb && db != null ==>
        var price := currentPrice.GetOr(0.0);
        && db.StockPositionOf(Symbol).Some?
        && db.StockPositionOf(Symbol).value.quantity == newShares
        && db.StockPositionOf(Symbol).value.avgCost == price
        && db.stocks == DB.Upserted(old(db.stocks), Symbol, newShares, price, currentPrice, None, now)
        && db.options == old(db.options)
        && db.transactions == old(db.transactions) + SharesTrade(old(db.transactions), old(shares), newShares, price, now)
        && db.snapshots == old(db.snapshots) + [DB.Snapshot(
             Some(DB.NextId(old(db.snapshots), DB.SnapshotId)), now, newShares, cash,
             if currentPrice.Some? && currentPrice.value != 0.0 then Value(currentPrice.value) else 0.0, None)]
    {
      var oldShares := shares;
      shares := newShares;
      if saveToDb && db != null {
        RecordShares(oldShares, currentPrice, now);
      }
    }

    /** The ledger half of `update_shares`, once the count is already `shares`. */
    method RecordShares(oldShares: int, currentPrice: Option<real>, now: string)
      requires db != null
      modifies db
      ensures
        var price := currentPrice.GetOr(0.0);
        && db.StockPositionOf(Symbol).Some?
        && db.StockPositionOf(Symbol).value.quantity == shares
        && db.StockPositionOf(Symbol).value.avgCost == price
        && db.stocks == DB.Upserted(old(db.stocks), Symbol, shares, price, currentPrice, None, now)
        && db.options == old(db.options)
        && db.transactions == old(db.transactions) + SharesTrade(old(db.transactions), oldShares, shares, price, now)
        && db.snapshots == old(db.snapshots) + [DB.Snapshot(
             Some(DB.NextId(old(db.snapshots), DB.SnapshotId)), now, shares, cash,
             if currentPrice.Some? && currentPrice.value != 0.0 then Value(currentPrice.value) else 0.0, None)]
    {
      var price := currentPrice.GetOr(0.0);
      db.UpdateStockPosition(Symbol, shares, price, currentPrice, None, now);
      ghost var stocks, snapshots := db.stocks, db.snapshots;
      ghost var held := db.StockPositionOf(Symbol);
      var trade := TradeFor(oldShares, shares, price);
      if trade.Some? {
        db.AddTransaction(trade.value.kind, Symbol, trade.value.quantity, price, trade.value.cost,
                          None, None, None, None, now);
      }
      assert db.stocks == stocks && db.snapshots == snapshots;
      assert db.transactions == old(db.transactions) + SharesTrade(old(db.transactions), oldShares, shares, price, now);
      var totalValue := 0.0;
      if currentPrice.Some? && currentPrice.value != 0.0 {
        totalValue := GetValue(currentPrice.value);
      }
      assert totalValue == if currentPrice.Some? && currentPrice.value != 0.0 then Value(currentPrice.value) else 0.0;
      ghost var transactions := db.transactions;
      db.SavePortfolioSnapshot(shares, cash, totalValue, None, now);
      assert db.snapshots == snapshots + [DB.Snapshot(Some(DB.NextId(snapshots, DB.SnapshotId)), now, shares, cash,
                                                      totalValue, None)];
      assert db.stocks == stocks && db.transactions == transactions;
      assert db.StockPositionOf(Symbol) == held;
    }

    /** `save_snapshot`: with a ledger, appends a snapshot of the current state valued at `price`. */
    method SaveSnapshot(price: real, now: string)
      modifies db
      ensures db != null ==>
        && db.snapshots == old(db.snapshots) + [DB.Snapshot(
             Some(DB.NextId(old(db.snapshots), DB.SnapshotId)), now, shares, cash, Value(price), None)]
        && db.transactions == old(db.transactions) && db.options == old(db.options) && db.stocks == old(db.stocks)
    {
      if db != null {
        var v := GetValue(price);
        db.SavePortfolioSnapshot(shares, cash, v, None, now);
      }
    }
  }

  /** After a successful `add_position` the portfolio gains the new position's value, less the cash paid. */
  lemma AddedValue(before: seq<Position>, p: Position, shares: int, cashBefore: real, cashAfter: real, price: real)
    requires Settle("buy", OrderCost(p.premium, p.qty), cashBefore) == Some(cashAfter)
    ensures shares as real * price + cashAfter + OptionsValue(before + [p], price)
         == shares as real * price + cashBefore + OptionsValue(before, price)
            + PositionValue(p, price) - OrderCost(p.premium, p.qty)
  {
    OptionsValueAppend(before, p, price);
  }
}
