/**
 * The recommendation rules: covered calls on held shares, the wheel
 * (cash-secured puts, then a covered call after assignment), and
 * directional option buys gated by RSI and the 50-day moving average.
 *
 * The options data is the list of expirations in the order the source
 * iterates its dictionary; each carries its chain and the whole days left
 * until it (None where the date does not parse). RSI and MA are the last
 * values of their series, None standing for NaN.
 */
module StrategyEngine {
  import opened Wrappers
  import opened PyNum
  import opened Sequences
  import opened Utils
  import P = Portfolio
  import Config

  datatype Expiry = Expiry(date: string, chain: OptionChain, daysLeft: Option<int>)

  /**
   * The configuration values the rules read. `epsYearKnown` says whether
   * `EPS_PROJECTIONS` has the integer key 2025 that `project_yield` looks up.
   */
  datatype StrategyConfig = StrategyConfig(
    bullishThreshold: real, dipThreshold: real, riskTolerance: real,
    enableCoveredCalls: bool, enableWheel: bool, wheelPutOtmPcts: seq<real>, wheelMinCashRatio: real,
    epsYearKnown: bool)

  /** One recommendation, with the numbers the source puts in it (before display rounding). */
  datatype Recommendation =
    | CoveredCall(expiration: string, strike: int, premium: real, qty: int, totalPremium: real,
                  annualizedYield: real, otmPct: real)
    | CashSecuredPut(expiration: string, strike: int, premium: real, qty: int, totalPremium: real,
                     requiredCash: real, breakEven: real, annualizedYield: real, otmPct: real)
    | AssignedCoveredCall(expiration: string, strike: int, premium: real, qty: int, totalPremium: real,
                          annualizedYield: real, totalWheelIncome: real, totalWheelYield: real, putStrike: int)
    | BuyCall(expiration: string, strike: int, premium: real, qty: int, projProfit: real)
    | BuyPut(expiration: string, strike: int, premium: real, qty: int, projProfit: real)

  /**
   * A rule set's output, the `ZeroDivisionError` the wheel raises on a zero
   * collateral requirement, or the `KeyError` that `project_yield` raises for
   * the first call buy when `EPS_PROJECTIONS` has no integer key 2025.
   */
  datatype Generated = Produced(recs: seq<Recommendation>) | DivisionByZero | MissingEpsYear

  /** `_calculate_annualized_yield`. */
  function AnnualizedYield(premium: real, price: NonZero, days: Option<int>): real
  {
    match days
    case None => premium / price * 12.0 * 100.0
    case Some(d) => if d > 0 then premium / price * (365.0 / d as real) * 100.0 else 0.0
  }

  /**
   * The annualized yield is the premium as a fraction of the price, scaled
   * to a year of `days`-long periods, in percent; 0 once expired; a date
   * that does not parse is taken as a monthly period.
   */
  lemma AnnualizedYieldMeaning(premium: real, price: NonZero, days: Option<int>)
    ensures var y := AnnualizedYield(premium, price, days);
      && (days.Some? && days.value <= 0 ==> y == 0.0)
      && (days.Some? && days.value > 0 ==> y * days.value as real == premium / price * 365.0 * 100.0)
      && (days.None? ==> y == premium / price * 1200.0)
      && (premium / price > 0.0 && (days.None? || days.value > 0) ==> y > 0.0)
  {
    if days.Some? && days.value > 0 {
      var d := days.value as real;
      assert 365.0 / d * d == 365.0;
    }
  }

  // ---------------------------------------------------------------- covered calls

  /** The three strikes of `generate_covered_call_recommendations`, as fractions above the price. */
  const CoveredCallOtmPcts: seq<real> := [0.05, 0.075, 0.10]

  /** Contracts sold against the shares: one per 100 shares, at most 10. */
  function CoveredCallQty(shares: int): int
  {
    Min(shares / 100, 10)
  }

  /** The call at `otmPct` above the price for one expiration: only when its premium is positive. */
  function CoveredCallAt(e: Expiry, otmPct: real, shares: int, price: NonZero): (r: seq<Recommendation>)
    ensures |r| <= 1
    ensures forall x :: x in r ==> x.CoveredCall? && x.expiration == e.date && x.otmPct == otmPct
  {
    var strike := RoundHalfEven(price * (1.0 + otmPct));
    var premium := EstimatePremium(e.chain, strike as real, true);
    if premium > 0.0 then
      var qty := CoveredCallQty(shares);
      [CoveredCall(e.date, strike, premium, qty, qty as real * 100.0 * premium,
                   AnnualizedYield(premium, price, e.daysLeft), otmPct)]
    else []
  }

  function CoveredCallAtPct(e: Expiry, shares: int, price: NonZero): real -> seq<Recommendation>
  {
    otmPct => CoveredCallAt(e, otmPct, shares, price)
  }

  /** The calls for one expiration: at most one per percentage, so at most three, all for that date. */
  function CoveredCallsIn(e: Expiry, shares: int, price: NonZero): (r: seq<Recommendation>)
    ensures |r| <= 3
    ensures forall x :: x in r ==> x.CoveredCall? && x.expiration == e.date && x.otmPct in CoveredCallOtmPcts
  {
    FlatMapLength(CoveredCallOtmPcts, CoveredCallAtPct(e, shares, price), 1);
    FlatMapMembers(CoveredCallOtmPcts, CoveredCallAtPct(e, shares, price));
    FlatMap(CoveredCallOtmPcts, CoveredCallAtPct(e, shares, price))
  }

  function CoveredCallsFor(shares: int, price: NonZero): Expiry -> seq<Recommendation>
  {
    e => CoveredCallsIn(e, shares, price)
  }

  /** `generate_covered_call_recommendations`: nothing below 100 shares, otherwise expiration by expiration. */
  function CoveredCalls(expiries: seq<Expiry>, shares: int, price: NonZero): (r: seq<Recommendation>)
    ensures shares < 100 ==> r == []
    ensures |r| <= 3 * |expiries|
  {
    if shares >= 100 then
      FlatMapLength(expiries, CoveredCallsFor(shares, price), 3);
      FlatMap(expiries, CoveredCallsFor(shares, price))
    else []
  }

  /** The shape every covered-call recommendation has. */
  predicate CoveredCallShaped(r: Recommendation, shares: int)
  {
    && r.CoveredCall?
    && r.premium > 0.0
    && r.qty == CoveredCallQty(shares)
    && 1 <= r.qty <= 10 && r.qty * 100 <= shares
    && r.totalPremium == r.qty as real * 100.0 * r.premium
    && r.otmPct in CoveredCallOtmPcts
  }

  function AllCoveredCallsShaped(shares: int): seq<Recommendation> -> bool
  {
    rs => forall r :: r in rs ==> CoveredCallShaped(r, shares)
  }

  /**
   * Every covered call sells `min(shares // 100, 10)` contracts, which the
   * shares cover, at a positive premium, with the total premium of those
   * contracts.
   */
  lemma CoveredCallsShape(expiries: seq<Expiry>, shares: int, price: NonZero)
    ensures forall r :: r in CoveredCalls(expiries, shares, price) ==> CoveredCallShaped(r, shares)
  {
    if shares >= 100 {
      var ok := AllCoveredCallsShaped(shares);
      forall e | e in expiries ensures ok(CoveredCallsIn(e, shares, price)) {
        FlatMapPreserves(CoveredCallOtmPcts, CoveredCallAtPct(e, shares, price), ok);
      }
      FlatMapPreserves(expiries, CoveredCallsFor(shares, price), ok);
    }
  }

  /** The inner loop of `generate_covered_call_recommendations`: the strikes of one expiration. */
  method CoveredCallsAtExpiry(e: Expiry, pcts: seq<real>, shares: int, price: NonZero) returns (chunk: seq<Recommendation>)
    ensures chunk == FlatMap(pcts, CoveredCallAtPct(e, shares, price))
  {
    chunk := [];
    var j := 0;
    while j < |pcts|
      invariant 0 <= j <= |pcts|
      invariant chunk == FlatMap(pcts[..j], CoveredCallAtPct(e, shares, price))
    {
      var otmPct := pcts[j];
      chunk := chunk + CoveredCallAt(e, otmPct, shares, price);
      FlatMapPrefixStep(pcts, j, CoveredCallAtPct(e, shares, price));
      j := j + 1;
    }
    assert pcts[..j] == pcts;
  }

  /** `generate_covered_call_recommendations` as the source computes it, expiration by expiration. */
  method CoveredCallRecommendations(expiries: seq<Expiry>, portfolio: P.Portfolio, price: NonZero)
    returns (recs: seq<Recommendation>)
    ensures recs == CoveredCalls(expiries, portfolio.shares, price)
  {
    recs := [];
    var shares := portfolio.shares;
    if shares >= 100 {
      var i := 0;
      while i < |expiries|
        invariant 0 <= i <= |expiries|
        invariant recs == FlatMap(expiries[..i], CoveredCallsFor(shares, price))
      {
        var e := expiries[i];
        var chunk := CoveredCallsAtExpiry(e, CoveredCallOtmPcts, shares, price);
        recs := recs + chunk;
        FlatMapPrefixStep(expiries, i, CoveredCallsFor(shares, price));
        i := i + 1;
      }
      assert expiries[..i] == expiries;
    }
  }

  // ---------------------------------------------------------------- wheel

  /** The put strike at `otmPct` below the price. */
  function PutStrike(price: NonZero, otmPct: real): int
  {
    RoundHalfEven(price * (1.0 - otmPct))
  }

  /** The collateral `put_strike * 100 * WHEEL_MIN_CASH_RATIO` one contract asks for. */
  function CollateralPerContract(strike: int, ratio: real): real
  {
    strike as real * 100.0 * ratio
  }

  /** The candidate at `otmPct` divides the cash by a zero collateral: the source raises there. */
  predicate WheelRaises(e: Expiry, otmPct: real, price: NonZero, ratio: real)
  {
    var strike := PutStrike(price, otmPct);
    EstimatePremium(e.chain, strike as real, false) > 0.0 && CollateralPerContract(strike, ratio) == 0.0
  }

  /**
   * Phase 1 for one expiration and percentage: a cash-secured put when its
   * premium is positive and the cash covers at least one contract (capped
   * at 10).
   */
  function WheelPut(e: Expiry, otmPct: real, cash: real, price: NonZero, ratio: real): Option<Recommendation>
  {
    var strike := PutStrike(price, otmPct);
    var premium := EstimatePremium(e.chain, strike as real, false);
    var perContract := CollateralPerContract(strike, ratio);
    if premium <= 0.0 || perContract == 0.0 then None  // a zero collateral is reported by Wheel
    else
      var maxContracts := Trunc(cash / perContract);
      if maxContracts <= 0 then None
      else
        Some(PutRecord(e, strike, premium, Min(maxContracts, 10), price, otmPct))
  }

  /** The put record for `qty` contracts: its premium income, assignment cash and break-even. */
  function PutRecord(e: Expiry, strike: int, premium: real, qty: int, price: NonZero, otmPct: real): Recommendation
  {
    CashSecuredPut(e.date, strike, premium, qty, qty as real * 100.0 * premium,
                   strike as real * 100.0 * qty as real, strike as real - premium,
                   AnnualizedYield(premium, price, e.daysLeft), otmPct)
  }

  /**
   * Phase 2 after a put: the covered call at `round(1.05 · put strike)` on
   * the same contracts, when the shares after assignment reach 100 and that
   * call has a positive premium.
   */
  function AfterAssignment(e: Expiry, put: Recommendation, shares: int): seq<Recommendation>
    requires put.CashSecuredPut? && put.strike != 0
  {
    if shares + put.qty * 100 < 100 then []
    else
      var ccStrike := RoundHalfEven(put.strike as real * 1.05);
      var ccPremium := EstimatePremium(e.chain, ccStrike as real, true);
      if ccPremium <= 0.0 then [] else [CallRecord(e, put, ccStrike, ccPremium)]
  }

  /**
   * The after-assignment call record: the put's contracts at the call's
   * premium, and the income of both legs over the assignment cash.
   */
  function CallRecord(e: Expiry, put: Recommendation, ccStrike: int, ccPremium: real): Recommendation
    requires put.CashSecuredPut? && put.strike != 0
  {
    var ccTotal := put.qty as real * 100.0 * ccPremium;
    var income := put.totalPremium + ccTotal;
    var assignmentCost := put.requiredCash;
    AssignedCoveredCall(e.date, ccStrike, ccPremium, put.qty, ccTotal,
                        AnnualizedYield(ccPremium, put.strike as real, e.daysLeft), income,
                        if assignmentCost > 0.0 then income / assignmentCost * 100.0 else 0.0, put.strike)
  }

  /** The wheel records for one expiration and percentage: the put, then its after-assignment call. */
  function WheelAt(e: Expiry, otmPct: real, shares: int, cash: real, price: NonZero, ratio: real)
    : seq<Recommendation>
  {
    match WheelPut(e, otmPct, cash, price, ratio)
    case None => []
    case Some(put) => [put] + AfterAssignment(e, put, shares)
  }

  function WheelAtPct(e: Expiry, shares: int, cash: real, price: NonZero, ratio: real): real -> seq<Recommendation>
  {
    otmPct => WheelAt(e, otmPct, shares, cash, price, ratio)
  }

  function WheelIn(e: Expiry, pcts: seq<real>, shares: int, cash: real, price: NonZero, ratio: real)
    : seq<Recommendation>
  {
    FlatMap(pcts, WheelAtPct(e, shares, cash, price, ratio))
  }

  function WheelFor(pcts: seq<real>, shares: int, cash: real, price: NonZero, ratio: real)
    : Expiry -> seq<Recommendation>
  {
    e => WheelIn(e, pcts, shares, cash, price, ratio)
  }

  /** Some percentage of the expiration divides by a zero collateral. */
  predicate RaisesAt(e: Expiry, pcts: seq<real>, price: NonZero, ratio: real)
  {
    pcts != [] && (RaisesAt(e, pcts[..|pcts| - 1], price, ratio) || WheelRaises(e, pcts[|pcts| - 1], price, ratio))
  }

  /** Some expiration raises. */
  predicate AnyRaises(expiries: seq<Expiry>, pcts: seq<real>, price: NonZero, ratio: real)
  {
    expiries != [] &&
    (AnyRaises(expiries[..|expiries| - 1], pcts, price, ratio) || RaisesAt(expiries[|expiries| - 1], pcts, price, ratio))
  }

  /** `generate_wheel_strategy_recommendations`: a division by zero anywhere aborts the whole list. */
  function Wheel(expiries: seq<Expiry>, pcts: seq<real>, shares: int, cash: real, price: NonZero, ratio: real)
    : Generated
  {
    if AnyRaises(expiries, pcts, price, ratio) then DivisionByZero
    else Produced(FlatMap(expiries, WheelFor(pcts, shares, cash, price, ratio)))
  }

  lemma {:induction false} RaisesAtIff(e: Expiry, pcts: seq<real>, price: NonZero, ratio: real)
    ensures RaisesAt(e, pcts, price, ratio) <==> exists j :: 0 <= j < |pcts| && WheelRaises(e, pcts[j], price, ratio)
  {
    if pcts != [] {
      var init := pcts[..|pcts| - 1];
      RaisesAtIff(e, init, price, ratio);
      assert forall j :: 0 <= j < |init| ==> init[j] == pcts[j];
      if RaisesAt(e, init, price, ratio) {
        var j :| 0 <= j < |init| && WheelRaises(e, init[j], price, ratio);
        assert WheelRaises(e, pcts[j], price, ratio);
      }
    }
  }

  lemma {:induction false} AnyRaisesIff(expiries: seq<Expiry>, pcts: seq<real>, price: NonZero, ratio: real)
    ensures AnyRaises(expiries, pcts, price, ratio) <==>
      exists i :: 0 <= i < |expiries| && RaisesAt(expiries[i], pcts, price, ratio)
  {
    if expiries != [] {
      var init := expiries[..|expiries| - 1];
      AnyRaisesIff(init, pcts, price, ratio);
      assert forall i :: 0 <= i < |init| ==> init[i] == expiries[i];
      if AnyRaises(init, pcts, price, ratio) {
        var i :| 0 <= i < |init| && RaisesAt(init[i], pcts, price, ratio);
        assert RaisesAt(expiries[i], pcts, price, ratio);
      }
    }
  }

  /** The wheel fails exactly when some (expiration, percentage) pair meets a zero collateral. */
  lemma WheelFailsIff(expiries: seq<Expiry>, pcts: seq<real>, shares: int, cash: real, price: NonZero, ratio: real)
    ensures Wheel(expiries, pcts, shares, cash, price, ratio).DivisionByZero? <==>
      exists i, j :: 0 <= i < |expiries| && 0 <= j < |pcts| && WheelRaises(expiries[i], pcts[j], price, ratio)
  {
    AnyRaisesIff(expiries, pcts, price, ratio);
    forall i | 0 <= i < |expiries| {
      RaisesAtIff(expiries[i], pcts, price, ratio);
    }
  }

  /**
   * A nonzero cash ratio and put strikes that do not round to zero (every
   * `price * (1 - pct)` at least 1/2 away from 0 on its side) never raise.
   */
  lemma WheelNeverRaises(expiries: seq<Expiry>, pcts: seq<real>, shares: int, cash: real, price: NonZero, ratio: real)
    requires ratio != 0.0
    requires forall j :: 0 <= j < |pcts| ==> price * (1.0 - pcts[j]) > 0.5
    ensures Wheel(expiries, pcts, shares, cash, price, ratio).Produced?
  {
    forall i, j | 0 <= i < |expiries| && 0 <= j < |pcts| ensures !WheelRaises(expiries[i], pcts[j], price, ratio) {
      var strike := PutStrike(price, pcts[j]);
      RoundHalfEvenNearest(price * (1.0 - pcts[j]));
      assert strike > 0;
      assert CollateralPerContract(strike, ratio) != 0.0 by {
        assert strike as real * 100.0 > 0.0;
      }
    }
    WheelFailsIff(expiries, pcts, shares, cash, price, ratio);
  }

  /** The shape of a cash-secured put: positive premium, 1 to 10 contracts the cash can collateralise. */
  predicate PutShaped(r: Recommendation, cash: real, ratio: real)
  {
    && r.CashSecuredPut?
    && r.premium > 0.0
    && 1 <= r.qty <= 10
    && CollateralPerContract(r.strike, ratio) != 0.0
    && r.qty <= Trunc(cash / CollateralPerContract(r.strike, ratio))
    && r.breakEven == r.strike as real - r.premium
    && r.requiredCash == r.strike as real * 100.0 * r.qty as real
    && r.totalPremium == r.qty as real * 100.0 * r.premium
  }

  /** `call`, when it is an after-assignment call, belongs to `put`: same contracts, date and put strike. */
  predicate CallFollowsPut(put: Recommendation, call: Recommendation)
  {
    call.AssignedCoveredCall? ==>
      && put.CashSecuredPut?
      && call.qty == put.qty && call.expiration == put.expiration
      && call.putStrike == put.strike
      && call.strike == RoundHalfEven(put.strike as real * 1.05)
      && call.premium > 0.0
  }

  /**
   * Every record is a put or an after-assignment call, every put is well
   * shaped, and every call directly follows the put it belongs to.
   */
  predicate WheelShaped(rs: seq<Recommendation>, cash: real, ratio: real)
  {
    && (forall i :: 0 <= i < |rs| ==> rs[i].CashSecuredPut? || rs[i].AssignedCoveredCall?)
    && (forall i :: 0 <= i < |rs| && rs[i].CashSecuredPut? ==> PutShaped(rs[i], cash, ratio))
    && (|rs| > 0 ==> rs[0].CashSecuredPut?)
    && (forall i, j :: 0 <= i < |rs| && 0 <= j < |rs| && j == i + 1 ==> CallFollowsPut(rs[i], rs[j]))
  }

  function WheelShapedFor(cash: real, ratio: real): seq<Recommendation> -> bool
  {
    rs => WheelShaped(rs, cash, ratio)
  }

  lemma WheelShapedConcat(a: seq<Recommendation>, b: seq<Recommendation>, cash: real, ratio: real)
    requires WheelShaped(a, cash, ratio) && WheelShaped(b, cash, ratio)
    ensures WheelShaped(a + b, cash, ratio)
  {
    var ab := a + b;
    forall i | 0 <= i < |ab| ensures ab[i].CashSecuredPut? || ab[i].AssignedCoveredCall? {
      if i < |a| { assert ab[i] == a[i]; } else { assert ab[i] == b[i - |a|]; }
    }
    forall i | 0 <= i < |ab| && ab[i].CashSecuredPut? ensures PutShaped(ab[i], cash, ratio) {
      if i < |a| { assert ab[i] == a[i]; } else { assert ab[i] == b[i - |a|]; }
    }
    if |a| == 0 {
      assert ab == b;
    } else {
      assert ab[0] == a[0];
    }
    forall i, j | 0 <= i < |ab| && 0 <= j < |ab| && j == i + 1 ensures CallFollowsPut(ab[i], ab[j]) {
      if j < |a| {
        assert ab[i] == a[i] && ab[j] == a[j];
      } else if i >= |a| {
        assert ab[i] == b[i - |a|] && ab[j] == b[j - |a|];
      } else {
        assert ab[j] == b[0];
      }
    }
  }

  /** A put `WheelPut` offers is well shaped, at a nonzero strike. */
  lemma WheelPutShaped(e: Expiry, otmPct: real, cash: real, price: NonZero, ratio: real)
    ensures var put := WheelPut(e, otmPct, cash, price, ratio);
      put.Some? ==> PutShaped(put.value, cash, ratio) && put.value.strike != 0 && put.value.otmPct == otmPct
                    && put.value.expiration == e.date
  {
    var strike := PutStrike(price, otmPct);
    var premium := EstimatePremium(e.chain, strike as real, false);
    var perContract := CollateralPerContract(strike, ratio);
    if premium > 0.0 && perContract != 0.0 && Trunc(cash / perContract) > 0 {
      var maxContracts := Trunc(cash / perContract);
      var qty := Min(maxContracts, 10);
      assert WheelPut(e, otmPct, cash, price, ratio) == Some(PutRecord(e, strike, premium, qty, price, otmPct));
      assert 1 <= qty <= 10 && qty <= maxContracts;
    } else {
      assert WheelPut(e, otmPct, cash, price, ratio) == None;
    }
  }

  /** The after-assignment part is at most one call, and it belongs to the put. */
  lemma AfterAssignmentShaped(e: Expiry, put: Recommendation, shares: int)
    requires put.CashSecuredPut? && put.strike != 0 && put.expiration == e.date
    ensures var calls := AfterAssignment(e, put, shares);
      |calls| <= 1 && forall c :: c in calls ==> c.AssignedCoveredCall? && CallFollowsPut(put, c)
  {
    var ccStrike := RoundHalfEven(put.strike as real * 1.05);
    var ccPremium := EstimatePremium(e.chain, ccStrike as real, true);
    if shares + put.qty * 100 >= 100 && ccPremium > 0.0 {
      assert AfterAssignment(e, put, shares) == [CallRecord(e, put, ccStrike, ccPremium)];
    } else {
      assert AfterAssignment(e, put, shares) == [];
    }
  }

  lemma WheelAtShaped(e: Expiry, otmPct: real, shares: int, cash: real, price: NonZero, ratio: real)
    ensures WheelShaped(WheelAt(e, otmPct, shares, cash, price, ratio), cash, ratio)
  {
    WheelPutShaped(e, otmPct, cash, price, ratio);
    match WheelPut(e, otmPct, cash, price, ratio)
    case None =>
    case Some(put) =>
      AfterAssignmentShaped(e, put, shares);
      var calls := AfterAssignment(e, put, shares);
      var rs := [put] + calls;
      assert rs == WheelAt(e, otmPct, shares, cash, price, ratio);
      if |calls| == 1 {
        assert calls[0] in calls;
        assert rs == [put, calls[0]];
      } else {
        assert rs == [put];
      }
  }

  /** Every record the wheel produces has the put and after-assignment call shapes. */
  lemma WheelOutputShaped(expiries: seq<Expiry>, pcts: seq<real>, shares: int, cash: real, price: NonZero, ratio: real)
    requires Wheel(expiries, pcts, shares, cash, price, ratio).Produced?
    ensures WheelShaped(Wheel(expiries, pcts, shares, cash, price, ratio).recs, cash, ratio)
  {
    var ok := WheelShapedFor(cash, ratio);
    forall a, b | ok(a) && ok(b) ensures ok(a + b) {
      WheelShapedConcat(a, b, cash, ratio);
    }
    forall e | e in expiries ensures ok(WheelIn(e, pcts, shares, cash, price, ratio)) {
      forall otmPct | otmPct in pcts ensures ok(WheelAtPct(e, shares, cash, price, ratio)(otmPct)) {
        WheelAtShaped(e, otmPct, shares, cash, price, ratio);
      }
      FlatMapPreserves(pcts, WheelAtPct(e, shares, cash, price, ratio), ok);
    }
    FlatMapPreserves(expiries, WheelFor(pcts, shares, cash, price, ratio), ok);
  }

  /** With a cash ratio of at least 1 and a positive strike, a put's required cash is within the cash. */
  lemma PutCollateralCovered(r: Recommendation, cash: real, ratio: real)
    requires PutShaped(r, cash, ratio) && ratio >= 1.0 && r.strike > 0
    ensures r.requiredCash <= cash
  {
    var per := CollateralPerContract(r.strike, ratio);
    assert per >= r.strike as real * 100.0 > 0.0 by {
      ScaleByPositive(1.0, ratio, r.strike as real * 100.0);
    }
    TruncatedQuotient(cash, per);
    var m := Trunc(cash / per);
    assert 1 <= r.qty <= m;
    calc {
      r.requiredCash;
      r.qty as real * (r.strike as real * 100.0);
    <= { ScaleByPositive(r.strike as real * 100.0, per, r.qty as real); }
      r.qty as real * per;
    <= { ScaleByPositive(r.qty as real, m as real, per); }
      m as real * per;
    <= cash;
    }
  }

  /** One more percentage: the block grows by that percentage's records, and raises if it does. */
  lemma WheelInSnoc(e: Expiry, pcts: seq<real>, j: nat, shares: int, cash: real, price: NonZero, ratio: real)
    requires j < |pcts|
    ensures WheelIn(e, pcts[..j + 1], shares, cash, price, ratio)
         == WheelIn(e, pcts[..j], shares, cash, price, ratio) + WheelAt(e, pcts[j], shares, cash, price, ratio)
    ensures RaisesAt(e, pcts[..j + 1], price, ratio) <==> RaisesAt(e, pcts[..j], price, ratio) || WheelRaises(e, pcts[j], price, ratio)
  {
    assert pcts[..j + 1][..j] == pcts[..j];
    FlatMapPrefixStep(pcts, j, WheelAtPct(e, shares, cash, price, ratio));
  }

  /**
   * The inner loop of `generate_wheel_strategy_recommendations` for one
   * expiration: it stops at the first percentage whose collateral is zero.
   */
  method WheelAtExpiry(e: Expiry, pcts: seq<real>, shares: int, cash: real, price: NonZero, ratio: real)
    returns (raised: bool, chunk: seq<Recommendation>)
    ensures raised <==> RaisesAt(e, pcts, price, ratio)
    ensures !raised ==> chunk == WheelIn(e, pcts, shares, cash, price, ratio)
  {
    chunk := [];
    var j := 0;
    while j < |pcts|
      invariant 0 <= j <= |pcts|
      invariant !RaisesAt(e, pcts[..j], price, ratio)
      invariant chunk == WheelIn(e, pcts[..j], shares, cash, price, ratio)
    {
      var otmPct := pcts[j];
      WheelInSnoc(e, pcts, j, shares, cash, price, ratio);
      if WheelRaises(e, otmPct, price, ratio) {
        assert pcts[..j + 1] <= pcts;
        RaisesAtPrefix(e, pcts[..j + 1], pcts, price, ratio);
        return true, chunk;
      }
      chunk := chunk + WheelAt(e, otmPct, shares, cash, price, ratio);
      j := j + 1;
    }
    assert pcts[..j] == pcts;
    raised := false;
  }

  lemma RaisesAtPrefix(e: Expiry, pre: seq<real>, pcts: seq<real>, price: NonZero, ratio: real)
    requires pre <= pcts && RaisesAt(e, pre, price, ratio)
    ensures RaisesAt(e, pcts, price, ratio)
  {
    RaisesAtIff(e, pre, price, ratio);
    RaisesAtIff(e, pcts, price, ratio);
    var k :| 0 <= k < |pre| && WheelRaises(e, pre[k], price, ratio);
    assert pcts[k] == pre[k];
  }

  lemma AnyRaisesPrefix(pre: seq<Expiry>, expiries: seq<Expiry>, pcts: seq<real>, price: NonZero, ratio: real)
    requires pre <= expiries && AnyRaises(pre, pcts, price, ratio)
    ensures AnyRaises(expiries, pcts, price, ratio)
  {
    AnyRaisesIff(pre, pcts, price, ratio);
    AnyRaisesIff(expiries, pcts, price, ratio);
    var k :| 0 <= k < |pre| && RaisesAt(pre[k], pcts, price, ratio);
    assert expiries[k] == pre[k];
  }

  /** One more expiration: the list grows by that expiration's block. */
  lemma WheelForSnoc(expiries: seq<Expiry>, i: nat, pcts: seq<real>, shares: int, cash: real, price: NonZero, ratio: real)
    requires i < |expiries|
    ensures FlatMap(expiries[..i + 1], WheelFor(pcts, shares, cash, price, ratio))
         == FlatMap(expiries[..i], WheelFor(pcts, shares, cash, price, ratio)) + WheelIn(expiries[i], pcts, shares, cash, price, ratio)
    ensures AnyRaises(expiries[..i + 1], pcts, price, ratio) <==>
      AnyRaises(expiries[..i], pcts, price, ratio) || RaisesAt(expiries[i], pcts, price, ratio)
  {
    assert expiries[..i + 1][..i] == expiries[..i];
    FlatMapPrefixStep(expiries, i, WheelFor(pcts, shares, cash, price, ratio));
  }

  /** `generate_wheel_strategy_recommendations` as the source computes it, expiration by expiration. */
  method WheelStrategyRecommendations(expiries: seq<Expiry>, portfolio: P.Portfolio, cfg: StrategyConfig,
                                      price: NonZero)
    returns (g: Generated)
    ensures g == Wheel(expiries, cfg.wheelPutOtmPcts, portfolio.shares, portfolio.cash, price, cfg.wheelMinCashRatio)
  {
    var shares, cash, ratio, pcts := portfolio.shares, portfolio.cash, cfg.wheelMinCashRatio, cfg.wheelPutOtmPcts;
    var recs := [];
    var i := 0;
    while i < |expiries|
      invariant 0 <= i <= |expiries|
      invariant !AnyRaises(expiries[..i], pcts, price, ratio)
      invariant recs == FlatMap(expiries[..i], WheelFor(pcts, shares, cash, price, ratio))
    {
      var e := expiries[i];
      var raised, chunk := WheelAtExpiry(e, pcts, shares, cash, price, ratio);
      WheelForSnoc(expiries, i, pcts, shares, cash, price, ratio);
      if raised {
        AnyRaisesPrefix(expiries[..i + 1], expiries, pcts, price, ratio);
        return DivisionByZero;
      }
      recs := recs + chunk;
      i := i + 1;
    }
    assert expiries[..i] == expiries;
    g := Produced(recs);
  }

  // ---------------------------------------------------------------- directional buys

  /** `current_price > ma50 and rsi > BULLISH_THRESHOLD`; a NaN operand makes a comparison false. */
  predicate BullishSignal(price: real, ma50: Option<real>, rsi: Option<real>, bullishThreshold: real)
  {
    ma50.Some? && price > ma50.value && rsi.Some? && rsi.value > bullishThreshold
  }

  /** `rsi < DIP_THRESHOLD`, false for NaN. */
  predicate DipSignal(rsi: Option<real>, dipThreshold: real)
  {
    rsi.Some? && rsi.value < dipThreshold
  }

  function BuyCallAt(e: Expiry, price: NonZero, portfolioValue: real, riskTolerance: real): seq<Recommendation>
  {
    var strike := RoundHalfEven(price * 1.05);
    var premium := EstimatePremium(e.chain, strike as real, true);
    var qty := RiskAdjustedQty(portfolioValue, premium, riskTolerance);
    if qty > 0 then
      [BuyCall(e.date, strike, premium, qty, qty as real * 100.0 * MaxReal(price * 1.1 - strike as real - premium, 0.0))]
    else []
  }

  function BuyPutAt(e: Expiry, price: NonZero, portfolioValue: real, riskTolerance: real): seq<Recommendation>
  {
    var strike := RoundHalfEven(price * 0.95);
    var premium := EstimatePremium(e.chain, strike as real, false);
    var qty := RiskAdjustedQty(portfolioValue, premium, riskTolerance);
    if qty > 0 then
      [BuyPut(e.date, strike, premium, qty, qty as real * 100.0 * MaxReal(strike as real - price * 0.9 - premium, 0.0))]
    else []
  }

  function BuyCallFor(price: NonZero, portfolioValue: real, riskTolerance: real): Expiry -> seq<Recommendation>
  {
    e => BuyCallAt(e, price, portfolioValue, riskTolerance)
  }

  function BuyPutFor(price: NonZero, portfolioValue: real, riskTolerance: real): Expiry -> seq<Recommendation>
  {
    e => BuyPutAt(e, price, portfolioValue, riskTolerance)
  }

  /** The bullish call buys: none without the signal; each with a positive, risk-sized quantity. */
  function BuyCalls(expiries: seq<Expiry>, price: NonZero, ma50: Option<real>, rsi: Option<real>,
                    portfolioValue: real, cfg: StrategyConfig): (r: seq<Recommendation>)
    ensures !BullishSignal(price, ma50, rsi, cfg.bullishThreshold) ==> r == []
    ensures forall x :: x in r ==>
      x.BuyCall? && x.qty > 0 && x.premium > 0.0 && x.qty == RiskAdjustedQty(portfolioValue, x.premium, cfg.riskTolerance)
  {
    FlatMapMembers(expiries, BuyCallFor(price, portfolioValue, cfg.riskTolerance));
    if BullishSignal(price, ma50, rsi, cfg.bullishThreshold)
    then FlatMap(expiries, BuyCallFor(price, portfolioValue, cfg.riskTolerance))
    else []
  }

  /** The dip put buys: none without the signal; each with a positive, risk-sized quantity. */
  function BuyPuts(expiries: seq<Expiry>, price: NonZero, rsi: Option<real>, portfolioValue: real,
                   cfg: StrategyConfig): (r: seq<Recommendation>)
    ensures !DipSignal(rsi, cfg.dipThreshold) ==> r == []
    ensures forall x :: x in r ==>
      x.BuyPut? && x.qty > 0 && x.premium > 0.0 && x.qty == RiskAdjustedQty(portfolioValue, x.premium, cfg.riskTolerance)
  {
    FlatMapMembers(expiries, BuyPutFor(price, portfolioValue, cfg.riskTolerance));
    if DipSignal(rsi, cfg.dipThreshold)
    then FlatMap(expiries, BuyPutFor(price, portfolioValue, cfg.riskTolerance))
    else []
  }

  /** An RSI between the dip and bullish thresholds (or NaN) buys nothing. */
  lemma NeutralRsiBuysNothing(expiries: seq<Expiry>, price: NonZero, ma50: Option<real>, rsi: Option<real>,
                              portfolioValue: real, cfg: StrategyConfig)
    requires rsi.None? || cfg.dipThreshold <= rsi.value <= cfg.bullishThreshold
    ensures BuyCalls(expiries, price, ma50, rsi, portfolioValue, cfg) == []
    ensures BuyPuts(expiries, price, rsi, portfolioValue, cfg) == []
  {
  }

  // ---------------------------------------------------------------- all strategies

  /** `generate_recommendations`: covered calls, then the wheel, then call buys, then put buys. */
  function Recommendations(expiries: seq<Expiry>, cfg: StrategyConfig, shares: int, cash: real,
                           portfolioValue: real, price: NonZero, ma50: Option<real>, rsi: Option<real>)
    : (g: Generated)
    ensures g.DivisionByZero? <==>
      cfg.enableWheel && Wheel(expiries, cfg.wheelPutOtmPcts, shares, cash, price, cfg.wheelMinCashRatio).DivisionByZero?
    ensures g.MissingEpsYear? <==>
      && !(cfg.enableWheel && Wheel(expiries, cfg.wheelPutOtmPcts, shares, cash, price, cfg.wheelMinCashRatio).DivisionByZero?)
      && !cfg.epsYearKnown && BuyCalls(expiries, price, ma50, rsi, portfolioValue, cfg) != []
  {
    var cc := if cfg.enableCoveredCalls then CoveredCalls(expiries, shares, price) else [];
    var wheel := if cfg.enableWheel then Wheel(expiries, cfg.wheelPutOtmPcts, shares, cash, price, cfg.wheelMinCashRatio)
                 else Produced([]);
    var calls := BuyCalls(expiries, price, ma50, rsi, portfolioValue, cfg);
    if wheel.DivisionByZero? then DivisionByZero
    else if calls != [] && !cfg.epsYearKnown then MissingEpsYear
    else Produced(cc + wheel.recs + calls + BuyPuts(expiries, price, rsi, portfolioValue, cfg))
  }

  /**
   * Without a settings file `EPS_PROJECTIONS` keeps its string years, so as
   * soon as one call buy qualifies (and the wheel has not raised) the
   * recommendations end in the `KeyError`.
   */
  lemma MissingSettingsFileRaises(expiries: seq<Expiry>, cfg: StrategyConfig, shares: int, cash: real,
                                  portfolioValue: real, price: NonZero, ma50: Option<real>, rsi: Option<real>)
    requires cfg.epsYearKnown == Config.EpsFor(Config.LoadedConfig(Config.Missing), 2025).Some?
    requires !(cfg.enableWheel && Wheel(expiries, cfg.wheelPutOtmPcts, shares, cash, price, cfg.wheelMinCashRatio).DivisionByZero?)
    requires BuyCalls(expiries, price, ma50, rsi, portfolioValue, cfg) != []
    ensures Recommendations(expiries, cfg, shares, cash, portfolioValue, price, ma50, rsi) == MissingEpsYear
  {
    Config.MissingFileBreaksYearLookup();
  }

  /** The position of a recommendation's strategy in the output. */
  function Rank(r: Recommendation): int
  {
    match r
    case CoveredCall(_, _, _, _, _, _, _) => 0
    case CashSecuredPut(_, _, _, _, _, _, _, _, _) => 1
    case AssignedCoveredCall(_, _, _, _, _, _, _, _, _) => 1
    case BuyCall(_, _, _, _, _) => 2
    case BuyPut(_, _, _, _, _) => 3
  }

  predicate RankedFrom(rs: seq<Recommendation>)
  {
    forall i, j :: 0 <= i < j < |rs| ==> Rank(rs[i]) <= Rank(rs[j])
  }

  /** Two ranked lists, the first never above the second, make a ranked list. */
  lemma RankedConcat(a: seq<Recommendation>, b: seq<Recommendation>)
    requires RankedFrom(a) && RankedFrom(b)
    requires forall x, y :: x in a && y in b ==> Rank(x) <= Rank(y)
    ensures RankedFrom(a + b)
  {
    var ab := a + b;
    forall i, j | 0 <= i < j < |ab| ensures Rank(ab[i]) <= Rank(ab[j]) {
      if i < |a| && j >= |a| {
        assert ab[i] == a[i] && ab[j] == b[j - |a|];
        assert a[i] in a && b[j - |a|] in b;
      } else if i >= |a| {
        assert ab[i] == b[i - |a|] && ab[j] == b[j - |a|];
      }
    }
  }

  lemma RankedConstant(rs: seq<Recommendation>, k: int)
    requires forall x :: x in rs ==> Rank(x) == k
    ensures RankedFrom(rs)
  {
    forall i, j | 0 <= i < j < |rs| ensures Rank(rs[i]) <= Rank(rs[j]) {
      assert rs[i] in rs && rs[j] in rs;
    }
  }

  /** Four lists of ranks 0, 1, 2 and 3 joined in that order are ranked. */
  lemma RankedParts(cc: seq<Recommendation>, w: seq<Recommendation>, calls: seq<Recommendation>, puts: seq<Recommendation>)
    requires forall x :: x in cc ==> Rank(x) == 0
    requires forall x :: x in w ==> Rank(x) == 1
    requires forall x :: x in calls ==> Rank(x) == 2
    requires forall x :: x in puts ==> Rank(x) == 3
    ensures RankedFrom(cc + w + calls + puts)
  {
    RankedConstant(cc, 0);
    RankedConstant(w, 1);
    RankedConstant(calls, 2);
    RankedConstant(puts, 3);
    RankedConcat(cc, w);
    RankedConcat(cc + w, calls);
    RankedConcat(cc + w + calls, puts);
  }

  /** The wheel's records are all of the wheel's rank. */
  lemma WheelRanked(expiries: seq<Expiry>, pcts: seq<real>, shares: int, cash: real, price: NonZero, ratio: real)
    requires Wheel(expiries, pcts, shares, cash, price, ratio).Produced?
    ensures forall x :: x in Wheel(expiries, pcts, shares, cash, price, ratio).recs ==> Rank(x) == 1
  {
    var w := Wheel(expiries, pcts, shares, cash, price, ratio).recs;
    WheelOutputShaped(expiries, pcts, shares, cash, price, ratio);
    forall x | x in w ensures Rank(x) == 1 {
      var k :| 0 <= k < |w| && w[k] == x;
    }
  }

  /** The output is grouped by strategy in the order covered calls, wheel, call buys, put buys. */
  lemma RecommendationsOrdered(expiries: seq<Expiry>, cfg: StrategyConfig, shares: int, cash: real,
                               portfolioValue: real, price: NonZero, ma50: Option<real>, rsi: Option<real>)
    requires Recommendations(expiries, cfg, shares, cash, portfolioValue, price, ma50, rsi).Produced?
    ensures RankedFrom(Recommendations(expiries, cfg, shares, cash, portfolioValue, price, ma50, rsi).recs)
  {
    var cc := if cfg.enableCoveredCalls then CoveredCalls(expiries, shares, price) else [];
    CoveredCallsShape(expiries, shares, price);
    var w: seq<Recommendation> := [];
    if cfg.enableWheel {
      WheelRanked(expiries, cfg.wheelPutOtmPcts, shares, cash, price, cfg.wheelMinCashRatio);
      w := Wheel(expiries, cfg.wheelPutOtmPcts, shares, cash, price, cfg.wheelMinCashRatio).recs;
    }
    var calls := BuyCalls(expiries, price, ma50, rsi, portfolioValue, cfg);
    var puts := BuyPuts(expiries, price, rsi, portfolioValue, cfg);
    RecommendationsFromParts(expiries, cfg, shares, cash, portfolioValue, price, ma50, rsi, cc, w, calls, puts);
    RankedParts(cc, w, calls, puts);
  }

  /** The bullish loop of `generate_recommendations`: one call candidate per expiration, revaluing the portfolio each time. */
  method BuyCallRecommendations(expiries: seq<Expiry>, portfolio: P.Portfolio, price: NonZero, riskTolerance: real)
    returns (recs: seq<Recommendation>)
    ensures recs == FlatMap(expiries, BuyCallFor(price, portfolio.Value(price), riskTolerance))
  {
    recs := [];
    var i := 0;
    while i < |expiries|
      invariant 0 <= i <= |expiries|
      invariant recs == FlatMap(expiries[..i], BuyCallFor(price, portfolio.Value(price), riskTolerance))
    {
      var e := expiries[i];
      var portfolioValue := portfolio.GetValue(price);
      recs := recs + BuyCallAt(e, price, portfolioValue, riskTolerance);
      FlatMapPrefixStep(expiries, i, BuyCallFor(price, portfolioValue, riskTolerance));
      i := i + 1;
    }
    assert expiries[..i] == expiries;
  }

  /** The dip loop of `generate_recommendations`: one put candidate per expiration. */
  method BuyPutRecommendations(expiries: seq<Expiry>, portfolio: P.Portfolio, price: NonZero, riskTolerance: real)
    returns (recs: seq<Recommendation>)
    ensures recs == FlatMap(expiries, BuyPutFor(price, portfolio.Value(price), riskTolerance))
  {
    recs := [];
    var i := 0;
    while i < |expiries|
      invariant 0 <= i <= |expiries|
      invariant recs == FlatMap(expiries[..i], BuyPutFor(price, portfolio.Value(price), riskTolerance))
    {
      var e := expiries[i];
      var portfolioValue := portfolio.GetValue(price);
      recs := recs + BuyPutAt(e, price, portfolioValue, riskTolerance);
      FlatMapPrefixStep(expiries, i, BuyPutFor(price, portfolioValue, riskTolerance));
      i := i + 1;
    }
    assert expiries[..i] == expiries;
  }

  /** `Recommendations` assembled from its four parts, when neither the wheel nor `project_yield` raises. */
  lemma RecommendationsFromParts(expiries: seq<Expiry>, cfg: StrategyConfig, shares: int, cash: real,
                                 portfolioValue: real, price: NonZero, ma50: Option<real>, rsi: Option<real>,
                                 cc: seq<Recommendation>, wheel: seq<Recommendation>,
                                 calls: seq<Recommendation>, puts: seq<Recommendation>)
    requires cc == if cfg.enableCoveredCalls then CoveredCalls(expiries, shares, price) else []
    requires cfg.enableWheel ==> Wheel(expiries, cfg.wheelPutOtmPcts, shares, cash, price, cfg.wheelMinCashRatio) == Produced(wheel)
    requires !cfg.enableWheel ==> wheel == []
    requires calls == BuyCalls(expiries, price, ma50, rsi, portfolioValue, cfg)
    requires calls != [] ==> cfg.epsYearKnown
    requires puts == BuyPuts(expiries, price, rsi, portfolioValue, cfg)
    ensures Recommendations(expiries, cfg, shares, cash, portfolioValue, price, ma50, rsi) == Produced(cc + wheel + calls + puts)
  {
  }

  /** `generate_recommendations` as the source computes it: the two rule sets, then the two loops of buys. */
  method GenerateRecommendations(expiries: seq<Expiry>, portfolio: P.Portfolio, cfg: StrategyConfig,
                                 price: NonZero, ma50: Option<real>, rsi: Option<real>)
    returns (g: Generated)
    ensures g == Recommendations(expiries, cfg, portfolio.shares, portfolio.cash, portfolio.Value(price),
                                 price, ma50, rsi)
  {
    var cc: seq<Recommendation> := [];
    if cfg.enableCoveredCalls {
      cc := CoveredCallRecommendations(expiries, portfolio, price);
    }
    var wheelRecs: seq<Recommendation> := [];
    if cfg.enableWheel {
      var wheel := WheelStrategyRecommendations(expiries, portfolio, cfg, price);
      if wheel.DivisionByZero? {
        return DivisionByZero;
      }
      wheelRecs := wheel.recs;
    }
    var calls: seq<Recommendation> := [];
    if BullishSignal(price, ma50, rsi, cfg.bullishThreshold) {
      calls := BuyCallRecommendations(expiries, portfolio, price, cfg.riskTolerance);
      if calls != [] && !cfg.epsYearKnown {
        return MissingEpsYear;
      }
    }
    var puts: seq<Recommendation> := [];
    if DipSignal(rsi, cfg.dipThreshold) {
      puts := BuyPutRecommendations(expiries, portfolio, price, cfg.riskTolerance);
    }
    RecommendationsFromParts(expiries, cfg, portfolio.shares, portfolio.cash, portfolio.Value(price), price, ma50, rsi,
                             cc, wheelRecs, calls, puts);
    g := Produced(cc + wheelRecs + calls + puts);
  }
}
