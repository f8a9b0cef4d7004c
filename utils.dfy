/**
 * Indicators and sizing helpers: moving average and RSI over a closing
 * price series, nearest-strike premium lookup, risk-based contract count,
 * the expiry-window filter and the OTM/ITM rationale.
 */
module Utils {
  import opened Wrappers
  import opened PyNum

  /** One row of an option chain table. */
  datatype Quote = Quote(strike: real, lastPrice: real)

  /** The `calls` and `puts` tables of one expiration. */
  datatype OptionChain = OptionChain(calls: seq<Quote>, puts: seq<Quote>)

  function Distance(q: Quote, strike: real): real
  {
    AbsReal(q.strike - strike)
  }

  /** The index `estimate_premium` takes: the first row whose strike is nearest to `strike`. */
  function NearestRow(rows: seq<Quote>, strike: real): (i: nat)
    requires |rows| > 0
    ensures i < |rows|
  {
    if |rows| == 1 then 0
    else
      var k := NearestRow(rows[1..], strike) + 1;
      if Distance(rows[0], strike) <= Distance(rows[k], strike) then 0 else k
  }

  /** No row is nearer to `strike` than the one `NearestRow` picks. */
  lemma {:induction false} NearestRowIsNearest(rows: seq<Quote>, strike: real)
    requires |rows| > 0
    ensures forall j :: 0 <= j < |rows| ==> Distance(rows[NearestRow(rows, strike)], strike) <= Distance(rows[j], strike)
  {
    if |rows| > 1 {
      NearestRowIsNearest(rows[1..], strike);
      assert forall j :: 1 <= j < |rows| ==> rows[j] == rows[1..][j - 1];
    }
  }

  /** `estimate_premium`, on the calls or the puts. */
  function EstimatePremium(chain: OptionChain, strike: real, isCall: bool): real
  {
    var rows := if isCall then chain.calls else chain.puts;
    if rows == [] then 0.0 else rows[NearestRow(rows, strike)].lastPrice
  }

  /**
   * The estimate is the last price of a row whose strike is nearest to
   * `strike`, or 0 for an empty table.
   */
  lemma EstimatePremiumNearest(chain: OptionChain, strike: real, isCall: bool)
    ensures var rows := if isCall then chain.calls else chain.puts;
      var r := EstimatePremium(chain, strike, isCall);
      && (rows == [] ==> r == 0.0)
      && (rows != [] ==>
            exists i :: 0 <= i < |rows| && r == rows[i].lastPrice &&
                        forall j :: 0 <= j < |rows| ==> Distance(rows[i], strike) <= Distance(rows[j], strike))
  {
    var rows := if isCall then chain.calls else chain.puts;
    if rows != [] {
      var i := NearestRow(rows, strike);
      NearestRowIsNearest(rows, strike);
      assert EstimatePremium(chain, strike, isCall) == rows[i].lastPrice;
    }
  }

  /** No two rows of a table share a strike. */
  predicate DistinctStrikes(rows: seq<Quote>)
  {
    forall i, j :: 0 <= i < j < |rows| ==> rows[i].strike != rows[j].strike
  }

  /** On an exact strike match in a table without repeated strikes, that row's price is returned. */
  lemma ExactMatchPremium(chain: OptionChain, strike: real, isCall: bool, k: nat)
    requires var rows := if isCall then chain.calls else chain.puts;
      k < |rows| && rows[k].strike == strike && DistinctStrikes(rows)
    ensures EstimatePremium(chain, strike, isCall) == (if isCall then chain.calls else chain.puts)[k].lastPrice
  {
    var rows := if isCall then chain.calls else chain.puts;
    var i := NearestRow(rows, strike);
    NearestRowIsNearest(rows, strike);
    assert Distance(rows[i], strike) <= Distance(rows[k], strike) == 0.0;
    assert rows[i].strike == rows[k].strike;
  }

  function Sum(s: seq<real>): real
  {
    if s == [] then 0.0 else s[0] + Sum(s[1..])
  }

  /** A sum of values in [lo, hi] lies between |s|·lo and |s|·hi. */
  lemma {:induction false} SumBounds(s: seq<real>, lo: real, hi: real)
    requires forall i :: 0 <= i < |s| ==> lo <= s[i] <= hi
    ensures |s| as real * lo <= Sum(s) <= |s| as real * hi
  {
    if s != [] {
      SumBounds(s[1..], lo, hi);
    }
  }

  lemma {:induction false} SumNonNegative(s: seq<real>)
    requires forall i :: 0 <= i < |s| ==> s[i] >= 0.0
    ensures Sum(s) >= 0.0
  {
    if s != [] {
      SumNonNegative(s[1..]);
    }
  }

  /** The mean of the `window` values ending at index `i`. */
  function WindowMean(s: seq<real>, i: int, window: int): real
    requires 1 <= window && window - 1 <= i < |s|
  {
    Sum(s[i - window + 1..i + 1]) / window as real
  }

  /**
   * `calculate_moving_average`: `rolling(window).mean()` on the closes:
   * undefined for the first `window - 1` entries, then the mean of the last
   * `window` closes.
   */
  function MovingAverage(closes: seq<real>, window: int): (r: seq<Option<real>>)
    requires window >= 1
    ensures |r| == |closes|
    ensures forall i :: 0 <= i < |r| ==> (r[i].None? <==> i < window - 1)
  {
    seq(|closes|, i requires 0 <= i < |closes| =>
      if i < window - 1 then None else Some(WindowMean(closes, i, window)))
  }

  /** A defined moving average lies between the smallest and largest close of its window. */
  lemma MovingAverageBounded(closes: seq<real>, window: int, i: int, lo: real, hi: real)
    requires window >= 1 && window - 1 <= i < |closes|
    requires forall j :: i - window + 1 <= j <= i ==> lo <= closes[j] <= hi
    ensures MovingAverage(closes, window)[i] == Some(WindowMean(closes, i, window))
    ensures lo <= WindowMean(closes, i, window) <= hi
  {
    var w := closes[i - window + 1..i + 1];
    assert forall j :: 0 <= j < |w| ==> w[j] == closes[i - window + 1 + j];
    SumBounds(w, lo, hi);
    assert |w| == window;
    QuotientBetween(Sum(w), window as real, lo, hi);
  }

  /** A total between `n · lo` and `n · hi` has its mean over `n` between `lo` and `hi`. */
  lemma QuotientBetween(total: real, n: real, lo: real, hi: real)
    requires n > 0.0 && n * lo <= total <= n * hi
    ensures lo <= total / n <= hi
  {
    var mean := total / n;
    assert mean * n == total;
    ScaleByPositive(lo, mean, n);
    ScaleByPositive(mean, hi, n);
  }

  /** `delta.where(delta > 0, 0)`: the rise into each close; the first close has none. */
  function Gain(closes: seq<real>, i: int): real
    requires 0 <= i < |closes|
  {
    if i == 0 then 0.0
    else if closes[i] - closes[i - 1] > 0.0 then closes[i] - closes[i - 1]
    else 0.0
  }

  /** `-delta.where(delta < 0, 0)`: the fall into each close; the first close has none. */
  function Loss(closes: seq<real>, i: int): real
    requires 0 <= i < |closes|
  {
    if i == 0 then 0.0
    else if closes[i] - closes[i - 1] < 0.0 then closes[i - 1] - closes[i]
    else 0.0
  }

  function Gains(closes: seq<real>): (r: seq<real>)
    ensures |r| == |closes| && forall i :: 0 <= i < |r| ==> r[i] >= 0.0
  {
    seq(|closes|, i requires 0 <= i < |closes| => Gain(closes, i))
  }

  function Losses(closes: seq<real>): (r: seq<real>)
    ensures |r| == |closes| && forall i :: 0 <= i < |r| ==> r[i] >= 0.0
  {
    seq(|closes|, i requires 0 <= i < |closes| => Loss(closes, i))
  }

  /**
   * `100 - 100 / (1 + gain / loss)` with float division: undefined (NaN)
   * when both averages are 0, 100 when only the loss average is 0.
   */
  function RsiOf(gain: real, loss: real): (r: Option<real>)
    requires gain >= 0.0 && loss >= 0.0
    ensures r.None? <==> gain == 0.0 && loss == 0.0
    ensures r.Some? ==> 0.0 <= r.value <= 100.0
    ensures r == Some(100.0) <==> loss == 0.0 && gain > 0.0
    ensures r == Some(0.0) <==> gain == 0.0 && loss > 0.0
  {
    if gain == 0.0 && loss == 0.0 then None
    else if loss == 0.0 then Some(100.0)
    else
      var rs := gain / loss;
      assert 1.0 + rs >= 1.0;
      assert 100.0 / (1.0 + rs) <= 100.0;
      assert gain > 0.0 ==> rs > 0.0 && 100.0 / (1.0 + rs) < 100.0;
      Some(100.0 - 100.0 / (1.0 + rs))
  }

  /** A mean of non-negative values is non-negative. */
  lemma WindowMeanNonNegative(s: seq<real>, i: int, window: int)
    requires 1 <= window && window - 1 <= i < |s|
    requires forall j :: 0 <= j < |s| ==> s[j] >= 0.0
    ensures WindowMean(s, i, window) >= 0.0
  {
    var w := s[i - window + 1..i + 1];
    assert forall j :: 0 <= j < |w| ==> w[j] == s[i - window + 1 + j];
    SumNonNegative(w);
  }

  /**
   * `calculate_rsi`: the rolling means of gains and losses over `period`
   * closes, combined by `RsiOf`; undefined for the first `period - 1`
   * entries and wherever both means are 0, and otherwise within [0, 100].
   */
  function Rsi(closes: seq<real>, period: int): (r: seq<Option<real>>)
    requires period >= 1
    ensures |r| == |closes|
    ensures forall i :: 0 <= i < |r| && i < period - 1 ==> r[i].None?
    ensures forall i :: 0 <= i < |r| && r[i].Some? ==> 0.0 <= r[i].value <= 100.0
  {
    var g := Gains(closes);
    var l := Losses(closes);
    seq(|closes|, i requires 0 <= i < |closes| =>
      if i < period - 1 then None
      else
        WindowMeanNonNegative(g, i, period);
        WindowMeanNonNegative(l, i, period);
        RsiOf(WindowMean(g, i, period), WindowMean(l, i, period)))
  }

  /** A sum of non-negative values with one positive value is positive. */
  lemma {:induction false} SumPositive(s: seq<real>, k: int)
    requires forall i :: 0 <= i < |s| ==> s[i] >= 0.0
    requires 0 <= k < |s| && s[k] > 0.0
    ensures Sum(s) > 0.0
  {
    if k == 0 {
      SumNonNegative(s[1..]);
    } else {
      SumPositive(s[1..], k - 1);
    }
  }

  /** The window of `period` values ending at `i` has mean 0 when they are all 0, and a positive mean when the last is positive. */
  lemma WindowMeanSign(s: seq<real>, i: int, window: int)
    requires 1 <= window && window - 1 <= i < |s|
    requires forall j :: 0 <= j < |s| ==> s[j] >= 0.0
    ensures (forall j :: i - window + 1 <= j <= i ==> s[j] == 0.0) ==> WindowMean(s, i, window) == 0.0
    ensures s[i] > 0.0 ==> WindowMean(s, i, window) > 0.0
  {
    var w := s[i - window + 1..i + 1];
    assert forall j :: 0 <= j < |w| ==> w[j] == s[i - window + 1 + j];
    if forall j :: i - window + 1 <= j <= i ==> s[j] == 0.0 {
      SumBounds(w, 0.0, 0.0);
    }
    if s[i] > 0.0 {
      assert w[|w| - 1] == s[i];
      SumPositive(w, |w| - 1);
    }
  }

  /** Closes that only rise give an RSI of 100 wherever it is defined past the first close. */
  lemma RsiOfRisingCloses(closes: seq<real>, period: int, i: int)
    requires period >= 1 && period - 1 <= i < |closes| && i >= 1
    requires forall j :: 0 < j < |closes| ==> closes[j - 1] < closes[j]
    ensures Rsi(closes, period)[i] == Some(100.0)
  {
    var g, l := Gains(closes), Losses(closes);
    assert forall j :: 0 <= j < |l| ==> l[j] == Loss(closes, j) == 0.0;
    assert g[i] == Gain(closes, i) > 0.0;
    WindowMeanSign(g, i, period);
    WindowMeanSign(l, i, period);
  }

  /** Closes that only fall give an RSI of 0 wherever it is defined past the first close. */
  lemma RsiOfFallingCloses(closes: seq<real>, period: int, i: int)
    requires period >= 1 && period - 1 <= i < |closes| && i >= 1
    requires forall j :: 0 < j < |closes| ==> closes[j - 1] > closes[j]
    ensures Rsi(closes, period)[i] == Some(0.0)
  {
    var g, l := Gains(closes), Losses(closes);
    assert forall j :: 0 <= j < |g| ==> g[j] == Gain(closes, j) == 0.0;
    assert l[i] == Loss(closes, i) > 0.0;
    WindowMeanSign(g, i, period);
    WindowMeanSign(l, i, period);
  }

  /** Multiplying both sides by a positive factor keeps an order. */
  lemma ScaleByPositive(a: real, b: real, c: real)
    requires c > 0.0
    ensures a <= b <==> a * c <= b * c
    ensures a < b <==> a * c < b * c
  {
  }

  /** Bounds of `int(x)` scaled by a positive factor. */
  lemma TruncScaled(x: real, c: real)
    requires c > 0.0
    ensures var q := Trunc(x);
      && (x >= 0.0 ==> 0 <= q && q as real * c <= x * c < (q + 1) as real * c)
      && (x < 0.0 ==> q <= 0 && (q - 1) as real * c < x * c <= q as real * c)
  {
    var q := Trunc(x);
    ScaleByPositive(q as real, x, c);
    ScaleByPositive(x, q as real, c);
    ScaleByPositive(x, (q + 1) as real, c);
    ScaleByPositive((q - 1) as real, x, c);
  }

  /** `int(budget / contract)` for a positive contract cost, as bounds on whole contracts. */
  lemma TruncatedQuotient(budget: real, contract: real)
    requires contract > 0.0
    ensures var q := Trunc(budget / contract);
      && (budget >= 0.0 ==> 0 <= q && q as real * contract <= budget < (q + 1) as real * contract)
      && (budget < 0.0 ==> q <= 0 && (q - 1) as real * contract < budget <= q as real * contract)
  {
    var x := budget / contract;
    var q := Trunc(x);
    assert x * contract == budget;
    ScaleByPositive(0.0, x, contract);
    TruncScaled(x, contract);
    if budget >= 0.0 {
      calc {
        budget;
        x * contract;
      < (q + 1) as real * contract;
      }
    } else {
      calc {
        (q - 1) as real * contract;
      < x * contract;
        budget;
      }
    }
  }

  /**
   * `risk_adjusted_qty`: 0 for a premium that is not positive; otherwise
   * `int()` of the risk budget over the cost of one contract, so the count
   * is the most whole contracts the budget pays for (truncated toward zero
   * when the budget is negative).
   */
  function RiskAdjustedQty(portfolioValue: real, premium: real, riskTolerance: real): (q: int)
    ensures premium <= 0.0 ==> q == 0
    ensures premium > 0.0 && portfolioValue * riskTolerance >= 0.0 ==>
      0 <= q && q as real * (premium * 100.0) <= portfolioValue * riskTolerance < (q + 1) as real * (premium * 100.0)
    ensures premium > 0.0 && portfolioValue * riskTolerance < 0.0 ==>
      q <= 0 && (q - 1) as real * (premium * 100.0) < portfolioValue * riskTolerance <= q as real * (premium * 100.0)
  {
    if premium <= 0.0 then 0
    else
      var budget, contract := portfolioValue * riskTolerance, premium * 100.0;
      var q := Trunc(budget / contract);
      TruncatedQuotient(budget, contract);
      q
  }

  /** The whole days from `today` to a parsed expiration date, if it parses. */
  function DaysUntil(expiryDay: Option<int>, today: int): Option<int>
  {
    if expiryDay.Some? then Some(expiryDay.value - today) else None
  }

  /** `min_w <= days / 7 <= max_w` with float division; an unparseable date is never in the window. */
  predicate InWeekWindow(days: Option<int>, minWeeks: int, maxWeeks: int)
  {
    days.Some? && minWeeks as real <= days.value as real / 7.0 <= maxWeeks as real
  }

  /**
   * `filter_options_by_weeks`: exactly the entries whose expiration date
   * parses and lies between `minWeeks` and `maxWeeks` weeks from `today`,
   * each with its original value. `parseDate` stands for `strptime`
   * (None where it raises).
   */
  method FilterOptionsByWeeks<T>(options: map<string, T>, minWeeks: int, maxWeeks: int,
                                 parseDate: string -> Option<int>, today: int)
    returns (filtered: map<string, T>)
    ensures forall d :: d in filtered <==> d in options && InWeekWindow(DaysUntil(parseDate(d), today), minWeeks, maxWeeks)
    ensures forall d :: d in filtered ==> filtered[d] == options[d]
  {
    filtered := map[];
    var todo := options.Keys;
    while todo != {}
      invariant todo <= options.Keys
      invariant forall d :: d in filtered <==>
        d in options && d !in todo && InWeekWindow(DaysUntil(parseDate(d), today), minWeeks, maxWeeks)
      invariant forall d :: d in filtered ==> filtered[d] == options[d]
      decreases |todo|
    {
      var d :| d in todo;
      if InWeekWindow(DaysUntil(parseDate(d), today), minWeeks, maxWeeks) {
        filtered := filtered[d := options[d]];
      }
      todo := todo - {d};
    }
  }

  datatype RationaleKind = GenerateIncome | ItmCall | WheelStrategy | ItmPut

  /** The branch of `generate_option_rationale` and the numbers its text shows. */
  datatype Rationale = Rationale(kind: RationaleKind, otmPct: real, rsi: real)

  /** How far out of the money, in percent of the price: above it for a call, below it for a put. */
  function OtmPct(strike: real, price: NonZero, isCall: bool): real
  {
    if isCall then (strike - price) / price * 100.0 else (price - strike) / price * 100.0
  }

  /**
   * `generate_option_rationale`: a call is "Generate income" when it is at
   * or out of the money and "ITM call" otherwise; a put is "Wheel strategy"
   * or "ITM put" the same way.
   */
  function OptionRationale(strike: real, price: NonZero, rsi: real, isCall: bool): (r: Rationale)
    ensures r.otmPct == OtmPct(strike, price, isCall) && r.rsi == rsi
    ensures isCall <==> r.kind in {GenerateIncome, ItmCall}
    ensures r.kind in {GenerateIncome, WheelStrategy} <==> OtmPct(strike, price, isCall) >= 0.0
  {
    var pct := OtmPct(strike, price, isCall);
    if isCall then Rationale(if pct >= 0.0 then GenerateIncome else ItmCall, pct, rsi)
    else Rationale(if pct >= 0.0 then WheelStrategy else ItmPut, pct, rsi)
  }

  /** For a positive price: income exactly for a call struck at or above it, wheel exactly for a put at or below it. */
  lemma RationaleForPositivePrice(strike: real, price: NonZero, rsi: real, isCall: bool)
    requires price > 0.0
    ensures OptionRationale(strike, price, rsi, isCall).kind == GenerateIncome <==> isCall && strike >= price
    ensures OptionRationale(strike, price, rsi, isCall).kind == WheelStrategy <==> !isCall && strike <= price
  {
    var d := if isCall then strike - price else price - strike;
    assert OtmPct(strike, price, isCall) == d / price * 100.0;
    assert d >= 0.0 <==> d / price >= 0.0;
  }
}
