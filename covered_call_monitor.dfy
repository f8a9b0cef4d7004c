/**
 * The covered-call monitor for one short call position: the market snapshot
 * it works from, the status of the short call, the alert conditions, the
 * roll advice and the gate in front of the e-mail alert.
 *
 * Dates are day numbers (Python's `date.toordinal()`); the quote fetch and
 * the SMTP delivery are inputs.
 */
module CoveredCallMonitor {
  import opened Wrappers
  import opened PyNum
  import opened Sequences

  /** The monitored position. */
  const Strike: real := 475.0
  /** 30 January 2026 as a day number. */
  const ExpirationDay: int := 739646
  const Contracts: int := 2
  const OriginalCreditPerShare: real := 3.15

  /** Default thresholds of `check_alert_conditions`. */
  const PriceThreshold: real := 460.0
  const DteThreshold: int := 7

  /** Calendar days from `today` to `expiration`. */
  function DaysToExpiration(expiration: int, today: int): (days: int)
    ensures days == 0 <==> expiration == today
    ensures days < 0 <==> expiration < today
    ensures today + days == expiration
  {
    expiration - today
  }

  /** The mid price: the bid/ask midpoint when both sides are quoted, the last trade otherwise. */
  function Mid(bid: real, ask: real, last: real): (m: real)
    ensures bid > 0.0 && ask > 0.0 ==> m - bid == ask - m && (bid <= m <= ask || ask <= m <= bid)
    ensures !(bid > 0.0 && ask > 0.0) ==> m == last
  {
    if bid > 0.0 && ask > 0.0 then (bid + ask) / 2.0 else last
  }

  /** One row of the calls table of the option chain. */
  datatype ChainRow = ChainRow(strike: real, bid: real, ask: real, lastPrice: real, volume: int, openInterest: int)

  /** The quote kept for the monitored call. */
  datatype OptionData = OptionData(bid: real, ask: real, last: real, mid: real)

  /** What the quote fetch yields: the stock price, and the call's quote, volume and open interest when found. */
  datatype Market = Market(price: real, optData: Option<OptionData>, volume: Option<int>, openInterest: Option<int>)

  /**
   * The stock price: `regularMarketPrice` when it is truthy, otherwise
   * `currentPrice` when it is present (even when it is zero), otherwise the
   * last daily close.
   */
  function CurrentPrice(regularMarketPrice: Option<real>, currentPrice: Option<real>, lastClose: real): (p: real)
    ensures regularMarketPrice.Some? && regularMarketPrice.value != 0.0 ==> p == regularMarketPrice.value
    ensures !(regularMarketPrice.Some? && regularMarketPrice.value != 0.0) ==>
              p == currentPrice.GetOr(lastClose)
  {
    var first := if regularMarketPrice.Some? && regularMarketPrice.value != 0.0 then regularMarketPrice
                 else currentPrice;
    if first.None? then lastClose else first.value
  }

  predicate AtStrike(row: ChainRow)
  {
    row.strike == Strike
  }

  function QuoteOf(row: ChainRow): OptionData
  {
    OptionData(row.bid, row.ask, row.lastPrice, Mid(row.bid, row.ask, row.lastPrice))
  }

  /**
   * The snapshot the monitor works from. `chain` is None when fetching the
   * option chain raised; the call is the first row at the monitored strike.
   */
  function MarketData(regularMarketPrice: Option<real>, currentPrice: Option<real>, lastClose: real,
                      chain: Option<seq<ChainRow>>): (m: Market)
    ensures m.price == CurrentPrice(regularMarketPrice, currentPrice, lastClose)
    ensures m.optData.None? <==> chain.None? || forall i :: 0 <= i < |chain.value| ==> !AtStrike(chain.value[i])
    ensures m.optData.None? ==> m.volume.None? && m.openInterest.None?
    ensures m.optData.Some? ==>
              exists i :: 0 <= i < |chain.value| && AtStrike(chain.value[i])
                && (forall k :: 0 <= k < i ==> !AtStrike(chain.value[k]))
                && m.optData.value == QuoteOf(chain.value[i])
                && m.volume == Some(chain.value[i].volume)
                && m.openInterest == Some(chain.value[i].openInterest)
  {
    var price := CurrentPrice(regularMarketPrice, currentPrice, lastClose);
    if chain.None? then Market(price, None, None, None)
    else match FirstIndex(chain.value, AtStrike)
      case None => Market(price, None, None, None)
      case Some(i) =>
        var row := chain.value[i];
        Market(price, Some(QuoteOf(row)), Some(row.volume), Some(row.openInterest))
  }

  datatype Moneyness = OTM | ITM

  /**
   * The three status fields of the report. `ZeroDivision` stands for the
   * division by a zero stock price, which raises.
   */
  datatype Status =
    | NotAvailable
    | ZeroDivision
    | Quoted(moneyness: Moneyness, distancePct: real, mid: real, bid: real, ask: real,
             pnlPerShare: real, pnlTotal: real)

  /** Signed distance from the price up to the strike, in percent of the price. */
  function DistanceToStrikePct(price: real): real
    requires price != 0.0
  {
    (Strike - price) / price * 100.0
  }

  function CalculateStatus(price: real, optData: Option<OptionData>): (s: Status)
    ensures optData.None? <==> s.NotAvailable?
    ensures optData.Some? && price == 0.0 <==> s.ZeroDivision?
    ensures s.Quoted? ==>
              && (s.moneyness == OTM <==> DistanceToStrikePct(price) > 0.0)
              && s.distancePct == AbsReal(DistanceToStrikePct(price))
              && s.mid == optData.value.mid && s.bid == optData.value.bid && s.ask == optData.value.ask
              && s.pnlPerShare + s.mid == OriginalCreditPerShare
              && s.pnlTotal == s.pnlPerShare * 100.0 * Contracts as real
  {
    if optData.None? then NotAvailable
    else if price == 0.0 then ZeroDivision
    else
      var distance := DistanceToStrikePct(price);
      var pnlPerShare := OriginalCreditPerShare - optData.value.mid;
      Quoted(if distance > 0.0 then OTM else ITM, AbsReal(distance),
             optData.value.mid, optData.value.bid, optData.value.ask,
             pnlPerShare, pnlPerShare * 100.0 * Contracts as real)
  }

  /** For a positive stock price the call is out of the money exactly when the strike is above the price. */
  lemma MoneynessMatchesStrike(price: real, optData: OptionData)
    requires price > 0.0
    ensures CalculateStatus(price, Some(optData)).moneyness == OTM <==> Strike > price
  {
    var q := (Strike - price) / price;
    assert q * price == Strike - price;
  }

  /** One reason for an alert; the message text is rendered from these fields. */
  datatype AlertReason = PriceAbove(price: real, priceThreshold: real) | ExpiryNear(dte: int, dteThreshold: int)

  /** The reasons `check_alert_conditions` collects, price first. */
  function AlertReasons(price: real, dte: int, priceThreshold: real, dteThreshold: int): seq<AlertReason>
  {
    (if price > priceThreshold then [PriceAbove(price, priceThreshold)] else [])
    + (if dte < dteThreshold then [ExpiryNear(dte, dteThreshold)] else [])
  }

  /**
   * A reason is listed exactly for each strict threshold crossing, at most
   * one of each kind, and the price reason comes first.
   */
  lemma AlertReasonsExact(price: real, dte: int, priceThreshold: real, dteThreshold: int)
    ensures var rs := AlertReasons(price, dte, priceThreshold, dteThreshold);
      && |rs| == (if price > priceThreshold then 1 else 0) + (if dte < dteThreshold then 1 else 0)
      && (PriceAbove(price, priceThreshold) in rs <==> price > priceThreshold)
      && (ExpiryNear(dte, dteThreshold) in rs <==> dte < dteThreshold)
      && (forall r :: r in rs ==> r == PriceAbove(price, priceThreshold) || r == ExpiryNear(dte, dteThreshold))
      && (price > priceThreshold ==> rs[0] == PriceAbove(price, priceThreshold))
      && (rs == [] <==> price <= priceThreshold && dte >= dteThreshold)
  {
  }

  /** `check_alert_conditions`: the alert flag and the reasons behind it. */
  method CheckAlertConditions(price: real, dte: int, priceThreshold: real := PriceThreshold,
                              dteThreshold: int := DteThreshold)
    returns (shouldAlert: bool, reasons: seq<AlertReason>)
    ensures reasons == AlertReasons(price, dte, priceThreshold, dteThreshold)
    ensures shouldAlert <==> price > priceThreshold || dte < dteThreshold
    ensures shouldAlert <==> reasons != []
  {
    reasons := [];
    shouldAlert := false;
    if price > priceThreshold {
      shouldAlert := true;
      reasons := reasons + [PriceAbove(price, priceThreshold)];
    }
    if dte < dteThreshold {
      shouldAlert := true;
      reasons := reasons + [ExpiryNear(dte, dteThreshold)];
    }
  }

  datatype RollAdvice = NearStrike | Monitor | NoActionNeeded

  /** How urgent an advice is. */
  function Urgency(a: RollAdvice): nat
  {
    match a
    case NoActionNeeded => 0
    case Monitor => 1
    case NearStrike => 2
  }

  /** The roll advice: near the strike above 95% of it, worth watching above 85%. */
  function RollAlert(price: real): (a: RollAdvice)
    ensures a == NearStrike <==> price > Strike * 0.95
    ensures a == Monitor <==> Strike * 0.85 < price <= Strike * 0.95
    ensures a == NoActionNeeded <==> price <= Strike * 0.85
  {
    if price > Strike * 0.95 then NearStrike
    else if price > Strike * 0.85 then Monitor
    else NoActionNeeded
  }

  /** A higher stock price never makes the advice less urgent. */
  lemma RollAlertMonotone(p: real, q: real)
    requires p <= q
    ensures Urgency(RollAlert(p)) <= Urgency(RollAlert(q))
  {
  }

  /** The report of `get_monitor_data`. */
  datatype MonitorData = MonitorData(
    currentPrice: real, dte: int, strike: real, status: Status,
    volume: Option<int>, openInterest: Option<int>, rollAlert: RollAdvice,
    optData: Option<OptionData>, shouldAlert: bool, alertReasons: seq<AlertReason>)

  /** `get_monitor_data` on a fetched snapshot; None when computing the status raises. */
  method GetMonitorData(market: Market, today: int) returns (report: Option<MonitorData>)
    ensures report.None? <==> CalculateStatus(market.price, market.optData).ZeroDivision?
    ensures report.Some? ==>
              var dte := DaysToExpiration(ExpirationDay, today);
              && report.value.currentPrice == market.price
              && report.value.dte == dte
              && report.value.strike == Strike
              && report.value.status == CalculateStatus(market.price, market.optData)
              && report.value.volume == market.volume
              && report.value.openInterest == market.openInterest
              && report.value.optData == market.optData
              && report.value.rollAlert == RollAlert(market.price)
              && report.value.alertReasons == AlertReasons(market.price, dte, PriceThreshold, DteThreshold)
              && (report.value.shouldAlert <==> report.value.alertReasons != [])
  {
    var dte := DaysToExpiration(ExpirationDay, today);
    var status := CalculateStatus(market.price, market.optData);
    if status.ZeroDivision? {
      return None;
    }
    var shouldAlert, reasons := CheckAlertConditions(market.price, dte);
    report := Some(MonitorData(market.price, dte, Strike, status, market.volume, market.openInterest,
                               RollAlert(market.price), market.optData, shouldAlert, reasons));
  }

  /** The content of the alert e-mail: its reasons, in order, and the report fields it lists. */
  datatype AlertEmail = AlertEmail(reasons: seq<AlertReason>, price: real, dte: int, strike: real,
                                   status: Status, rollAlert: RollAdvice)

  /**
   * `send_monitor_alert`. `delivered` is what the SMTP exchange would
   * report; it is consulted only when an e-mail is composed. `raised` is
   * set when building the report raises.
   */
  method SendMonitorAlert(market: Market, today: int, delivered: bool)
    returns (raised: bool, sent: bool, email: Option<AlertEmail>)
    ensures raised <==> CalculateStatus(market.price, market.optData).ZeroDivision?
    ensures raised ==> !sent && email.None?
    ensures !raised ==>
              var dte := DaysToExpiration(ExpirationDay, today);
              && (email.Some? <==> market.price > PriceThreshold || dte < DteThreshold)
              && (email.None? ==> !sent)
              && (email.Some? ==>
                    && sent == delivered
                    && email.value.reasons == AlertReasons(market.price, dte, PriceThreshold, DteThreshold)
                    && email.value.reasons != [])
  {
    AlertReasonsExact(market.price, DaysToExpiration(ExpirationDay, today), PriceThreshold, DteThreshold);
    var report := GetMonitorData(market, today);
    if report.None? {
      return true, false, None;
    }
    var data := report.value;
    if !data.shouldAlert {
      return false, false, None;
    }
    email := Some(AlertEmail(data.alertReasons, data.currentPrice, data.dte, data.strike, data.status,
                             data.rollAlert));
    raised, sent := false, delivered;
  }
}
