/** The decision flow of the POST /trade handler trade_logic (main.py).

    Routing, request parsing and the mapping of exceptions to an HTTP 500
    are not modelled. The pattern detectors, the classifier and the broker
    are parameters: `detection` is what the detectors report for the
    request's symbol and timeframe, `classify` the model's prediction for a
    symbol, and `broker` the reply to a posted payload. */
module TradeApi {
  import opened Signals
  import opened MlModel
  import opened LotSizing
  import opened TradeExecutor

  /** The request body: symbol, timeframe and account balance. */
  datatype TradeRequest = TradeRequest(symbol: string, timeframe: string, accountBalance: real)

  /** {"status": "no_trade"} or {"status": "executed", "details": reply}. */
  datatype Response<R> = NoTrade | Executed(details: R)

  /** Percentage of the balance risked on every trade. */
  const RiskPct: real := 1.5

  /** The payload sent for a filtered trade signal: the action, sl and tp of
      the signal and the lot sized at RiskPct. */
  function OrderFor(symbol: string, balance: real, filtered: Signal): (p: OrderPayload)
    requires filtered.Trade? && filtered.sl * filtered.pipValue != 0.0
    ensures p.symbol == symbol && p.sl == filtered.sl && p.tp == filtered.tp
    ensures p.volume == CalculateLotSize(balance, RiskPct, filtered.sl, filtered.pipValue)
    ensures p.orderType == "buy" <==> filtered.side == Buy
    ensures p.orderType == "sell" <==> filtered.side == Sell
  {
    var lot := CalculateLotSize(balance, RiskPct, filtered.sl, filtered.pipValue);
    BuildPayload(symbol, ActionName(filtered), lot, filtered.sl, filtered.tp)
  }

  /** trade_logic: generate, filter, and place an order only when the
      filtered action is not WAIT. */
  function TradeLogic<R>(req: TradeRequest, detection: Detection, classify: string -> int,
                         broker: OrderPayload -> R): (resp: Response<R>)
    ensures var filtered := MlFilterSignal(GenerateSignal(detection), req.symbol, classify);
            && (resp.NoTrade? <==> filtered.Wait?)
            && (resp.Executed? ==> resp.details == broker(OrderFor(req.symbol, req.accountBalance, filtered)))
  {
    var signal := GenerateSignal(detection);
    var filtered := MlFilterSignal(signal, req.symbol, classify);
    if ActionName(filtered) != "WAIT" then
      var lot := CalculateLotSize(req.accountBalance, RiskPct, filtered.sl, filtered.pipValue);
      Executed(PlaceTrade(req.symbol, ActionName(filtered), lot, filtered.sl, filtered.tp, broker))
    else
      NoTrade
  }

  /** End to end: an order is placed exactly when all three detectors fire
      and the classifier predicts 1, and it is then a buy of the balance's
      0.03% rounded to the nearest hundredth, with sl 50 and tp 100. */
  lemma TradeLogicEndToEnd<R>(req: TradeRequest, detection: Detection, classify: string -> int,
                                                 broker: OrderPayload -> R)
    ensures TradeLogic(req, detection, classify, broker).Executed? <==>
            detection.orderBlock && detection.breakOfStructure && detection.fairValueGap && classify(req.symbol) == 1
    ensures TradeLogic(req, detection, classify, broker).Executed? ==>
            TradeLogic(req, detection, classify, broker).details
            == broker(OrderPayload(req.symbol, "buy", Round2(req.accountBalance * 0.0003), 50.0, 100.0))
  {
  }

  /** When no order is placed the broker is never reached: the response is
      the same for every broker. */
  lemma NoTradeIgnoresBroker<R>(req: TradeRequest, detection: Detection, classify: string -> int,
                                b1: OrderPayload -> R, b2: OrderPayload -> R)
    requires MlFilterSignal(GenerateSignal(detection), req.symbol, classify).Wait?
    ensures TradeLogic(req, detection, classify, b1) == TradeLogic(req, detection, classify, b2) == NoTrade
  {
  }

  /** A placed order never has a negative volume when the balance is not
      negative. */
  lemma PlacedVolumeNonNegative(req: TradeRequest, detection: Detection, classify: string -> int)
    requires 0.0 <= req.accountBalance
    requires MlFilterSignal(GenerateSignal(detection), req.symbol, classify).Trade?
    ensures 0.0 <= OrderFor(req.symbol, req.accountBalance, MlFilterSignal(GenerateSignal(detection), req.symbol, classify)).volume
  {
  }

  /** The handler does not skip a lot that rounds to zero: a balance of 10
      with every detector firing and a prediction of 1 sends a zero-volume
      buy. */
  lemma ZeroVolumeOrderIsSent<R>(symbol: string, timeframe: string, classify: string -> int, broker: OrderPayload -> R)
    requires classify(symbol) == 1
    ensures TradeLogic(TradeRequest(symbol, timeframe, 10.0), Detection(true, true, true), classify, broker)
            == Executed(broker(OrderPayload(symbol, "buy", 0.0, 50.0, 100.0)))
  {
  }
}
