/** The cut-down POST /trade handler `trade` (trading-bot/app/main.py): the
    same generate, filter, size and place sequence as trade_logic, with the
    risk percentage written as the literal 1.5 and no exception handler. */
module AppMain {
  import opened Signals
  import opened MlModel
  import opened LotSizing
  import opened TradeExecutor
  import TradeApi

  /** trade: the filtered signal decides; a non-WAIT action is sized at 1.5%
      and sent with its own action, sl and tp, and the broker's reply is
      returned as the details. */
  function Trade<R>(req: TradeApi.TradeRequest, detection: Detection, classify: string -> int,
                    broker: OrderPayload -> R): (resp: TradeApi.Response<R>)
    ensures var filtered := MlFilterSignal(GenerateSignal(detection), req.symbol, classify);
            && (resp.NoTrade? <==> ActionName(filtered) == "WAIT")
            && (resp.Executed? ==>
                  && filtered.sl * filtered.pipValue != 0.0
                  && resp.details == broker(BuildPayload(req.symbol, ActionName(filtered),
                                                         CalculateLotSize(req.accountBalance, 1.5, filtered.sl, filtered.pipValue),
                                                         filtered.sl, filtered.tp)))
  {
    var signal := GenerateSignal(detection);
    var filtered := MlFilterSignal(signal, req.symbol, classify);
    if ActionName(filtered) != "WAIT" then
      var lot := CalculateLotSize(req.accountBalance, 1.5, filtered.sl, filtered.pipValue);
      var result := PlaceTrade(req.symbol, ActionName(filtered), lot, filtered.sl, filtered.tp, broker);
      TradeApi.Executed(result)
    else
      TradeApi.NoTrade
  }

  /** The cut-down handler answers every request exactly as trade_logic does. */
  lemma TradeAgreesWithTradeLogic<R>(req: TradeApi.TradeRequest, detection: Detection, classify: string -> int,
                                     broker: OrderPayload -> R)
    ensures Trade(req, detection, classify, broker) == TradeApi.TradeLogic(req, detection, classify, broker)
  {
  }
}
