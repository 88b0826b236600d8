/** Order placement (main.py, "TRADE EXECUTOR", app/trade_executor.py).

    Only the JSON payload is modelled. The HTTP POST to the broker, with its
    authorization header, is the oracle `broker`, and its decoded JSON reply
    is the opaque value it returns. */
module TradeExecutor {

  /** The payload dict: symbol, "buy"/"sell" type, volume, sl and tp. */
  datatype OrderPayload = OrderPayload(symbol: string, orderType: string, volume: real, sl: real, tp: real)

  /** The payload place_trade builds: "buy" exactly for the action BUY, and
      "sell" for every other action string; the numbers pass through. */
  function BuildPayload(symbol: string, action: string, lot: real, stopLoss: real, takeProfit: real): (p: OrderPayload)
    ensures p.orderType == "buy" <==> action == "BUY"
    ensures p.orderType == "sell" <==> action != "BUY"
    ensures p.symbol == symbol && p.volume == lot && p.sl == stopLoss && p.tp == takeProfit
  {
    OrderPayload(symbol, if action == "BUY" then "buy" else "sell", lot, stopLoss, takeProfit)
  }

  /** place_trade: send the payload and return the broker's reply. */
  function PlaceTrade<R>(symbol: string, action: string, lot: real, stopLoss: real, takeProfit: real,
                         broker: OrderPayload -> R): (reply: R)
    ensures reply == broker(OrderPayload(symbol, if action == "BUY" then "buy" else "sell", lot, stopLoss, takeProfit))
  {
    broker(BuildPayload(symbol, action, lot, stopLoss, takeProfit))
  }

  /** Distinct actions other than BUY are indistinguishable in the payload. */
  lemma NonBuyActionsAllSell(symbol: string, a1: string, a2: string, lot: real, stopLoss: real, takeProfit: real)
    requires a1 != "BUY" && a2 != "BUY"
    ensures BuildPayload(symbol, a1, lot, stopLoss, takeProfit) == BuildPayload(symbol, a2, lot, stopLoss, takeProfit)
  {
  }
}
