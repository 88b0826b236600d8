# Trading bot: signal-to-order decision path

A Dafny model of the decision path of a small FastAPI trading bot. A POST to
`/trade` runs these steps:

1. It asks three price-action detectors (order block, break of structure,
   fair-value gap) about the bars of a symbol and timeframe.
2. It turns their answers into a BUY proposal with fixed levels (stop loss 50
   pips, take profit 100 pips, pip value 1) or into WAIT.
3. A classifier can veto the proposal.
4. It sizes a lot that risks 1.5% of the account balance.
5. It posts a buy/sell order payload to the broker and returns the broker's
   reply as the response details.

The path exists twice in the source: in full in `main.py` (`trade_logic`) and
as a cut-down copy in `trading-bot/app/main.py` (`trade`). Lot sizing lives in
`trading-bot/app/lot_sizing.py` and is repeated in `main.py`.

Every piece is pure, so the model uses datatypes, functions and lemmas:

- `signals.dfy` (module `Signals`): the `Signal` and `Detection` values, `GenerateSignal`.
- `ml_model.dfy` (module `MlModel`): `MlFilterSignal`.
- `lot_sizing.dfy` (module `LotSizing`): Python's `round(x, 2)` on reals, and `CalculateLotSize`.
- `trade_executor.dfy` (module `TradeExecutor`): the order payload.
- `trade_api.dfy` (module `TradeApi`): `trade_logic`.
- `app_main.dfy` (module `AppMain`): `trade`, proved to agree with `trade_logic`.

Outside collaborators are parameters:

- The detectors' verdicts are a `Detection` value of three booleans.
- The classifier is a function `classify: string -> int` from the symbol to the
  prediction. It stands for feature extraction followed by `model.predict`.
- The broker is a function `broker: OrderPayload -> R`. It stands for the HTTP
  POST, and its reply is opaque.

Python's `round(x, 2)` is modelled on exact reals. The result is the nearest
multiple of 0.01, and a tie goes to the even number of hundredths (`Round2`).

The code as written:

- sends a lot that rounds to 0.00 as a zero-volume order (`ZeroVolumeOrderIsSent`);
- divides by stop loss × pip value without a check, so a zero product raises
  ZeroDivisionError, which `trade_logic` turns into an HTTP 500; the model
  makes a non-zero product a precondition of `CalculateLotSize`;
- never proposes a SELL;
- posts each order once, with no idempotency token and no retry.

## Model

| member | source | states |
|---|---|---|
| Signals.ActionName | main.py:88-89 | the action string is "WAIT" exactly for WAIT and "BUY" exactly for a buy proposal |
| Signals.GenerateSignal | main.py:81-89 | a proposal is made exactly when order block, break of structure and fair-value gap all hold; it is then a BUY with sl 50, tp 100 and pip value 1, all positive |
| Signals.MissingConditionWaits | main.py:87-89 | if any one of the three conditions is missing, the signal is WAIT |
| Signals.NeverSells | main.py:87-89 | the synthesizer never proposes a SELL |
| MlModel.MlFilterSignal | main.py:100-105 | WAIT comes back unchanged; the result is the input signal or WAIT; it is a trade exactly when the input is a trade and the prediction is 1 |
| MlModel.WaitIgnoresClassifier | main.py:101-102 | for WAIT the result is WAIT whatever the classifier would say, so it is never consulted |
| MlModel.FilterPreservesWellFormed | main.py:105 | a proposal with positive sl, tp and pip value still has them after filtering |
| MlModel.FilterIdempotent | main.py:100-105 | filtering an already filtered signal with the same classifier changes nothing |
| LotSizing.RoundHalfEven | trading-bot/app/lot_sizing.py:3 | the result is an integer within 1/2 of the input, and an even one on a tie |
| LotSizing.Round2 | trading-bot/app/lot_sizing.py:3 | round(x, 2) is a whole number of hundredths within 0.005 of x, and an even number of hundredths on a tie |
| LotSizing.Round2Unique | trading-bot/app/lot_sizing.py:3 | those three conditions determine round(x, 2) uniquely |
| LotSizing.Round2Idempotent | trading-bot/app/lot_sizing.py:3 | a value that is already a whole number of hundredths is unchanged by rounding |
| LotSizing.Round2Monotone | trading-bot/app/lot_sizing.py:3 | rounding keeps the order of two amounts |
| LotSizing.Round2NonNegative | trading-bot/app/lot_sizing.py:3 | a non-negative amount rounds to a non-negative one |
| LotSizing.RiskAmount | trading-bot/app/lot_sizing.py:2 | the risk amount is balance × risk_pct / 100, and is non-negative when both are |
| LotSizing.CalculateLotSize | trading-bot/app/lot_sizing.py:1-3 | defined whenever stop_loss_pips × pip_value ≠ 0; the lot is a multiple of 0.01 within 0.005 of balance × risk_pct / 100 / (stop_loss_pips × pip_value), an even number of hundredths on a tie |
| LotSizing.LotSizeNonNegative | trading-bot/app/lot_sizing.py:2-3 | non-negative balance and risk with positive sl and pip value give a non-negative lot |
| LotSizing.ExactLotMonotoneInBalance | trading-bot/app/lot_sizing.py:2-3 | the unrounded lot does not decrease as the balance grows (fixed positive sl, pip value, non-negative risk) |
| LotSizing.ExactLotMonotoneInRisk | trading-bot/app/lot_sizing.py:2-3 | the unrounded lot does not decrease as risk_pct grows (fixed positive sl, pip value, non-negative balance) |
| LotSizing.LotSizeMonotoneInBalance | trading-bot/app/lot_sizing.py:2-3 | the rounded lot also does not decrease as the balance grows |
| LotSizing.LotSizeExample | main.py:109-112 | balance 5000, risk 1.5, sl 50, pip value 1 give a lot of 1.50 |
| LotSizing.LotSizeRoundsToZero | main.py:109-112 | balance 10, risk 1.5, sl 50, pip value 1 give a lot of 0.00 |
| TradeExecutor.BuildPayload | main.py:120-127 | type is "buy" exactly when the action is BUY and "sell" otherwise; symbol, volume, sl and tp are passed through unchanged |
| TradeExecutor.PlaceTrade | main.py:120-129 | the reply is the broker's answer to the payload {symbol, type "buy" for BUY and "sell" otherwise, volume lot, sl, tp} |
| TradeExecutor.NonBuyActionsAllSell | main.py:123 | any two non-BUY actions give the same payload |
| TradeApi.OrderFor | main.py:50-62 | the order for a filtered trade has its sl and tp, the lot sized from the balance at 1.5% with its sl and pip value, type "buy" exactly for a buy and "sell" exactly for a sell |
| TradeApi.TradeLogic | main.py:44-64 | no_trade exactly when the filtered signal is WAIT; otherwise "executed" with the broker's reply to the order built from the filtered signal |
| TradeApi.TradeLogicEndToEnd | main.py:46-63 | an order is placed exactly when all three detectors fire and the prediction is 1; it is then a buy of round(balance × 0.0003, 2) lots with sl 50 and tp 100 |
| TradeApi.NoTradeIgnoresBroker | main.py:49-64 | when the filtered signal is WAIT the response is no_trade for every broker: nothing is sent |
| TradeApi.PlacedVolumeNonNegative | main.py:50-55 | with a non-negative balance a placed order never has negative volume |
| TradeApi.ZeroVolumeOrderIsSent | main.py:49-63 | a balance of 10 still sends a buy order, of volume 0.00 |
| AppMain.Trade | trading-bot/app/main.py:16-23 | the filter is applied to the generated signal; no_trade exactly when the filtered action is WAIT; otherwise the details are the broker's reply to the filtered action, sl and tp and the lot sized at 1.5% from the filtered sl and pip value |
| AppMain.TradeAgreesWithTradeLogic | trading-bot/app/main.py:16-23 | the cut-down handler gives the same response as trade_logic for every request, detector verdict, classifier and broker, on the path where nothing raises |

## Left out

- FastAPI routing, the `GET /` health probe and pydantic request parsing are
  web-framework plumbing. So is the HTTP 500 that `trade_logic` raises for any
  exception.
- `requests.post` to the broker endpoint, its bearer-token header and JSON
  decoding are network I/O. The broker is the `broker` parameter, and its reply
  is opaque.
- Loading the classifier with `joblib.load` and calling `model.predict` are
  foreign library calls. `extract_features` returns a constant vector. All
  three together are the `classify` parameter.
- `load_ohlcv` and the three detectors are stubs that return an empty frame or
  `True`. Their verdicts are the `Detection` input.
- Python floats: amounts are exact reals. `round` is modelled as rounding the
  exact value half-to-even. Binary representation error is not modelled.
- LotSizing.CalculateLotSize: does not model the ZeroDivisionError raised when
  stop_loss_pips × pip_value is 0. It is a precondition instead. Both handlers
  always pass 50 × 1, so the error cannot arise on their path.
- AppMain.TradeAgreesWithTradeLogic: covers only the path where nothing
  raises. When the classifier or the broker raises, `trade_logic` answers
  HTTPException(500) with the exception text as detail (main.py:65-66), while
  `trade` has no handler and FastAPI's plain 500 comes back. Exceptions are
  not modelled.
- The commented React, Docker and requirements sections and the hard-coded
  credentials carry no logic.
