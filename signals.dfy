/** Signal synthesis (main.py, "SIGNAL GENERATION", app/signals.py).

    The bar data and the three pattern detectors are not modelled: what
    they report about the bars of one (symbol, timeframe) pair is the
    Detection value handed to GenerateSignal. */
module Signals {

  /** Direction of a trade. The source only ever proposes Buy; Sell is here
      because the order payload maps every action other than BUY to a sell. */
  datatype Side = Buy | Sell

  /** A signal dict: a trade proposal with its stop loss and take profit in
      pips and the pip value, or WAIT (a dict holding only the action). */
  datatype Signal =
    | Trade(side: Side, sl: real, tp: real, pipValue: real)
    | Wait

  /** What the order-block, break-of-structure and fair-value-gap detectors
      report for one bar sequence. */
  datatype Detection = Detection(orderBlock: bool, breakOfStructure: bool, fairValueGap: bool)

  /** The fixed levels every BUY proposal carries. */
  const StopLossPips: real := 50.0
  const TakeProfitPips: real := 100.0
  const PipValue: real := 1.0

  /** The string the source keeps under the "action" key. */
  function ActionName(s: Signal): (name: string)
    ensures name == "WAIT" <==> s.Wait?
    ensures name == "BUY" <==> s.Trade? && s.side == Buy
  {
    match s
    case Wait => "WAIT"
    case Trade(Buy, _, _, _) => "BUY"
    case Trade(Sell, _, _, _) => "SELL"
  }

  /** A trade proposal carries positive stop loss, take profit and pip value. */
  predicate WellFormed(s: Signal) {
    s.Trade? ==> 0.0 < s.sl && 0.0 < s.tp && 0.0 < s.pipValue
  }

  /** generate_signal: BUY with the fixed levels exactly when all three
      detectors fire, WAIT otherwise. */
  function GenerateSignal(d: Detection): (s: Signal)
    ensures s.Trade? <==> d.orderBlock && d.breakOfStructure && d.fairValueGap
    ensures s.Trade? ==> s.side == Buy && s.sl == 50.0 && s.tp == 100.0 && s.pipValue == 1.0
    ensures WellFormed(s)
  {
    if d.breakOfStructure && d.fairValueGap && d.orderBlock then
      Trade(Buy, StopLossPips, TakeProfitPips, PipValue)
    else
      Wait
  }

  /** A missing structural condition always gives WAIT, whichever one it is. */
  lemma MissingConditionWaits(d: Detection)
    requires !d.orderBlock || !d.breakOfStructure || !d.fairValueGap
    ensures GenerateSignal(d) == Wait
  {
  }

  /** The synthesizer never proposes a short trade. */
  lemma NeverSells(d: Detection)
    ensures ActionName(GenerateSignal(d)) != "SELL"
  {
  }
}
