/** Signal filtering (main.py, "ML FILTERING", app/ml_model.py).

    Loading the model file and extracting features are not modelled: the
    classifier's verdict on a symbol's feature vector is the oracle
    `classify`, whose answer the source compares with 1. */
module MlModel {
  import opened Signals

  /** ml_filter_signal: WAIT passes through without asking the classifier;
      a trade is kept when the classifier predicts 1 and becomes WAIT for
      any other prediction. */
  function MlFilterSignal(signal: Signal, symbol: string, classify: string -> int): (r: Signal)
    ensures signal.Wait? ==> r == signal
    ensures r == signal || r == Wait
    ensures r.Trade? <==> signal.Trade? && classify(symbol) == 1
  {
    if signal.Wait? then signal
    else if classify(symbol) == 1 then signal
    else Wait
  }

  /** For a WAIT the classifier is never consulted: any two classifiers
      give the same answer, and that answer is WAIT. */
  lemma WaitIgnoresClassifier(symbol: string, c1: string -> int, c2: string -> int)
    ensures MlFilterSignal(Wait, symbol, c1) == MlFilterSignal(Wait, symbol, c2) == Wait
  {
  }

  /** The filter keeps a well-formed proposal well-formed. */
  lemma FilterPreservesWellFormed(signal: Signal, symbol: string, classify: string -> int)
    requires WellFormed(signal)
    ensures WellFormed(MlFilterSignal(signal, symbol, classify))
  {
  }

  /** Filtering twice with the same classifier is the same as once. */
  lemma FilterIdempotent(signal: Signal, symbol: string, classify: string -> int)
    ensures MlFilterSignal(MlFilterSignal(signal, symbol, classify), symbol, classify)
         == MlFilterSignal(signal, symbol, classify)
  {
  }
}
