/** One position record shared by backtest, paper and live (execution/book.py). */
module Book {
  import opened Stops

  datatype PendingAction = PendingHalve | PendingExit

  /** `pendingExits`, `pendingAction` and `pendingQty` are the daemon's optional keys,
      `lastMark` the backtest runner's. */
  datatype PositionMeta = PositionMeta(
    qty: int,
    entryPrice: real,
    peakPrice: real,
    entryScore: real,
    currentScore: real,
    barsHeld: int,
    setup: Setup,
    halved: bool,
    entryCommission: real,
    lastMark: Option<real>,
    pendingExits: seq<nat>,
    pendingAction: Option<PendingAction>,
    pendingQty: Option<int>)

  /** What a fill opens. The entry price is also the first peak, and nothing has happened to it yet. */
  function NewPositionMeta(qty: int, entryPrice: real, score: real, setup: Setup, commission: real): PositionMeta {
    PositionMeta(qty, entryPrice, entryPrice, score, score, 0, setup, false, commission, None, [], None, None)
  }

  datatype Realized = Realized(usd: real, pctReturn: real)

  function RealizedPnl(meta: PositionMeta, qty: int, fillPrice: real, sellCommission: real): Realized {
    var gross := (fillPrice - meta.entryPrice) * qty as real;
    var usd := gross - meta.entryCommission * qty as real - sellCommission;
    var basis := meta.entryPrice * qty as real;
    Realized(usd, if basis > 0.0 then usd / basis else 0.0)
  }
}
