/**
 What every state of a run satisfies: the shape of the trade books, where each cent of
 cash came from, and the pair of decision bars that explains each trade.
 */
module RunInvariant {
  import opened Models
  import opened Costs
  import opened Rollover
  import opened Ledger
  import opened Engine

  // --------------------------------------------------------- the trade books

  predicate Aligned(lot: Lot, live: LiveTrade) {
    && lot.tradeId == live.tradeId
    && lot.position.pair == live.pair
    && lot.position.direction == live.direction
    && lot.position.size == live.size
    && lot.position.entryPrice == live.entryPrice
    && lot.entryCommission == live.entryCommission
  }

  /** The next trade takes the other side, entering at the moment this one exits. */
  predicate Chained(record: TradeRecord, next: LiveTrade) {
    record.exit.Some? && record.trade.direction != next.direction && record.exit.value.time == next.entryTime
  }

  /** A log of closed trades numbered from zero, each chained to the next. */
  predicate ChainedLog(closed: seq<TradeRecord>) {
    && (forall k :: 0 <= k < |closed| ==> closed[k].exit.Some? && closed[k].trade.tradeId == k)
    && (forall k :: 0 <= k < |closed| - 1 ==> Chained(closed[k], closed[k + 1].trade))
  }

  /** At most one lot, mirrored by the live trades; every other trade opened so far is in the log. */
  predicate Shape(pair: string, book: Book, nextId: nat) {
    var lots := book.broker.lots;
    && |lots| == |book.live| <= 1
    && |book.closed| + |lots| == nextId
    && ChainedLog(book.closed)
    && (lots == [] ==> book.broker.swapAcc == map[])
    && (lots != [] ==>
          && Aligned(lots[0], book.live[0])
          && lots[0].tradeId == nextId - 1
          && lots[0].position.pair == pair
          && book.broker.swapAcc == map[lots[0].tradeId := lots[0].swap]
          && (book.closed != [] ==> Chained(book.closed[|book.closed| - 1], book.live[0])))
  }

  // -------------------------------------------------------- where cash went

  /** What a closed trade contributed to cash. */
  function NetOf(record: TradeRecord): real {
    match record.exit
    case Some(exit) => exit.realizedPnl - record.trade.entryCommission - exit.commission + record.swapPaid
    case None => record.swapPaid - record.trade.entryCommission
  }

  function NetOfLog(log: seq<TradeRecord>): real {
    if log == [] then 0.0 else NetOfLog(log[..|log| - 1]) + NetOf(log[|log| - 1])
  }

  function NetOfLots(lots: seq<Lot>): real {
    if lots == [] then 0.0
    else NetOfLots(lots[..|lots| - 1]) + lots[|lots| - 1].swap - lots[|lots| - 1].entryCommission
  }

  predicate CashAccounted(start: real, book: Book) {
    book.broker.cash == start + NetOfLog(book.closed) + NetOfLots(book.broker.lots)
  }

  /** The mid price a fill was made from: friction moves a buy up and a sell down. */
  function EntryMid(model: CostModel, direction: Direction, entryPrice: real): real {
    if direction.Long? then entryPrice - model.FrictionPerUnit() else entryPrice + model.FrictionPerUnit()
  }

  function ExitMid(model: CostModel, direction: Direction, exitPrice: real): real {
    if direction.Long? then exitPrice + model.FrictionPerUnit() else exitPrice - model.FrictionPerUnit()
  }

  /** A trade's profit had it been filled at mid prices, without any cost. */
  function MidPnl(model: CostModel, record: TradeRecord): real {
    match record.exit
    case Some(exit) => Pnl(record.trade.direction, record.trade.size,
                           EntryMid(model, record.trade.direction, record.trade.entryPrice),
                           ExitMid(model, record.trade.direction, exit.price))
    case None => 0.0
  }

  function MidPnlOfLog(model: CostModel, log: seq<TradeRecord>): real {
    if log == [] then 0.0 else MidPnlOfLog(model, log[..|log| - 1]) + MidPnl(model, log[|log| - 1])
  }

  /** The friction an open lot has been charged for but not yet paid out of cash. */
  function UnpaidFriction(model: CostModel, lots: seq<Lot>): real {
    if lots == [] then 0.0
    else UnpaidFriction(model, lots[..|lots| - 1]) + lots[|lots| - 1].position.size * model.FrictionPerUnit()
  }

  predicate CashAttributed(start: real, model: CostModel, book: Book) {
    var costs := book.broker.costs;
    book.broker.cash == start + MidPnlOfLog(model, book.closed)
                        - costs.spread - costs.slippage - costs.commission + costs.swap
                        + UnpaidFriction(model, book.broker.lots)
  }

  function CommissionOfLog(log: seq<TradeRecord>): real {
    if log == [] then 0.0
    else
      var last := log[|log| - 1];
      CommissionOfLog(log[..|log| - 1]) + last.trade.entryCommission
      + (if last.exit.Some? then last.exit.value.commission else 0.0)
  }

  function SwapOfLog(log: seq<TradeRecord>): real {
    if log == [] then 0.0 else SwapOfLog(log[..|log| - 1]) + log[|log| - 1].swapPaid
  }

  function CommissionOfLots(lots: seq<Lot>): real {
    if lots == [] then 0.0 else CommissionOfLots(lots[..|lots| - 1]) + lots[|lots| - 1].entryCommission
  }

  function SwapOfLots(lots: seq<Lot>): real {
    if lots == [] then 0.0 else SwapOfLots(lots[..|lots| - 1]) + lots[|lots| - 1].swap
  }

  /** A charge per unit filled, summed over the fills of the log: one for each entry and one for each exit. */
  function ChargedOnFills(rate: real, log: seq<TradeRecord>): real {
    if log == [] then 0.0
    else
      var last := log[|log| - 1];
      ChargedOnFills(rate, log[..|log| - 1]) + last.trade.size * rate
      + (if last.exit.Some? then last.trade.size * rate else 0.0)
  }

  function ChargedOnEntries(rate: real, lots: seq<Lot>): real {
    if lots == [] then 0.0 else ChargedOnEntries(rate, lots[..|lots| - 1]) + lots[|lots| - 1].position.size * rate
  }

  /** The cost totals are the sums of what each trade was charged. */
  predicate CostsAccounted(model: CostModel, book: Book) {
    && book.broker.costs.spread
         == ChargedOnFills(model.halfSpread, book.closed) + ChargedOnEntries(model.halfSpread, book.broker.lots)
    && book.broker.costs.slippage
         == ChargedOnFills(model.slippagePerUnit, book.closed)
             + ChargedOnEntries(model.slippagePerUnit, book.broker.lots)
    && book.broker.costs.commission == CommissionOfLog(book.closed) + CommissionOfLots(book.broker.lots)
    && book.broker.costs.swap == SwapOfLog(book.closed) + SwapOfLots(book.broker.lots)
  }

  // ------------------------------------------- the decisions behind a trade

  /** Swap charged over the gap between bar i and the next, for a lot held across it. */
  function GapSwap(setup: Setup, direction: Direction, size: real, i: nat): real
    requires i < |setup.bars| - 1
  {
    var from, to := setup.bars[i].time, setup.bars[i + 1].time;
    SwapCharge(setup.model, direction, size, Rollovers(from, to, setup.hour),
               GapMultiplier(from, to, setup.hour, setup.model.weekendMultiplier))
  }

  /** Swap charged over the gaps from bar o up to bar c. */
  function SwapOver(setup: Setup, direction: Direction, size: real, o: nat, c: nat): real
    requires c < |setup.bars|
  {
    if c <= o then 0.0 else SwapOver(setup, direction, size, o, c - 1) + GapSwap(setup, direction, size, c - 1)
  }

  /** The trade was opened by a decision at bar o: filled at the next bar's open, with its cost. */
  predicate OpenedAt(setup: Setup, trade: LiveTrade, o: nat) {
    && o < |setup.bars| - 1
    && Tradeable(setup.model, setup.bars[o + 1].open)
    && trade.entryTime == setup.bars[o + 1].time
    && trade.entryPrice == EntryPrice(trade.direction, setup.bars[o + 1].open, setup.model)
    && trade.entryCommission == CommissionFor(trade.size, setup.model)
  }

  /** The trade was closed by a decision at bar c, having been opened at bar o. */
  predicate ClosedAt(setup: Setup, record: TradeRecord, o: nat, c: nat) {
    && o <= c < |setup.bars| - 1
    && Tradeable(setup.model, setup.bars[c + 1].open)
    && OpenedAt(setup, record.trade, o)
    && record.swapPaid == SwapOver(setup, record.trade.direction, record.trade.size, o, c)
    && record.exit == Some(ExitAt(setup.model, record.trade.direction, record.trade.size, record.trade.entryPrice,
                                  setup.bars[c + 1]))
  }

  /**
   The decision bars of the trades, in order: trade k was opened at ds[k] and, once closed,
   closed at ds[k + 1], where the following trade was opened if there is one.
   */
  predicate ExplainedBy(setup: Setup, t: nat, book: Book, nextId: nat, ds: seq<nat>) {
    && t < |setup.bars|
    && |ds| == (if nextId == 0 then 0 else |book.closed| + 1)
    && (forall k :: 0 <= k < |ds| ==> ds[k] <= t)
    && (forall k :: 0 <= k < |book.closed| && k + 1 < |ds| ==> ClosedAt(setup, book.closed[k], ds[k], ds[k + 1]))
    && (book.broker.lots != [] && book.live != [] && ds != [] ==>
          && OpenedAt(setup, book.live[0], ds[|ds| - 1])
          && book.broker.lots[0].swap == SwapOver(setup, book.live[0].direction, book.live[0].size, ds[|ds| - 1], t))
  }

  // ------------------------------------------------------------ all of it

  ghost predicate SoundBy(setup: Setup, t: nat, book: Book, nextId: nat, ds: seq<nat>)
    requires setup.bars != []
  {
    && Shape(setup.Pair(), book, nextId)
    && CashAccounted(setup.startingBalance, book)
    && CashAttributed(setup.startingBalance, setup.model, book)
    && CostsAccounted(setup.model, book)
    && ExplainedBy(setup, t, book, nextId, ds)
    && MarksTradeable(setup.model, book.broker.marks)
  }

  ghost predicate Sound(setup: Setup, t: nat, book: Book, nextId: nat)
    requires setup.bars != []
  {
    exists ds :: SoundBy(setup, t, book, nextId, ds)
  }

  /** Every decision so far was taken before bar t. */
  predicate DecidedBefore(ds: seq<nat>, t: nat) {
    forall k :: 0 <= k < |ds| ==> ds[k] < t
  }

  /** Bar t only adds decisions of its own to the earlier ones. */
  predicate Grown(earlier: seq<nat>, ds: seq<nat>, t: nat) {
    earlier <= ds && forall k :: |earlier| <= k < |ds| ==> ds[k] == t
  }

  /** Between halts the engine holds a lot as soon as it has opened one. */
  predicate Active(book: Book, nextId: nat) {
    nextId > 0 ==> book.broker.lots != []
  }
}
