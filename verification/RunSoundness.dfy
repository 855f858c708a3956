/** Every operation the bar loop performs keeps the run invariant, hence so does every run. */
module RunSoundness {
  import opened Models
  import opened RiskGate
  import opened Costs
  import opened Rollover
  import opened Ledger
  import opened Engine
  import opened RunInvariant

  // ------------------------------------------------------------- arithmetic

  /** Buying above and selling below the mid loses the friction once on each side. */
  lemma FillsLoseFriction(model: CostModel, direction: Direction, size: real, entryPrice: real, exitPrice: real)
    ensures Pnl(direction, size, entryPrice, exitPrice)
         == Pnl(direction, size, EntryMid(model, direction, entryPrice), ExitMid(model, direction, exitPrice))
            - 2.0 * (size * model.FrictionPerUnit())
  {
    var friction := model.FrictionPerUnit();
    var gross := if direction.Long? then exitPrice - entryPrice else entryPrice - exitPrice;
    assert Pnl(direction, size, entryPrice, exitPrice) == gross * size;
    assert Pnl(direction, size, EntryMid(model, direction, entryPrice), ExitMid(model, direction, exitPrice))
        == (gross + 2.0 * friction) * size;
    Distribute(gross, 2.0 * friction, size);
  }

  /** One fill adds its friction and its commission to the totals, and no swap. */
  lemma FillCosts(costs: CostTotals, size: real, model: CostModel)
    ensures var after := AddFill(costs, size, model);
            && after.spread == costs.spread + size * model.halfSpread
            && after.slippage == costs.slippage + size * model.slippagePerUnit
            && after.spread + after.slippage == costs.spread + costs.slippage + size * model.FrictionPerUnit()
            && after.commission == costs.commission + CommissionFor(size, model)
            && after.swap == costs.swap
  {
  }

  // ------------------------------------------------------------- opening

  lemma OpenKeepsBooks(setup: Setup, t: nat, book: Book, nextId: nat, ds: seq<nat>, order: Order, next: Candle)
    requires setup.bars != [] && Shape(setup.Pair(), book, nextId) && book.broker.lots == []
    requires order.pair == setup.Pair() && Tradeable(setup.model, next.open)
    requires book.closed != [] ==>
               var last := book.closed[|book.closed| - 1];
               last.trade.direction != order.direction && last.exit.value.time == next.time
    ensures Shape(setup.Pair(), OpenTrade(setup.model, book, order, next, nextId), nextId + 1)
  {
    hide CommissionFor;
  }

  lemma OpenKeepsCash(start: real, model: CostModel, book: Book, order: Order, next: Candle, tradeId: nat)
    requires Tradeable(model, next.open) && book.broker.lots == []
    requires CashAccounted(start, book) && CashAttributed(start, model, book)
    ensures CashAccounted(start, OpenTrade(model, book, order, next, tradeId))
    ensures CashAttributed(start, model, OpenTrade(model, book, order, next, tradeId))
  {
    var lot := NewLot(model, order, next, tradeId);
    FillCosts(book.broker.costs, order.size, model);
    hide CommissionFor, AddFill;
    assert book.broker.lots + [lot] == [lot];
    assert [lot][..0] == [];
    assert NetOfLots([lot]) == lot.swap - lot.entryCommission;
    assert UnpaidFriction(model, [lot]) == order.size * model.FrictionPerUnit();
  }

  lemma EntryCharges(rate: real, lot: Lot)
    ensures ChargedOnEntries(rate, [lot]) == lot.position.size * rate && ChargedOnEntries(rate, []) == 0.0
  {
    assert [lot][..0] == [];
  }

  lemma OpenKeepsCosts(model: CostModel, book: Book, order: Order, next: Candle, tradeId: nat)
    requires Tradeable(model, next.open) && book.broker.lots == [] && CostsAccounted(model, book)
    ensures CostsAccounted(model, OpenTrade(model, book, order, next, tradeId))
  {
    var lot := NewLot(model, order, next, tradeId);
    FillCosts(book.broker.costs, order.size, model);
    hide CommissionFor, AddFill;
    assert book.broker.lots + [lot] == [lot] && [lot][..0] == [];
    assert CommissionOfLots([lot]) == lot.entryCommission && SwapOfLots([lot]) == 0.0;
    EntryCharges(model.halfSpread, lot);
    EntryCharges(model.slippagePerUnit, lot);
  }

  lemma OpenKeepsExplanation(setup: Setup, t: nat, book: Book, nextId: nat, ds: seq<nat>, order: Order)
    requires ValidSetup(setup) && t < |setup.bars| - 1
    requires ExplainedBy(setup, t, book, nextId, ds) && book.broker.lots == [] && book.live == []
    requires |book.closed| == nextId && (book.closed != [] ==> ds[|ds| - 1] == t)
    ensures ExplainedBy(setup, t, OpenTrade(setup.model, book, order, setup.bars[t + 1], nextId), nextId + 1,
                        if nextId == 0 then [t] else ds)
  {
    hide CommissionFor, AddFill, ClosedAt;
    var after := OpenTrade(setup.model, book, order, setup.bars[t + 1], nextId);
    assert OpenedAt(setup, after.live[0], t);
    assert after.broker.lots[0].swap == 0.0 == SwapOver(setup, after.live[0].direction, after.live[0].size, t, t);
  }

  lemma OpenSound(setup: Setup, t: nat, book: Book, nextId: nat, ds: seq<nat>, order: Order)
    requires ValidSetup(setup) && t < |setup.bars| - 1
    requires SoundBy(setup, t, book, nextId, ds) && book.broker.lots == []
    requires order.pair == setup.Pair()
    requires book.closed != [] ==>
               var last := book.closed[|book.closed| - 1];
               && last.trade.direction != order.direction && last.exit.value.time == setup.bars[t + 1].time
               && ds[|ds| - 1] == t
    ensures SoundBy(setup, t, OpenTrade(setup.model, book, order, setup.bars[t + 1], nextId), nextId + 1,
                    if nextId == 0 then [t] else ds)
  {
    hide CommissionFor, AddFill, CashAccounted, CashAttributed, CostsAccounted, ExplainedBy, OpenTrade;
    var next := setup.bars[t + 1];
    OpenKeepsCosts(setup.model, book, order, next, nextId);
    OpenKeepsBooks(setup, t, book, nextId, ds, order, next);
    OpenKeepsCash(setup.startingBalance, setup.model, book, order, next, nextId);
    OpenKeepsExplanation(setup, t, book, nextId, ds, order);
  }

  // ------------------------------------------------------------- closing

  /** Closing the only lot logs its trade, with the swap the lot accumulated, and leaves nothing held. */
  lemma CloseForm(pair: string, model: CostModel, book: Book, nextId: nat, next: Candle)
    requires Shape(pair, book, nextId) && book.broker.lots != [] && Tradeable(model, next.open)
    ensures var live := book.live[0];
            var exit := ExitAt(model, live.direction, live.size, live.entryPrice, next);
            var after := CloseTrade(model, book, 0, next);
            && after.closed == book.closed + [TradeRecord(live, book.broker.lots[0].swap, Some(exit))]
            && after.broker.lots == [] && after.live == [] && after.broker.swapAcc == map[]
            && after.broker.cash == book.broker.cash + exit.realizedPnl - exit.commission
            && after.broker.realizedToday == book.broker.realizedToday + exit.realizedPnl - exit.commission
            && after.broker.costs == AddFill(book.broker.costs, live.size, model)
  {
    hide CommissionFor, AddFill, Pnl;
  }

  lemma CloseKeepsBooks(pair: string, model: CostModel, book: Book, nextId: nat, next: Candle)
    requires Shape(pair, book, nextId) && book.broker.lots != [] && Tradeable(model, next.open)
    ensures Shape(pair, CloseTrade(model, book, 0, next), nextId)
  {
    CloseForm(pair, model, book, nextId, next);
    hide CloseTrade, AddFill, CommissionFor, Pnl;
  }

  lemma CloseKeepsCash(start: real, pair: string, model: CostModel, book: Book, nextId: nat, next: Candle)
    requires Shape(pair, book, nextId) && book.broker.lots != [] && Tradeable(model, next.open)
    requires CashAccounted(start, book) && CashAttributed(start, model, book)
    ensures CashAccounted(start, CloseTrade(model, book, 0, next))
    ensures CashAttributed(start, model, CloseTrade(model, book, 0, next))
  {
    hide CloseTrade, AddFill, CommissionFor, Pnl, EntryMid, ExitMid, CostModel.FrictionPerUnit;
    CloseForm(pair, model, book, nextId, next);
    var after := CloseTrade(model, book, 0, next);
    var live, lots := book.live[0], book.broker.lots;
    var record := after.closed[|book.closed|];
    FillCosts(book.broker.costs, live.size, model);
    FillsLoseFriction(model, live.direction, live.size, live.entryPrice, record.exit.value.price);
    assert lots[..0] == [] && after.closed[..|book.closed|] == book.closed;
    assert NetOfLots(lots) == lots[0].swap - lots[0].entryCommission;
    assert UnpaidFriction(model, lots) == live.size * model.FrictionPerUnit();
    var friction := live.size * model.FrictionPerUnit();
    assert MidPnlOfLog(model, after.closed) == MidPnlOfLog(model, book.closed) + MidPnl(model, record);
    assert NetOfLog(after.closed) == NetOfLog(book.closed) + NetOf(record);
  }

  lemma CloseKeepsCosts(pair: string, model: CostModel, book: Book, nextId: nat, next: Candle)
    requires Shape(pair, book, nextId) && book.broker.lots != [] && Tradeable(model, next.open)
         && CostsAccounted(model, book)
    ensures CostsAccounted(model, CloseTrade(model, book, 0, next))
  {
    CloseForm(pair, model, book, nextId, next);
    var after, lots := CloseTrade(model, book, 0, next), book.broker.lots;
    FillCosts(book.broker.costs, book.live[0].size, model);
    EntryCharges(model.halfSpread, lots[0]);
    EntryCharges(model.slippagePerUnit, lots[0]);
    hide CloseTrade, AddFill, CommissionFor, Pnl, ChargedOnEntries;
    assert lots == [lots[0]];
    assert lots[..0] == [] && after.closed[..|book.closed|] == book.closed;
    assert CommissionOfLots(lots) == lots[0].entryCommission && SwapOfLots(lots) == lots[0].swap;
  }

  lemma CloseSound(setup: Setup, t: nat, book: Book, nextId: nat, ds: seq<nat>)
    requires ValidSetup(setup) && t < |setup.bars| - 1
    requires SoundBy(setup, t, book, nextId, ds) && book.broker.lots != []
    ensures SoundBy(setup, t, CloseTrade(setup.model, book, 0, setup.bars[t + 1]), nextId, ds + [t])
  {
    var next := setup.bars[t + 1];
    CloseForm(setup.Pair(), setup.model, book, nextId, next);
    CloseKeepsBooks(setup.Pair(), setup.model, book, nextId, next);
    CloseKeepsCash(setup.startingBalance, setup.Pair(), setup.model, book, nextId, next);
    CloseKeepsCosts(setup.Pair(), setup.model, book, nextId, next);
    var after := CloseTrade(setup.model, book, 0, next);
    hide CloseTrade, AddFill, CommissionFor, Pnl, CashAccounted, CashAttributed, CostsAccounted;
    assert ClosedAt(setup, after.closed[|book.closed|], ds[|ds| - 1], t);
  }

  // ---------------------------------------------------------------- swap

  lemma NoRolloversNoSwap(model: CostModel, direction: Direction, size: real, multiplier: int)
    ensures SwapCharge(model, direction, size, 0, multiplier) == 0.0
  {
    assert size * SwapRate(direction, model) * 0 as real == 0.0;
  }

  lemma SwapForm(setup: Setup, t: nat, b: Broker)
    requires ValidSetup(setup) && t < |setup.bars| - 1 && |b.lots| == 1
    requires b.swapAcc == map[b.lots[0].tradeId := b.lots[0].swap]
    ensures var lot := b.lots[0];
            var charge := GapSwap(setup, lot.position.direction, lot.position.size, t);
            var after := ApplySwap(setup.model, setup.hour, b, setup.bars[t], setup.bars[t + 1]);
            after == b.(cash := b.cash + charge,
                        lots := [lot.(swap := lot.swap + charge)],
                        swapAcc := map[lot.tradeId := lot.swap + charge],
                        costs := b.costs.(swap := b.costs.swap + charge))
  {
    hide SwapCharge, GapMultiplier, Rollovers;
    var from, to, lot := setup.bars[t].time, setup.bars[t + 1].time, b.lots[0];
    var rollovers, multiplier :=
        Rollovers(from, to, setup.hour), GapMultiplier(from, to, setup.hour, setup.model.weekendMultiplier);
    NoRolloversNoSwap(setup.model, lot.position.direction, lot.position.size, multiplier);
    assert ChargeFirstLots(setup.model, b, 0, rollovers, multiplier) == b;
    assert ChargeFirstLots(setup.model, b, 1, rollovers, multiplier)
        == ChargeLot(setup.model, b, 0, rollovers, multiplier);
    assert b.lots == [lot];
    assert lot.swap + 0.0 == lot.swap;
    if rollovers == 0 {
      var after := ApplySwap(setup.model, setup.hour, b, setup.bars[t], setup.bars[t + 1]);
      assert after == b;
      assert lot.(swap := lot.swap + 0.0) == lot;
      assert b.costs.(swap := b.costs.swap + 0.0) == b.costs;
    }
  }

  /** Charging swap to the only lot moves its net and its swap, and no other sum. */
  lemma SwapKeepsSums(model: CostModel, lot: Lot, charge: real)
    ensures var before, after := [lot], [lot.(swap := lot.swap + charge)];
            && NetOfLots(after) == NetOfLots(before) + charge
            && SwapOfLots(after) == SwapOfLots(before) + charge
            && CommissionOfLots(after) == CommissionOfLots(before)
            && UnpaidFriction(model, after) == UnpaidFriction(model, before)
            && ChargedOnEntries(model.halfSpread, after) == ChargedOnEntries(model.halfSpread, before)
            && ChargedOnEntries(model.slippagePerUnit, after) == ChargedOnEntries(model.slippagePerUnit, before)
  {
    var after := lot.(swap := lot.swap + charge);
    assert [lot][..0] == [] && [after][..0] == [];
    EntryCharges(model.halfSpread, lot);
    EntryCharges(model.slippagePerUnit, lot);
    EntryCharges(model.halfSpread, after);
    EntryCharges(model.slippagePerUnit, after);
  }

  lemma SwapSound(setup: Setup, t: nat, book: Book, nextId: nat, ds: seq<nat>)
    requires ValidSetup(setup) && t < |setup.bars| - 1
    requires SoundBy(setup, t, book, nextId, ds)
    ensures var charged := ApplySwap(setup.model, setup.hour, book.broker, setup.bars[t], setup.bars[t + 1]);
            SoundBy(setup, t + 1, book.(broker := charged), nextId, ds)
  {
    hide GapSwap, ClosedAt, CommissionFor, NetOfLots, SwapOfLots, CommissionOfLots, UnpaidFriction, ChargedOnEntries,
      ChargedOnFills, ChainedLog, NetOfLog, MidPnlOfLog;
    if book.broker.lots != [] {
      SwapForm(setup, t, book.broker);
      hide ApplySwap;
      var lot := book.broker.lots[0];
      assert book.broker.lots == [lot];
      SwapKeepsSums(setup.model, lot, GapSwap(setup, lot.position.direction, lot.position.size, t));
    }
  }

  // ------------------------------------------------------------- one bar

  /** The invariant does not look at marks, peaks or days. */
  lemma MarkSound(setup: Setup, t: nat, book: Book, nextId: nat, ds: seq<nat>, bar: Candle)
    requires ValidSetup(setup) && SoundBy(setup, t, book, nextId, ds) && Tradeable(setup.model, bar.close)
    ensures SoundBy(setup, t, book.(broker := MarkedBroker(setup, book.broker, bar)), nextId, ds)
  {
    hide Unrealized, ClosedAt, BarDay;
    var marked := MarkedBroker(setup, book.broker, bar);
    assert marked.cash == book.broker.cash && marked.lots == book.broker.lots && marked.costs == book.broker.costs
        && marked.swapAcc == book.broker.swapAcc && marked.marks == book.broker.marks[bar.pair := bar.close];
  }

  /** An accepted order either finds its side already held, flips the held lot, or opens the first one. */
  lemma ExecuteCases(setup: Setup, turn: Turn, sized: Order, current: Candle, next: Candle)
    requires setup.bars != [] && Shape(setup.Pair(), turn.book, turn.nextId) && sized.pair == setup.Pair()
    requires Tradeable(setup.model, next.open) && MarksTradeable(setup.model, turn.book.broker.marks)
    ensures var lots := turn.book.broker.lots;
            var cleared := if lots == [] then turn.book else CloseTrade(setup.model, turn.book, 0, next);
            var after := Execute(setup.model, turn, sized, current, next);
            if lots != [] && lots[0].position.direction == sized.direction then after == turn
            else
              var grown := OpenTrade(setup.model, cleared, sized, next, turn.nextId);
              after == turn.(book := grown, nextId := turn.nextId + 1,
                             account := Snapshot(setup.model, grown.broker, current.time))
  {
    hide CommissionFor, AddFill, Pnl, Unrealized, OpenTrade;
    var lots := turn.book.broker.lots;
    if lots != [] {
      CloseForm(setup.Pair(), setup.model, turn.book, turn.nextId, next);
      hide CloseTrade;
      var id := lots[0].tradeId;
      assert lots == [lots[0]] && lots[1..] == [];
      assert LotIndex(lots, id) == 0;
      if lots[0].position.direction != sized.direction {
        assert OpposingIds(lots, sized) == [id] + OpposingIds(lots[1..], sized) == [id];
        assert CloseTrades(setup.model, turn.book, [id], next)
            == CloseTrades(setup.model, CloseTrade(setup.model, turn.book, 0, next), [], next);
        assert !HoldsSameSide([], sized);
      } else {
        assert OpposingIds(lots, sized) == [] + OpposingIds(lots[1..], sized) == [];
        assert HoldsSameSide(lots, sized);
      }
    } else {
      assert OpposingIds(lots, sized) == [];
      assert !HoldsSameSide(lots, sized);
    }
  }

  lemma ExecuteSound(setup: Setup, t: nat, turn: Turn, sized: Order, ds: seq<nat>) returns (grown: seq<nat>)
    requires ValidSetup(setup) && t < |setup.bars| - 1
    requires SoundBy(setup, t, turn.book, turn.nextId, ds) && Active(turn.book, turn.nextId)
    requires sized.pair == setup.Pair()
    ensures Grown(ds, grown, t)
    ensures var after := Execute(setup.model, turn, sized, setup.bars[t], setup.bars[t + 1]);
            SoundBy(setup, t, after.book, after.nextId, grown) && Active(after.book, after.nextId)
  {
    hide Execute, CloseTrade, ExplainedBy, CashAccounted, CashAttributed, CostsAccounted, ChainedLog, Unrealized;
    var next := setup.bars[t + 1];
    ExecuteCases(setup, turn, sized, setup.bars[t], next);
    var lots := turn.book.broker.lots;
    if lots == [] {
      OpenSound(setup, t, turn.book, turn.nextId, ds, sized);
      UntradedIsUndecided(setup, t, turn.book, ds);
      grown := [t];
    } else if lots[0].position.direction != sized.direction {
      CloseForm(setup.Pair(), setup.model, turn.book, turn.nextId, next);
      CloseSound(setup, t, turn.book, turn.nextId, ds);
      var cleared := CloseTrade(setup.model, turn.book, 0, next);
      OpenSound(setup, t, cleared, turn.nextId, ds + [t], sized);
      grown := ds + [t];
    } else {
      grown := ds;
    }
  }

  lemma UntradedIsUndecided(setup: Setup, t: nat, book: Book, ds: seq<nat>)
    requires ExplainedBy(setup, t, book, 0, ds)
    ensures ds == []
  {
  }

  lemma SignalSound(setup: Setup, t: nat, turn: Turn, signal: Order, ds: seq<nat>) returns (grown: seq<nat>)
    requires ValidSetup(setup) && t < |setup.bars| - 1
    requires SoundBy(setup, t, turn.book, turn.nextId, ds) && Active(turn.book, turn.nextId)
    ensures Grown(ds, grown, t)
    ensures var after := TakeSignal(setup, turn, signal, setup.bars[t], setup.bars[t + 1]);
            SoundBy(setup, t, after.book, after.nextId, grown) && Active(after.book, after.nextId)
  {
    hide Execute, SoundBy, Gate, Active, WellFormedBars, MarksTradeable;
    BooksTradeable(setup, t, turn.book, turn.nextId, ds);
    GrownNowhere(ds, t);
    var (decision, ks) := Gate(setup.risk, turn.ks, signal, turn.account);
    grown := ds;
    if signal.pair == setup.Pair() && decision.Accepted() && decision.sizedOrder.Some? {
      GateKeepsPair(setup.risk, turn.ks, signal, turn.account);
      grown := ExecuteSound(setup, t, turn.(ks := ks, accepted := turn.accepted + 1), decision.sizedOrder.value, ds);
    }
  }

  lemma GateKeepsPair(cfg: RiskConfig, ks: KillSwitch, order: Order, account: Account)
    ensures var decision := Gate(cfg, ks, order, account).0;
            decision.sizedOrder.Some? ==> decision.sizedOrder.value == order.WithSize(decision.sizedOrder.value.size)
  {
    hide LimitsAt, BrokenAggregateCap, Account.DrawdownPct, Account.DailyLossPct;
  }

  lemma {:induction false} SignalsGrow(setup: Setup, t: nat, turn: Turn, signals: seq<Order>, n: nat, ds: seq<nat>)
    returns (grown: seq<nat>)
    requires ValidSetup(setup) && t < |setup.bars| - 1 && n <= |signals|
    requires SoundBy(setup, t, turn.book, turn.nextId, ds) && Active(turn.book, turn.nextId)
    ensures Grown(ds, grown, t)
    ensures var after := TakeSignals(setup, turn, signals, n, setup.bars[t], setup.bars[t + 1]);
            SoundBy(setup, t, after.book, after.nextId, grown) && Active(after.book, after.nextId)
  {
    hide SoundBy, TakeSignal, Tradeable, WellFormedBars, Grown, Active, MarksTradeable;
    BooksTradeable(setup, t, turn.book, turn.nextId, ds);
    GrownNowhere(ds, t);
    grown := ds;
    if n > 0 {
      grown := SignalsGrow(setup, t, turn, signals, n - 1, ds);
      var before := TakeSignals(setup, turn, signals, n - 1, setup.bars[t], setup.bars[t + 1]);
      if !before.tripped {
        var earlier := grown;
        grown := SignalSound(setup, t, before, signals[n - 1], earlier);
        GrownTwice(ds, earlier, grown, t);
      }
    }
  }

  lemma GrownNowhere(ds: seq<nat>, t: nat)
    ensures Grown(ds, ds, t)
  {
  }

  lemma GrownTwice(first: seq<nat>, second: seq<nat>, third: seq<nat>, t: nat)
    requires Grown(first, second, t) && Grown(second, third, t)
    ensures Grown(first, third, t)
  {
  }

  lemma SignalsSound(setup: Setup, t: nat, turn: Turn, signals: seq<Order>, n: nat)
    requires ValidSetup(setup) && t < |setup.bars| - 1 && n <= |signals|
    requires Sound(setup, t, turn.book, turn.nextId) && Active(turn.book, turn.nextId)
    ensures MarksTradeable(setup.model, turn.book.broker.marks)
    ensures var after := TakeSignals(setup, turn, signals, n, setup.bars[t], setup.bars[t + 1]);
            Sound(setup, t, after.book, after.nextId) && Active(after.book, after.nextId)
  {
    var ds :| SoundBy(setup, t, turn.book, turn.nextId, ds);
    BooksTradeable(setup, t, turn.book, turn.nextId, ds);
    hide SoundBy, TakeSignals;
    var _ := SignalsGrow(setup, t, turn, signals, n, ds);
  }

  lemma BooksTradeable(setup: Setup, t: nat, book: Book, nextId: nat, ds: seq<nat>)
    requires ValidSetup(setup) && SoundBy(setup, t, book, nextId, ds)
    ensures MarksTradeable(setup.model, book.broker.marks)
  {
  }

  /** Flattening closes the lot that is held, if any, and nothing is left. */
  lemma FlattenCases(setup: Setup, book: Book, nextId: nat, next: Candle)
    requires setup.bars != [] && Shape(setup.Pair(), book, nextId) && Tradeable(setup.model, next.open)
    ensures FlattenAll(setup.model, book, next)
         == if book.broker.lots == [] then book else CloseTrade(setup.model, book, 0, next)
    ensures FlattenAll(setup.model, book, next).broker.lots == []
  {
    var lots := book.broker.lots;
    if lots != [] {
      CloseForm(setup.Pair(), setup.model, book, nextId, next);
      hide CloseTrade;
      assert IdsOf(lots) == [lots[0].tradeId] + IdsOf(lots[1..]) == [lots[0].tradeId];
      assert LotIndex(lots, lots[0].tradeId) == 0;
      assert CloseTrades(setup.model, book, [lots[0].tradeId], next)
          == CloseTrades(setup.model, CloseTrade(setup.model, book, 0, next), [], next);
    }
  }

  lemma FlattenSound(setup: Setup, t: nat, book: Book, nextId: nat, ds: seq<nat>) returns (grown: seq<nat>)
    requires ValidSetup(setup) && t < |setup.bars| - 1 && SoundBy(setup, t, book, nextId, ds)
    ensures Grown(ds, grown, t) && SoundBy(setup, t, FlattenAll(setup.model, book, setup.bars[t + 1]), nextId, grown)
    ensures FlattenAll(setup.model, book, setup.bars[t + 1]).broker.lots == []
  {
    FlattenCases(setup, book, nextId, setup.bars[t + 1]);
    hide FlattenAll, CloseTrade, ExplainedBy, CashAccounted, CashAttributed, CostsAccounted;
    grown := ds;
    if book.broker.lots != [] {
      CloseSound(setup, t, book, nextId, ds);
      grown := ds + [t];
    }
  }

  // ------------------------------------------------------------- whole runs

  /** The state after t bars: explained, holding a lot once it has traded, and flat once it has halted. */
  ghost predicate StateSoundBy(setup: Setup, t: nat, st: RunState, ds: seq<nat>)
    requires setup.bars != []
  {
    && SoundBy(setup, t, st.book, st.nextId, ds) && DecidedBefore(ds, t)
    && (st.halt.None? ==> Active(st.book, st.nextId) && st.ks.Released?)
    && (st.halt.Some? ==> st.book.broker.lots == [])
  }

  ghost predicate StateSound(setup: Setup, t: nat, st: RunState)
    requires setup.bars != []
  {
    exists ds :: StateSoundBy(setup, t, st, ds)
  }

  lemma FlatStaysSound(setup: Setup, t: nat, book: Book, nextId: nat, ds: seq<nat>)
    requires ValidSetup(setup) && t < |setup.bars| - 1 && SoundBy(setup, t, book, nextId, ds)
    requires book.broker.lots == []
    ensures SoundBy(setup, t + 1, book, nextId, ds) && DecidedBefore(ds, t + 1)
  {
    hide ClosedAt;
  }

  lemma HaltSound(setup: Setup, t: nat, st: RunState, halt: Halt, ds: seq<nat>) returns (grown: seq<nat>)
    requires ValidSetup(setup) && t < |setup.bars| - 1 && SoundBy(setup, t, st.book, st.nextId, ds)
    ensures Grown(ds, grown, t)
    ensures StateSoundBy(setup, t + 1, HaltWith(setup.model, st, halt, setup.bars[t + 1]), grown)
  {
    hide SoundBy, FlattenAll;
    grown := FlattenSound(setup, t, st.book, st.nextId, ds);
    FlatStaysSound(setup, t, FlattenAll(setup.model, st.book, setup.bars[t + 1]), st.nextId, grown);
  }

  lemma BeginSound(setup: Setup, t: nat, st: RunState, ds: seq<nat>)
    requires ValidSetup(setup) && t < |setup.bars| - 1
    requires SoundBy(setup, t, st.book, st.nextId, ds) && Active(st.book, st.nextId)
    requires MarksTradeable(setup.model, st.book.broker.marks)
    ensures var begun := BeginBar(setup, t, st, setup.bars[t]);
            && SoundBy(setup, t, begun.book, begun.nextId, ds) && Active(begun.book, begun.nextId)
            && begun.halt == st.halt && begun.calls == st.calls && begun.nextId == st.nextId
  {
    MarkSound(setup, t, st.book, st.nextId, ds, setup.bars[t]);
    hide SoundBy, CheckBreaches, Snapshot, RollDay, MarkToMarket, Equity;
    var begun := BeginBar(setup, t, st, setup.bars[t]);
    assert begun.book == st.book.(broker := MarkedBroker(setup, st.book.broker, setup.bars[t]));
    MarkKeepsLots(setup, st.book.broker, setup.bars[t]);
  }

  lemma MarkKeepsLots(setup: Setup, b: Broker, bar: Candle)
    requires MarksTradeable(setup.model, b.marks) && Tradeable(setup.model, bar.close)
    ensures MarkedBroker(setup, b, bar).lots == b.lots
  {
  }

  lemma TradeSound(setup: Setup, t: nat, st: RunState, account: Account, ds: seq<nat>) returns (grown: seq<nat>)
    requires ValidSetup(setup) && t < |setup.bars| - 1 && st.halt.None? && st.ks.Released?
    requires SoundBy(setup, t, st.book, st.nextId, ds) && Active(st.book, st.nextId)
    requires MarksTradeable(setup.model, st.book.broker.marks)
    ensures Grown(ds, grown, t)
    ensures StateSoundBy(setup, t + 1, Trade(setup, t, st, account, setup.bars[t], setup.bars[t + 1]), grown)
  {
    hide SoundBy, HaltWith, ApplySwap, TakeSignals;
    var current, next := setup.bars[t], setup.bars[t + 1];
    var called := st.(calls := st.calls + [StrategyCall(setup.bars[..t + 1], account, current.time)]);
    match setup.strategy(called.calls)
    case None =>
      grown := HaltSound(setup, t, called, Halt(t, StrategyRaised), ds);
    case Some(signals) =>
      var start := StartTurn(called, account);
      grown := SignalsGrow(setup, t, start, signals, |signals|, ds);
      var turn := TakeSignals(setup, start, signals, |signals|, current, next);
      UntrippedTurnIsReleased(setup, start, signals, |signals|, current, next);
      var traded := EndTurn(called.(proposed := called.proposed + |signals|), turn);
      if turn.tripped {
        grown := HaltSound(setup, t, traded, Halt(t, TrippedInEvaluate), grown);
      } else {
        DecidedByBar(setup, t, turn.book, turn.nextId, grown);
        SwapSound(setup, t, turn.book, turn.nextId, grown);
        SwapKeepsHolding(setup, t, turn.book, turn.nextId, grown);
      }
  }

  lemma DecidedByBar(setup: Setup, t: nat, book: Book, nextId: nat, ds: seq<nat>)
    requires setup.bars != [] && SoundBy(setup, t, book, nextId, ds)
    ensures DecidedBefore(ds, t + 1)
  {
  }

  lemma SwapKeepsHolding(setup: Setup, t: nat, book: Book, nextId: nat, ds: seq<nat>)
    requires ValidSetup(setup) && t < |setup.bars| - 1 && SoundBy(setup, t, book, nextId, ds)
    ensures |ApplySwap(setup.model, setup.hour, book.broker, setup.bars[t], setup.bars[t + 1]).lots|
         == |book.broker.lots|
  {
    hide Rollovers, GapMultiplier;
  }

  /** The latch stays released through a bar's signals unless one of them trips it, which ends them. */
  lemma {:induction false} UntrippedTurnIsReleased(setup: Setup, turn: Turn, signals: seq<Order>, n: nat,
                                                   current: Candle, next: Candle)
    requires setup.bars != [] && n <= |signals| && Tradeable(setup.model, next.open)
    requires MarksTradeable(setup.model, turn.book.broker.marks)
    requires turn.ks.Released? && !turn.tripped
    ensures var after := TakeSignals(setup, turn, signals, n, current, next);
            after.tripped <==> after.ks.Engaged?
  {
    hide Gate, Execute;
    if n > 0 {
      UntrippedTurnIsReleased(setup, turn, signals, n - 1, current, next);
      var before := TakeSignals(setup, turn, signals, n - 1, current, next);
      if !before.tripped {
        GateBlamesSwitchIffEngaged(setup.risk, before.ks, signals[n - 1], before.account);
        var (decision, ks) := Gate(setup.risk, before.ks, signals[n - 1], before.account);
        if signals[n - 1].pair == setup.Pair() && decision.Accepted() && decision.sizedOrder.Some? {
          ExecuteKeepsLatch(setup.model, before.(ks := ks, accepted := before.accepted + 1), decision.sizedOrder.value,
                            current, next);
        }
      }
    }
  }

  lemma ExecuteKeepsLatch(model: CostModel, turn: Turn, sized: Order, current: Candle, next: Candle)
    requires Tradeable(model, next.open) && MarksTradeable(model, turn.book.broker.marks)
    ensures var after := Execute(model, turn, sized, current, next);
            after.ks == turn.ks && after.tripped == turn.tripped && after.accepted == turn.accepted
                && after.rejected == turn.rejected
  {
    hide CloseTrades, OpenTrade, Unrealized;
  }

  lemma GateBlamesSwitchIffEngaged(cfg: RiskConfig, ks: KillSwitch, order: Order, account: Account)
    ensures var (decision, ks') := Gate(cfg, ks, order, account);
            && (KillSwitchEngaged in decision.rejectedBy <==> ks'.Engaged?)
            && (decision.Accepted() ==> ks' == ks && ks.Released? && decision.sizedOrder.Some?)
  {
    hide LimitsAt, Sized, NotionalIn, BreaksSomeGroup, Account.DrawdownPct, Account.DailyLossPct;
  }

  lemma StepSound(setup: Setup, t: nat, st: RunState, ds: seq<nat>) returns (grown: seq<nat>)
    requires ValidSetup(setup) && t < |setup.bars| - 1 && st.halt.None? && StateSoundBy(setup, t, st, ds)
    requires MarksTradeable(setup.model, st.book.broker.marks)
    ensures Grown(ds, grown, t) && StateSoundBy(setup, t + 1, Step(setup, t, st), grown)
  {
    BeginSound(setup, t, st, ds);
    var begun := BeginBar(setup, t, st, setup.bars[t]);
    hide BeginBar, SoundBy, Trade, HaltWith, AccountAtBar;
    if begun.ks.Engaged? {
      grown := HaltSound(setup, t, begun, Halt(t, TrippedAtBar(begun.ks.trippedBy)), ds);
    } else {
      grown := TradeSound(setup, t, begun, AccountAtBar(setup, st, setup.bars[t]), ds);
    }
  }

  lemma InitialSound(setup: Setup)
    requires ValidSetup(setup)
    ensures StateSoundBy(setup, 0, InitialState(setup), [])
  {
  }

  /** The invariant holds after any number of bars of any run. */
  lemma {:induction false} RunSound(setup: Setup, t: nat)
    requires ValidSetup(setup) && t < |setup.bars|
    ensures StateSound(setup, t, Iterate(setup, t))
  {
    hide StateSoundBy, Step;
    if t == 0 {
      InitialSound(setup);
    } else {
      RunSound(setup, t - 1);
      var before := Iterate(setup, t - 1);
      var ds :| StateSoundBy(setup, t - 1, before, ds);
      var _ := IterateSound(setup, t - 1, ds);
    }
  }

  /** One bar later, by the same decisions and those of the bar. */
  lemma IterateSound(setup: Setup, t: nat, ds: seq<nat>) returns (grown: seq<nat>)
    requires ValidSetup(setup) && t < |setup.bars| - 1 && StateSoundBy(setup, t, Iterate(setup, t), ds)
    ensures Grown(ds, grown, t) && StateSoundBy(setup, t + 1, Iterate(setup, t + 1), grown)
  {
    hide Step, SoundBy;
    var st := Iterate(setup, t);
    grown := ds;
    if st.halt.Some? {
      FlatStaysSound(setup, t, st.book, st.nextId, ds);
    } else {
      grown := StepSound(setup, t, st, ds);
    }
  }
}
