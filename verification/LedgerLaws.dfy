/**
 What the ledger's operations do to a book of any number of lots. A run never holds more than one, but
 the broker's loops do not rely on it, and neither do these laws.
 */
module LedgerLaws {
  import opened Models
  import opened Costs
  import opened Rollover
  import opened Ledger
  import opened Engine

  ghost predicate DistinctLots(lots: seq<Lot>) {
    forall i, j :: 0 <= i < j < |lots| ==> lots[i].tradeId != lots[j].tradeId
  }

  // -------------------------------------------------------------- the account

  /** What a lot would make if it closed at a mid: half a spread and the slippage to the worse side of it. */
  function MarkAt(model: CostModel, position: Position, mid: real): real {
    var friction := model.halfSpread + model.slippagePerUnit;
    position.size * if position.direction == Long then mid - friction - position.entryPrice
                    else position.entryPrice - (mid + friction)
  }

  /** The marks of all lots together; one whose pair was never marked has none. */
  function MarksOf(model: CostModel, marks: map<string, PositiveDecimal>, lots: seq<Lot>): real {
    if lots == [] then 0.0
    else
      var last := lots[|lots| - 1].position;
      MarksOf(model, marks, lots[..|lots| - 1])
      + (if last.pair in marks then MarkAt(model, last, marks[last.pair]) else 0.0)
  }

  lemma MarkIsAt(model: CostModel, position: Position, mid: PositiveDecimal)
    requires Tradeable(model, mid)
    ensures MarkPosition(model, position, mid) == MarkAt(model, position, mid)
  {
  }

  lemma {:induction false} UnrealizedOfAppend(model: CostModel, marks: map<string, PositiveDecimal>, lots: seq<Lot>,
                                              lot: Lot)
    requires MarksTradeable(model, marks)
    ensures Unrealized(model, marks, lots + [lot])
         == Unrealized(model, marks, lots)
            + (if lot.position.pair in marks then MarkAt(model, lot.position, marks[lot.position.pair]) else 0.0)
  {
    hide MarkPosition, MarkAt, Tradeable;
    if lots == [] {
      assert [lot][1..] == [] && [] + [lot] == [lot];
    } else {
      assert (lots + [lot])[1..] == lots[1..] + [lot];
      UnrealizedOfAppend(model, marks, lots[1..], lot);
    }
    if lot.position.pair in marks {
      MarkIsAt(model, lot.position, marks[lot.position.pair]);
    }
  }

  lemma {:induction false} UnrealizedIsMarks(model: CostModel, marks: map<string, PositiveDecimal>, lots: seq<Lot>)
    requires MarksTradeable(model, marks)
    ensures Unrealized(model, marks, lots) == MarksOf(model, marks, lots)
  {
    hide MarkPosition, MarkAt, Tradeable;
    if lots != [] {
      var earlier, last := lots[..|lots| - 1], lots[|lots| - 1];
      UnrealizedIsMarks(model, marks, earlier);
      UnrealizedOfAppend(model, marks, earlier, last);
      assert lots == earlier + [last];
    }
  }

  /** The account shows every lot's position, in order, and its equity is cash and the marks of them all. */
  lemma AccountShowsEveryLot(model: CostModel, b: Broker, asOf: int)
    requires MarksTradeable(model, b.marks)
    ensures var account := Snapshot(model, b, asOf);
            && |account.positions| == |b.lots|
            && (forall i :: 0 <= i < |b.lots| ==> account.positions[i] == b.lots[i].position)
            && account.balance == b.cash && account.unrealized == MarksOf(model, b.marks, b.lots)
            && account.equity == b.cash + MarksOf(model, b.marks, b.lots)
  {
    hide Unrealized, MarksOf;
    UnrealizedIsMarks(model, b.marks, b.lots);
  }

  // ------------------------------------------------------------------- swap

  /** What a lot is charged for a gap: its size, the rate of its side, and the unit-days of the gap. */
  function ChargeFor(model: CostModel, hour: Hour, lot: Lot, from: int, to: int): real {
    lot.position.size * (if lot.position.direction == Long then model.swapLong else model.swapShort)
    * Rollovers(from, to, hour) as real * GapMultiplier(from, to, hour, model.weekendMultiplier) as real
  }

  function ChargesOf(model: CostModel, hour: Hour, lots: seq<Lot>, n: nat, from: int, to: int): real
    requires n <= |lots|
  {
    if n == 0 then 0.0
    else ChargesOf(model, hour, lots, n - 1, from, to) + ChargeFor(model, hour, lots[n - 1], from, to)
  }

  lemma ChargeIsFor(model: CostModel, hour: Hour, lot: Lot, from: int, to: int)
    ensures SwapCharge(model, lot.position.direction, lot.position.size, Rollovers(from, to, hour),
                       GapMultiplier(from, to, hour, model.weekendMultiplier))
         == ChargeFor(model, hour, lot, from, to)
    ensures Rollovers(from, to, hour) == 0 ==> ChargeFor(model, hour, lot, from, to) == 0.0
  {
    hide Rollovers, GapMultiplier;
  }

  /** The first n lots have been charged, each on its own, and the others have not. */
  ghost predicate Charged(model: CostModel, hour: Hour, before: Broker, after: Broker, n: nat, from: int, to: int)
    requires n <= |before.lots|
  {
    && LotsCharged(model, hour, before.lots, after.lots, n, from, to)
    && TradesCharged(model, hour, before, after, n, from, to)
    && after.cash == before.cash + ChargesOf(model, hour, before.lots, n, from, to)
    && after.costs == before.costs.(swap := before.costs.swap + ChargesOf(model, hour, before.lots, n, from, to))
  }

  ghost predicate LotsCharged(model: CostModel, hour: Hour, before: seq<Lot>, after: seq<Lot>, n: nat, from: int,
                              to: int)
    requires n <= |before|
  {
    && |after| == |before|
    && (forall i :: 0 <= i < n ==>
          after[i] == before[i].(swap := before[i].swap + ChargeFor(model, hour, before[i], from, to)))
    && (forall i :: n <= i < |before| ==> after[i] == before[i])
  }

  /** The accumulator of each lot's trade moves by the same charge. */
  ghost predicate TradesCharged(model: CostModel, hour: Hour, before: Broker, after: Broker, n: nat, from: int, to: int)
    requires n <= |before.lots|
  {
    && after.swapAcc.Keys == before.swapAcc.Keys
    && forall i :: 0 <= i < |before.lots| && before.lots[i].tradeId in before.swapAcc ==>
         after.swapAcc[before.lots[i].tradeId]
           == before.swapAcc[before.lots[i].tradeId]
              + if i < n then ChargeFor(model, hour, before.lots[i], from, to) else 0.0
  }

  lemma OneMoreTradeCharged(model: CostModel, hour: Hour, before: Broker, middle: Broker, n: nat, from: int, to: int)
    requires n < |before.lots| == |middle.lots| && DistinctLots(before.lots) && middle.lots[n] == before.lots[n]
    requires TradesCharged(model, hour, before, middle, n, from, to)
    ensures TradesCharged(model, hour, before,
                          ChargeLot(model, middle, n, Rollovers(from, to, hour),
                                    GapMultiplier(from, to, hour, model.weekendMultiplier)), n + 1, from, to)
  {
    hide ChargeFor, SwapCharge, Rollovers, GapMultiplier;
    ChargeIsFor(model, hour, before.lots[n], from, to);
  }

  lemma OneMoreCharged(model: CostModel, hour: Hour, before: Broker, middle: Broker, n: nat, from: int, to: int)
    requires n < |before.lots| && DistinctLots(before.lots) && Charged(model, hour, before, middle, n, from, to)
    ensures Charged(model, hour, before,
                    ChargeLot(model, middle, n, Rollovers(from, to, hour),
                              GapMultiplier(from, to, hour, model.weekendMultiplier)), n + 1, from, to)
  {
    hide ChargeFor, SwapCharge, Rollovers, GapMultiplier, TradesCharged, DistinctLots;
    ChargeIsFor(model, hour, before.lots[n], from, to);
    OneMoreTradeCharged(model, hour, before, middle, n, from, to);
  }

  lemma {:induction false} FirstLotsCharged(model: CostModel, hour: Hour, b: Broker, n: nat, from: int, to: int)
    requires n <= |b.lots| && DistinctLots(b.lots)
    ensures Charged(model, hour, b, ChargeFirstLots(model, b, n, Rollovers(from, to, hour),
                                                    GapMultiplier(from, to, hour, model.weekendMultiplier)),
                    n, from, to)
  {
    hide Charged, ChargeLot, Rollovers, GapMultiplier, DistinctLots;
    if n == 0 {
      NoneCharged(model, hour, b, from, to);
    } else {
      FirstLotsCharged(model, hour, b, n - 1, from, to);
      OneMoreCharged(model, hour, b,
                     ChargeFirstLots(model, b, n - 1, Rollovers(from, to, hour),
                                     GapMultiplier(from, to, hour, model.weekendMultiplier)), n - 1, from, to);
    }
  }

  lemma NoneCharged(model: CostModel, hour: Hour, b: Broker, from: int, to: int)
    ensures Charged(model, hour, b, b, 0, from, to)
  {
    hide ChargeFor;
  }

  lemma {:induction false} NoChargesWithoutRollover(model: CostModel, hour: Hour, lots: seq<Lot>, n: nat, from: int,
                                                    to: int)
    requires n <= |lots| && Rollovers(from, to, hour) == 0
    ensures ChargesOf(model, hour, lots, n, from, to) == 0.0
    ensures forall i :: 0 <= i < n ==> ChargeFor(model, hour, lots[i], from, to) == 0.0
  {
    hide ChargeFor, Rollovers;
    if n > 0 {
      NoChargesWithoutRollover(model, hour, lots, n - 1, from, to);
      ChargeIsFor(model, hour, lots[n - 1], from, to);
    }
  }

  /** A gap charges every lot held across it, and moves cash and the swap total by the sum of the charges. */
  lemma EveryLotIsCharged(model: CostModel, hour: Hour, b: Broker, current: Candle, next: Candle)
    requires current.time <= next.time && DistinctLots(b.lots)
    ensures Charged(model, hour, b, ApplySwap(model, hour, b, current, next), |b.lots|, current.time, next.time)
  {
    hide ChargeFor, Charged, ChargeFirstLots, Rollovers, GapMultiplier;
    var from, to := current.time, next.time;
    NoneCharged(model, hour, b, from, to);
    if b.lots != [] && Rollovers(from, to, hour) != 0 {
      FirstLotsCharged(model, hour, b, |b.lots|, from, to);
    } else if b.lots != [] {
      NoChargesWithoutRollover(model, hour, b.lots, |b.lots|, from, to);
      NothingCharged(model, hour, b, from, to);
    }
  }

  lemma NothingCharged(model: CostModel, hour: Hour, b: Broker, from: int, to: int)
    requires ChargesOf(model, hour, b.lots, |b.lots|, from, to) == 0.0
    requires forall i :: 0 <= i < |b.lots| ==> ChargeFor(model, hour, b.lots[i], from, to) == 0.0
    ensures Charged(model, hour, b, b, |b.lots|, from, to)
  {
    hide ChargeFor, ChargesOf;
  }

  // ------------------------------------------------------------------ closing

  /** The lots that are not among some trades. */
  function Without(lots: seq<Lot>, ids: seq<nat>): seq<Lot> {
    if lots == [] then []
    else (if lots[0].tradeId in ids then [] else [lots[0]]) + Without(lots[1..], ids)
  }

  lemma {:induction false} WithoutAbsent(lots: seq<Lot>, id: nat, ids: seq<nat>)
    requires forall i :: 0 <= i < |lots| ==> lots[i].tradeId != id
    ensures Without(lots, [id] + ids) == Without(lots, ids)
  {
    if lots != [] {
      WithoutAbsent(lots[1..], id, ids);
    }
  }

  lemma {:induction false} WithoutOneMore(lots: seq<Lot>, i: nat, ids: seq<nat>)
    requires i < |lots| && DistinctLots(lots)
    ensures Without(lots, [lots[i].tradeId] + ids) == Without(lots[..i] + lots[i + 1..], ids)
    ensures DistinctLots(lots[..i] + lots[i + 1..])
  {
    var id, rest := lots[i].tradeId, lots[..i] + lots[i + 1..];
    if i == 0 {
      assert rest == lots[1..];
      WithoutAbsent(lots[1..], id, ids);
    } else {
      var tail := lots[1..];
      WithoutOneMore(tail, i - 1, ids);
      assert rest[0] == lots[0] && rest[1..] == tail[..i - 1] + tail[i..];
    }
  }

  lemma {:induction false} WithoutNone(lots: seq<Lot>)
    ensures Without(lots, []) == lots
  {
    if lots != [] {
      WithoutNone(lots[1..]);
    }
  }

  /** Closing some trades leaves exactly the other lots, in their order. */
  lemma {:induction false} ClosingLeavesTheOthers(model: CostModel, book: Book, ids: seq<nat>, next: Candle)
    requires Tradeable(model, next.open) && DistinctLots(book.broker.lots)
    ensures CloseTrades(model, book, ids, next).broker.lots == Without(book.broker.lots, ids)
    decreases |ids|
  {
    var lots := book.broker.lots;
    if ids == [] {
      WithoutNone(lots);
    } else {
      assert ids == [ids[0]] + ids[1..];
      var i := LotIndex(lots, ids[0]);
      if i < |lots| {
        WithoutOneMore(lots, i, ids[1..]);
        LotRemoved(model, book, i, next);
        hide CloseTrade;
        ClosingLeavesTheOthers(model, CloseTrade(model, book, i, next), ids[1..], next);
      } else {
        WithoutAbsent(lots, ids[0], ids[1..]);
        ClosingLeavesTheOthers(model, book, ids[1..], next);
      }
    }
  }

  lemma LotRemoved(model: CostModel, book: Book, i: nat, next: Candle)
    requires i < |book.broker.lots| && Tradeable(model, next.open)
    ensures CloseTrade(model, book, i, next).broker.lots == book.broker.lots[..i] + book.broker.lots[i + 1..]
  {
    hide Pnl, CommissionFor, AddFill;
  }

  lemma {:induction false} IdsNameLots(lots: seq<Lot>)
    ensures |IdsOf(lots)| == |lots| && forall i :: 0 <= i < |lots| ==> IdsOf(lots)[i] == lots[i].tradeId
  {
    if lots != [] {
      IdsNameLots(lots[1..]);
    }
  }

  lemma {:induction false} WithoutAll(lots: seq<Lot>, ids: seq<nat>)
    requires forall i :: 0 <= i < |lots| ==> lots[i].tradeId in ids
    ensures Without(lots, ids) == []
  {
    if lots != [] {
      WithoutAll(lots[1..], ids);
    }
  }

  /** Flattening leaves nothing held, however many lots there were. */
  lemma FlatteningLeavesNothing(model: CostModel, book: Book, next: Candle)
    requires Tradeable(model, next.open) && DistinctLots(book.broker.lots)
    ensures FlattenAll(model, book, next).broker.lots == []
  {
    hide CloseTrades, Without;
    var lots := book.broker.lots;
    IdsNameLots(lots);
    forall i | 0 <= i < |lots| ensures lots[i].tradeId in IdsOf(lots) {
      assert IdsOf(lots)[i] == lots[i].tradeId;
    }
    ClosingLeavesTheOthers(model, book, IdsOf(lots), next);
    WithoutAll(lots, IdsOf(lots));
  }
}
