/**
 The swap a trade pays, in closed form. The engine accumulates it gap by gap with a simple
 weekend rule; here the sum is compared with charging each calendar rollover on its own.
 */
module RunSwap {
  import opened Models
  import opened Costs
  import opened Rollover
  import opened Engine
  import opened RunInvariant
  import RunMoney

  // ------------------------------------------------------------- arithmetic

  /** A unit-day charge times a number of unit-days. */
  function Scaled(charge: real, units: int): real {
    charge * units as real
  }

  /** What a multiplier adds to n unit-days beyond charging each once. */
  function Surcharge(multiplier: int, n: int): int {
    (multiplier - 1) * n
  }

  lemma ScaledAdds(charge: real, m: int, n: int)
    ensures Scaled(charge, m + n) == Scaled(charge, m) + Scaled(charge, n)
  {
  }

  lemma SurchargeAdds(multiplier: int, m: int, n: int)
    ensures Surcharge(multiplier, m + n) == Surcharge(multiplier, m) + Surcharge(multiplier, n)
  {
  }

  lemma ScaledVanishes(charge: real, units: int)
    ensures Scaled(charge, units) == 0.0 <==> charge == 0.0 || units == 0
  {
  }

  lemma SurchargeVanishes(multiplier: int, n: int)
    ensures Surcharge(multiplier, n) == 0 <==> multiplier == 1 || n == 0
  {
  }

  lemma SurchargeNonnegative(multiplier: int, n: int)
    requires multiplier >= 1 && n >= 0
    ensures Surcharge(multiplier, n) >= 0
  {
  }

  lemma ScaledSign(charge: real, units: int)
    requires units >= 0
    ensures charge >= 0.0 ==> Scaled(charge, units) >= 0.0
    ensures charge <= 0.0 ==> Scaled(charge, units) <= 0.0
  {
  }

  // -------------------------------------------------------- unit-days charged

  /** The signed charge of one unit-day for a lot: each side has its own rate. */
  function DailyCharge(setup: Setup, direction: Direction, size: real): real {
    size * if direction.Long? then setup.model.swapLong else setup.model.swapShort
  }

  /** Unit-days the code charges for the gap after bar i. */
  function GapUnits(setup: Setup, i: nat): int
    requires i < |setup.bars| - 1
  {
    var from, to := setup.bars[i].time, setup.bars[i + 1].time;
    Rollovers(from, to, setup.hour) * GapMultiplier(from, to, setup.hour, setup.model.weekendMultiplier)
  }

  function UnitsOver(setup: Setup, o: nat, c: nat): int
    requires c < |setup.bars|
  {
    if c <= o then 0 else UnitsOver(setup, o, c - 1) + GapUnits(setup, c - 1)
  }

  lemma ChargeIsUnits(setup: Setup, direction: Direction, size: real, i: nat)
    requires i < |setup.bars| - 1
    ensures GapSwap(setup, direction, size, i) == Scaled(DailyCharge(setup, direction, size), GapUnits(setup, i))
  {
    var from, to := setup.bars[i].time, setup.bars[i + 1].time;
    var rollovers, multiplier :=
        Rollovers(from, to, setup.hour), GapMultiplier(from, to, setup.hour, setup.model.weekendMultiplier);
    hide Rollovers, GapMultiplier, SwapRate;
    assert (rollovers * multiplier) as real == rollovers as real * multiplier as real;
    Associate(size * SwapRate(direction, setup.model), rollovers as real, multiplier as real);
  }

  lemma Associate(x: real, y: real, z: real)
    ensures x * y * z == x * (y * z)
  {
  }

  lemma {:induction false} SwapIsUnits(setup: Setup, direction: Direction, size: real, o: nat, c: nat)
    requires c < |setup.bars|
    ensures SwapOver(setup, direction, size, o, c)
         == Scaled(DailyCharge(setup, direction, size), UnitsOver(setup, o, c))
  {
    var charge := DailyCharge(setup, direction, size);
    ScaledVanishes(charge, 0);
    hide Scaled, DailyCharge, GapUnits, GapSwap;
    if c > o {
      SwapIsUnits(setup, direction, size, o, c - 1);
      ChargeIsUnits(setup, direction, size, c - 1);
      ScaledAdds(charge, UnitsOver(setup, o, c - 1), GapUnits(setup, c - 1));
    }
  }

  // --------------------------------------------------- against the calendar

  /** Calendar rollovers between the times of two bars. */
  function CalendarRollovers(setup: Setup, o: nat, c: nat): int
    requires o < |setup.bars| && c < |setup.bars|
  {
    Rollovers(setup.bars[o].time, setup.bars[c].time, setup.hour)
  }

  function CalendarWednesdays(setup: Setup, o: nat, c: nat): int
    requires o < |setup.bars| && c < |setup.bars|
  {
    WednesdayRollovers(setup.bars[o].time, setup.bars[c].time, setup.hour)
  }

  /** Ordinary rollovers of a gap that share it with a Wednesday's, and so are multiplied too. */
  function GapExcess(setup: Setup, i: nat): int
    requires i < |setup.bars| - 1
  {
    if CalendarWednesdays(setup, i, i + 1) > 0
    then CalendarRollovers(setup, i, i + 1) - CalendarWednesdays(setup, i, i + 1) else 0
  }

  function ExcessOver(setup: Setup, o: nat, c: nat): int
    requires c < |setup.bars|
  {
    if c <= o then 0 else ExcessOver(setup, o, c - 1) + GapExcess(setup, c - 1)
  }

  lemma CalendarCounts(setup: Setup, o: nat, c: nat)
    requires WellFormedBars(setup.bars) && o <= c < |setup.bars|
    ensures 0 <= CalendarWednesdays(setup, o, c) <= CalendarRollovers(setup, o, c)
    ensures o == c ==> CalendarRollovers(setup, o, c) == 0
  {
    assert setup.bars[o].time <= setup.bars[c].time;
    RolloversMonotone(setup.bars[o].time, setup.bars[c].time, setup.hour);
    WednesdaysAmongDays(RolloversUpTo(setup.bars[o].time, setup.hour), RolloversUpTo(setup.bars[c].time, setup.hour));
  }

  lemma CalendarExtends(setup: Setup, o: nat, c: nat)
    requires o < |setup.bars| && 0 < c < |setup.bars|
    ensures CalendarRollovers(setup, o, c) == CalendarRollovers(setup, o, c - 1) + CalendarRollovers(setup, c - 1, c)
    ensures CalendarWednesdays(setup, o, c) == CalendarWednesdays(setup, o, c - 1) + CalendarWednesdays(setup, c - 1, c)
  {
    CountsAdditive(setup.bars[o].time, setup.bars[c - 1].time, setup.bars[c].time, setup.hour);
  }

  lemma GapInClosedForm(setup: Setup, i: nat)
    requires WellFormedBars(setup.bars) && i < |setup.bars| - 1
    ensures GapUnits(setup, i) == CalendarRollovers(setup, i, i + 1)
              + Surcharge(setup.model.weekendMultiplier, CalendarWednesdays(setup, i, i + 1) + GapExcess(setup, i))
    ensures GapExcess(setup, i) >= 0
  {
    hide CalendarRollovers, CalendarWednesdays, GapUnits, Surcharge;
    CalendarCounts(setup, i, i + 1);
    GapUnitsAre(setup, i);
    SurchargeVanishes(setup.model.weekendMultiplier, 0);
  }

  lemma GapUnitsAre(setup: Setup, i: nat)
    requires WellFormedBars(setup.bars) && i < |setup.bars| - 1
    ensures var r := CalendarRollovers(setup, i, i + 1);
            GapUnits(setup, i) == if CalendarWednesdays(setup, i, i + 1) > 0
                                  then r + Surcharge(setup.model.weekendMultiplier, r) else r
  {
    MultiplyAll(CalendarRollovers(setup, i, i + 1), setup.model.weekendMultiplier);
    hide Rollovers, WednesdayRollovers, Surcharge;
  }

  lemma MultiplyAll(r: int, m: int)
    ensures r * m == r + Surcharge(m, r)
    ensures r * 1 == r
  {
  }

  /** The code charges the calendar's rollovers, plus the surcharge on its Wednesdays and on the excess. */
  lemma {:induction false} UnitsInClosedForm(setup: Setup, o: nat, c: nat)
    requires WellFormedBars(setup.bars) && o <= c < |setup.bars|
    ensures UnitsOver(setup, o, c) == CalendarRollovers(setup, o, c)
              + Surcharge(setup.model.weekendMultiplier, CalendarWednesdays(setup, o, c) + ExcessOver(setup, o, c))
  {
    hide GapUnits, GapExcess, Surcharge, CalendarRollovers, CalendarWednesdays;
    CalendarCounts(setup, o, c);
    SurchargeVanishes(setup.model.weekendMultiplier, 0);
    if c > o {
      UnitsInClosedForm(setup, o, c - 1);
      GapInClosedForm(setup, c - 1);
      CalendarExtends(setup, o, c);
      SurchargeAdds(setup.model.weekendMultiplier, CalendarWednesdays(setup, o, c - 1) + ExcessOver(setup, o, c - 1),
                    CalendarWednesdays(setup, c - 1, c) + GapExcess(setup, c - 1));
    }
  }

  lemma {:induction false} ExcessVanishes(setup: Setup, o: nat, c: nat)
    requires WellFormedBars(setup.bars) && o <= c < |setup.bars|
    ensures ExcessOver(setup, o, c) >= 0
    ensures ExcessOver(setup, o, c) == 0 <==> forall i :: o <= i < c ==> GapExcess(setup, i) == 0
  {
    hide GapUnits, GapExcess, Surcharge, CalendarRollovers, CalendarWednesdays;
    if c > o {
      ExcessVanishes(setup, o, c - 1);
      GapInClosedForm(setup, c - 1);
    }
  }

  // ------------------------------------------------------------ the theorems

  /** The trade was charged swap from bar o, where it was decided, up to bar c, where it was closed or the run ended. */
  predicate ChargedOver(setup: Setup, record: TradeRecord, o: nat, c: nat) {
    o <= c < |setup.bars| && record.swapPaid == SwapOver(setup, record.trade.direction, record.trade.size, o, c)
  }

  /** Every trade of a log, the open one included, was charged from its own decision on. */
  lemma LogIsCharged(setup: Setup, log: seq<TradeRecord>, ds: seq<nat>, t: nat, k: nat)
    requires RunMoney.DecidedAt(setup, log, ds, t) && k < |log|
    ensures log[k].exit.Some? ==> k + 1 < |ds|
    ensures ChargedOver(setup, log[k], ds[k], if log[k].exit.Some? then ds[k + 1] else t)
  {
    hide SwapOver, OpenedAt, ExitAt;
  }

  /**
   The swap a trade paid: its daily charge times the calendar rollovers between its decision bars,
   or up to the last bar while it is open, plus the weekend surcharge on the Wednesdays among them and on every ordinary
   rollover that shared a gap with one.
   */
  lemma SwapClosedForm(setup: Setup, record: TradeRecord, o: nat, c: nat)
    requires ValidSetup(setup) && ChargedOver(setup, record, o, c)
    ensures record.swapPaid
         == Scaled(DailyCharge(setup, record.trade.direction, record.trade.size),
                   CalendarRollovers(setup, o, c)
                   + Surcharge(setup.model.weekendMultiplier,
                               CalendarWednesdays(setup, o, c) + ExcessOver(setup, o, c)))
  {
    hide SwapOver, Scaled, Surcharge, CalendarRollovers, CalendarWednesdays, ExcessOver, UnitsOver, DailyCharge;
    SwapIsUnits(setup, record.trade.direction, record.trade.size, o, c);
    UnitsInClosedForm(setup, o, c);
  }

  /** What the trade would have paid had each rollover been charged on its own. */
  function CalendarSwap(setup: Setup, direction: Direction, size: real, o: nat, c: nat): real
    requires o < |setup.bars| && c < |setup.bars|
  {
    Scaled(DailyCharge(setup, direction, size),
           CalendarRollovers(setup, o, c) + Surcharge(setup.model.weekendMultiplier, CalendarWednesdays(setup, o, c)))
  }

  /** The charge beyond the calendar's is the surcharge on the excess. */
  lemma SwapBeyondCalendar(setup: Setup, record: TradeRecord, o: nat, c: nat)
    requires ValidSetup(setup) && ChargedOver(setup, record, o, c)
    ensures record.swapPaid
         == CalendarSwap(setup, record.trade.direction, record.trade.size, o, c)
            + Scaled(DailyCharge(setup, record.trade.direction, record.trade.size),
                     Surcharge(setup.model.weekendMultiplier, ExcessOver(setup, o, c)))
  {
    hide Scaled, Surcharge, CalendarRollovers, CalendarWednesdays, ExcessOver, DailyCharge, SwapOver, Tradeable;
    SwapClosedForm(setup, record, o, c);
    var w, e := CalendarWednesdays(setup, o, c), ExcessOver(setup, o, c);
    SurchargeAdds(setup.model.weekendMultiplier, w, e);
    ScaledAdds(DailyCharge(setup, record.trade.direction, record.trade.size),
               CalendarRollovers(setup, o, c) + Surcharge(setup.model.weekendMultiplier, w),
               Surcharge(setup.model.weekendMultiplier, e));
  }

  lemma DailyChargeVanishes(setup: Setup, direction: Direction, size: PositiveDecimal)
    ensures DailyCharge(setup, direction, size) == 0.0
       <==> (if direction.Long? then setup.model.swapLong else setup.model.swapShort) == 0.0
  {
  }

  /**
   The charged swap is the calendar swap exactly when there is nothing to multiply: no rate, a
   multiplier of one, or no gap in which an ordinary rollover shares with a Wednesday's.
   */
  lemma SwapMatchesCalendarExactlyWhen(setup: Setup, record: TradeRecord, o: nat, c: nat)
    requires ValidSetup(setup) && ChargedOver(setup, record, o, c)
    ensures record.swapPaid == CalendarSwap(setup, record.trade.direction, record.trade.size, o, c) <==>
              || (if record.trade.direction.Long? then setup.model.swapLong else setup.model.swapShort) == 0.0
              || setup.model.weekendMultiplier == 1
              || forall i :: o <= i < c ==> GapExcess(setup, i) == 0
  {
    SwapBeyondCalendar(setup, record, o, c);
    ExcessVanishes(setup, o, c);
    DailyChargeVanishes(setup, record.trade.direction, record.trade.size);
    hide Scaled, Surcharge, CalendarRollovers, CalendarWednesdays, ExcessOver, DailyCharge, SwapOver, GapExcess,
      CalendarSwap, SwapRate;
    var surcharge := Surcharge(setup.model.weekendMultiplier, ExcessOver(setup, o, c));
    ScaledVanishes(DailyCharge(setup, record.trade.direction, record.trade.size), surcharge);
    SurchargeVanishes(setup.model.weekendMultiplier, ExcessOver(setup, o, c));
  }

  /** With gaps of at most a day, the charged swap is always the calendar swap. */
  lemma DailyGapsChargeTheCalendar(setup: Setup, record: TradeRecord, o: nat, c: nat)
    requires ValidSetup(setup) && ChargedOver(setup, record, o, c)
    requires forall i :: o <= i < c ==> setup.bars[i + 1].time <= setup.bars[i].time + MICROS_PER_DAY
    ensures record.swapPaid == CalendarSwap(setup, record.trade.direction, record.trade.size, o, c)
  {
    hide SwapOver, CalendarSwap, SwapRate;
    forall i | o <= i < c ensures GapExcess(setup, i) == 0 {
      ShortGapHasNoExcess(setup, i);
    }
    SwapMatchesCalendarExactlyWhen(setup, record, o, c);
  }

  lemma ShortGapHasNoExcess(setup: Setup, i: nat)
    requires WellFormedBars(setup.bars) && i < |setup.bars| - 1
    requires setup.bars[i + 1].time <= setup.bars[i].time + MICROS_PER_DAY
    ensures GapExcess(setup, i) == 0
  {
    assert setup.bars[i].time <= setup.bars[i + 1].time;
    ShortGapCrossesAtMostOne(setup.bars[i].time, setup.bars[i + 1].time, setup.hour);
    hide Rollovers, WednesdayRollovers;
  }

  /** Whatever the gaps, a multiplier of at least one charges no less than the calendar, on the same side of zero. */
  lemma SwapNeverBelowCalendar(setup: Setup, record: TradeRecord, o: nat, c: nat)
    requires ValidSetup(setup) && ChargedOver(setup, record, o, c) && setup.model.weekendMultiplier >= 1
    ensures Abs(record.swapPaid) >= Abs(CalendarSwap(setup, record.trade.direction, record.trade.size, o, c))
    ensures var calendar := CalendarSwap(setup, record.trade.direction, record.trade.size, o, c);
            0.0 <= calendar <= record.swapPaid || record.swapPaid <= calendar <= 0.0
  {
    SwapBeyondCalendar(setup, record, o, c);
    ExcessVanishes(setup, o, c);
    CalendarCounts(setup, o, c);
    hide Scaled, Surcharge, CalendarRollovers, CalendarWednesdays, ExcessOver, DailyCharge, SwapOver, SwapRate,
      GapExcess;
    var m, charge := setup.model.weekendMultiplier, DailyCharge(setup, record.trade.direction, record.trade.size);
    SurchargeNonnegative(m, ExcessOver(setup, o, c));
    SurchargeNonnegative(m, CalendarWednesdays(setup, o, c));
    ScaledSign(charge, Surcharge(m, ExcessOver(setup, o, c)));
    ScaledSign(charge, CalendarRollovers(setup, o, c) + Surcharge(m, CalendarWednesdays(setup, o, c)));
  }
}
