/** Fill prices, commissions and swap rates of one currency pair, and the running cost accumulator. */
module Costs {
  import opened Models

  datatype CostModel = CostModel(halfSpread: NonNegativeDecimal, commissionPerUnit: NonNegativeDecimal,
                                 slippagePerUnit: NonNegativeDecimal,
                                 swapLong: real, swapShort: real, weekendMultiplier: int) {

    /** What one unit pays in spread and slippage on every fill. */
    function FrictionPerUnit(): real {
      halfSpread + slippagePerUnit
    }
  }

  /** A reference price at which a sell still fills at a positive price. */
  predicate Tradeable(model: CostModel, reference: real) {
    model.FrictionPerUnit() < reference
  }

  function BuyFillPrice(reference: PositiveDecimal, model: CostModel): PositiveDecimal {
    reference + model.halfSpread + model.slippagePerUnit
  }

  function SellFillPrice(reference: real, model: CostModel): PositiveDecimal
    requires Tradeable(model, reference)
  {
    reference - model.halfSpread - model.slippagePerUnit
  }

  /** Entering long or leaving short buys; entering short or leaving long sells. */
  function EntryPrice(direction: Direction, reference: PositiveDecimal, model: CostModel): PositiveDecimal
    requires Tradeable(model, reference)
  {
    if direction.Long? then BuyFillPrice(reference, model) else SellFillPrice(reference, model)
  }

  function ExitPrice(direction: Direction, reference: PositiveDecimal, model: CostModel): PositiveDecimal
    requires Tradeable(model, reference)
  {
    if direction.Long? then SellFillPrice(reference, model) else BuyFillPrice(reference, model)
  }

  function Pnl(direction: Direction, size: real, entry: real, exit: real): real {
    if direction.Long? then (exit - entry) * size else (entry - exit) * size
  }

  function CommissionFor(size: real, model: CostModel): real {
    size * model.commissionPerUnit
  }

  function SwapRate(direction: Direction, model: CostModel): real {
    if direction.Long? then model.swapLong else model.swapShort
  }

  /** Cost attribution. Swap is signed: a negative component is a cost to the trader. */
  datatype CostTotals = CostTotals(spread: real, commission: real, slippage: real, swap: real) {

    /** The engine's total: it adds the signed swap to the positive costs. */
    function Total(): real {
      spread + commission + slippage + swap
    }
  }

  const NO_COSTS := CostTotals(0.0, 0.0, 0.0, 0.0)

  /** The totals after one more fill of the given size. */
  function AddFill(costs: CostTotals, size: real, model: CostModel): CostTotals {
    costs.(spread := costs.spread + size * model.halfSpread,
           slippage := costs.slippage + size * model.slippagePerUnit,
           commission := costs.commission + CommissionFor(size, model))
  }
}
