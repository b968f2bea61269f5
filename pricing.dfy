/**
 * The cost-plus price computation of the calculator screen (`calculatePrice`
 * in src/App.tsx). Numbers are modelled as `real`: the source applies no
 * rounding of its own, so the identities below are the ones its doubles
 * approximate.
 */
module Pricing {
  import opened Wrappers

  /** One result of the calculator: the parsed inputs and every intermediate of the formula. */
  datatype Calculation = Calculation(
    productName: string,
    materialCost: real,
    laborCost: real,
    overheadExpenses: real,
    profitPercentage: real,
    discountPercentage: real,
    taxPercentage: real,
    baseCost: real,
    profitAmount: real,
    withProfit: real,
    discountAmount: real,
    afterDiscount: real,
    taxAmount: real,
    totalPrice: real,
    timestamp: string)

  /**
   * The six numeric form fields after `parseFloat`: `None` stands for a string
   * that does not start with a number (parseFloat gives NaN), the empty string included.
   */
  datatype ParsedInputs = ParsedInputs(
    materialCost: Option<real>,
    laborCost: Option<real>,
    overheadExpenses: Option<real>,
    profitPercentage: Option<real>,
    discountPercentage: Option<real>,
    taxPercentage: Option<real>)

  /** `parseFloat(s) || 0`: a failed parse contributes 0. */
  function OrZero(v: Option<real>): real {
    v.GetOr(0.0)
  }

  /** A percentage applied to an amount, as `amount * (percentage / 100)`. */
  function PercentOf(amount: real, percentage: real): real {
    amount * (percentage / 100.0)
  }

  /**
   * The audit trail of a record: each intermediate follows from the one before
   * it and from the inputs stored beside it.
   */
  predicate Consistent(c: Calculation) {
    && c.baseCost == c.materialCost + c.laborCost + c.overheadExpenses
    && c.profitAmount == PercentOf(c.baseCost, c.profitPercentage)
    && c.withProfit == c.baseCost + c.profitAmount
    && c.discountAmount == PercentOf(c.withProfit, c.discountPercentage)
    && c.afterDiscount == c.withProfit - c.discountAmount
    && c.taxAmount == PercentOf(c.afterDiscount, c.taxPercentage)
    && c.totalPrice == c.afterDiscount + c.taxAmount
  }

  /** The record `calculatePrice` builds from the form; it never fails. */
  function Compute(productName: string, inputs: ParsedInputs, timestamp: string): (c: Calculation)
    ensures c.productName == productName && c.timestamp == timestamp
    ensures c.materialCost == OrZero(inputs.materialCost)
    ensures c.laborCost == OrZero(inputs.laborCost)
    ensures c.overheadExpenses == OrZero(inputs.overheadExpenses)
    ensures c.profitPercentage == OrZero(inputs.profitPercentage)
    ensures c.discountPercentage == OrZero(inputs.discountPercentage)
    ensures c.taxPercentage == OrZero(inputs.taxPercentage)
    ensures Consistent(c)
  {
    var materialCost := OrZero(inputs.materialCost);
    var laborCost := OrZero(inputs.laborCost);
    var overheadExpenses := OrZero(inputs.overheadExpenses);
    var profitPercentage := OrZero(inputs.profitPercentage);
    var discountPercentage := OrZero(inputs.discountPercentage);
    var taxPercentage := OrZero(inputs.taxPercentage);

    var baseCost := materialCost + laborCost + overheadExpenses;
    var profitAmount := PercentOf(baseCost, profitPercentage);
    var withProfit := baseCost + profitAmount;
    var discountAmount := PercentOf(withProfit, discountPercentage);
    var afterDiscount := withProfit - discountAmount;
    var taxAmount := PercentOf(afterDiscount, taxPercentage);
    var totalPrice := afterDiscount + taxAmount;

    Calculation(productName, materialCost, laborCost, overheadExpenses,
                profitPercentage, discountPercentage, taxPercentage,
                baseCost, profitAmount, withProfit, discountAmount,
                afterDiscount, taxAmount, totalPrice, timestamp)
  }

  /** The total is the base cost plus profit, minus discount, plus tax. */
  lemma TotalIsSumOfParts(c: Calculation)
    requires Consistent(c)
    ensures c.totalPrice == c.afterDiscount + c.taxAmount
    ensures c.totalPrice == c.baseCost + c.profitAmount - c.discountAmount + c.taxAmount
    ensures c.baseCost == c.materialCost + c.laborCost + c.overheadExpenses
  {
  }

  /** The total in closed form: the base cost scaled by the three percentage factors in turn. */
  lemma TotalClosedForm(c: Calculation)
    requires Consistent(c)
    ensures c.withProfit == c.baseCost * (1.0 + c.profitPercentage / 100.0)
    ensures c.afterDiscount == c.withProfit * (1.0 - c.discountPercentage / 100.0)
    ensures c.totalPrice == c.afterDiscount * (1.0 + c.taxPercentage / 100.0)
    ensures c.totalPrice
         == c.baseCost * (1.0 + c.profitPercentage / 100.0)
                       * (1.0 - c.discountPercentage / 100.0)
                       * (1.0 + c.taxPercentage / 100.0)
  {
  }

  /** A zero percentage leaves its step of the chain unchanged. */
  lemma ZeroPercentagesAreNeutral(c: Calculation)
    requires Consistent(c)
    ensures c.profitPercentage == 0.0 ==> c.profitAmount == 0.0 && c.withProfit == c.baseCost
    ensures c.discountPercentage == 0.0 ==> c.discountAmount == 0.0 && c.afterDiscount == c.withProfit
    ensures c.taxPercentage == 0.0 ==> c.taxAmount == 0.0 && c.totalPrice == c.afterDiscount
  {
  }

  /**
   * With non-negative costs, profit and tax, and a discount of at most 100%,
   * every amount is non-negative, profit and tax only raise the price and the
   * discount only lowers it.
   */
  lemma AmountsStayInRange(c: Calculation)
    requires Consistent(c)
    requires c.materialCost >= 0.0 && c.laborCost >= 0.0 && c.overheadExpenses >= 0.0
    requires c.profitPercentage >= 0.0 && c.taxPercentage >= 0.0
    requires 0.0 <= c.discountPercentage <= 100.0
    ensures 0.0 <= c.baseCost <= c.withProfit
    ensures 0.0 <= c.discountAmount <= c.withProfit
    ensures 0.0 <= c.afterDiscount <= c.withProfit
    ensures c.afterDiscount <= c.totalPrice
  {
    PercentOfIsAtMost(c.withProfit, c.discountPercentage);
  }

  /** At most 100% of a non-negative amount is between nothing and the whole amount. */
  lemma PercentOfIsAtMost(amount: real, percentage: real)
    requires amount >= 0.0 && 0.0 <= percentage <= 100.0
    ensures 0.0 <= PercentOf(amount, percentage) <= amount
  {
    var fraction := percentage / 100.0;
    assert 0.0 <= fraction <= 1.0;
    assert amount * fraction <= amount * 1.0 by {
      assert amount * (1.0 - fraction) >= 0.0;
    }
  }

  /** With every numeric field unparsable, the whole record is zero. */
  lemma UnparsedInputsGiveZeroRecord(productName: string, timestamp: string)
    ensures var c := Compute(productName, ParsedInputs(None, None, None, None, None, None), timestamp);
      && c.materialCost == c.laborCost == c.overheadExpenses == 0.0
      && c.profitPercentage == c.discountPercentage == c.taxPercentage == 0.0
      && c.baseCost == c.withProfit == c.afterDiscount == c.totalPrice == 0.0
  {
  }

  /** Material 100, labour 50, overhead 20, profit 20%, discount 10%, tax 12%. */
  lemma WorkedExample(productName: string, timestamp: string)
    ensures var c := Compute(productName,
                             ParsedInputs(Some(100.0), Some(50.0), Some(20.0),
                                          Some(20.0), Some(10.0), Some(12.0)),
                             timestamp);
      && c.baseCost == 170.0
      && c.profitAmount == 34.0
      && c.withProfit == 204.0
      && c.discountAmount == 20.4
      && c.afterDiscount == 183.6
      && c.taxAmount == 22.032
      && c.totalPrice == 205.632
  {
  }
}
