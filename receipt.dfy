/** The receipt: priced lines and discounts, appended in order, and a total
    rounded to whole cents. */
module Receipts {
  import opened ModelObjects

  /** One priced line. The total is stored as supplied, even when it is not
      quantity times price; a datatype value cannot be changed afterwards. */
  datatype ReceiptItem = ReceiptItem(product: Product, quantity: real, price: real, totalPrice: real)

  /** Sum of the line totals. */
  function SumItemTotals(items: seq<ReceiptItem>): real
  {
    if items == [] then 0.0 else SumItemTotals(items[..|items| - 1]) + items[|items| - 1].totalPrice
  }

  /** Sum of the discount amounts. */
  function SumDiscountAmounts(discounts: seq<Discount>): real
  {
    if discounts == [] then 0.0 else SumDiscountAmounts(discounts[..|discounts| - 1]) + discounts[|discounts| - 1].discountAmount
  }

  /** A whole number of cents. */
  predicate IsCents(x: real)
  {
    (x * 100.0).Floor as real == x * 100.0
  }

  /** Python's `round(x, 2)`: the nearest whole number of cents, ties to the
      even cent. Whole-cent amounts are left alone. */
  function Round2(x: real): (r: real)
    ensures IsCents(r)
    ensures -0.005 <= r - x <= 0.005
    ensures IsCents(x) ==> r == x
    ensures x * 100.0 - (x * 100.0).Floor as real == 0.5 ==> (r * 100.0).Floor % 2 == 0
  {
    var y := x * 100.0;
    var f := y.Floor;
    var d := y - f as real;
    var k := if d < 0.5 then f else if d > 0.5 then f + 1 else if f % 2 == 0 then f else f + 1;
    assert (k as real / 100.0) * 100.0 == k as real;
    k as real / 100.0
  }

  class Receipt {
    var items: seq<ReceiptItem>
    var discounts: seq<Discount>

    /** A new receipt has no lines and no discounts. */
    constructor ()
      ensures items == [] && discounts == []
    {
      items := [];
      discounts := [];
    }

    /** Appends exactly one line with the given fields; nothing else changes. */
    method AddProduct(product: Product, quantity: real, price: real, totalPrice: real)
      modifies this
      ensures items == old(items) + [ReceiptItem(product, quantity, price, totalPrice)]
      ensures discounts == old(discounts)
    {
      items := items + [ReceiptItem(product, quantity, price, totalPrice)];
    }

    /** Appends exactly one discount; the lines do not change. */
    method AddDiscount(discount: Discount)
      modifies this
      ensures discounts == old(discounts) + [discount]
      ensures items == old(items)
    {
      discounts := discounts + [discount];
    }

    /** The grand total: the sum of the line totals and the discount
      amounts, rounded to whole cents. Being a function, it cannot change
      the receipt and gives the same value each time it is asked. */
    function TotalPrice(): (r: real)
      reads this
      ensures IsCents(r)
      ensures -0.005 <= r - (SumItemTotals(items) + SumDiscountAmounts(discounts)) <= 0.005
      ensures items == [] && discounts == [] ==> r == 0.0
    {
      Round2(SumItemTotals(items) + SumDiscountAmounts(discounts))
    }
  }

  /** Adding a line raises the unrounded total by exactly that line's total;
      adding a discount raises it by the discount amount. */
  lemma {:induction false} SumsAfterAppend(items: seq<ReceiptItem>, item: ReceiptItem, discounts: seq<Discount>, discount: Discount)
    ensures SumItemTotals(items + [item]) == SumItemTotals(items) + item.totalPrice
    ensures SumDiscountAmounts(discounts + [discount]) == SumDiscountAmounts(discounts) + discount.discountAmount
  {
    assert (items + [item])[..|items|] == items;
    assert (discounts + [discount])[..|discounts|] == discounts;
  }
}
