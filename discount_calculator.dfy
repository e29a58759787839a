/** The discount engine: validates the quantity and unit price of one
    product, then prices that product's offer. Python's `ValueError`s are
    `Failure` values. */
module DiscountCalculator {
  import opened Wrappers
  import opened ModelObjects

  /** The reasons the engine refuses to price an offer. */
  datatype Error =
    | InvalidQuantityOrPrice   // quantity <= 0 or unit price < 0
    | InvalidPercentage        // percent discount outside [0, 100]
    | UnknownOfferType(code: int)

  /** A validated calculator. Its fields are set once and never updated. */
  datatype Calculator = Calculator(product: Product, quantity: int, unitPrice: real, offer: Offer)

  /** Python's `int(x)` on a float: truncation toward zero. */
  function Trunc(x: real): (n: int)
    ensures 0.0 <= x ==> 0 <= n && n as real <= x < n as real + 1.0
    ensures x < 0.0 ==> n <= 0 && n as real - 1.0 < x <= n as real
  {
    if x >= 0.0 then x.Floor else -((-x).Floor)
  }

  /** Construction: fails exactly when the quantity is not positive or the
      unit price is negative; otherwise keeps the quantity truncated to a
      whole number, so a fractional quantity below one becomes zero. */
  function NewCalculator(product: Product, quantity: real, unitPrice: real, offer: Offer): (r: Result<Calculator, Error>)
    ensures r.Failure? <==> quantity <= 0.0 || unitPrice < 0.0
    ensures r.Failure? ==> r.error == InvalidQuantityOrPrice
    ensures r.Success? ==> r.value.product == product && r.value.unitPrice == unitPrice && r.value.offer == offer
    ensures r.Success? ==> 0 <= r.value.quantity && r.value.quantity as real <= quantity < r.value.quantity as real + 1.0
  {
    if quantity <= 0.0 || unitPrice < 0.0 then Failure(InvalidQuantityOrPrice)
    else Success(Calculator(product, Trunc(quantity), unitPrice, offer))
  }

  /** The group rule shared by every "N for a price" offer: each full group
      of `groupSize` units costs `amount` instead of `groupSize` unit
      prices, the rest pay the unit price. No discount below one group. */
  function GroupDiscount(product: Product, quantity: int, unitPrice: real, groupSize: int, amount: real): (r: Option<Discount>)
    requires groupSize > 0
    ensures r.None? <==> quantity < groupSize
    ensures r.Some? ==> r.value.product == product && r.value.description == GroupFor(groupSize, amount)
    ensures r.Some? ==> r.value.discountAmount == (quantity / groupSize) as real * (amount - groupSize as real * unitPrice)
  {
    if quantity >= groupSize then
      var numberOfGroups := quantity / groupSize;
      var rest := quantity % groupSize;
      var total := amount * numberOfGroups as real + rest as real * unitPrice;
      var saved := quantity as real * unitPrice - total;
      assert quantity as real == numberOfGroups as real * groupSize as real + rest as real by {
        assert quantity == numberOfGroups * groupSize + rest;
      }
      Some(Discount(product, GroupFor(groupSize, amount), -saved))
    else
      None
  }

  /** Three for the price of two: each full group of three takes one unit
      price off, so the amount is never positive for a non-negative price. */
  function ThreeForTwoDiscount(c: Calculator): (r: Option<Discount>)
    ensures r.None? <==> c.quantity < 3
    ensures r.Some? ==> r.value.product == c.product && r.value.description == GroupFor(3, 2.0 * c.unitPrice)
    ensures r.Some? ==> r.value.discountAmount == -((c.quantity / 3) as real * c.unitPrice)
    ensures r.Some? && c.unitPrice >= 0.0 ==> r.value.discountAmount <= 0.0
  {
    GroupDiscount(c.product, c.quantity, c.unitPrice, 3, 2.0 * c.unitPrice)
  }

  /** Two for the offer's amount. The amount is not clamped: a bundle price
      above two unit prices gives a non-negative "discount". */
  function TwoForAmountDiscount(c: Calculator): (r: Option<Discount>)
    ensures r.None? <==> c.quantity < 2
    ensures r.Some? ==> r.value.product == c.product && r.value.description == GroupFor(2, c.offer.argument)
    ensures r.Some? ==> r.value.discountAmount == (c.quantity / 2) as real * (c.offer.argument - 2.0 * c.unitPrice)
    ensures r.Some? ==> (r.value.discountAmount <= 0.0 <==> c.offer.argument <= 2.0 * c.unitPrice)
  {
    var r := GroupDiscount(c.product, c.quantity, c.unitPrice, 2, c.offer.argument);
    if r.Some? then
      assert c.quantity / 2 > 0;
      GroupsTimesSaving(c.quantity / 2, c.offer.argument - 2.0 * c.unitPrice);
      r
    else r
  }

  /** Five for the offer's amount, with the same unclamped rule. */
  function FiveForAmountDiscount(c: Calculator): (r: Option<Discount>)
    ensures r.None? <==> c.quantity < 5
    ensures r.Some? ==> r.value.product == c.product && r.value.description == GroupFor(5, c.offer.argument)
    ensures r.Some? ==> r.value.discountAmount == (c.quantity / 5) as real * (c.offer.argument - 5.0 * c.unitPrice)
    ensures r.Some? ==> (r.value.discountAmount <= 0.0 <==> c.offer.argument <= 5.0 * c.unitPrice)
  {
    var r := GroupDiscount(c.product, c.quantity, c.unitPrice, 5, c.offer.argument);
    if r.Some? then
      assert c.quantity / 5 > 0;
      GroupsTimesSaving(c.quantity / 5, c.offer.argument - 5.0 * c.unitPrice);
      r
    else r
  }

  /** A percentage off the full price; the percentage must lie in [0, 100].
      The customer then pays (100 - percent)% of quantity times unit price. */
  function PercentDiscount(c: Calculator): (r: Result<Option<Discount>, Error>)
    ensures r.Failure? <==> !(0.0 <= c.offer.argument <= 100.0)
    ensures r.Failure? ==> r.error == InvalidPercentage
    ensures r.Success? ==> r.value.Some? && r.value.value.product == c.product
    ensures r.Success? ==> r.value.value.description == PercentOff(c.offer.argument)
    ensures r.Success? ==>
      c.quantity as real * c.unitPrice + r.value.value.discountAmount
        == c.quantity as real * c.unitPrice * (100.0 - c.offer.argument) / 100.0
    ensures r.Success? && c.quantity >= 0 && c.unitPrice >= 0.0 ==>
      -(c.quantity as real * c.unitPrice) <= r.value.value.discountAmount <= 0.0
  {
    if !(0.0 <= c.offer.argument <= 100.0) then Failure(InvalidPercentage)
    else
      var full := c.quantity as real * c.unitPrice;
      var amount := -(full * (c.offer.argument / 100.0));
      assert c.quantity >= 0 && c.unitPrice >= 0.0 ==> -full <= amount <= 0.0 by {
        if c.quantity >= 0 && c.unitPrice >= 0.0 {
          MulNonNegative(c.quantity as real, c.unitPrice);
          MulFractionBound(full, c.offer.argument);
        }
      }
      Success(Some(Discount(c.product, PercentOff(c.offer.argument), amount)))
  }

  /** A positive number of groups keeps the sign of the per-group saving. */
  lemma GroupsTimesSaving(groups: int, saving: real)
    requires groups > 0
    ensures groups as real * saving <= 0.0 <==> saving <= 0.0
  {
    if saving > 0.0 {
      assert groups as real * saving >= saving;
    }
  }

  lemma MulFractionBound(x: real, pct: real)
    requires x >= 0.0 && 0.0 <= pct <= 100.0
    ensures 0.0 <= x * (pct / 100.0) <= x
  {
    assert x * pct <= x * 100.0;
    assert x * (pct / 100.0) == x * pct / 100.0;
  }

  lemma MulNonNegative(a: real, b: real)
    requires a >= 0.0 && b >= 0.0
    ensures a * b >= 0.0
  {
  }

  /** Dispatch on the offer type; an offer type outside the four known
      promotions is an error rather than "no discount". */
  function CalculateDiscount(c: Calculator): (r: Result<Option<Discount>, Error>)
    ensures c.offer.offerType.Unlisted? ==> r == Failure(UnknownOfferType(c.offer.offerType.code))
    ensures c.offer.offerType == Listed(ThreeForTwo) ==> r == Success(ThreeForTwoDiscount(c))
    ensures c.offer.offerType == Listed(TwoForAmount) ==> r == Success(TwoForAmountDiscount(c))
    ensures c.offer.offerType == Listed(FiveForAmount) ==> r == Success(FiveForAmountDiscount(c))
    ensures c.offer.offerType == Listed(TenPercentDiscount) ==> r == PercentDiscount(c)
  {
    match c.offer.offerType
    case Listed(ThreeForTwo) => Success(ThreeForTwoDiscount(c))
    case Listed(TwoForAmount) => Success(TwoForAmountDiscount(c))
    case Listed(FiveForAmount) => Success(FiveForAmountDiscount(c))
    case Listed(TenPercentDiscount) => PercentDiscount(c)
    case Unlisted(code) => Failure(UnknownOfferType(code))
  }

  /** Construct a calculator and ask it for the discount, as checkout does. */
  function ComputeDiscount(product: Product, quantity: real, unitPrice: real, offer: Offer): (r: Result<Option<Discount>, Error>)
    ensures quantity <= 0.0 || unitPrice < 0.0 ==> r == Failure(InvalidQuantityOrPrice)
    ensures r.Success? && r.value.Some? ==> r.value.value.product == product
  {
    match NewCalculator(product, quantity, unitPrice, offer)
    case Failure(e) => Failure(e)
    case Success(c) => CalculateDiscount(c)
  }

  /** A group offer never discounts fewer units than one group, whatever the
      fractional part of the quantity. */
  lemma GroupOfferBelowGroupSize(product: Product, quantity: real, unitPrice: real, offer: Offer, groupSize: int)
    requires IsGroupOffer(offer.offerType)
    requires groupSize == GroupSizeOf(offer.offerType.offerType)
    requires 0.0 < quantity < groupSize as real && unitPrice >= 0.0
    ensures ComputeDiscount(product, quantity, unitPrice, offer) == Success(None)
  {
    var c := NewCalculator(product, quantity, unitPrice, offer).value;
    assert c.quantity < groupSize;
  }

  /** The three offers priced by the group rule. */
  predicate IsGroupOffer(t: OfferTag)
  {
    t.Listed? && t.offerType != TenPercentDiscount
  }

  /** The group size each group offer is priced with; the percent offer has
      no group size. */
  function GroupSizeOf(t: OfferType): (g: int)
    requires t != TenPercentDiscount
    ensures g > 0
  {
    if t == ThreeForTwo then 3
    else if t == TwoForAmount then 2
    else 5
  }

  /** The bundle price a group offer charges per full group. */
  function BundlePrice(offer: Offer, unitPrice: real): real
  {
    if offer.offerType == Listed(ThreeForTwo) then 2.0 * unitPrice else offer.argument
  }

  /** Once at least one group is bought, every group offer is priced by the
      shared group rule at the truncated quantity and always emits a
      discount record, even one whose amount is zero or positive. */
  lemma GroupOfferAtGroupSize(product: Product, quantity: real, unitPrice: real, offer: Offer)
    requires IsGroupOffer(offer.offerType)
    requires quantity >= GroupSizeOf(offer.offerType.offerType) as real && unitPrice >= 0.0
    ensures ComputeDiscount(product, quantity, unitPrice, offer)
         == Success(GroupDiscount(product, Trunc(quantity), unitPrice,
                                  GroupSizeOf(offer.offerType.offerType), BundlePrice(offer, unitPrice)))
    ensures ComputeDiscount(product, quantity, unitPrice, offer).value.Some?
  {
    var c := NewCalculator(product, quantity, unitPrice, offer).value;
    var g := GroupSizeOf(offer.offerType.offerType);
    assert c.quantity == Trunc(quantity) >= g;
    var d := GroupDiscount(product, c.quantity, unitPrice, g, BundlePrice(offer, unitPrice));
    assert CalculateDiscount(c) == Success(d) by {
      match offer.offerType.offerType
      case ThreeForTwo => assert ThreeForTwoDiscount(c) == d;
      case TwoForAmount => assert TwoForAmountDiscount(c) == d;
      case FiveForAmount => assert FiveForAmountDiscount(c) == d;
    }
  }

  /** A valid percentage offer always emits a discount record, described
      by its percentage, after which the customer pays (100 - percent)% of
      the truncated quantity times the unit price. */
  lemma PercentOfferPriced(product: Product, quantity: real, unitPrice: real, arg: real)
    requires quantity > 0.0 && unitPrice >= 0.0 && 0.0 <= arg <= 100.0
    ensures var r := ComputeDiscount(product, quantity, unitPrice, Offer(Listed(TenPercentDiscount), arg));
      && r.Success? && r.value.Some?
      && r.value.value.product == product
      && r.value.value.description == PercentOff(arg)
      && Trunc(quantity) as real * unitPrice + r.value.value.discountAmount
         == Trunc(quantity) as real * unitPrice * (100.0 - arg) / 100.0
  {
    var o := Offer(Listed(TenPercentDiscount), arg);
    var c := NewCalculator(product, quantity, unitPrice, o).value;
    assert c == Calculator(product, Trunc(quantity), unitPrice, o);
    assert CalculateDiscount(c) == PercentDiscount(c);
  }

  /** Invalid quantity or price fails whatever the offer. */
  lemma BadInputAlwaysFails(product: Product, quantity: real, unitPrice: real, offer: Offer)
    ensures ComputeDiscount(product, quantity, unitPrice, offer).Failure? <==>
           quantity <= 0.0 || unitPrice < 0.0
           || offer.offerType.Unlisted?
           || (offer.offerType == Listed(TenPercentDiscount) && !(0.0 <= offer.argument <= 100.0))
  {
  }
}
