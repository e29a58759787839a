/** Whole checkouts through the teller, with the catalog prices the
    supermarket's own tests use, and single offers priced directly. */
module Scenarios {
  import opened Wrappers
  import opened ModelObjects
  import opened DiscountCalculator
  import opened Receipts
  import opened Cart
  import opened Checkout

  const Toothbrush := Product("toothbrush", Each)
  const Rice := Product("rice", Each)
  const Apples := Product("apples", Kilo)
  const CherryTomatoes := Product("cherry tomato box", Each)

  /** The test catalog; any other product costs nothing. */
  function TestPrice(p: Product): real
  {
    if p == Toothbrush then 0.99
    else if p == Rice then 2.99
    else if p == Apples then 1.99
    else if p == CherryTomatoes then 0.69
    else 0.0
  }

  /** A cart of one entry prints one line, priced from the catalog. */
  lemma OneEntryLines(product: Product, quantity: real, catalog: Product -> real)
    ensures ReceiptLines([ProductQuantity(product, quantity)], catalog)
         == [ReceiptItem(product, quantity, catalog(product), quantity * catalog(product))]
  {
    ReceiptLinesAt([ProductQuantity(product, quantity)], catalog, 0);
  }

  /** With one product and its offer, the discounts are exactly what the
      engine computes for it. */
  lemma OneProductDiscounts(product: Product, quantity: real, offer: Offer, catalog: Product -> real, d: Option<Discount>)
    requires ComputeDiscount(product, quantity, catalog(product), offer) == Success(d)
    ensures OfferDiscounts([product], map[product := quantity], map[product := offer], catalog)
         == Applied(if d.Some? then [d.value] else [], None)
  {
    assert [product][..0] == [];
  }

  /** Checks out one product bought in one entry, under its offer if any. */
  method CheckOutOne(product: Product, quantity: real, offer: Option<Offer>) returns (r: Result<Receipt, Error>)
    ensures var offers := if offer.Some? then map[product := offer.value] else map[];
      var applied := OfferDiscounts([product], map[product := quantity], offers, TestPrice);
      && (r.Success? <==> applied.failure.None?)
      && (r.Success? ==> r.value.items == ReceiptLines([ProductQuantity(product, quantity)], TestPrice)
                         && r.value.discounts == applied.discounts)
  {
    var cart := new ShoppingCart();
    cart.AddItemQuantity(product, quantity);
    var teller := new Teller(TestPrice);
    if offer.Some? {
      teller.AddSpecialOffer(offer.value.offerType, product, offer.value.argument);
    }
    r := teller.ChecksOutArticlesFrom(cart);
  }

  /** An empty cart costs nothing and prints no lines. */
  method EmptyCartCostsNothing() returns (total: real, lines: nat)
    ensures total == 0.0 && lines == 0
  {
    var cart := new ShoppingCart();
    var teller := new Teller(TestPrice);
    var r := teller.ChecksOutArticlesFrom(cart);
    assert r.Success?;
    total := r.value.TotalPrice();
    lines := |r.value.items|;
  }

  /** One toothbrush, no offer: one line at the catalog price. */
  method OneNormalItem() returns (total: real, lines: nat)
    ensures total == 0.99 && lines == 1
  {
    var cart := new ShoppingCart();
    cart.AddItem(Toothbrush);
    var teller := new Teller(TestPrice);
    var r := teller.ChecksOutArticlesFrom(cart);
    NoOffersNoDiscounts(cart.order, cart.productQuantities, TestPrice);
    OneEntryLines(Toothbrush, 1.0, TestPrice);
    assert SumItemTotals(r.value.items) == 0.99;
    assert IsCents(0.99);
    total := r.value.TotalPrice();
    lines := |r.value.items|;
  }

  /** Checks out one unit each of two products with no offers: the
      checkout succeeds with the two lines and no discounts. */
  method CheckOutTwoUnits(a: Product, b: Product) returns (r: Result<Receipt, Error>)
    ensures r.Success?
    ensures r.value.items == ReceiptLines([ProductQuantity(a, 1.0), ProductQuantity(b, 1.0)], TestPrice)
    ensures r.value.discounts == []
  {
    var cart := new ShoppingCart();
    cart.AddItem(a);
    cart.AddItem(b);
    var teller := new Teller(TestPrice);
    NoOffersNoDiscounts(cart.order, cart.productQuantities, TestPrice);
    r := teller.ChecksOutArticlesFrom(cart);
  }

  /** A toothbrush and a bag of rice, no offers: two lines. */
  method TwoNormalItems() returns (total: real, lines: nat)
    ensures total == 3.98 && lines == 2
  {
    var r := CheckOutTwoUnits(Toothbrush, Rice);
    TwoEntryLines(ProductQuantity(Toothbrush, 1.0), ProductQuantity(Rice, 1.0), TestPrice);
    TwoLinesTotal(r.value, ReceiptItem(Toothbrush, 1.0, 0.99, 0.99), ReceiptItem(Rice, 1.0, 2.99, 2.99));
    assert IsCents(3.98);
    total := r.value.TotalPrice();
    lines := |r.value.items|;
  }

  /** A cart of two entries prints their two lines in order. */
  lemma TwoEntryLines(a: ProductQuantity, b: ProductQuantity, catalog: Product -> real)
    ensures ReceiptLines([a, b], catalog) == [LineFor(a, catalog), LineFor(b, catalog)]
  {
    assert [a, b][..1] == [a];
    assert [a][..0] == [];
  }

  /** The total of a two-line receipt without discounts. */
  lemma TwoLinesTotal(receipt: Receipt, a: ReceiptItem, b: ReceiptItem)
    requires receipt.items == [a, b] && receipt.discounts == []
    ensures receipt.TotalPrice() == Round2(a.totalPrice + b.totalPrice)
  {
    TwoLineSum(a, b);
  }

  /** Two lines sum to their two totals. */
  lemma TwoLineSum(a: ReceiptItem, b: ReceiptItem)
    ensures SumItemTotals([a, b]) == a.totalPrice + b.totalPrice
  {
    assert [a, b][..1] == [a];
    assert [a][..0] == [];
    assert SumItemTotals([a]) == a.totalPrice;
  }

  /** The total of a one-line receipt with at most one discount is the
      line total plus the discount, rounded to cents. */
  lemma OneLineTotal(receipt: Receipt, line: ReceiptItem, ds: seq<Discount>)
    requires receipt.items == [line] && |ds| <= 1 && receipt.discounts == ds
    ensures receipt.TotalPrice() == Round2(line.totalPrice + (if ds == [] then 0.0 else ds[0].discountAmount))
  {
    assert [line][..0] == [];
    assert SumItemTotals([line]) == line.totalPrice;
    if ds != [] {
      assert ds[..0] == [];
    }
    assert SumDiscountAmounts(ds) == if ds == [] then 0.0 else ds[0].discountAmount;
  }

  /** Checks out one product, under its offer if any, where the engine
      prices that offer as `d`, and returns the rounded total. */
  method OneProductTotal(product: Product, quantity: real, offer: Option<Offer>, d: Option<Discount>) returns (total: real)
    requires offer.None? ==> d.None?
    requires offer.Some? ==> ComputeDiscount(product, quantity, TestPrice(product), offer.value) == Success(d)
    ensures total == Round2(quantity * TestPrice(product) + (if d.Some? then d.value.discountAmount else 0.0))
  {
    var r := CheckOutOne(product, quantity, offer);
    if offer.Some? {
      OneProductDiscounts(product, quantity, offer.value, TestPrice, d);
    } else {
      NoOffersNoDiscounts([product], map[product := quantity], TestPrice);
    }
    OneEntryLines(product, quantity, TestPrice);
    OneLineTotal(r.value, ReceiptItem(product, quantity, TestPrice(product), quantity * TestPrice(product)),
                 if d.Some? then [d.value] else []);
    total := r.value.TotalPrice();
  }

  /** Two toothbrushes under three-for-two: no full group, full price. */
  method BuyTwoGetOneFree() returns (total: real)
    ensures total == 1.98
  {
    var offer := Offer(Listed(ThreeForTwo), 0.99);
    GroupOfferBelowGroupSize(Toothbrush, 2.0, 0.99, offer, 3);
    total := OneProductTotal(Toothbrush, 2.0, Some(offer), None);
    assert IsCents(1.98);
  }

  /** Five toothbrushes under three-for-two: one of them is free. */
  method BuyFiveGetOneFree() returns (total: real)
    ensures total == 3.96
  {
    var offer := Offer(Listed(ThreeForTwo), 0.99);
    GroupOfferAtGroupSize(Toothbrush, 5.0, 0.99, offer);
    assert Trunc(5.0) == 5;
    var d := Discount(Toothbrush, GroupFor(3, 1.98), -0.99);
    assert GroupDiscount(Toothbrush, 5, 0.99, 3, 1.98) == Some(d);
    total := OneProductTotal(Toothbrush, 5.0, Some(offer), Some(d));
    assert IsCents(3.96);
  }

  /** Half a kilo of apples at 1.99 a kilo is exactly 0.995, a tie that
      rounds to the even cent. */
  method LooseWeightProduct() returns (total: real)
    ensures total == 1.00
  {
    total := OneProductTotal(Apples, 0.5, None, None);
    assert (99.5).Floor == 99;
  }

  /** Ten percent off one bag of rice. */
  method PercentDiscountOnRice() returns (total: real)
    ensures total == 2.69
  {
    var offer := Offer(Listed(TenPercentDiscount), 10.0);
    assert Trunc(1.0) == 1;
    var d := Discount(Rice, PercentOff(10.0), -0.299);
    assert ComputeDiscount(Rice, 1.0, 2.99, offer) == Success(Some(d));
    total := OneProductTotal(Rice, 1.0, Some(offer), Some(d));
    assert (269.1).Floor == 269;
  }

  /** Two boxes of cherry tomatoes for 0.99. */
  method TwoTomatoBoxesForAmount() returns (total: real)
    ensures total == 0.99
  {
    var offer := Offer(Listed(TwoForAmount), 0.99);
    GroupOfferAtGroupSize(CherryTomatoes, 2.0, 0.69, offer);
    assert Trunc(2.0) == 2;
    var d := Discount(CherryTomatoes, GroupFor(2, 0.99), -0.39);
    assert GroupDiscount(CherryTomatoes, 2, 0.69, 2, 0.99) == Some(d);
    total := OneProductTotal(CherryTomatoes, 2.0, Some(offer), Some(d));
    assert IsCents(0.99);
  }

  /** Five kilos of apples for 5.99. */
  method FiveApplesForAmount() returns (total: real)
    ensures total == 5.99
  {
    var offer := Offer(Listed(FiveForAmount), 5.99);
    GroupOfferAtGroupSize(Apples, 5.0, 1.99, offer);
    assert Trunc(5.0) == 5;
    var d := Discount(Apples, GroupFor(5, 5.99), -3.96);
    assert GroupDiscount(Apples, 5, 1.99, 5, 5.99) == Some(d);
    total := OneProductTotal(Apples, 5.0, Some(offer), Some(d));
    assert IsCents(5.99);
  }

  /** Six kilos under five for 5.99: one group and one kilo at the unit price. */
  method SixApplesFiveForAmount() returns (total: real)
    ensures total == 7.98
  {
    var offer := Offer(Listed(FiveForAmount), 5.99);
    GroupOfferAtGroupSize(Apples, 6.0, 1.99, offer);
    assert Trunc(6.0) == 6;
    var d := Discount(Apples, GroupFor(5, 5.99), -3.96);
    assert GroupDiscount(Apples, 6, 1.99, 5, 5.99) == Some(d);
    total := OneProductTotal(Apples, 6.0, Some(offer), Some(d));
    assert IsCents(7.98);
  }

  /** Sixteen kilos under five for 7.99: three groups and one kilo. */
  method SixteenApplesFiveForAmount() returns (total: real)
    ensures total == 25.96
  {
    var offer := Offer(Listed(FiveForAmount), 7.99);
    GroupOfferAtGroupSize(Apples, 16.0, 1.99, offer);
    assert Trunc(16.0) == 16;
    var d := Discount(Apples, GroupFor(5, 7.99), -5.88);
    assert GroupDiscount(Apples, 16, 1.99, 5, 7.99) == Some(d);
    total := OneProductTotal(Apples, 16.0, Some(offer), Some(d));
    assert IsCents(25.96);
  }

  /** Four kilos: short of a group, full price. */
  method ApplesFiveForAmountWithFour() returns (total: real)
    ensures total == 7.96
  {
    var offer := Offer(Listed(FiveForAmount), 6.99);
    GroupOfferBelowGroupSize(Apples, 4.0, 1.99, offer, 5);
    total := OneProductTotal(Apples, 4.0, Some(offer), None);
    assert IsCents(7.96);
  }

  const Apple := Product("Apple", Each)

  /** Three apples at 1.0 under three-for-two save one unit price. */
  lemma ThreeForTwoSavesOne()
    ensures ComputeDiscount(Apple, 3.0, 1.0, Offer(Listed(ThreeForTwo), 0.0))
         == Success(Some(Discount(Apple, GroupFor(3, 2.0), -1.0)))
  {
    assert Trunc(3.0) == 3;
  }

  /** Two bananas at 1.0 for 1.5 save 0.5. */
  lemma TwoForOneAndAHalf()
    ensures ComputeDiscount(Product("Banana", Each), 2.0, 1.0, Offer(Listed(TwoForAmount), 1.5))
         == Success(Some(Discount(Product("Banana", Each), GroupFor(2, 1.5), -0.5)))
  {
    assert Trunc(2.0) == 2;
  }

  /** A negative unit price, a zero and a negative quantity are refused,
      and so is an offer type from another enumeration. */
  lemma InvalidCalculatorsRejected()
    ensures ComputeDiscount(Apple, 1.0, -1.0, Offer(Listed(TenPercentDiscount), 10.0)) == Failure(InvalidQuantityOrPrice)
    ensures ComputeDiscount(Product("Grapes", Kilo), 0.0, 2.0, Offer(Listed(FiveForAmount), 5.0)) == Failure(InvalidQuantityOrPrice)
    ensures ComputeDiscount(Product("Grapes", Kilo), -1.0, 2.0, Offer(Listed(FiveForAmount), 5.0)) == Failure(InvalidQuantityOrPrice)
    ensures ComputeDiscount(Product("Pineapple", Each), 1.0, 1.0, Offer(Unlisted(99), 0.0)) == Failure(UnknownOfferType(99))
  {
  }
}
