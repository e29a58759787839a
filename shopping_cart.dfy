/** The shopping cart: an append-only history of entries and a running
    merged quantity per product, kept in the order products first appeared
    (the iteration order of Python's dict). */
module Cart {
  import opened Wrappers
  import opened ModelObjects
  import opened DiscountCalculator
  import opened Receipts

  /** The products of a sequence of entries. */
  function Products(items: seq<ProductQuantity>): set<Product>
  {
    set i | 0 <= i < |items| :: items[i].product
  }

  /** The merged quantity of `p`: the sum of the quantities of its entries. */
  function QuantityOf(items: seq<ProductQuantity>, p: Product): real
  {
    if items == [] then 0.0
    else
      var last := items[|items| - 1];
      QuantityOf(items[..|items| - 1], p) + (if last.product == p then last.quantity else 0.0)
  }

  /** The distinct products of the entries, in order of first appearance. */
  function FirstOccurrences(items: seq<ProductQuantity>): seq<Product>
  {
    if items == [] then []
    else
      var prior := FirstOccurrences(items[..|items| - 1]);
      var p := items[|items| - 1].product;
      if p in prior then prior else prior + [p]
  }

  predicate NoDuplicates<T(==)>(s: seq<T>)
  {
    forall i, j :: 0 <= i < j < |s| ==> s[i] != s[j]
  }

  /** First occurrences list every product of the entries exactly once. */
  lemma {:induction false} FirstOccurrencesSpec(items: seq<ProductQuantity>)
    ensures NoDuplicates(FirstOccurrences(items))
    ensures forall p :: p in FirstOccurrences(items) <==> p in Products(items)
  {
    if items != [] {
      var prefix := items[..|items| - 1];
      FirstOccurrencesSpec(prefix);
      assert items == prefix + [items[|items| - 1]];
      ProductsAppend(prefix, items[|items| - 1]);
    }
  }

  lemma ProductsAppend(items: seq<ProductQuantity>, e: ProductQuantity)
    ensures Products(items + [e]) == Products(items) + {e.product}
  {
    var s := items + [e];
    forall p | p in Products(s) ensures p in Products(items) + {e.product} {
      var i :| 0 <= i < |s| && s[i].product == p;
      if i < |items| { assert items[i] == s[i]; }
    }
    forall p | p in Products(items) ensures p in Products(s) {
      var i :| 0 <= i < |items| && items[i].product == p;
      assert s[i] == items[i];
    }
    assert s[|items|] == e;
  }

  /** A product with no entries has merged quantity zero. */
  lemma {:induction false} QuantityOfAbsent(items: seq<ProductQuantity>, p: Product)
    requires p !in Products(items)
    ensures QuantityOf(items, p) == 0.0
  {
    if items != [] {
      var prefix := items[..|items| - 1];
      assert items[|items| - 1].product != p;
      assert forall i :: 0 <= i < |prefix| ==> prefix[i] == items[i];
      QuantityOfAbsent(prefix, p);
    }
  }

  /** What checkout's discount step produces: the discounts appended so far,
      and the error that stopped it, if any. */
  datatype Applied = Applied(discounts: seq<Discount>, failure: Option<Error>)

  /** Every product of `products` has a merged quantity. */
  predicate Covers(products: seq<Product>, quantities: map<Product, real>)
  {
    forall i :: 0 <= i < |products| ==> products[i] in quantities
  }

  /** One product's turn: skipped after an error or without an offer,
      otherwise priced by the discount engine at its merged quantity and
      catalog price; a returned discount is kept, an error is recorded. */
  function Step(prior: Applied, p: Product, quantities: map<Product, real>,
                offers: map<Product, Offer>, catalog: Product -> real): Applied
    requires p in quantities
  {
    if prior.failure.Some? || p !in offers then prior
    else
      match ComputeDiscount(p, quantities[p], catalog(p), offers[p])
      case Failure(e) => Applied(prior.discounts, Some(e))
      case Success(None) => prior
      case Success(Some(d)) => Applied(prior.discounts + [d], None)
  }

  /** The discounts for `products`, taken in order, until the first error. */
  function OfferDiscounts(products: seq<Product>, quantities: map<Product, real>,
                          offers: map<Product, Offer>, catalog: Product -> real): Applied
    requires Covers(products, quantities)
  {
    if products == [] then Applied([], None)
    else
      Step(OfferDiscounts(products[..|products| - 1], quantities, offers, catalog),
           products[|products| - 1], quantities, offers, catalog)
  }

  /** After the first error nothing more is appended. */
  lemma {:induction false} OfferDiscountsStopAtFailure(products: seq<Product>, k: nat, quantities: map<Product, real>,
                                                        offers: map<Product, Offer>, catalog: Product -> real)
    requires Covers(products, quantities)
    requires k <= |products|
    requires OfferDiscounts(products[..k], quantities, offers, catalog).failure.Some?
    ensures OfferDiscounts(products, quantities, offers, catalog) == OfferDiscounts(products[..k], quantities, offers, catalog)
  {
    if k < |products| {
      var prefix := products[..|products| - 1];
      assert prefix[..k] == products[..k];
      OfferDiscountsStopAtFailure(prefix, k, quantities, offers, catalog);
    } else {
      assert products[..k] == products;
    }
  }

  /** No two discounts are for the same product. */
  predicate DistinctProducts(ds: seq<Discount>)
  {
    forall i, j :: 0 <= i < j < |ds| ==> ds[i].product != ds[j].product
  }

  /** Each discount is for one of `products` with an offer, and is what the
      engine computes for it. */
  predicate Justified(ds: seq<Discount>, products: seq<Product>, quantities: map<Product, real>,
                      offers: map<Product, Offer>, catalog: Product -> real)
  {
    forall i :: 0 <= i < |ds| ==>
      && ds[i].product in products && ds[i].product in offers && ds[i].product in quantities
      && ComputeDiscount(ds[i].product, quantities[ds[i].product], catalog(ds[i].product), offers[ds[i].product])
         == Success(Some(ds[i]))
  }

  /** Every discount belongs to a distinct product that has an offer, and is
      exactly what the engine computes for that product. */
  lemma {:induction false} OfferDiscountsSound(products: seq<Product>, quantities: map<Product, real>,
                                               offers: map<Product, Offer>, catalog: Product -> real)
    requires Covers(products, quantities)
    requires NoDuplicates(products)
    ensures DistinctProducts(OfferDiscounts(products, quantities, offers, catalog).discounts)
    ensures Justified(OfferDiscounts(products, quantities, offers, catalog).discounts, products, quantities, offers, catalog)
  {
    if products != [] {
      var prefix := products[..|products| - 1];
      var last := products[|products| - 1];
      assert NoDuplicates(prefix) by {
        forall i, j | 0 <= i < j < |prefix| ensures prefix[i] != prefix[j] {
          assert prefix[i] == products[i] && prefix[j] == products[j];
        }
      }
      OfferDiscountsSound(prefix, quantities, offers, catalog);
      assert forall i :: 0 <= i < |prefix| ==> prefix[i] == products[i];
      var ds0 := OfferDiscounts(prefix, quantities, offers, catalog).discounts;
      var ds := OfferDiscounts(products, quantities, offers, catalog).discounts;
      JustifiedWiden(ds0, prefix, products, quantities, offers, catalog);
      if ds != ds0 {
        var d := ComputeDiscount(last, quantities[last], catalog(last), offers[last]).value.value;
        assert ds == ds0 + [d];
        forall i | 0 <= i < |ds0| ensures ds0[i].product != last {
          assert ds0[i].product in prefix;
        }
        JustifiedAppend(ds0, d, products, quantities, offers, catalog);
      }
    }
  }

  lemma JustifiedWiden(ds: seq<Discount>, prefix: seq<Product>, products: seq<Product>, quantities: map<Product, real>,
                       offers: map<Product, Offer>, catalog: Product -> real)
    requires |prefix| <= |products| && prefix == products[..|prefix|]
    requires Justified(ds, prefix, quantities, offers, catalog)
    ensures Justified(ds, products, quantities, offers, catalog)
  {
    forall i | 0 <= i < |ds| ensures ds[i].product in products {
      var k :| 0 <= k < |prefix| && prefix[k] == ds[i].product;
      assert products[k] == prefix[k];
    }
  }

  lemma JustifiedAppend(ds: seq<Discount>, d: Discount, products: seq<Product>, quantities: map<Product, real>,
                        offers: map<Product, Offer>, catalog: Product -> real)
    requires DistinctProducts(ds) && Justified(ds, products, quantities, offers, catalog)
    requires forall i :: 0 <= i < |ds| ==> ds[i].product != d.product
    requires d.product in products && d.product in offers && d.product in quantities
    requires ComputeDiscount(d.product, quantities[d.product], catalog(d.product), offers[d.product]) == Success(Some(d))
    ensures DistinctProducts(ds + [d]) && Justified(ds + [d], products, quantities, offers, catalog)
  {
    var s := ds + [d];
    forall i | 0 <= i < |ds| ensures s[i] == ds[i] { }
    assert s[|ds|] == d;
  }

  /** When no error occurs, every product with an offer was priced and each
      discount the engine returned is on the list. */
  lemma {:induction false} OfferDiscountsComplete(products: seq<Product>, quantities: map<Product, real>,
                                                  offers: map<Product, Offer>, catalog: Product -> real)
    requires Covers(products, quantities)
    requires OfferDiscounts(products, quantities, offers, catalog).failure.None?
    ensures forall i :: 0 <= i < |products| && products[i] in offers ==>
      var p := products[i];
      && ComputeDiscount(p, quantities[p], catalog(p), offers[p]).Success?
      && (ComputeDiscount(p, quantities[p], catalog(p), offers[p]).value.Some? ==>
            ComputeDiscount(p, quantities[p], catalog(p), offers[p]).value.value
              in OfferDiscounts(products, quantities, offers, catalog).discounts)
  {
    if products != [] {
      var prefix := products[..|products| - 1];
      assert OfferDiscounts(prefix, quantities, offers, catalog).failure.None?;
      OfferDiscountsComplete(prefix, quantities, offers, catalog);
      forall i | 0 <= i < |prefix| ensures products[i] == prefix[i] { }
    }
  }

  /** A teller without offers adds no discounts. */
  lemma {:induction false} NoOffersNoDiscounts(products: seq<Product>, quantities: map<Product, real>, catalog: Product -> real)
    requires Covers(products, quantities)
    ensures OfferDiscounts(products, quantities, map[], catalog) == Applied([], None)
  {
    if products != [] {
      NoOffersNoDiscounts(products[..|products| - 1], quantities, catalog);
    }
  }

  class ShoppingCart {
    /** Every entry, in the order it was added. */
    var items: seq<ProductQuantity>
    /** The merged quantity per product. */
    var productQuantities: map<Product, real>
    /** The keys of `productQuantities` in insertion order. */
    var order: seq<Product>

    /** The merged map holds exactly the products of the entries, each with
        the sum of its entries' quantities, in order of first appearance. */
    ghost predicate Valid()
      reads this
    {
      && order == FirstOccurrences(items)
      && productQuantities.Keys == Products(items)
      && (forall p :: p in productQuantities ==> productQuantities[p] == QuantityOf(items, p))
      && Covers(order, productQuantities)
    }

    /** A new cart has no entries and an empty merged map. */
    constructor ()
      ensures Valid()
      ensures items == [] && productQuantities == map[] && order == []
    {
      items := [];
      productQuantities := map[];
      order := [];
    }

    /** Adds one unit of `product`: the same as adding quantity 1.0. */
    method AddItem(product: Product)
      requires Valid()
      modifies this
      ensures Valid()
      ensures items == old(items) + [ProductQuantity(product, 1.0)]
      ensures productQuantities == old(productQuantities)[product := Get(old(productQuantities), product) + 1.0]
      ensures order == if product in old(productQuantities) then old(order) else old(order) + [product]
    {
      AddItemQuantity(product, 1.0);
    }

    /** Appends one entry, unmerged and unvalidated, and adds its quantity to
        the product's running total; other products are untouched. */
    method AddItemQuantity(product: Product, quantity: real)
      requires Valid()
      modifies this
      ensures Valid()
      ensures items == old(items) + [ProductQuantity(product, quantity)]
      ensures productQuantities == old(productQuantities)[product := Get(old(productQuantities), product) + quantity]
      ensures order == if product in old(productQuantities) then old(order) else old(order) + [product]
    {
      var entry := ProductQuantity(product, quantity);
      ghost var before := items;
      items := items + [entry];
      if product !in productQuantities {
        order := order + [product];
      }
      productQuantities := productQuantities[product := Get(productQuantities, product) + quantity];

      assert items[..|items| - 1] == before;
      FirstOccurrencesSpec(before);
      FirstOccurrencesSpec(items);
      ProductsAppend(before, entry);
      forall p | p in productQuantities ensures productQuantities[p] == QuantityOf(items, p) {
        assert QuantityOf(items, p) == QuantityOf(before, p) + (if p == product then quantity else 0.0);
        if p == product && p !in old(productQuantities) {
          QuantityOfAbsent(before, p);
        }
      }
    }

    /** Appends, in insertion order, one discount per product with an offer,
        as priced by the discount engine; the first error stops the walk and
        is returned. The receipt's lines are not touched. */
    method HandleOffers(receipt: Receipt, offers: map<Product, Offer>, catalog: Product -> real) returns (failure: Option<Error>)
      requires Valid()
      modifies receipt
      ensures receipt.items == old(receipt.items)
      ensures receipt.discounts == old(receipt.discounts) + OfferDiscounts(order, productQuantities, offers, catalog).discounts
      ensures failure == OfferDiscounts(order, productQuantities, offers, catalog).failure
    {
      failure := None;
      var i := 0;
      while i < |order|
        invariant 0 <= i <= |order|
        invariant receipt.items == old(receipt.items)
        invariant OfferDiscounts(order[..i], productQuantities, offers, catalog).failure.None?
        invariant receipt.discounts == old(receipt.discounts) + OfferDiscounts(order[..i], productQuantities, offers, catalog).discounts
      {
        var product := order[i];
        ghost var prior := OfferDiscounts(order[..i], productQuantities, offers, catalog);
        assert order[..i + 1][..i] == order[..i];
        assert OfferDiscounts(order[..i + 1], productQuantities, offers, catalog)
            == Step(prior, product, productQuantities, offers, catalog);
        if product in offers {
          var calculator := NewCalculator(product, productQuantities[product], catalog(product), offers[product]);
          if calculator.Failure? {
            failure := Some(calculator.error);
            OfferDiscountsStopAtFailure(order, i + 1, productQuantities, offers, catalog);
            return;
          }
          var discount := CalculateDiscount(calculator.value);
          if discount.Failure? {
            failure := Some(discount.error);
            OfferDiscountsStopAtFailure(order, i + 1, productQuantities, offers, catalog);
            return;
          }
          if discount.value.Some? {
            receipt.AddDiscount(discount.value.value);
          }
        }
        i := i + 1;
      }
      assert order[..i] == order;
    }
  }

  /** The merged quantity before an addition, zero when absent. */
  function Get(m: map<Product, real>, p: Product): real
  {
    if p in m then m[p] else 0.0
  }
}
