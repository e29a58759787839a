/** The teller: keeps the offer registry and checks a cart out into a new
    receipt, first one priced line per cart entry, then the discounts. The
    catalog is a price function supplied when the teller is created. */
module Checkout {
  import opened Wrappers
  import opened ModelObjects
  import opened DiscountCalculator
  import opened Receipts
  import opened Cart

  /** The line checkout prints for one cart entry, priced from the catalog. */
  function LineFor(entry: ProductQuantity, catalog: Product -> real): ReceiptItem
  {
    var price := catalog(entry.product);
    ReceiptItem(entry.product, entry.quantity, price, Teller.CalculateTotalPrice(entry.quantity, price))
  }

  /** The receipt lines of a cart: one per entry, in entry order. */
  function ReceiptLines(entries: seq<ProductQuantity>, catalog: Product -> real): (r: seq<ReceiptItem>)
    ensures |r| == |entries|
  {
    if entries == [] then []
    else ReceiptLines(entries[..|entries| - 1], catalog) + [LineFor(entries[|entries| - 1], catalog)]
  }

  /** Line `i` is entry `i`, never merged with other entries of the same
      product, at the catalog price and totalling quantity times price. */
  lemma {:induction false} ReceiptLinesAt(entries: seq<ProductQuantity>, catalog: Product -> real, i: nat)
    requires i < |entries|
    ensures var line := ReceiptLines(entries, catalog)[i];
      && line.product == entries[i].product && line.quantity == entries[i].quantity
      && line.price == catalog(entries[i].product)
      && line.totalPrice == entries[i].quantity * catalog(entries[i].product)
  {
    var prefix := entries[..|entries| - 1];
    if i < |prefix| {
      ReceiptLinesAt(prefix, catalog, i);
      assert ReceiptLines(entries, catalog)[i] == ReceiptLines(prefix, catalog)[i];
    }
  }

  /** Sum of the totals of the lines for product `p`. */
  function LineTotalsFor(lines: seq<ReceiptItem>, p: Product): real
  {
    if lines == [] then 0.0
    else
      var last := lines[|lines| - 1];
      LineTotalsFor(lines[..|lines| - 1], p) + (if last.product == p then last.totalPrice else 0.0)
  }

  /** Sum of the quantities of the lines for product `p`. */
  function LineQuantitiesFor(lines: seq<ReceiptItem>, p: Product): real
  {
    if lines == [] then 0.0
    else
      var last := lines[|lines| - 1];
      LineQuantitiesFor(lines[..|lines| - 1], p) + (if last.product == p then last.quantity else 0.0)
  }

  /** Every line of `p` totals its quantity times `price`. */
  predicate PricedAt(lines: seq<ReceiptItem>, p: Product, price: real)
  {
    forall i :: 0 <= i < |lines| && lines[i].product == p ==> lines[i].totalPrice == lines[i].quantity * price
  }

  /** Lines priced at one unit price total that price times their quantity. */
  lemma {:induction false} TotalsFactor(lines: seq<ReceiptItem>, p: Product, price: real)
    requires PricedAt(lines, p, price)
    ensures LineTotalsFor(lines, p) == LineQuantitiesFor(lines, p) * price
  {
    if lines != [] {
      var prefix := lines[..|lines| - 1];
      var last := lines[|lines| - 1];
      assert PricedAt(prefix, p, price) by {
        forall i | 0 <= i < |prefix| && prefix[i].product == p
          ensures prefix[i].totalPrice == prefix[i].quantity * price
        {
          assert prefix[i] == lines[i];
        }
      }
      TotalsFactor(prefix, p, price);
      if last.product == p {
        AddToMerged(LineTotalsFor(prefix, p), LineQuantitiesFor(prefix, p), last.quantity, price,
                    LineTotalsFor(lines, p), LineQuantitiesFor(lines, p));
      }
    }
  }

  /** One more line of `q` units adds `q` to the quantity priced. */
  lemma AddToMerged(sum: real, before: real, q: real, price: real, total: real, merged: real)
    requires sum == before * price
    requires total == sum + q * price
    requires merged == before + q
    ensures total == merged * price
  {
    assert (before + q) * price == before * price + q * price;
  }

  /** The lines of a product carry, together, its merged cart quantity. */
  lemma {:induction false} LineQuantitiesMerged(entries: seq<ProductQuantity>, catalog: Product -> real, p: Product)
    ensures LineQuantitiesFor(ReceiptLines(entries, catalog), p) == QuantityOf(entries, p)
  {
    if entries != [] {
      var prefix := entries[..|entries| - 1];
      var lines := ReceiptLines(entries, catalog);
      assert lines[..|lines| - 1] == ReceiptLines(prefix, catalog);
      LineQuantitiesMerged(prefix, catalog, p);
    }
  }

  /** Every line of a product is priced at that product's catalog price. */
  lemma LinesPricedFromCatalog(entries: seq<ProductQuantity>, catalog: Product -> real, p: Product)
    ensures PricedAt(ReceiptLines(entries, catalog), p, catalog(p))
  {
    var lines := ReceiptLines(entries, catalog);
    forall i | 0 <= i < |lines| && lines[i].product == p
      ensures lines[i].totalPrice == lines[i].quantity * catalog(p)
    {
      ReceiptLinesAt(entries, catalog, i);
    }
  }

  /** Pricing the separate lines of a product costs the same as pricing its
      merged quantity, the quantity the discount engine is given. */
  lemma {:induction false} LinesMatchMergedQuantity(entries: seq<ProductQuantity>, catalog: Product -> real, p: Product)
    ensures LineTotalsFor(ReceiptLines(entries, catalog), p) == QuantityOf(entries, p) * catalog(p)
  {
    var lines := ReceiptLines(entries, catalog);
    var price := catalog(p);
    assert LineTotalsFor(lines, p) == LineQuantitiesFor(lines, p) * price by {
      LinesPricedFromCatalog(entries, catalog, p);
      TotalsFactor(lines, p, price);
    }
    assert LineQuantitiesFor(lines, p) == QuantityOf(entries, p) by {
      LineQuantitiesMerged(entries, catalog, p);
    }
  }

  class Teller {
    const catalog: Product -> real
    /** The offer registry: at most one offer per product. */
    var offers: map<Product, Offer>

    /** A new teller has no offers. */
    constructor (catalog: Product -> real)
      ensures this.catalog == catalog && offers == map[]
    {
      this.catalog := catalog;
      offers := map[];
    }

    /** Registers an offer; the last one registered for a product wins and
        the other products' offers are untouched. */
    method AddSpecialOffer(offerType: OfferTag, product: Product, argument: real)
      modifies this
      ensures offers == old(offers)[product := Offer(offerType, argument)]
    {
      offers := offers[product := Offer(offerType, argument)];
    }

    /** Checks the cart out into a fresh receipt: the lines of every entry,
        then the discounts of the offered products in insertion order. An
        error from the discount engine aborts the checkout. Neither the cart
        nor the offers change. */
    method ChecksOutArticlesFrom(cart: ShoppingCart) returns (r: Result<Receipt, Error>)
      requires cart.Valid()
      ensures unchanged(this) && unchanged(cart)
      ensures var applied := OfferDiscounts(cart.order, cart.productQuantities, offers, catalog);
        && (r.Success? <==> applied.failure.None?)
        && (r.Failure? ==> applied.failure == Some(r.error))
        && (r.Success? ==>
              && fresh(r.value)
              && r.value.items == ReceiptLines(cart.items, catalog)
              && r.value.discounts == applied.discounts)
    {
      var receipt := new Receipt();
      AddCartItemsToReceipt(cart, receipt);
      var failure := ApplyOffers(cart, receipt);
      if failure.Some? {
        return Failure(failure.value);
      }
      return Success(receipt);
    }

    /** Appends the line of every cart entry, in order. */
    method AddCartItemsToReceipt(cart: ShoppingCart, receipt: Receipt)
      modifies receipt
      ensures receipt.items == old(receipt.items) + ReceiptLines(cart.items, catalog)
      ensures receipt.discounts == old(receipt.discounts)
    {
      var entries := cart.items;
      for i := 0 to |entries|
        invariant receipt.items == old(receipt.items) + ReceiptLines(entries[..i], catalog)
        invariant receipt.discounts == old(receipt.discounts)
      {
        assert entries[..i + 1][..i] == entries[..i];
        ProcessItem(entries[i].product, entries[i].quantity, receipt);
      }
      assert entries[..|entries|] == entries;
    }

    /** Prices one entry from the catalog and appends it as a line. */
    method ProcessItem(product: Product, quantity: real, receipt: Receipt)
      modifies receipt
      ensures receipt.items == old(receipt.items) + [LineFor(ProductQuantity(product, quantity), catalog)]
      ensures receipt.discounts == old(receipt.discounts)
    {
      var unitPrice := catalog(product);
      var totalPrice := CalculateTotalPrice(quantity, unitPrice);
      receipt.AddProduct(product, quantity, unitPrice, totalPrice);
    }

    /** Hands the registered offers to the cart's discount step. */
    method ApplyOffers(cart: ShoppingCart, receipt: Receipt) returns (failure: Option<Error>)
      requires cart.Valid()
      modifies receipt
      ensures receipt.items == old(receipt.items)
      ensures var applied := OfferDiscounts(cart.order, cart.productQuantities, offers, catalog);
        receipt.discounts == old(receipt.discounts) + applied.discounts && failure == applied.failure
    {
      failure := cart.HandleOffers(receipt, offers, catalog);
    }

    /** A line's total: quantity times unit price. It is never negative for
        non-negative inputs, is zero for a zero quantity, and is one unit
        price for a quantity of one. */
    static function CalculateTotalPrice(quantity: real, unitPrice: real): (r: real)
      ensures quantity >= 0.0 && unitPrice >= 0.0 ==> r >= 0.0
      ensures quantity == 0.0 ==> r == 0.0
      ensures quantity == 1.0 ==> r == unitPrice
    {
      assert quantity >= 0.0 && unitPrice >= 0.0 ==> quantity * unitPrice >= 0.0 by {
        if quantity >= 0.0 && unitPrice >= 0.0 {
          MulNonNegative(quantity, unitPrice);
        }
      }
      quantity * unitPrice
    }
  }
}
