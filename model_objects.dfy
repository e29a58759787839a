/** The value types of the checkout: products, cart entries, offers and
    discounts. Money and quantities are exact reals. */
module ModelObjects {

  /** How a product is sold: by the piece or by weight. */
  datatype ProductUnit = Each | Kilo

  /** A product is identified by its name and its unit; datatype equality
      compares both, which is what makes it usable as a map key. */
  datatype Product = Product(name: string, unit: ProductUnit)

  /** The pair a product is hashed on. */
  function HashKey(p: Product): (string, ProductUnit)
  {
    (p.name, p.unit)
  }

  /** Equal products have equal hash keys, and the key determines the
      product, so hashing the key is consistent with equality. */
  lemma HashKeyDeterminesProduct(a: Product, b: Product)
    ensures a == b <==> HashKey(a) == HashKey(b)
  {
  }

  /** One entry of a cart, exactly as it was added (never merged). */
  datatype ProductQuantity = ProductQuantity(product: Product, quantity: real)

  /** The four promotions the engine knows how to price. */
  datatype OfferType = ThreeForTwo | TenPercentDiscount | TwoForAmount | FiveForAmount

  /** The type stored in an offer: one of the four known promotions, or a
      member of some other enumeration (which the engine rejects). */
  datatype OfferTag = Listed(offerType: OfferType) | Unlisted(code: int)

  /** A promotion for one product. The argument is unused by three-for-two,
      the bundle price for the two "for amount" offers, and a percentage for
      the percent discount. */
  datatype Offer = Offer(offerType: OfferTag, argument: real)

  /** The human-readable text of a discount, kept as the values it is
      formatted from: "<groupSize> for <amount>" or "<percent>% off". */
  datatype Description = GroupFor(groupSize: int, amount: real) | PercentOff(percent: real)

  /** A price adjustment for one product; a negative amount lowers the total. */
  datatype Discount = Discount(product: Product, description: Description, discountAmount: real)
}
