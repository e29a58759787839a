# Supermarket receipt: a Dafny model of the checkout pricing engine

This project models the pricing core of the Python supermarket receipt kata. A
shopping cart records `(product, quantity)` entries and keeps a merged
quantity for each product. A teller keeps a registry of special offers, one
per product. At checkout the teller builds a receipt: one priced line per cart
entry, then one discount for each offered product that the engine prices, in
the order products first entered the cart. The discount calculator validates the quantity and the unit
price. It truncates the quantity to a whole number and prices one of four
promotions: three for two, two for an amount, five for an amount, and a
percentage off. The receipt's total is the sum of the line totals and the
discount amounts, rounded to cents.

Modules, one per source file:

- `ModelObjects` (`model_objects.dfy`): products, units, cart entries,
  offers and discounts as datatypes.
- `DiscountCalculator` (`discount_calculator.dfy`): the discount engine as
  pure functions returning `Result`/`Option` values.
- `Receipts` (`receipt.dfy`): the read-only `ReceiptItem` and the `Receipt`
  class with its two append-only lists.
- `Cart` (`shopping_cart.dfy`): the `ShoppingCart` class. Its `Valid()`
  invariant ties the merged map and its insertion order to the entry
  history. `handle_offers` is a loop proved against the specification
  function `OfferDiscounts`.
- `Checkout` (`teller.dfy`): the `Teller` class and the receipt lines of a
  cart.
- `Scenarios` (`scenarios.dfy`): the supermarket's own test cases, stated as
  verified whole checkouts and single discount computations.
- `Wrappers` (`wrappers.dfy`): `Option` and `Result`.

Modelling choices:

- Money and quantities are exact `real`s.
- Python's `int(x)` is truncation toward zero (`Trunc`).
- Python's `round(x, 2)` is `Round2`: the nearest cent, with ties going to
  the even cent.
- The `ValueError`s of the calculator are `Failure` values. When the engine
  fails, `handle_offers` stops with the discounts appended so far, and
  checkout returns that failure instead of a receipt, as the propagating
  exception would.
- Python enums are open, so an offer type may belong to some other
  enumeration. `OfferTag.Unlisted(code)` stands for that case, and
  `OfferType` keeps exactly the four known promotions.
- The catalog is a function `Product -> real`, given to the teller when it
  is created.
- A discount description is the pair of values it is formatted from
  (`GroupFor(groupSize, amount)` or `PercentOff(percent)`), not a string.
- The key order of Python's dict is the cart's `order` field: the products
  in order of first appearance.

In the source, `calculate_group_discount` (discount_calculator.py:68-93) and
`amount_discount` (discount_calculator.py:117-149) are the same rule written
twice. Both are modelled by the single function `GroupDiscount`.

## Model

| member | source | states |
|---|---|---|
| ModelObjects.HashKeyDeterminesProduct | python/model_objects.py:18-34 | Equal products have equal hash keys (name, unit), and the key determines the product; this is the pair the source hashes, not its hash value, which may collide |
| DiscountCalculator.Trunc | python/discount_calculator.py:32 | `int(x)` truncates toward zero: for x >= 0 the result is the largest whole number not above x, for x < 0 the smallest not below it |
| DiscountCalculator.NewCalculator | python/discount_calculator.py:26-34 | Construction fails, with the quantity-or-price error, if and only if quantity <= 0 or unit price < 0; otherwise it keeps product, price and offer and stores a whole quantity q with q <= quantity < q + 1 |
| DiscountCalculator.GroupDiscount | python/discount_calculator.py:68-93 | No discount exactly when quantity < group size; otherwise a discount for the product described as "g for amount" whose amount is (q div g) * (amount - g * unit price), i.e. minus (q * p - (amount * (q div g) + (q mod g) * p)); `amount_discount` at lines 117-149 is the same rule |
| DiscountCalculator.ThreeForTwoDiscount | python/discount_calculator.py:57-66 | Group size 3 at bundle price 2p: none below 3 units, otherwise amount -(q div 3) * p, never positive for p >= 0 |
| DiscountCalculator.TwoForAmountDiscount | python/discount_calculator.py:95-104 | Group size 2 at the offer's argument: none below 2 units, otherwise (q div 2) * (arg - 2p), which is not clamped and is <= 0 exactly when arg <= 2p |
| DiscountCalculator.FiveForAmountDiscount | python/discount_calculator.py:106-115 | Group size 5 at the offer's argument: none below 5 units, otherwise (q div 5) * (arg - 5p), <= 0 exactly when arg <= 5p |
| DiscountCalculator.PercentDiscount | python/discount_calculator.py:151-167 | Fails, with the percentage error, exactly when the argument is outside [0, 100]; otherwise always a discount "arg% off" after which q*p*(100 - arg)/100 remains to pay, and which lies in [-(q*p), 0] for non-negative q and p |
| DiscountCalculator.CalculateDiscount | python/discount_calculator.py:36-55 | Dispatch on the offer type to the four promotions; an offer type outside the four fails with the unknown-offer-type error carrying its code |
| DiscountCalculator.ComputeDiscount | python/shopping_cart.py:93-96 | Constructing a calculator and asking it for a discount fails with the quantity-or-price error on bad input, and a discount it returns is for the given product |
| DiscountCalculator.GroupOfferBelowGroupSize | python/discount_calculator.py:139-149 | For every group offer, a positive quantity below the group size (fractional or not) gives no discount and no error |
| DiscountCalculator.GroupOfferAtGroupSize | python/discount_calculator.py:89-93 | For every group offer, a quantity of at least one group is priced by the shared group rule at the truncated quantity, the group size of the offer (3, 2 or 5) and its bundle price (2p for three-for-two, the argument otherwise), and always gives a discount record, even one whose amount is zero or positive |
| DiscountCalculator.PercentOfferPriced | python/discount_calculator.py:151-167 | For every positive quantity, non-negative unit price and percentage in [0, 100], the engine returns a discount for the product described by that percentage, after which (100 - percent)% of trunc(quantity) times the unit price remains to pay |
| DiscountCalculator.BadInputAlwaysFails | python/discount_calculator.py:26-55 | The engine fails if and only if the quantity or price is invalid, the offer type is unknown, or a percentage offer is outside [0, 100] |
| Receipts.Round2 | python/receipt.py:104 | The result is a whole number of cents within half a cent of the input, a whole-cent input is unchanged, and a tie goes to the even cent |
| Receipts.Receipt.constructor | python/receipt.py:75-77 | A new receipt has no lines and no discounts |
| Receipts.Receipt.AddProduct | python/receipt.py:106-118 | Appends exactly one line with the given fields, total stored as supplied; earlier lines and all discounts unchanged |
| Receipts.Receipt.AddDiscount | python/receipt.py:120-127 | Appends exactly one discount; the lines unchanged |
| Receipts.Receipt.TotalPrice | python/receipt.py:87-104 | A whole number of cents within half a cent of the sum of line totals plus discount amounts; zero for an empty receipt; reads the receipt without changing it |
| Receipts.SumsAfterAppend | python/receipt.py:95-101 | Appending a line or a discount raises the unrounded total by exactly its amount |
| Cart.FirstOccurrencesSpec | python/shopping_cart.py:82 | The insertion order of the merged map lists every product of the entries exactly once, and nothing else |
| Cart.QuantityOfAbsent | python/shopping_cart.py:63-65 | A product with no entries has merged quantity 0, the default `get(product, 0)` starts from |
| Cart.OfferDiscountsStopAtFailure | python/shopping_cart.py:93-96 | Once the engine fails for a product, no later product adds a discount |
| Cart.OfferDiscountsSound | python/shopping_cart.py:82-100 | Every appended discount is for a distinct cart product that has an offer and is exactly what the engine computes for its merged quantity and catalog price |
| Cart.OfferDiscountsComplete | python/shopping_cart.py:82-100 | When no error occurs, every offered product was priced successfully and every discount returned, including zero-amount ones, was appended |
| Cart.NoOffersNoDiscounts | python/shopping_cart.py:84-85 | Without offers every product is skipped and nothing is appended |
| Cart.ShoppingCart.constructor | python/shopping_cart.py:14-21 | A new cart has no entries and an empty merged map, and satisfies the cart invariant |
| Cart.ShoppingCart.AddItem | python/shopping_cart.py:33-40 | Exactly the effect of adding quantity 1.0 |
| Cart.ShoppingCart.AddItemQuantity | python/shopping_cart.py:52-65 | Appends exactly one unmerged, unvalidated entry; sets the product's merged quantity to its old value (0 if absent) plus the quantity, other keys unchanged; a new product goes to the end of the insertion order; keeps the invariant that the keys are the entries' products and each value is the sum of their quantities |
| Cart.ShoppingCart.HandleOffers | python/shopping_cart.py:67-100 | Appends to the receipt exactly the discounts of `OfferDiscounts` over the merged map in insertion order, stops at and returns the first error, and leaves the receipt's lines alone |
| Checkout.ReceiptLines | python/teller.py:57-67 | A cart gives exactly one receipt line per entry |
| Checkout.ReceiptLinesAt | python/teller.py:69-85 | Line i is entry i, never merged with others: same product and quantity, the catalog price, and total quantity times that price |
| Checkout.LinesPricedFromCatalog | python/teller.py:79-85 | Every line of a product totals its quantity times that product's catalog price |
| Checkout.TotalsFactor | python/teller.py:97-109 | Lines priced at one unit price total that price times the sum of their quantities |
| Checkout.LineQuantitiesMerged | python/teller.py:65-67 | The separate lines of a product carry, together, the product's merged cart quantity |
| Checkout.LinesMatchMergedQuantity | python/teller.py:57-67 | Pricing a product's separate lines costs the same as pricing its merged quantity, the quantity the discount engine is given |
| Checkout.Teller.constructor | python/teller.py:12-20 | A new teller has the given catalog and no offers |
| Checkout.Teller.AddSpecialOffer | python/teller.py:22-33 | Sets the product's offer to (type, argument), replacing an earlier one; other products' offers unchanged |
| Checkout.Teller.ChecksOutArticlesFrom | python/teller.py:35-55 | Leaves the cart and the offers unchanged; succeeds exactly when the discount step meets no error, then returns a fresh receipt holding one line per entry in entry order followed by the discounts of `OfferDiscounts`; otherwise returns that error |
| Checkout.Teller.AddCartItemsToReceipt | python/teller.py:57-67 | Appends the lines of all entries, in order; discounts unchanged |
| Checkout.Teller.ProcessItem | python/teller.py:69-85 | Appends one line at the catalog price with total quantity times price; discounts unchanged |
| Checkout.Teller.ApplyOffers | python/teller.py:87-95 | Appends exactly the discounts computed from the teller's offers, returns the first error, leaves the lines alone |
| Checkout.Teller.CalculateTotalPrice | python/teller.py:97-109 | The line total is zero for quantity zero, the unit price for quantity one, and never negative for non-negative inputs |
| Scenarios.CheckOutOne | python/teller.py:35-55 | Checking out one entry under its offer, if any, succeeds exactly when the discount step meets no error, and then holds that entry's line and the computed discounts |
| Scenarios.OneProductTotal | python/receipt.py:87-104 | A one-entry checkout whose offer the engine prices as d totals quantity times catalog price plus d's amount, rounded to cents |
| Scenarios.EmptyCartCostsNothing | python/tests/test_supermarket.py:215-218 | An empty cart checks out to total 0 with no lines |
| Scenarios.OneNormalItem | python/tests/test_supermarket.py:220-224 | One toothbrush checks out to 0.99 with one line |
| Scenarios.CheckOutTwoUnits | python/teller.py:35-55 | Checking out one unit each of two products without offers succeeds with their two lines, in order, and no discounts |
| Scenarios.TwoNormalItems | python/tests/test_supermarket.py:226-231 | A toothbrush and rice check out to 3.98 with two lines |
| Scenarios.BuyTwoGetOneFree | python/tests/test_supermarket.py:233-237 | Two toothbrushes under three-for-two total 1.98 |
| Scenarios.BuyFiveGetOneFree | python/tests/test_supermarket.py:239-243 | Five toothbrushes under three-for-two total 3.96 |
| Scenarios.LooseWeightProduct | python/tests/test_supermarket.py:245-248 | Half a kilo of apples totals 1.00 on exact reals; the test's 0.99 comes from binary floating point (see Left out) |
| Scenarios.PercentDiscountOnRice | python/tests/test_supermarket.py:250-254 | Rice with ten percent off totals 2.69 |
| Scenarios.TwoTomatoBoxesForAmount | python/tests/test_supermarket.py:256-262 | Two tomato boxes for 0.99 total 0.99 |
| Scenarios.FiveApplesForAmount | python/tests/test_supermarket.py:264-268 | Five kilos of apples under five for 5.99 total 5.99 |
| Scenarios.SixApplesFiveForAmount | python/tests/test_supermarket.py:270-274 | Six kilos under five for 5.99 total 7.98 |
| Scenarios.SixteenApplesFiveForAmount | python/tests/test_supermarket.py:276-280 | Sixteen kilos under five for 7.99 total 25.96 |
| Scenarios.ApplesFiveForAmountWithFour | python/tests/test_supermarket.py:282-286 | Four kilos, short of a group, total 7.96 |
| Scenarios.ThreeForTwoSavesOne | python/tests/test_supermarket.py:34-51 | Three units at 1.0 under three-for-two give a discount of -1.0 |
| Scenarios.TwoForOneAndAHalf | python/tests/test_supermarket.py:54-71 | Two units at 1.0 for 1.5 give a discount of -0.5 |
| Scenarios.InvalidCalculatorsRejected | python/tests/test_supermarket.py:74-121 | A negative price, a zero quantity and a negative quantity are refused, and so is an offer type from another enumeration |

## Left out

- The catalog (`catalog.py`): it is a stub backed by a database that always raises. Here it is a total function from product to price, so a lookup that fails is not modelled.
- The receipt printer (`receipt_printer.py`): text layout, number formatting and the clock are presentation, not pricing.
- Binary floating point: money and quantities are exact reals. Sums, products and `round(x, 2)` are exact, so a value that lies just below a tie in binary can round differently. Half a kilo of apples at 1.99 is exactly 0.995 here and rounds to 1.00. The test expects 0.99 because 0.5 * 1.99 is slightly below 0.995 in binary.
- Description strings: a discount keeps the group size and amount, or the percentage, that Python formats into its description. The float-to-text conversion is not modelled.
- The `items` and `discounts` getters of the receipt return copies of its lists; Dafny sequences are values, so that is what every read of the model's fields gives, and no separate member is needed.
- Cart.ShoppingCart.Valid: the cart's `items` and `product_quantities` getters (shopping_cart.py:23-31, 42-50) hand out the cart's own list and dict, so in the source a caller can append to them or write into them and break the rule that the merged map matches the entries. The model gives out values, which cannot be changed that way, so this sharing is not modelled; in the source `Valid()` holds only while no caller changes the cart through those getters.
- The read-only properties of `ReceiptItem`: a datatype value cannot be updated, which is that guarantee.
- Exceptions: Python's `ValueError` unwinds the stack. Here it is a `Failure` value. The cart keeps the discounts appended before the error, and checkout returns the error instead of a receipt.
- Checkout.Teller.CalculateTotalPrice: its contract states only zero, one and sign. The full line total, quantity times price, is stated by `Checkout.ReceiptLinesAt` instead of being repeated from the body.
