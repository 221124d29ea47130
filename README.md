# Shopping cart model

A Dafny model of the in-memory part of the `Cart` class of a small Python
shopping-cart manager (`src/cart.py`). A cart holds an ordered list of line
items, each a name and a price. It is created empty. Four operations act on
it:

- `add_product` refuses a negative price with `InvalidPriceError` and
  otherwise appends one record at the end;
- `remove_product` drops every record with the given name;
- `get_total` sums the prices;
- `apply_discount` rewrites every price, one record after the other, to
  `round(price * ((100 - percentage) / 100), 2)`, the factor computed
  first.

`cart.dfy` holds two modules:

- `Rounding` gives `Round2`, the two-decimal rounding step of `apply_discount`.
  It rounds the exact real value to the nearest hundredth, ties to even.
- `ShoppingCart` gives the line item (`Item`), the error (`CartError`,
  `Outcome`) and the specification functions `Sum`, `Without` and
  `Discounted`, with lemmas about them. It also gives the class `Cart`, whose
  field `products: seq<Item>` its methods update in place. The methods'
  postconditions tie the new list to those functions applied to the old one.
  Four client methods replay the repository's tests from the contracts
  alone; a fifth, `DiscountAbove100Scenario`, shows what an unchecked
  percentage above 100 does.

Prices and percentages are exact `real` numbers, so totals are exact.

Every price is meant to stay non-negative, but the code enforces this only
in `add_product`, and only for prices that are real numbers (see
"## Left out" for NaN and infinite prices). So the model
does not make it a precondition of any operation. Instead, each operation
promises to keep it when it held before. For `apply_discount` that promise
holds only when the percentage is at most 100. A larger percentage makes
a price negative once price × (percentage − 100) exceeds one half:
`DiscountAbove100MakesNegative` proves this, and
`DiscountAbove100Scenario` shows 20 at 110 percent becoming -2.0. The code
performs no check here, and the model keeps that behaviour.

## Model

| member | source | states |
|---|---|---|
| `Rounding.Round2` | src/cart.py:28 | The rounded value is a whole number of hundredths, lies within half a hundredth of the input, and has the input's sign. In particular it is non-negative for a non-negative input. |
| `Rounding.Round2Exact` | src/cart.py:28 | A value that already is a whole number of hundredths is left unchanged. This gives 18.0 for 20 at 10 percent. |
| `ShoppingCart.SumConcat` | src/cart.py:15 | The total of two lists placed end to end is the sum of their totals. |
| `ShoppingCart.SumAppend` | src/cart.py:15 | Appending one record raises the total by exactly its price. |
| `ShoppingCart.Sum` | src/cart.py:15 | The total of a list whose prices are all non-negative is non-negative. It adds from the front, while Python's `sum` adds from the left starting at 0; over reals the two agree. |
| `ShoppingCart.Without` | src/cart.py:23 | A record is in the filtered list exactly when it is in the input and its name differs from the removed name. The result is never longer than the input. |
| `ShoppingCart.WithoutConcat` | src/cart.py:23 | Filtering two lists placed end to end gives the filtered first list followed by the filtered second. So the kept records stay in their original relative order. |
| `ShoppingCart.WithoutAbsent` | src/cart.py:23 | Removing a name that no record carries leaves the list unchanged. |
| `ShoppingCart.WithoutIdempotent` | src/cart.py:22-23 | Removing the same name twice gives the same list as removing it once. |
| `ShoppingCart.WithoutSumDecreases` | src/cart.py:22-23 | If all prices are non-negative, removing never raises the total. |
| `ShoppingCart.RemoveUndoesAdd` | src/cart.py:17-23 | Suppose no record has a given name. Adding a record with that name and then removing the name gives back the original list. |
| `ShoppingCart.DiscountFactor` | src/cart.py:26 | The factor is the share of the price that is kept: 100 times the factor plus the percentage is 100. It is non-negative exactly when the percentage is at most 100. |
| `ShoppingCart.DiscountedPrice` | src/cart.py:28 | A non-negative price times a non-negative factor, rounded, is non-negative. An unrounded value below minus half a hundredth rounds to a negative price. |
| `ShoppingCart.PriceAbove100MakesNegative` | src/cart.py:26-28 | Suppose price times (percentage - 100) exceeds one half. Then the discounted price is negative, because the percentage is not checked. |
| `ShoppingCart.Discounted` | src/cart.py:25-28 | The list keeps its length, its order and every name. Each record's price becomes the rounded discounted price of the record at the same position. |
| `ShoppingCart.DiscountPreservesNonNegative` | src/cart.py:25-28 | A discount of at most 100 percent keeps every price of a non-negative list non-negative. |
| `ShoppingCart.DiscountAbove100MakesNegative` | src/cart.py:26 | Without a check on the percentage, a discount above 100 percent makes a price negative and breaks the non-negative invariant. This happens as soon as price times (percentage - 100) exceeds one half. |
| `ShoppingCart.Cart.constructor` | src/cart.py:11-12 | A new cart has no products and a total of 0. |
| `ShoppingCart.Cart.Total` | src/cart.py:14-15 | The total of a cart whose prices are all non-negative is non-negative. |
| `ShoppingCart.Cart.AddProduct` | src/cart.py:17-20 | A negative price fails with `InvalidPriceError` and leaves the products unchanged. Any other price appends exactly `Item(name, price)` at the end, with earlier records unchanged and equal names not merged. The total then rises by exactly that price. The non-negative invariant is kept. |
| `ShoppingCart.Cart.RemoveProduct` | src/cart.py:22-23 | The new list is the old one filtered by name, and no remaining record has that name. The non-negative invariant is kept. Under it, the total does not rise. |
| `ShoppingCart.Cart.ApplyDiscount` | src/cart.py:25-28 | Each record is rewritten in turn. The final list is the old list with every price discounted and rounded, with the same length, names and order. The non-negative invariant is kept when the percentage is at most 100. |
| `ShoppingCart.AddAndTotalScenario` | tests/test_cart.py:7-11 | Adding 3.5 and then 2.0 to a new cart gives a total of 5.5. |
| `ShoppingCart.RemoveScenario` | tests/test_cart.py:14-19 | Adding 10 and 2 and then removing the first product's name gives a total of 2. |
| `ShoppingCart.DiscountScenario` | tests/test_cart.py:22-26 | A 10 percent discount on a single item priced 20 gives a total of 18.0. |
| `ShoppingCart.DiscountAbove100Scenario` | src/cart.py:25-28 | A 110 percent discount on a single item priced 20 gives a total of -2.0. |
| `ShoppingCart.InvalidPriceScenario` | tests/test_cart.py:29-32 | Adding a price of -100 fails with `InvalidPriceError` and the cart stays empty. |

## Left out

- `save_to_file`, `_write_json`, `_archive_file` and `load_from_file` (src/cart.py:30-57) are not modelled. They consist of filesystem I/O, directory creation and JSON encoding through Python's `json` library. None of that is visible to the model. So the save/load round trip and loading a document without `products` are not stated.
- The `datetime.now()` timestamp and the `cart_YYYYMMDD_HHMMSS.json` archive name (src/cart.py:31, 49) depend on the clock.
- The `PYTEST_CURRENT_TEST` check (src/cart.py:34) reads process environment.
- Rounding.Round2: rounds the exact real value to hundredths, ties to even. Python's `round(x, 2)` works on the nearest binary double, so a value such as 2.675 rounds down there. Only the sign, the half-hundredth distance and the whole-hundredths result are stated.
- Prices, the discount factor and the total are exact reals. Python's floating-point error in `sum` and in `(100 - percentage) / 100` is not modelled.
- NaN and infinite prices and percentages cannot be expressed as reals, so the model does not cover them. In the source, the guard `price < 0` (src/cart.py:18) is false for NaN, so `add_product` accepts a NaN price. An infinite price under `apply_discount(100)` becomes `round(inf * 0.0, 2)`, which is NaN (src/cart.py:26-28). Likewise `apply_discount(float('-inf'))` turns a price of 0 into `round(0 * inf, 2)`, which is NaN, although -inf is at most 100, and `apply_discount(nan)` turns every price into NaN. Each of these breaks the non-negative invariant in the source. So the invariant clauses of `AddProduct`, `ApplyDiscount` and `DiscountPreservesNonNegative` hold only for prices and percentages that are real numbers.
- `apply_discount` changes each record dictionary in place. The model replaces each record value in the list instead. If other code held references to those dictionaries, it would see the change in Python but not in the model. The cart itself never shares them.
- The text of the `InvalidPriceError` message is not modelled. Nor are prices or names of non-numeric or non-string types, which Python's dynamic typing would accept.
