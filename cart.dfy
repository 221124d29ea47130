/** Rounding of a price to two decimal places, the step `round(x, 2)` that
    Cart.apply_discount performs on every discounted price. */
module Rounding {

  /** Rounds `x` to the nearest hundredth; a value exactly half-way between two
      hundredths goes to the even one (the tie rule of Python's `round`).
      The rounding is done on the exact real value, not on a binary double. */
  function Round2(x: real): (r: real)
    ensures x >= 0.0 ==> r >= 0.0
    ensures x <= 0.0 ==> r <= 0.0
    ensures -0.005 <= r - x <= 0.005
    ensures (r * 100.0).Floor as real == r * 100.0
  {
    var scaled := x * 100.0;
    var n := scaled.Floor;
    var frac := scaled - n as real;
    var k := if frac < 0.5 then n
             else if frac > 0.5 then n + 1
             else if n % 2 == 0 then n
             else n + 1;
    k as real / 100.0
  }

  /** A value that already is a whole number of hundredths is left as it is. */
  lemma Round2Exact(k: int)
    ensures Round2(k as real / 100.0) == k as real / 100.0
  {
    var x := k as real / 100.0;
    assert x * 100.0 == k as real;
    assert (x * 100.0).Floor == k;
  }
}

/** The in-memory shopping cart: an ordered list of line items, each a name
    and a price, with the operations that add, remove, total and discount them. */
module ShoppingCart {
  import opened Rounding

  /** One line item, the record `{"name": ..., "price": ...}`. */
  datatype Item = Item(name: string, price: real)

  /** The error raised when a product is added with a negative price. */
  datatype CartError = InvalidPriceError

  /** The result of an operation that either completes or raises. */
  datatype Outcome = Pass | Fail(error: CartError)

  /** The invariant that adding protects: no line item has a negative price. */
  predicate AllNonNegative(items: seq<Item>) {
    forall i :: 0 <= i < |items| ==> items[i].price >= 0.0
  }

  // ---------------------------------------------------------------------
  // Total

  /** The sum of all prices, 0 for no items (the `sum(...)` of get_total).
      It adds from the front; over exact reals that equals Python's sum from
      the left starting at 0. */
  function Sum(items: seq<Item>): (r: real)
    ensures AllNonNegative(items) ==> r >= 0.0
  {
    if items == [] then 0.0 else items[0].price + Sum(items[1..])
  }

  /** The sum over a concatenation is the sum of the sums. */
  lemma {:induction false} SumConcat(a: seq<Item>, b: seq<Item>)
    ensures Sum(a + b) == Sum(a) + Sum(b)
  {
    if a == [] {
      assert a + b == b;
    } else {
      assert (a + b)[1..] == a[1..] + b;
      SumConcat(a[1..], b);
    }
  }

  /** Appending one item raises the sum by exactly its price. */
  lemma SumAppend(items: seq<Item>, x: Item)
    ensures Sum(items + [x]) == Sum(items) + x.price
  {
    SumConcat(items, [x]);
  }

  // ---------------------------------------------------------------------
  // Removal

  /** The items whose name differs from `name`, in their original order
      (the list comprehension of remove_product). */
  function Without(items: seq<Item>, name: string): (r: seq<Item>)
    ensures |r| <= |items|
    ensures forall x :: x in r <==> x in items && x.name != name
  {
    if items == [] then []
    else if items[0].name == name then Without(items[1..], name)
    else [items[0]] + Without(items[1..], name)
  }

  /** Filtering distributes over concatenation: the kept items of the front
      come before the kept items of the back, so relative order is kept. */
  lemma {:induction false} WithoutConcat(a: seq<Item>, b: seq<Item>, name: string)
    ensures Without(a + b, name) == Without(a, name) + Without(b, name)
  {
    if a == [] {
      assert a + b == b;
    } else {
      assert (a + b)[0] == a[0];
      assert (a + b)[1..] == a[1..] + b;
      WithoutConcat(a[1..], b, name);
    }
  }

  /** Removing a name no item carries changes nothing. */
  lemma {:induction false} WithoutAbsent(items: seq<Item>, name: string)
    requires forall i :: 0 <= i < |items| ==> items[i].name != name
    ensures Without(items, name) == items
  {
    if items != [] {
      assert items == [items[0]] + items[1..];
      WithoutAbsent(items[1..], name);
    }
  }

  /** Removing the same name twice is the same as removing it once. */
  lemma WithoutIdempotent(items: seq<Item>, name: string)
    ensures Without(Without(items, name), name) == Without(items, name)
  {
    var once := Without(items, name);
    forall i | 0 <= i < |once| ensures once[i].name != name {
      assert once[i] in once;
    }
    WithoutAbsent(once, name);
  }

  /** Removing never raises the total of a cart whose prices are non-negative. */
  lemma {:induction false} WithoutSumDecreases(items: seq<Item>, name: string)
    requires AllNonNegative(items)
    ensures Sum(Without(items, name)) <= Sum(items)
  {
    if items != [] {
      assert AllNonNegative(items[1..]) by {
        forall i | 0 <= i < |items[1..]| ensures items[1..][i].price >= 0.0 {
          assert items[1..][i] == items[i + 1];
        }
      }
      WithoutSumDecreases(items[1..], name);
      if items[0].name != name {
        SumConcat([items[0]], Without(items[1..], name));
      }
    }
  }

  /** Removing a name right after adding it, when no earlier item had that
      name, gives back the earlier items. */
  lemma RemoveUndoesAdd(items: seq<Item>, name: string, price: real)
    requires forall i :: 0 <= i < |items| ==> items[i].name != name
    ensures Without(items + [Item(name, price)], name) == items
  {
    WithoutConcat(items, [Item(name, price)], name);
    WithoutAbsent(items, name);
    assert Without([Item(name, price)], name) == [];
  }

  // ---------------------------------------------------------------------
  // Discount

  /** The factor `(100 - percentage) / 100`, the share of each price that
      is kept; it is not checked that `percentage` lies within 0..100. */
  function DiscountFactor(percentage: real): (r: real)
    ensures 100.0 * r + percentage == 100.0
    ensures r >= 0.0 <==> percentage <= 100.0
  {
    (100.0 - percentage) / 100.0
  }

  /** One price after the discount: `round(price * factor, 2)`. */
  function DiscountedPrice(price: real, factor: real): (r: real)
    ensures price >= 0.0 && factor >= 0.0 ==> r >= 0.0
    ensures price * factor < -0.005 ==> r < 0.0
  {
    Round2(price * factor)
  }

  /** Every price replaced by its discounted price; names and order are kept. */
  function Discounted(items: seq<Item>, percentage: real): (r: seq<Item>)
    ensures |r| == |items|
    ensures forall i :: 0 <= i < |items| ==>
      r[i] == items[i].(price := DiscountedPrice(items[i].price, DiscountFactor(percentage)))
  {
    if items == [] then []
    else [items[0].(price := DiscountedPrice(items[0].price, DiscountFactor(percentage)))]
         + Discounted(items[1..], percentage)
  }

  /** A discount of at most 100 percent keeps every price non-negative (a
      negative percentage, a surcharge, does too). */
  lemma DiscountPreservesNonNegative(items: seq<Item>, percentage: real)
    requires percentage <= 100.0
    requires AllNonNegative(items)
    ensures AllNonNegative(Discounted(items, percentage))
  {
    var r := Discounted(items, percentage);
    forall i | 0 <= i < |r| ensures r[i].price >= 0.0 {
      assert r[i].price == DiscountedPrice(items[i].price, DiscountFactor(percentage));
    }
  }

  /** A discount above 100 percent turns a price negative as soon as the
      unrounded result lies below minus half a hundredth: the percentage is
      not validated, so the invariant of non-negative prices can break. */
  lemma DiscountAbove100MakesNegative(items: seq<Item>, percentage: real, i: int)
    requires 0 <= i < |items|
    requires items[i].price * (percentage - 100.0) > 0.5
    ensures Discounted(items, percentage)[i].price < 0.0
    ensures !AllNonNegative(Discounted(items, percentage))
  {
    PriceAbove100MakesNegative(items[i].price, percentage);
  }

  /** One price discounted by more than 100 percent is negative once price
      times the excess over 100 exceeds one half. */
  lemma PriceAbove100MakesNegative(price: real, percentage: real)
    requires price * (percentage - 100.0) > 0.5
    ensures DiscountedPrice(price, DiscountFactor(percentage)) < 0.0
  {
    var unrounded := price * DiscountFactor(percentage);
    var shortfall := price * (100.0 - percentage);
    var excess := price * (percentage - 100.0);
    assert unrounded == shortfall / 100.0;
    assert shortfall == -excess;
  }

  // ---------------------------------------------------------------------
  // The cart

  /** A shopping cart: the list `products` that every operation updates. */
  class Cart {
    var products: seq<Item>

    /** A new cart holds no products and totals 0. */
    constructor ()
      ensures products == []
      ensures Total() == 0.0
    {
      products := [];
    }

    /** get_total: the sum of the current prices, never negative while the
        invariant holds. */
    function Total(): (r: real)
      reads this
      ensures AllNonNegative(products) ==> r >= 0.0
    {
      Sum(products)
    }

    /** add_product: a negative price is refused with InvalidPriceError and
        nothing changes; otherwise one record is appended at the end, earlier
        records untouched and equal names not merged. */
    method AddProduct(name: string, price: real) returns (outcome: Outcome)
      modifies this
      ensures outcome == if price < 0.0 then Fail(InvalidPriceError) else Pass
      ensures outcome.Fail? ==> products == old(products)
      ensures outcome.Pass? ==> products == old(products) + [Item(name, price)]
      ensures outcome.Pass? ==> Total() == old(Total()) + price
      ensures AllNonNegative(old(products)) ==> AllNonNegative(products)
    {
      if price < 0.0 {
        return Fail(InvalidPriceError);
      }
      SumAppend(products, Item(name, price));
      products := products + [Item(name, price)];
      outcome := Pass;
    }

    /** remove_product: every record with that name goes, the others stay in
        their order; the total does not rise while the invariant holds. */
    method RemoveProduct(name: string)
      modifies this
      ensures products == Without(old(products), name)
      ensures forall i :: 0 <= i < |products| ==> products[i].name != name
      ensures AllNonNegative(old(products)) ==> AllNonNegative(products)
      ensures AllNonNegative(old(products)) ==> Total() <= old(Total())
    {
      if AllNonNegative(products) {
        WithoutSumDecreases(products, name);
      }
      products := Without(products, name);
      forall i | 0 <= i < |products| ensures products[i].name != name {
        assert products[i] in products;
      }
    }

    /** apply_discount: rewrites each price, one record after the other, to
        its rounded discounted value; names, order and length are kept. */
    method ApplyDiscount(percentage: real)
      modifies this
      ensures products == Discounted(old(products), percentage)
      ensures percentage <= 100.0 && AllNonNegative(old(products)) ==>
        AllNonNegative(products)
    {
      var factor := DiscountFactor(percentage);
      var i := 0;
      while i < |products|
        invariant 0 <= i <= |products| == |old(products)|
        invariant forall j :: 0 <= j < i ==>
          products[j] == old(products)[j].(price := DiscountedPrice(old(products)[j].price, factor))
        invariant products[i..] == old(products)[i..]
      {
        products := products[i := products[i].(price := DiscountedPrice(products[i].price, factor))];
        i := i + 1;
      }
      if percentage <= 100.0 && AllNonNegative(old(products)) {
        DiscountPreservesNonNegative(old(products), percentage);
      }
    }
  }

  // ---------------------------------------------------------------------
  // The scenarios of the repository's tests, derived from the contracts above

  /** Adding 3.5 and 2.0 totals 5.5. */
  method AddAndTotalScenario() returns (total: real)
    ensures total == 5.5
  {
    var cart := new Cart();
    var first := cart.AddProduct("Café", 3.5);
    var second := cart.AddProduct("Croissant", 2.0);
    total := cart.Total();
  }

  /** Adding 10 and 2 and removing the first product totals 2. */
  method RemoveScenario() returns (total: real)
    ensures total == 2.0
  {
    var cart := new Cart();
    var first := cart.AddProduct("Livre", 10.0);
    var second := cart.AddProduct("Stylo", 2.0);
    cart.RemoveProduct("Livre");
    total := cart.Total();
  }

  /** A 10 percent discount on 20 leaves 18.0. */
  method DiscountScenario() returns (total: real)
    ensures total == 18.0
  {
    var cart := new Cart();
    var added := cart.AddProduct("Livre", 20.0);
    Round2Exact(1800);
    cart.ApplyDiscount(10.0);
    total := cart.Total();
  }

  /** A negative price is refused and the cart stays empty. */
  method InvalidPriceScenario() returns (outcome: Outcome, count: nat)
    ensures outcome == Fail(InvalidPriceError)
    ensures count == 0
  {
    var cart := new Cart();
    outcome := cart.AddProduct("Ordinateur", -100.0);
    count := |cart.products|;
  }

  // ---------------------------------------------------------------------
  // A discount above 100 percent, which no test exercises

  /** A 110 percent discount on 20 leaves -2.0: the price invariant breaks. */
  method DiscountAbove100Scenario() returns (total: real)
    ensures total == -2.0
  {
    var cart := new Cart();
    var added := cart.AddProduct("Livre", 20.0);
    Round2Exact(-200);
    cart.ApplyDiscount(110.0);
    total := cart.Total();
  }
}
