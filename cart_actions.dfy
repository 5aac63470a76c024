/**
 * `calcPrice` of `lib/actions/cart.actions.ts`: the items subtotal, a flat
 * shipping fee waived above 100, a 15 % tax and the total, each rounded to
 * cents by `round2` and rendered with two decimals. Amounts are exact: an item
 * price is the whole number of cents its two-decimal price string spells.
 */
module CartPricing {
  import opened Wrappers
  import opened JsText
  import opened JsNumber
  import Utils

  datatype CartItem = CartItem(productId: string, name: string, slug: string, priceCents: int, qty: int, image: string)

  /** The four amounts in cents. */
  datatype Amounts = Amounts(items: int, shipping: int, tax: int, total: int)

  /** The four amounts as `calcPrice` returns them: `toFixed(2)` text. */
  datatype Prices = Prices(itemsPrice: string, shippingPrice: string, taxPrice: string, totalPrice: string)

  const FreeShippingAboveCents := 10000
  const ShippingFeeCents := 1000

  /** Σ price × qty over the items, in cents. */
  function Subtotal(items: seq<CartItem>): int {
    if items == [] then 0 else items[0].priceCents * items[0].qty + Subtotal(items[1..])
  }

  /**
   * The derivation chain of `calcPrice` on exact values: each amount is
   * `round2` of its formula. The contract gives the closed form in cents:
   * shipping is waived only strictly above 100.00, and the tax is 15 % of the
   * subtotal rounded half-up to a cent.
   */
  function CalcAmounts(items: seq<CartItem>): (a: Amounts)
    ensures a.items == Subtotal(items)
    ensures a.shipping == if a.items > FreeShippingAboveCents then 0 else ShippingFeeCents
    ensures a.tax == (15 * a.items + 50) / 100
    ensures a.total == a.items + a.shipping + a.tax
  {
    var itemsCents := Utils.RoundCents(Subtotal(items) as real / 100.0);
    var itemsPrice := itemsCents as real / 100.0;
    var shippingCents := Utils.RoundCents(if itemsPrice > 100.0 then 0.0 else 10.0);
    var taxCents := Utils.RoundCents(itemsPrice * 0.15);
    var totalCents := Utils.RoundCents(itemsPrice + shippingCents as real / 100.0 + taxCents as real / 100.0);
    Utils.RoundCentsOfCents(Subtotal(items));
    assert taxCents == (15 * itemsCents + 50) / 100 by {
      FloorHundredth(15 * itemsCents + 50);
      assert itemsPrice * 0.15 * 100.0 + 0.5 == (15 * itemsCents + 50) as real / 100.0;
    }
    Utils.RoundCentsOfCents(itemsCents + shippingCents + taxCents);
    assert itemsPrice + shippingCents as real / 100.0 + taxCents as real / 100.0
        == (itemsCents + shippingCents + taxCents) as real / 100.0;
    Amounts(itemsCents, shippingCents, taxCents, totalCents)
  }

  /** Two fraction digits.  */
  predicate TwoDecimals(s: string) {
    |s| >= 4 && s[|s| - 3] == '.' && AllDigits(s[|s| - 2..])
  }

  /** A price text has two fraction digits and reads back as the amount of `cents`. */
  predicate RendersAs(price: string, cents: int) {
    TwoDecimals(price) && ParseDecimal(price) == Some(cents as real / 100.0)
  }

  /**
   * `calcPrice`: each price is the `toFixed(2)` text of its amount; that every
   * one has two fraction digits and reads back as its amount is
   * `CalcPriceRendering`.
   */
  function CalcPrice(items: seq<CartItem>): (p: Prices)
    ensures var a := CalcAmounts(items);
      p == Prices(FixedTwo(a.items), FixedTwo(a.shipping), FixedTwo(a.tax), FixedTwo(a.total))
  {
    var a := CalcAmounts(items);
    Prices(FixedTwo(a.items), FixedTwo(a.shipping), FixedTwo(a.tax), FixedTwo(a.total))
  }

  /** Every price is rendered with exactly two decimals and reads back as its amount. */
  lemma CalcPriceRendering(items: seq<CartItem>)
    ensures var p, a := CalcPrice(items), CalcAmounts(items);
      RendersAs(p.itemsPrice, a.items) && RendersAs(p.shippingPrice, a.shipping) &&
      RendersAs(p.taxPrice, a.tax) && RendersAs(p.totalPrice, a.total)
  {
    var a := CalcAmounts(items);
    Rendered(a.items);
    Rendered(a.shipping);
    Rendered(a.tax);
    Rendered(a.total);
  }

  /** One amount's two-decimal text has two fraction digits and reads back as the amount. */
  lemma Rendered(cents: int)
    ensures RendersAs(FixedTwo(cents), cents)
  {
    ParseFixedTwo(cents);
  }

  // The `toFixed(2)` texts of the amounts in the worked carts below, one per
  // lemma so that each literal is evaluated in a proof context of its own.
  lemma FixedTwoZero() ensures FixedTwo(0) == "0.00" {}
  lemma FixedTwoTen() ensures FixedTwo(1000) == "10.00" {}
  lemma FixedTwoFifty() ensures FixedTwo(5000) == "50.00" && FixedTwo(750) == "7.50" {}
  lemma FixedTwoSixtySevenFifty() ensures FixedTwo(6750) == "67.50" {}
  lemma FixedTwoSeventyFive() ensures FixedTwo(7500) == "75.00" && FixedTwo(1125) == "11.25" {}
  lemma FixedTwoNinetySixTwentyFive() ensures FixedTwo(9625) == "96.25" {}

  /** An empty cart: 0.00 items, 10.00 shipping, 0.00 tax, 10.00 total. */
  lemma EmptyCartPrices()
    ensures CalcPrice([]) == Prices("0.00", "10.00", "0.00", "10.00")
  {
    assert CalcAmounts([]) == Amounts(0, 1000, 0, 1000);
    FixedTwoZero();
    FixedTwoTen();
  }

  /** Exactly 100.00 still pays the 10.00 fee; one cent more ships free. */
  lemma ShippingBoundary(items: seq<CartItem>)
    ensures Subtotal(items) == 10000 ==> CalcAmounts(items).shipping == 1000
    ensures Subtotal(items) == 10001 ==> CalcAmounts(items).shipping == 0
    ensures CalcAmounts(items).shipping == 0 <==> Subtotal(items) > 10000
  {
  }

  /** A 50.00 subtotal gives 7.50 tax and a 67.50 total. */
  lemma FiftyDollarCart(items: seq<CartItem>)
    requires Subtotal(items) == 5000
    ensures CalcPrice(items) == Prices("50.00", "10.00", "7.50", "67.50")
  {
    assert CalcAmounts(items) == Amounts(5000, 1000, 750, 6750);
    FixedTwoFifty();
    FixedTwoTen();
    FixedTwoSixtySevenFifty();
  }

  /** Three items at 25.00: 75.00, 10.00, 11.25 and 96.25. */
  lemma ThreeAtTwentyFive()
    ensures CalcPrice([CartItem("p1", "Item", "item", 2500, 3, "")]) == Prices("75.00", "10.00", "11.25", "96.25")
  {
    var items := [CartItem("p1", "Item", "item", 2500, 3, "")];
    assert items[1..] == [];
    SeventyFiveCart(items);
  }

  /** A 75.00 subtotal gives 11.25 tax and a 96.25 total. */
  lemma SeventyFiveCart(items: seq<CartItem>)
    requires Subtotal(items) == 7500
    ensures CalcPrice(items) == Prices("75.00", "10.00", "11.25", "96.25")
  {
    assert CalcAmounts(items) == Amounts(7500, 1000, 1125, 9625);
    FixedTwoSeventyFive();
    FixedTwoTen();
    FixedTwoNinetySixTwentyFive();
  }

  lemma {:induction false} SubtotalAppend(a: seq<CartItem>, b: seq<CartItem>)
    ensures Subtotal(a + b) == Subtotal(a) + Subtotal(b)
    decreases |a|
  {
    if a != [] {
      assert (a + b)[1..] == a[1..] + b;
      SubtotalAppend(a[1..], b);
    } else {
      assert a + b == b;
    }
  }

  /** Removing the item at `i` takes exactly its line amount off the subtotal. */
  lemma SubtotalRemove(b: seq<CartItem>, i: nat)
    requires i < |b|
    ensures Subtotal(b) == b[i].priceCents * b[i].qty + Subtotal(b[..i] + b[i + 1..])
  {
    assert b == b[..i] + ([b[i]] + b[i + 1..]);
    SubtotalAppend(b[..i], [b[i]] + b[i + 1..]);
    SubtotalAppend(b[..i], b[i + 1..]);
    assert ([b[i]] + b[i + 1..])[1..] == b[i + 1..];
  }

  /** Dropping one occurrence of `x` from both sides keeps two item multisets equal. */
  lemma MultisetRemoveOne(a: seq<CartItem>, b: seq<CartItem>, i: nat)
    requires a != [] && i < |b| && b[i] == a[0]
    requires multiset(a) == multiset(b)
    ensures multiset(a[1..]) == multiset(b[..i] + b[i + 1..])
  {
    assert a == [a[0]] + a[1..];
    assert b == b[..i] + [b[i]] + b[i + 1..];
    calc {
      multiset(a[1..]);
      multiset(a) - multiset{a[0]};
      multiset(b) - multiset{b[i]};
      multiset(b[..i]) + multiset(b[i + 1..]);
      multiset(b[..i] + b[i + 1..]);
    }
  }

  /** The subtotal depends only on which items there are, not on their order. */
  lemma {:induction false} SubtotalPermutation(a: seq<CartItem>, b: seq<CartItem>)
    requires multiset(a) == multiset(b)
    ensures Subtotal(a) == Subtotal(b)
    decreases |a|
  {
    if a == [] {
      assert |multiset(b)| == 0;
    } else {
      assert a[0] in multiset(b);
      var i :| 0 <= i < |b| && b[i] == a[0];
      MultisetRemoveOne(a, b, i);
      SubtotalPermutation(a[1..], b[..i] + b[i + 1..]);
      SubtotalRemove(b, i);
    }
  }

  /** So every price `calcPrice` returns is independent of the item order. */
  lemma CalcPriceOrderIndependent(a: seq<CartItem>, b: seq<CartItem>)
    requires multiset(a) == multiset(b)
    ensures CalcPrice(a) == CalcPrice(b)
  {
    SubtotalPermutation(a, b);
  }

  predicate NonNegativeItems(items: seq<CartItem>) {
    forall i :: 0 <= i < |items| ==> items[i].priceCents >= 0 && items[i].qty >= 0
  }

  lemma {:induction false} SubtotalNonNegative(items: seq<CartItem>)
    requires NonNegativeItems(items)
    ensures Subtotal(items) >= 0
    decreases |items|
  {
    if items != [] {
      assert NonNegativeItems(items[1..]);
      SubtotalNonNegative(items[1..]);
      assert items[0].priceCents * items[0].qty >= 0;
    }
  }

  /** With non-negative prices and quantities every amount is non-negative and the total covers the items. */
  lemma AmountsNonNegative(items: seq<CartItem>)
    requires NonNegativeItems(items)
    ensures var a := CalcAmounts(items);
      a.items >= 0 && a.shipping >= 0 && a.tax >= 0 && a.total >= a.items
  {
    SubtotalNonNegative(items);
  }
}
