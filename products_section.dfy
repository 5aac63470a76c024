/**
 * The featured-products grid of `components/landing/products-section.tsx`:
 * the first six products, filtered by a case-insensitive name search and an
 * inclusive price range, each card with either the in-cart controls or an
 * add button that is disabled when the product is out of stock.
 */
module ProductsSection {
  import opened JsText
  import opened JsNumber

  datatype Product = Product(id: string, name: string, slug: string, price: string, stock: int, images: seq<string>)

  /** `priceRange`, the slider's two values. */
  datatype PriceRange = PriceRange(low: real, high: real)

  const FeaturedCount := 6
  const CardPlaceholder := "/placeholder.svg?height=400&width=400"

  /** `products.slice(0, 6)` */
  function Featured(products: seq<Product>): (f: seq<Product>)
    ensures |f| == if |products| < FeaturedCount then |products| else FeaturedCount
    ensures f == products[..|f|]
  {
    if |products| < FeaturedCount then products else products[..FeaturedCount]
  }

  /** `Number(price)` lies in the range, both ends included; a price that is not a number never does. */
  predicate PriceInRange(price: string, range: PriceRange) {
    match StringToNumber(price)
    case Finite(v) => range.low <= v && v <= range.high
    case NaN => false
  }

  /** The filter's test: the lower-cased name contains the lower-cased query, and the price is in range. */
  predicate Matches(p: Product, query: string, range: PriceRange) {
    Includes(Lower(p.name), Lower(query)) && PriceInRange(p.price, range)
  }

  /** `featuredProducts.filter(...)` without the slice: the products that match, in their order. */
  function Filter(products: seq<Product>, query: string, range: PriceRange): (r: seq<Product>)
    ensures |r| <= |products|
    ensures forall p :: p in r <==> p in products && Matches(p, query, range)
  {
    if products == [] then []
    else
      (if Matches(products[0], query, range) then [products[0]] else [])
      + Filter(products[1..], query, range)
  }

  /** The filter works piecewise, so it never reorders products. */
  lemma {:induction false} FilterAppend(a: seq<Product>, b: seq<Product>, query: string, range: PriceRange)
    ensures Filter(a + b, query, range) == Filter(a, query, range) + Filter(b, query, range)
    decreases |a|
  {
    if a == [] {
      assert a + b == b;
    } else {
      assert (a + b)[1..] == a[1..] + b;
      FilterAppend(a[1..], b, query, range);
    }
  }

  /** When every product matches, the whole list is shown as it is. */
  lemma {:induction false} FilterAllMatch(products: seq<Product>, query: string, range: PriceRange)
    requires forall i :: 0 <= i < |products| ==> Matches(products[i], query, range)
    ensures Filter(products, query, range) == products
    decreases |products|
  {
    if products != [] {
      FilterAllMatch(products[1..], query, range);
      assert products == [products[0]] + products[1..];
    }
  }

  /** The cards rendered: the featured products that pass the filter. */
  function Shown(products: seq<Product>, query: string, range: PriceRange): (r: seq<Product>)
    ensures |r| <= FeaturedCount
    ensures forall p :: p in r <==> p in Featured(products) && Matches(p, query, range)
  {
    Filter(Featured(products), query, range)
  }

  /** A product after the sixth is never shown, whatever the filter. */
  lemma OnlyFirstSixConsidered(products: seq<Product>, query: string, range: PriceRange, p: Product)
    requires p in Shown(products, query, range)
    ensures exists i :: 0 <= i < |products| && i < FeaturedCount && products[i] == p
  {
    var f := Featured(products);
    var i :| 0 <= i < |f| && f[i] == p;
    assert products[i] == p;
  }

  /** The lower-cased empty query is contained in every name, so only the price range filters. */
  lemma EmptyQueryMatchesAll(p: Product, range: PriceRange)
    ensures Matches(p, "", range) <==> PriceInRange(p.price, range)
  {
    IncludesAt(Lower(p.name), Lower(""), 0);
  }

  /** The search ignores ASCII case on both sides. */
  lemma SearchIgnoresCase(p: Product, query: string, range: PriceRange)
    ensures Matches(p, Upper(query), range) <==> Matches(p, query, range)
    ensures Matches(p, Lower(query), range) <==> Matches(p, query, range)
  {
    LowerOfUpper(query);
    LowerIdempotent(query);
  }

  /** A price exactly on either bound passes. */
  lemma BoundsInclusive(p: Product, cents: int)
    ensures PriceInRange(FixedTwo(cents), PriceRange(cents as real / 100.0, cents as real / 100.0))
  {
    ParseFixedTwo(cents);
  }

  /** `cartItems[product.id]` is truthy: present and not 0. */
  predicate InCart(cartItems: map<string, int>, id: string) {
    id in cartItems && cartItems[id] != 0
  }

  /** The bottom of a card. */
  datatype CardAction =
    | InCartControls(count: int)
    | AddButton(caption: string, disabled: bool)

  function CardActionFor(p: Product, cartItems: map<string, int>): (a: CardAction)
    ensures a.InCartControls? <==> InCart(cartItems, p.id)
    ensures a.InCartControls? ==> a.count == cartItems[p.id] && a.count != 0
    ensures a.AddButton? ==> (a.disabled <==> p.stock <= 0)
    ensures a.AddButton? ==> a.caption == (if p.stock <= 0 then "Out of Stock" else "Add to Cart")
  {
    if InCart(cartItems, p.id) then InCartControls(cartItems[p.id])
    else AddButton(if p.stock <= 0 then "Out of Stock" else "Add to Cart", p.stock <= 0)
  }

  /** A count of zero left in the map shows the add button, not the in-cart controls. */
  lemma ZeroCountIsNotInCart(p: Product, cartItems: map<string, int>)
    requires p.id in cartItems && cartItems[p.id] == 0
    ensures CardActionFor(p, cartItems).AddButton?
  {
  }

  /** `product.images[0] || placeholder` */
  function ImageSource(p: Product): (src: string)
    ensures src != ""
    ensures |p.images| > 0 && p.images[0] != "" ==> src == p.images[0]
    ensures (|p.images| == 0 || p.images[0] == "") ==> src == CardPlaceholder
  {
    if |p.images| > 0 && p.images[0] != "" then p.images[0] else CardPlaceholder
  }
}
