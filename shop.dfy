/** The shop page's search filter and its "add to cart" action. */
module Shop {
  import opened Sequences
  import opened Cart

  datatype Product = Product(id: string, name: string, price: int, stock: int, description: string, slug: string)

  /** `toLowerCase` on one character, for the ASCII letters. */
  function LowerChar(c: char): char {
    if 'A' <= c <= 'Z' then (c as int + 32) as char else c
  }

  function Lower(s: string): string {
    Map(s, LowerChar)
  }

  /** `needle` occurs in `hay` starting at position `i`. */
  predicate OccursAt(hay: string, needle: string, i: int) {
    0 <= i && i + |needle| <= |hay| && hay[i..i + |needle|] == needle
  }

  /** `String.prototype.includes`. */
  function Includes(hay: string, needle: string): bool
    decreases |hay|
  {
    if |needle| > |hay| then false
    else if hay[..|needle|] == needle then true
    else Includes(hay[1..], needle)
  }

  /** The search predicate of the product list. */
  predicate NameMatches(p: Product, query: string) {
    Includes(Lower(p.name), Lower(query))
  }

  /** `filteredProducts`: the products whose name contains the query, ignoring
      the case of ASCII letters, in catalogue order. */
  function FilteredProducts(products: seq<Product>, query: string): (r: seq<Product>)
    ensures forall p :: p in r <==> p in products && NameMatches(p, query)
    ensures forall p :: multiset(r)[p] == if NameMatches(p, query) then multiset(products)[p] else 0
    ensures Subsequence(r, products)
  {
    FilterMultiset(products, (p: Product) => NameMatches(p, query));
    Filter(products, (p: Product) => NameMatches(p, query))
  }

  /** The line `handleAddToCart(p)` passes to `addItem`. */
  function CartLineFor(p: Product): CartItem {
    CartItem(p.id, p.name, p.price, 1)
  }

  /** `includes` holds exactly when the needle occurs somewhere in the haystack. */
  lemma {:induction false} IncludesIffOccurs(hay: string, needle: string)
    ensures Includes(hay, needle) <==> exists i :: OccursAt(hay, needle, i)
    decreases |hay|
  {
    if |needle| > |hay| {
    } else if hay[..|needle|] == needle {
      assert OccursAt(hay, needle, 0);
    } else {
      IncludesIffOccurs(hay[1..], needle);
      if Includes(hay[1..], needle) {
        var i :| OccursAt(hay[1..], needle, i);
        assert hay[1..][i..i + |needle|] == hay[i + 1..i + 1 + |needle|];
        assert OccursAt(hay, needle, i + 1);
      } else {
        forall i | OccursAt(hay, needle, i)
          ensures false
        {
          if i > 0 {
            assert hay[1..][i - 1..i - 1 + |needle|] == hay[i..i + |needle|];
            assert OccursAt(hay[1..], needle, i - 1);
          }
        }
      }
    }
  }

  /** Lowering twice is lowering once. */
  lemma LowerIdempotent(s: string)
    ensures Lower(Lower(s)) == Lower(s)
  {
    var l := Lower(s);
    assert forall i :: 0 <= i < |s| ==> Lower(l)[i] == LowerChar(LowerChar(s[i])) == l[i];
  }

  /** Every product kept has a lowered name containing the lowered query, and every
      product whose lowered name contains it is kept. */
  lemma FilteredProductsMatch(products: seq<Product>, query: string, p: Product)
    ensures p in FilteredProducts(products, query) <==>
            p in products && exists i :: OccursAt(Lower(p.name), Lower(query), i)
  {
    IncludesIffOccurs(Lower(p.name), Lower(query));
  }

  /** The filtered list adds no product and repeats none. */
  lemma FilteredProductsNoNewElements(products: seq<Product>, query: string)
    ensures multiset(FilteredProducts(products, query)) <= multiset(products)
  {
    SubsequenceMultiset(FilteredProducts(products, query), products);
  }

  /** An empty search keeps every product. */
  lemma EmptyQueryKeepsAll(products: seq<Product>)
    ensures FilteredProducts(products, "") == products
  {
    assert Lower("") == "";
    FilterKeepsAll(products, (p: Product) => NameMatches(p, ""));
  }

  /** Filtering the filtered list with the same query changes nothing. */
  lemma FilterTwiceIsOnce(products: seq<Product>, query: string)
    ensures FilteredProducts(FilteredProducts(products, query), query) == FilteredProducts(products, query)
  {
    FilterIdempotent(products, (p: Product) => NameMatches(p, query));
  }

  /** The case of the query's ASCII letters does not matter. */
  lemma QueryCaseIgnored(products: seq<Product>, query: string)
    ensures FilteredProducts(products, query) == FilteredProducts(products, Lower(query))
  {
    LowerIdempotent(query);
    FilterCongruent(products, (p: Product) => NameMatches(p, query), (p: Product) => NameMatches(p, Lower(query)));
  }

  /** Adding a product to the cart raises the total by the product's price. */
  lemma AddToCartRaisesTotal(items: seq<CartItem>, p: Product)
    ensures Total(items + [CartLineFor(p)]) == Total(items) + p.price
  {
    TotalAppend(items, CartLineFor(p));
  }

  /** `handleAddToCart(p)`: always a new line with quantity 1, never a merge. */
  method HandleAddToCart(cart: CartStore, p: Product)
    modifies cart
    ensures cart.items == old(cart.items) + [CartItem(p.id, p.name, p.price, 1)]
    ensures cart.GetTotalPrice() == old(cart.GetTotalPrice()) + p.price
  {
    cart.AddItem(CartLineFor(p));
  }
}
