/** The product list page of the shop client
    (Shop.Client/src/components/productsList/ProductsListPage.tsx): the filter it applies to
    the fetched products. */
module ClientProductsList {
  import opened Types
  import opened Wrappers
  import opened Seqs
  import opened Text

  /** `!bound || price >= parseInt(bound)`: an empty bound passes every price; a bound
      `parseInt` cannot read is NaN, which no comparison passes. */
  predicate AtLeast(price: int, bound: string)
  {
    bound == "" || (ParseInt(bound).Some? && price >= ParseInt(bound).value)
  }

  /** `!bound || price <= parseInt(bound)`. */
  predicate AtMost(price: int, bound: string)
  {
    bound == "" || (ParseInt(bound).Some? && price <= ParseInt(bound).value)
  }

  /** Lines 36-40: the title holds the search text, ignoring case, and the price is within
      both bounds. */
  predicate Shown(p: Product, searchTitle: string, minPrice: string, maxPrice: string)
  {
    Contains(Lower(p.title), Lower(searchTitle)) && AtLeast(p.price, minPrice) && AtMost(p.price, maxPrice)
  }

  /** `filterProducts` (lines 34-43). */
  function FilterProducts(products: seq<Product>, searchTitle: string, minPrice: string, maxPrice: string): seq<Product>
  {
    Filter(products, (p: Product) => Shown(p, searchTitle, minPrice, maxPrice))
  }

  /** The list shown is the fetched list with the failing products taken out, order and
      repetitions kept: all three conditions must hold (AND, unlike the API search). */
  lemma FilterProductsMeaning(products: seq<Product>, searchTitle: string, minPrice: string, maxPrice: string)
    ensures IsSubsequence(FilterProducts(products, searchTitle, minPrice, maxPrice), products)
    ensures forall p :: p in FilterProducts(products, searchTitle, minPrice, maxPrice) <==>
      p in products && Contains(Lower(p.title), Lower(searchTitle)) && AtLeast(p.price, minPrice) && AtMost(p.price, maxPrice)
    ensures forall p :: (multiset(FilterProducts(products, searchTitle, minPrice, maxPrice))[p]
      == if Shown(p, searchTitle, minPrice, maxPrice) then multiset(products)[p] else 0)
  {
    var shown := (p: Product) => Shown(p, searchTitle, minPrice, maxPrice);
    FilterIsSubsequence(products, shown);
    FilterMembers(products, shown);
    FilterMultiplicity(products, shown);
  }

  lemma ContainsEmpty(s: string)
    ensures Contains(s, "")
  {
  }

  /** With no search text and no bounds every product is shown. */
  lemma EmptyFiltersShowAll(products: seq<Product>)
    ensures FilterProducts(products, "", "", "") == products
  {
    forall i | 0 <= i < |products| ensures Shown(products[i], "", "", "") {
      ContainsEmpty(Lower(products[i].title));
    }
    FilterKeepsAll(products, (p: Product) => Shown(p, "", "", ""));
  }

  /** Both bounds are inclusive: with bounds written as numbers, a product whose title matches
      is shown exactly when `lo <= price <= hi`. */
  lemma BoundsInclusive(p: Product, searchTitle: string, lo: int, hi: int)
    requires Contains(Lower(p.title), Lower(searchTitle))
    ensures Shown(p, searchTitle, NumberText(lo), NumberText(hi)) <==> lo <= p.price <= hi
  {
    ParseIntNumberText(lo);
    ParseIntNumberText(hi);
    assert NumberText(lo) != "" && NumberText(hi) != "";
  }

  /** An empty bound ignores that side. */
  lemma EmptyBoundIgnored(p: Product, searchTitle: string, lo: int)
    requires Contains(Lower(p.title), Lower(searchTitle))
    ensures Shown(p, searchTitle, NumberText(lo), "") <==> lo <= p.price
    ensures Shown(p, searchTitle, "", NumberText(lo)) <==> p.price <= lo
  {
    ParseIntNumberText(lo);
    assert NumberText(lo) != "";
  }
}
