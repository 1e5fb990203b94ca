/**
 * The search page's client-side refinement (frontend/src/app/search/page.tsx):
 * the products returned by `/api/search` are narrowed to a price range and
 * a category chosen in the filter panel, keeping their order.
 */
module SearchPage {
  import opened Wrappers
  import opened Text
  import opened Catalog
  import Seqs

  /** The filter panel's state; the category is a lower-case name or `"all"`. */
  datatype PriceFilter = PriceFilter(minPrice: int, maxPrice: int, category: string)

  /** `{ minPrice: 0, maxPrice: 1000, category: 'all' }`, prices in cents. */
  const InitialFilter := PriceFilter(0, 1000 * 100, "all")

  /** The callback of `products.filter(...)`. */
  predicate Keeps(f: PriceFilter, p: Product) {
    && p.price >= f.minPrice
    && p.price <= f.maxPrice
    && (f.category == "all" || Lower(CategoryName(p.category)) == f.category)
  }

  /** The refined results. */
  function FilterResults(products: seq<Product>, f: PriceFilter): (r: seq<Product>)
    ensures forall i :: 0 <= i < |r| ==> r[i] in products && f.minPrice <= r[i].price <= f.maxPrice
    ensures forall i :: 0 <= i < |r| ==> f.category == "all" || Lower(CategoryName(r[i].category)) == f.category
    ensures forall i :: 0 <= i < |products| && Keeps(f, products[i]) ==> products[i] in r
  {
    Seqs.Filter(p => Keeps(f, p), products)
  }

  /** The refinement keeps the fetched order and each kept product's multiplicity. */
  lemma FilterResultsIsOrderedSelection(products: seq<Product>, f: PriceFilter, p: Product)
    ensures Seqs.IsSubsequence(FilterResults(products, f), products)
    ensures multiset(FilterResults(products, f))[p] == if Keeps(f, p) then multiset(products)[p] else 0
  {
    Seqs.FilterIsSubsequence(p => Keeps(f, p), products);
    Seqs.FilterCount(p => Keeps(f, p), products, p);
  }

  /** With the initial filter every product from 0 to 1000 is shown, whatever its category. */
  lemma InitialFilterKeepsPriceRange(products: seq<Product>, p: Product)
    requires p in products && 0 <= p.price <= 1000 * 100
    ensures p in FilterResults(products, InitialFilter)
  {
  }

  /** Upper-case names with no lower-case letter survive lower-casing and upper-casing. */
  lemma UpperOfLower(s: string)
    requires forall i :: 0 <= i < |s| ==> !('a' <= s[i] <= 'z')
    ensures Upper(Lower(s)) == s
  {
  }

  /** Lower-casing keeps the category names apart. */
  lemma LowerCategoryNameInjective(a: Category, b: Category)
    requires Lower(CategoryName(a)) == Lower(CategoryName(b))
    ensures a == b
  {
    UpperOfLower(CategoryName(a));
    UpperOfLower(CategoryName(b));
    assert ParseCategory(CategoryName(b)) == Some(b);
  }

  /** Choosing a category's lower-case name shows products of that category only. */
  lemma LowerCaseNameSelectsCategory(products: seq<Product>, f: PriceFilter, c: Category, p: Product)
    requires f.category == Lower(CategoryName(c))
    requires p in FilterResults(products, f)
    ensures p.category == c
  {
    var i :| 0 <= i < |FilterResults(products, f)| && FilterResults(products, f)[i] == p;
    if f.category != "all" {
      LowerCategoryNameInjective(p.category, c);
    }
  }

  /** A category value with an upper-case letter never equals a lower-cased name: nothing is shown. */
  lemma UpperCaseValueKeepsNothing(products: seq<Product>, f: PriceFilter, k: int)
    requires 0 <= k < |f.category| && 'A' <= f.category[k] <= 'Z'
    ensures FilterResults(products, f) == []
  {
    var r := FilterResults(products, f);
    if r != [] {
      LowerHasNoUpper(CategoryName(r[0].category), k);
    }
  }
}
