/**
 * The storefront's own search endpoint, `GET /api/search`
 * (frontend/src/app/api/search/route.ts): a title-only, case-insensitive
 * match with a price range and an optional category, sorted by title.
 */
module SearchRoute {
  import opened Wrappers
  import opened Text
  import opened Http
  import opened Catalog
  import Seqs

  /**
   * The query string. A price bound is the number `parseFloat` reads, in
   * cents; a missing or empty parameter is None.
   */
  datatype Query = Query(q: Option<string>, minPrice: Option<int>, maxPrice: Option<int>, category: Option<string>)

  const DefaultMinPrice := 0
  /** `"10000"`, in cents. */
  const DefaultMaxPrice := 10000 * 100

  /** The category condition: the upper-cased parameter when it names a member, else none. */
  function RouteCategory(param: Option<string>): (f: Option<Category>)
    ensures f.Some? ==> Truthy(param) && CategoryName(f.value) == Upper(param.value)
    ensures Truthy(param) && ParseCategory(Upper(param.value)).Some? ==> f.Some?
  {
    if Truthy(param) then ParseCategory(Upper(param.value)) else None
  }

  /** The `where` clause: title contains q, minPrice <= price <= maxPrice, and the category. */
  predicate Selects(q: string, minPrice: int, maxPrice: int, filter: Option<Category>, p: Product) {
    && ContainsIgnoringCase(p.title, q)
    && minPrice <= p.price <= maxPrice
    && InCategory(filter, p)
  }

  /**
   * `orderBy: { title: 'asc' }`. The database orders text by its own
   * collation, so the comparison is a parameter.
   */
  predicate TitleBefore(collate: (string, string) -> int, a: Product, b: Product) {
    collate(a.title, b.title) < 0
  }

  function TitleOrder(collate: (string, string) -> int): (Product, Product) -> bool {
    (a, b) => TitleBefore(collate, a, b)
  }

  lemma TitleOrderIsStrictWeak(collate: (string, string) -> int)
    requires IsCollation(collate)
    ensures Seqs.StrictWeakOrder(TitleOrder(collate))
  {
  }

  /** The parameters after their defaults: q, minPrice, maxPrice, category. */
  function Effective(query: Query): (string, int, int, Option<Category>) {
    (query.q.GetOr(""), query.minPrice.GetOr(DefaultMinPrice), query.maxPrice.GetOr(DefaultMaxPrice),
     RouteCategory(query.category))
  }

  /** The products the handler returns as JSON. */
  function Get(table: seq<Product>, query: Query, collate: (string, string) -> int): seq<Product> {
    var (q, minPrice, maxPrice, filter) := Effective(query);
    Seqs.Sort(Seqs.Filter(p => Selects(q, minPrice, maxPrice, filter, p), table), TitleOrder(collate))
  }

  /**
   * A product is returned exactly when the lower-cased query occurs in its
   * lower-cased title (the description is not searched), its price lies in
   * the inclusive range and it is of the valid category; each is returned as
   * often as it is stored. This holds whatever the collation.
   */
  lemma GetReturnsTheSelection(table: seq<Product>, query: Query, collate: (string, string) -> int, p: Product)
    ensures var (q, minPrice, maxPrice, filter) := Effective(query);
            var r := Get(table, query, collate);
            && (p in r <==>
                  && p in table
                  && IsSubstring(Lower(q), Lower(p.title))
                  && minPrice <= p.price <= maxPrice
                  && InCategory(filter, p))
            && multiset(r)[p] == (if Selects(q, minPrice, maxPrice, filter, p) then multiset(table)[p] else 0)
  {
    var (q, minPrice, maxPrice, filter) := Effective(query);
    var keep := (x: Product) => Selects(q, minPrice, maxPrice, filter, x);
    Seqs.SortPermutes(Seqs.Filter(keep, table), TitleOrder(collate));
    Seqs.FilterCount(keep, table, p);
    ContainsIsSubstring(Lower(p.title), Lower(q));
  }

  /**
   * The selection of `GetReturnsTheSelection`, with the titles ascending in
   * the database's collation.
   */
  lemma GetSelectsExactly(table: seq<Product>, query: Query, collate: (string, string) -> int, p: Product)
    requires IsCollation(collate)
    ensures var (q, minPrice, maxPrice, filter) := Effective(query);
            var r := Get(table, query, collate);
            && (p in r <==>
                  && p in table
                  && IsSubstring(Lower(q), Lower(p.title))
                  && minPrice <= p.price <= maxPrice
                  && InCategory(filter, p))
            && multiset(r)[p] == (if Selects(q, minPrice, maxPrice, filter, p) then multiset(table)[p] else 0)
            && (forall i, j :: 0 <= i < j < |r| ==> collate(r[i].title, r[j].title) <= 0)
  {
    var (q, minPrice, maxPrice, filter) := Effective(query);
    var keep := (x: Product) => Selects(q, minPrice, maxPrice, filter, x);
    GetReturnsTheSelection(table, query, collate, p);
    TitleOrderIsStrictWeak(collate);
    Seqs.SortSorts(Seqs.Filter(keep, table), TitleOrder(collate));
    var r := Get(table, query, collate);
    assert forall i, j :: 0 <= i < j < |r| ==> !TitleBefore(collate, r[j], r[i]);
  }

  /** Without `q`, every product of the price range and category is returned. */
  lemma MissingQueryMatchesEveryTitle(table: seq<Product>, query: Query, collate: (string, string) -> int, p: Product)
    requires query.q.None? && p in table
    requires DefaultMinPrice <= p.price <= DefaultMaxPrice
    requires query.minPrice.None? && query.maxPrice.None? && query.category.None?
    ensures p in Get(table, query, collate)
  {
    GetReturnsTheSelection(table, query, collate, p);
    ContainsIsSubstring(Lower(p.title), Lower(""));
    assert OccursAt(Lower(""), Lower(p.title), 0);
  }

  /** A lower-case category parameter selects its member: `?category=gaming` keeps GAMING only. */
  lemma CategoryParameterIsUpperCased(table: seq<Product>, query: Query, collate: (string, string) -> int, p: Product)
    requires query.category == Some("gaming")
    requires p in Get(table, query, collate)
    ensures p.category == GAMING
  {
    assert Upper("gaming") == "GAMING";
    GetReturnsTheSelection(table, query, collate, p);
  }
}
