/**
 * The admin product table (frontend/src/app/admin/products/page.tsx): the
 * page of products fetched from `/api/products`, filtered on the client by
 * a global search term and column filters, sorted by a clicked column, with
 * delete, filter reset and previous/next page buttons.
 */
module AdminProductsPage {
  import opened Wrappers
  import opened Text
  import opened Numbers
  import opened Http
  import opened Catalog
  import Seqs

  datatype Direction = Asc | Desc

  /** `sortConfig`: the column key as a string and the direction. */
  datatype SortConfig = SortConfig(key: string, direction: Direction)

  /**
   * A price filter input: the empty string, or the number `parseFloat` reads
   * from the entered text (in cents; NaN when it reads none).
   */
  datatype PriceBound = Blank | Entered(value: JsNumber)

  /** `filters`: name, category and the two price inputs. */
  datatype Filters = Filters(name: string, category: string, minPrice: PriceBound, maxPrice: PriceBound)

  const InitialFilters := Filters("", "", Blank, Blank)
  const InitialSort := SortConfig("title", Asc)
  const InitialPageSize := 10

  /** `a.price >= min`: a blank bound admits every price, NaN admits none. */
  predicate AtLeast(bound: PriceBound, price: int) {
    match bound
    case Blank => true
    case Entered(Num(n)) => price >= n
    case Entered(NaN) => false
  }

  /** `a.price <= max`, likewise. */
  predicate AtMost(bound: PriceBound, price: int) {
    match bound
    case Blank => true
    case Entered(Num(n)) => price <= n
    case Entered(NaN) => false
  }

  /** The filter callback: search term, name, category and the price range. */
  predicate Keeps(searchTerm: string, filters: Filters, p: Product) {
    && (searchTerm == "" || ContainsIgnoringCase(p.title, searchTerm)
                         || ContainsIgnoringCase(CategoryName(p.category), searchTerm))
    && (filters.name == "" || ContainsIgnoringCase(p.title, filters.name))
    && (filters.category == "" || ContainsIgnoringCase(CategoryName(p.category), filters.category))
    && AtLeast(filters.minPrice, p.price)
    && AtMost(filters.maxPrice, p.price)
  }

  /**
   * The filters as a specification: the lower-cased term occurs in the
   * lower-cased title or category; an empty text constrains nothing; the
   * price lies within every entered bound.
   */
  ghost predicate SatisfiesFilters(searchTerm: string, filters: Filters, p: Product) {
    && (IsSubstring(Lower(searchTerm), Lower(p.title)) || IsSubstring(Lower(searchTerm), Lower(CategoryName(p.category))))
    && IsSubstring(Lower(filters.name), Lower(p.title))
    && IsSubstring(Lower(filters.category), Lower(CategoryName(p.category)))
    && (filters.minPrice.Entered? ==> filters.minPrice.value.Num? && filters.minPrice.value.n <= p.price)
    && (filters.maxPrice.Entered? ==> filters.maxPrice.value.Num? && p.price <= filters.maxPrice.value.n)
  }

  lemma KeepsMeetsFilters(searchTerm: string, filters: Filters, p: Product)
    ensures Keeps(searchTerm, filters, p) <==> SatisfiesFilters(searchTerm, filters, p)
  {
    var title := Lower(p.title);
    var category := Lower(CategoryName(p.category));
    ContainsIsSubstring(title, Lower(searchTerm));
    ContainsIsSubstring(category, Lower(searchTerm));
    ContainsIsSubstring(title, Lower(filters.name));
    ContainsIsSubstring(category, Lower(filters.category));
    assert OccursAt(Lower(""), title, 0);
    assert OccursAt(Lower(""), category, 0);
  }

  /** `a[sortConfig.key]` when it is a string; id and price are numbers, metadata an object. */
  function StringField(p: Product, key: string): (r: Option<string>)
    ensures r.Some? <==> key in {"title", "image", "description", "category"}
  {
    if key == "title" then Some(p.title)
    else if key == "image" then Some(p.image)
    else if key == "description" then Some(p.description)
    else if key == "category" then Some(CategoryName(p.category))
    else None
  }

  /** The comparator's "a sorts before b": its result is negative. */
  predicate Precedes(cfg: SortConfig, collate: (string, string) -> int, a: Product, b: Product) {
    if cfg.key == "price" then
      (if cfg.direction == Asc then a.price - b.price < 0 else b.price - a.price < 0)
    else
      match (StringField(a, cfg.key), StringField(b, cfg.key))
      case (Some(x), Some(y)) => if cfg.direction == Asc then collate(x, y) < 0 else collate(y, x) < 0
      case _ => false
  }

  function Order(cfg: SortConfig, collate: (string, string) -> int): (Product, Product) -> bool {
    (a, b) => Precedes(cfg, collate, a, b)
  }

  lemma OrderIsStrictWeak(cfg: SortConfig, collate: (string, string) -> int)
    requires IsCollation(collate)
    ensures Seqs.StrictWeakOrder(Order(cfg, collate))
  {
  }

  /** `filteredAndSortedProducts`. */
  function FilteredAndSorted(products: seq<Product>, searchTerm: string, filters: Filters,
                             cfg: SortConfig, collate: (string, string) -> int): seq<Product> {
    Seqs.Sort(Seqs.Filter(p => Keeps(searchTerm, filters, p), products), Order(cfg, collate))
  }

  /**
   * The table shows exactly the fetched products that meet every filter,
   * each as often as fetched, ordered by the comparator.
   */
  lemma FilteredAndSortedIsSortedSelection(products: seq<Product>, searchTerm: string, filters: Filters,
                                           cfg: SortConfig, collate: (string, string) -> int, p: Product)
    requires IsCollation(collate)
    ensures var r := FilteredAndSorted(products, searchTerm, filters, cfg, collate);
            && (p in r <==> p in products && SatisfiesFilters(searchTerm, filters, p))
            && multiset(r)[p] == (if SatisfiesFilters(searchTerm, filters, p) then multiset(products)[p] else 0)
            && Seqs.SortedBy(r, Order(cfg, collate))
  {
    var keep := (x: Product) => Keeps(searchTerm, filters, x);
    var selected := Seqs.Filter(keep, products);
    Seqs.SortPermutes(selected, Order(cfg, collate));
    Seqs.FilterCount(keep, products, p);
    KeepsMeetsFilters(searchTerm, filters, p);
    OrderIsStrictWeak(cfg, collate);
    Seqs.SortSorts(selected, Order(cfg, collate));
  }

  /** Sorted by price: non-decreasing ascending, non-increasing descending. */
  lemma PriceSortOrdersPrices(products: seq<Product>, searchTerm: string, filters: Filters,
                              cfg: SortConfig, collate: (string, string) -> int)
    requires IsCollation(collate) && cfg.key == "price"
    ensures var r := FilteredAndSorted(products, searchTerm, filters, cfg, collate);
            forall i, j :: 0 <= i < j < |r| ==>
              if cfg.direction == Asc then r[i].price <= r[j].price else r[i].price >= r[j].price
  {
    var r := FilteredAndSorted(products, searchTerm, filters, cfg, collate);
    OrderIsStrictWeak(cfg, collate);
    Seqs.SortSorts(Seqs.Filter(p => Keeps(searchTerm, filters, p), products), Order(cfg, collate));
    assert forall i, j :: 0 <= i < j < |r| ==> !Precedes(cfg, collate, r[j], r[i]);
  }

  /** Sorted by a string column: the collation never puts a later row's value strictly first. */
  lemma StringSortOrdersValues(products: seq<Product>, searchTerm: string, filters: Filters,
                               cfg: SortConfig, collate: (string, string) -> int)
    requires IsCollation(collate) && cfg.key in {"title", "image", "description", "category"}
    ensures var r := FilteredAndSorted(products, searchTerm, filters, cfg, collate);
            forall i, j :: 0 <= i < j < |r| ==>
              var x := StringField(r[i], cfg.key).value;
              var y := StringField(r[j], cfg.key).value;
              if cfg.direction == Asc then collate(x, y) <= 0 else collate(y, x) <= 0
  {
    var r := FilteredAndSorted(products, searchTerm, filters, cfg, collate);
    OrderIsStrictWeak(cfg, collate);
    Seqs.SortSorts(Seqs.Filter(p => Keeps(searchTerm, filters, p), products), Order(cfg, collate));
    assert forall i, j :: 0 <= i < j < |r| ==> !Precedes(cfg, collate, r[j], r[i]);
  }

  /** A column that is neither price nor a string compares equal throughout: the filter order stays. */
  lemma NonStringKeyKeepsOrder(products: seq<Product>, searchTerm: string, filters: Filters,
                               cfg: SortConfig, collate: (string, string) -> int)
    requires cfg.key !in {"price", "title", "image", "description", "category"}
    ensures FilteredAndSorted(products, searchTerm, filters, cfg, collate)
         == Seqs.Filter(p => Keeps(searchTerm, filters, p), products)
  {
    Seqs.SortOfSorted(Seqs.Filter(p => Keeps(searchTerm, filters, p), products), Order(cfg, collate));
  }

  /** `handleSort(key)`. */
  function NextSortConfig(cfg: SortConfig, key: string): (r: SortConfig)
    ensures r.key == key
    ensures r.direction == Desc <==> cfg.key == key && cfg.direction == Asc
  {
    if cfg.key == key && cfg.direction == Asc then SortConfig(key, Desc) else SortConfig(key, Asc)
  }

  /** Once a column is clicked, each further click on it flips the direction. */
  lemma {:induction false} SortToggleAlternates(cfg: SortConfig, key: string)
    ensures NextSortConfig(NextSortConfig(cfg, key), key).key == key
    ensures NextSortConfig(NextSortConfig(cfg, key), key).direction != NextSortConfig(cfg, key).direction
  {
  }

  /** The product list after deleting `productId`: `product.id.toString() !== productId`. */
  function WithoutProduct(products: seq<Product>, productId: string): seq<Product> {
    Seqs.Filter((p: Product) => ToDecimal(p.id) != productId, products)
  }

  /** Deleting a product's id removes exactly the products with that id, keeping the rest in order. */
  lemma DeleteRemovesExactlyThatId(products: seq<Product>, id: int, p: Product)
    ensures var r := WithoutProduct(products, ToDecimal(id));
            && (p in r <==> p in products && p.id != id)
            && Seqs.IsSubsequence(r, products)
  {
    Seqs.FilterIsSubsequence((p: Product) => ToDecimal(p.id) != ToDecimal(id), products);
    if ToDecimal(p.id) == ToDecimal(id) {
      ToDecimalInjective(p.id, id);
    }
  }

  /** `data.length === pageSize`. */
  predicate HasMore(count: int, pageSize: int) {
    count == pageSize
  }

  lemma NextOffset(page: int, pageSize: int)
    requires page > 0 && pageSize > 0
    ensures Offset(page + 1, pageSize) == Offset(page, pageSize) + pageSize
  {
  }

  /** A page shorter than pageSize reports no more pages, and indeed the next page is empty. */
  lemma ShortPageIsLast(table: seq<Product>, category: Option<string>, page: int, pageSize: int)
    requires page > 0 && pageSize > 0
    requires |FindAll(table, category, Num(page), Num(pageSize)).value| < pageSize
    ensures !HasMore(|FindAll(table, category, Num(page), Num(pageSize)).value|, pageSize)
    ensures FindAll(table, category, Num(page + 1), Num(pageSize)) == Returned([])
  {
    FindAllIsPageOfListing(table, category, page, pageSize);
    FindAllIsPageOfListing(table, category, page + 1, pageSize);
    NextOffset(page, pageSize);
  }

  /**
   * When the listing ends exactly at the end of a page, that page still
   * reports more pages although the next one is empty.
   */
  lemma ExactMultipleReportsMore(table: seq<Product>, category: Option<string>, page: int, pageSize: int)
    requires page > 0 && pageSize > 0
    requires |CategoryListing(table, CategoryFilter(category))| == Offset(page, pageSize) + pageSize
    ensures HasMore(|FindAll(table, category, Num(page), Num(pageSize)).value|, pageSize)
    ensures FindAll(table, category, Num(page + 1), Num(pageSize)) == Returned([])
  {
    FindAllIsPageOfListing(table, category, page, pageSize);
    FindAllIsPageOfListing(table, category, page + 1, pageSize);
    NextOffset(page, pageSize);
  }

  /** The "previous" button: `Math.max(1, prev - 1)`. */
  function PreviousPageNumber(page: int): (r: int)
    ensures r >= 1
    ensures page > 1 ==> r == page - 1
    ensures page <= 1 ==> r == 1
  {
    if page - 1 >= 1 then page - 1 else 1
  }

  /** The page's state. */
  class AdminProductsView {
    var products: seq<Product>
    var page: int
    var pageSize: int
    var hasMoreItems: bool
    var searchTerm: string
    var filters: Filters
    var sortConfig: SortConfig
    var showFilters: bool

    ghost predicate Valid()
      reads this
    {
      page >= 1
    }

    constructor ()
      ensures Valid()
      ensures products == [] && page == 1 && pageSize == InitialPageSize && hasMoreItems
      ensures searchTerm == "" && filters == InitialFilters && sortConfig == InitialSort && !showFilters
    {
      products := [];
      page := 1;
      pageSize := InitialPageSize;
      hasMoreItems := true;
      searchTerm := "";
      filters := InitialFilters;
      sortConfig := InitialSort;
      showFilters := false;
    }

    /** The rows the table shows. */
    function Visible(collate: (string, string) -> int): seq<Product>
      reads this
    {
      FilteredAndSorted(products, searchTerm, filters, sortConfig, collate)
    }

    /** A fetched page arrives: it replaces the list and decides whether "next" is enabled. */
    method PageLoaded(data: seq<Product>)
      modifies this
      ensures products == data && hasMoreItems == HasMore(|data|, pageSize)
      ensures page == old(page) && pageSize == old(pageSize) && searchTerm == old(searchTerm)
      ensures filters == old(filters) && sortConfig == old(sortConfig) && showFilters == old(showFilters)
    {
      products := data;
      hasMoreItems := HasMore(|data|, pageSize);
    }

    /** `handleSort(key)`. */
    method HandleSort(key: string)
      modifies this
      ensures sortConfig == NextSortConfig(old(sortConfig), key)
      ensures products == old(products) && page == old(page) && pageSize == old(pageSize)
      ensures hasMoreItems == old(hasMoreItems) && searchTerm == old(searchTerm)
      ensures filters == old(filters) && showFilters == old(showFilters)
    {
      sortConfig := NextSortConfig(sortConfig, key);
    }

    /** `resetFilters()`: empties the column filters and hides them; the search term stays. */
    method ResetFilters()
      modifies this
      ensures filters == InitialFilters && !showFilters
      ensures products == old(products) && page == old(page) && pageSize == old(pageSize)
      ensures hasMoreItems == old(hasMoreItems) && searchTerm == old(searchTerm) && sortConfig == old(sortConfig)
    {
      filters := InitialFilters;
      showFilters := false;
    }

    /** A successful delete of `productId` (the id's decimal text). */
    method ProductDeleted(productId: string)
      modifies this
      ensures products == WithoutProduct(old(products), productId)
      ensures page == old(page) && pageSize == old(pageSize) && hasMoreItems == old(hasMoreItems)
      ensures searchTerm == old(searchTerm) && filters == old(filters)
      ensures sortConfig == old(sortConfig) && showFilters == old(showFilters)
    {
      products := WithoutProduct(products, productId);
    }

    /** The "previous" button; never goes below page 1. */
    method PreviousPage()
      requires Valid()
      modifies this
      ensures Valid()
      ensures page == PreviousPageNumber(old(page))
      ensures products == old(products) && pageSize == old(pageSize) && hasMoreItems == old(hasMoreItems)
      ensures searchTerm == old(searchTerm) && filters == old(filters)
      ensures sortConfig == old(sortConfig) && showFilters == old(showFilters)
    {
      page := PreviousPageNumber(page);
    }

    /** The "next" button, which is disabled unless more pages were reported. */
    method NextPage()
      requires Valid()
      modifies this
      ensures Valid()
      ensures page == if old(hasMoreItems) then old(page) + 1 else old(page)
      ensures products == old(products) && pageSize == old(pageSize) && hasMoreItems == old(hasMoreItems)
      ensures searchTerm == old(searchTerm) && filters == old(filters)
      ensures sortConfig == old(sortConfig) && showFilters == old(showFilters)
    {
      if hasMoreItems {
        page := page + 1;
      }
    }
  }
}
