/**
 * The product table and the backend catalog service (products.service.ts):
 * the paged listing, the search, the lookup by id and product creation.
 * The table is the sequence of rows in primary-key order; ids are handed out
 * by an auto-increment counter, so that order is ascending id.
 * Prices are whole cents.
 */
module Catalog {
  import opened Wrappers
  import opened Text
  import opened Numbers
  import opened Http
  import Seqs

  /** The nine values of the `Category` enum. */
  datatype Category = ANIME | COMICS | GAMING | MERCHANDISE | COLLECTIBLES | BOARD_GAMES | MANGA | MOVIES | COSPLAY

  function CategoryName(c: Category): string {
    match c
    case ANIME => "ANIME"
    case COMICS => "COMICS"
    case GAMING => "GAMING"
    case MERCHANDISE => "MERCHANDISE"
    case COLLECTIBLES => "COLLECTIBLES"
    case BOARD_GAMES => "BOARD_GAMES"
    case MANGA => "MANGA"
    case MOVIES => "MOVIES"
    case COSPLAY => "COSPLAY"
  }

  /** `Object.values(Category).includes(s)`: the member whose name is exactly `s`. */
  function ParseCategory(s: string): (r: Option<Category>)
    ensures forall c :: r == Some(c) <==> CategoryName(c) == s
  {
    if s == "ANIME" then Some(ANIME)
    else if s == "COMICS" then Some(COMICS)
    else if s == "GAMING" then Some(GAMING)
    else if s == "MERCHANDISE" then Some(MERCHANDISE)
    else if s == "COLLECTIBLES" then Some(COLLECTIBLES)
    else if s == "BOARD_GAMES" then Some(BOARD_GAMES)
    else if s == "MANGA" then Some(MANGA)
    else if s == "MOVIES" then Some(MOVIES)
    else if s == "COSPLAY" then Some(COSPLAY)
    else None
  }

  /** The free-form `metadata` JSON object, as its top-level attributes. */
  datatype Metadata = Metadata(attributes: map<string, string>)

  /** The JSON object `{}`. */
  const EmptyMetadata := Metadata(map[])

  datatype Product = Product(
    id: int,
    title: string,
    price: int,
    image: string,
    category: Category,
    description: string,
    metadata: Metadata)

  /** The columns of a row to insert; the id comes from the table. */
  datatype NewProduct = NewProduct(
    title: string,
    price: int,
    image: string,
    category: Category,
    description: string,
    metadata: Metadata)

  /** The validated body of `POST /products`; `metadata` is optional. */
  datatype ProductDto = ProductDto(
    title: string,
    price: int,
    image: string,
    category: Category,
    description: string,
    metadata: Option<Metadata>)

  /** Primary-key order: ids strictly ascending, hence unique. */
  ghost predicate KeyOrdered(table: seq<Product>) {
    forall i, j :: 0 <= i < j < |table| ==> table[i].id < table[j].id
  }

  ghost predicate IdsDescending(s: seq<Product>) {
    forall i, j :: 0 <= i < j < |s| ==> s[i].id > s[j].id
  }

  /** The category filter a query gets: a member only when the value names one, else none. */
  function CategoryFilter(category: Option<string>): (f: Option<Category>)
    ensures f.Some? <==> category.Some? && ParseCategory(category.value).Some?
    ensures f.Some? ==> CategoryName(f.value) == category.value
  {
    if Truthy(category) then ParseCategory(category.value) else None
  }

  predicate InCategory(filter: Option<Category>, p: Product) {
    filter.None? || p.category == filter.value
  }

  /** The rows a filter selects, in `orderBy: { id: 'desc' }` order. */
  function Listing(table: seq<Product>, keep: Product -> bool): (r: seq<Product>)
    ensures forall i :: 0 <= i < |r| ==> r[i] in table && keep(r[i])
    ensures forall i :: 0 <= i < |table| && keep(table[i]) ==> table[i] in r
    ensures KeyOrdered(table) ==> IdsDescending(r)
  {
    var desc := Seqs.Reverse(table);
    assert forall i :: 0 <= i < |desc| ==> desc[i] in table;
    assert forall i :: 0 <= i < |table| ==> table[i] == desc[|table| - 1 - i];
    assert KeyOrdered(table) ==> IdsDescending(Seqs.Filter(keep, desc)) by {
      if KeyOrdered(table) {
        assert Seqs.Pairwise(desc, (a: Product, b: Product) => a.id > b.id);
        Seqs.FilterPairwise(keep, desc, (a: Product, b: Product) => a.id > b.id);
      }
    }
    Seqs.Filter(keep, desc)
  }

  /** Every row of a category (all rows for no category), id-descending. */
  function CategoryListing(table: seq<Product>, filter: Option<Category>): seq<Product> {
    Listing(table, p => InCategory(filter, p))
  }

  /**
   * `findAll(category, page, pageSize)`: a non-positive page or pageSize
   * throws; otherwise the rows of the valid category (all rows when the
   * category is missing or not a member) in id-descending order, skipping
   * `(page - 1) * pageSize` and taking `pageSize`. NaN passes the service's
   * check but is rejected by the ORM as `skip`/`take`.
   */
  function FindAll(table: seq<Product>, category: Option<string>, page: JsNumber, pageSize: JsNumber): Outcome<seq<Product>> {
    var filter := CategoryFilter(category);
    if AtMostZero(page) || AtMostZero(pageSize) then Threw(OtherError)
    else if page.NaN? || pageSize.NaN? then Threw(OtherError)
    else
      Returned(Seqs.Window(CategoryListing(table, filter), Offset(page.n, pageSize.n), pageSize.n))
  }

  /** The listing fails exactly when page or pageSize is not a positive integer. */
  lemma FindAllFailsIffBadPage(table: seq<Product>, category: Option<string>, page: JsNumber, pageSize: JsNumber)
    ensures FindAll(table, category, page, pageSize).Threw?
        <==> !(page.Num? && page.n > 0 && pageSize.Num? && pageSize.n > 0)
    ensures FindAll(table, category, page, pageSize).Threw? ==>
              FindAll(table, category, page, pageSize).failure == OtherError
  {
  }

  /** The number of rows before a page: `skip: (page - 1) * pageSize`. */
  function Offset(page: int, pageSize: int): (skip: int)
    requires page > 0 && pageSize > 0
    ensures skip >= 0
  {
    (page - 1) * pageSize
  }

  /**
   * A page holds pageSize rows, or what remains of the listing after the
   * skipped rows when that is fewer (none past the end); its i-th row is row
   * `(page - 1) * pageSize + i` of the id-descending listing of the
   * category; every row is of that category; ids descend.
   */
  lemma FindAllIsPageOfListing(table: seq<Product>, category: Option<string>, page: int, pageSize: int)
    requires page > 0 && pageSize > 0
    ensures var r := FindAll(table, category, Num(page), Num(pageSize));
            var all := CategoryListing(table, CategoryFilter(category));
            && r.Returned?
            && |r.value| == Seqs.Min(pageSize, if Offset(page, pageSize) <= |all| then |all| - Offset(page, pageSize) else 0)
            && (forall i :: 0 <= i < |r.value| ==> r.value[i] == all[Offset(page, pageSize) + i])
            && (forall i :: 0 <= i < |r.value| ==> r.value[i] in table && InCategory(CategoryFilter(category), r.value[i]))
            && (KeyOrdered(table) ==> IdsDescending(r.value))
  {
    var all := CategoryListing(table, CategoryFilter(category));
    var skip := Offset(page, pageSize);
    var w := Seqs.Window(all, skip, pageSize);
    assert FindAll(table, category, Num(page), Num(pageSize)) == Returned(w);
    WindowOfListing(all, skip, pageSize, table, CategoryFilter(category));
  }

  lemma WindowOfListing(all: seq<Product>, skip: nat, take: nat, table: seq<Product>, filter: Option<Category>)
    requires all == CategoryListing(table, filter)
    ensures var w := Seqs.Window(all, skip, take);
            && |w| == Seqs.Min(take, if skip <= |all| then |all| - skip else 0)
            && (forall i :: 0 <= i < |w| ==> w[i] in table && InCategory(filter, w[i]))
            && (KeyOrdered(table) ==> IdsDescending(w))
  {
    var w := Seqs.Window(all, skip, take);
    forall i | 0 <= i < |w| ensures w[i] in table && InCategory(filter, w[i]) {
      assert w[i] == all[skip + i];
    }
    if KeyOrdered(table) {
      forall i, j | 0 <= i < j < |w| ensures w[i].id > w[j].id {
        assert w[i] == all[skip + i] && w[j] == all[skip + j];
      }
    }
  }

  /** A category that is not an enum member is ignored: the same page as with no category. */
  lemma UnknownCategoryIgnored(table: seq<Product>, category: string, page: JsNumber, pageSize: JsNumber)
    requires ParseCategory(category).None?
    ensures FindAll(table, Some(category), page, pageSize) == FindAll(table, None, page, pageSize)
  {
  }

  /** With a member's name, every row of the page is of that category. */
  lemma KnownCategoryRestricts(table: seq<Product>, c: Category, page: int, pageSize: int)
    requires page > 0 && pageSize > 0
    ensures var r := FindAll(table, Some(CategoryName(c)), Num(page), Num(pageSize));
            r.Returned? && forall i :: 0 <= i < |r.value| ==> r.value[i].category == c
  {
    FindAllIsPageOfListing(table, Some(CategoryName(c)), page, pageSize);
  }

  /** The search matches the query, case-insensitively, in the title or the description. */
  predicate MatchesQuery(query: string, p: Product) {
    ContainsIgnoringCase(p.title, query) || ContainsIgnoringCase(p.description, query)
  }

  /** `search(query, category)`: every match of the valid category, id-descending, not paged. */
  function Search(table: seq<Product>, query: string, category: Option<string>): seq<Product> {
    var filter := CategoryFilter(category);
    Listing(table, p => MatchesQuery(query, p) && InCategory(filter, p))
  }

  /**
   * A product is found exactly when the lower-cased query occurs in its
   * lower-cased title or description and it is of the valid category;
   * results are in id-descending order.
   */
  lemma SearchFindsExactlyMatches(table: seq<Product>, query: string, category: Option<string>, p: Product)
    ensures p in Search(table, query, category) <==>
              && p in table
              && (IsSubstring(Lower(query), Lower(p.title)) || IsSubstring(Lower(query), Lower(p.description)))
              && InCategory(CategoryFilter(category), p)
    ensures KeyOrdered(table) ==> IdsDescending(Search(table, query, category))
  {
    ContainsIsSubstring(Lower(p.title), Lower(query));
    ContainsIsSubstring(Lower(p.description), Lower(query));
    var r := Search(table, query, category);
    if p in r {
      var i :| 0 <= i < |r| && r[i] == p;
    }
    if p in table {
      var i :| 0 <= i < |table| && table[i] == p;
    }
  }

  /** `findOne(id)`: the row with that id, or nothing. */
  function FindOne(table: seq<Product>, id: int): (r: Option<Product>)
    ensures r.Some? ==> r.value in table && r.value.id == id
    ensures r.None? <==> forall i :: 0 <= i < |table| ==> table[i].id != id
  {
    if table == [] then None
    else if table[0].id == id then Some(table[0])
    else FindOne(table[1..], id)
  }

  /** `{ ...dto, metadata: dto.metadata || {} }`: what the service's `create` inserts. */
  function WithDefaultMetadata(dto: ProductDto): (row: NewProduct)
    ensures dto.metadata.None? ==> row.metadata == EmptyMetadata
    ensures dto.metadata.Some? ==> row.metadata == dto.metadata.value
    ensures row.title == dto.title && row.price == dto.price && row.image == dto.image
    ensures row.category == dto.category && row.description == dto.description
  {
    NewProduct(dto.title, dto.price, dto.image, dto.category, dto.description, dto.metadata.GetOr(EmptyMetadata))
  }

  /** The product table, written in place by `product.create`. */
  class ProductRepository {
    var rows: seq<Product>
    /** The next value of the auto-increment id sequence. */
    var nextId: int

    ghost predicate Valid()
      reads this
    {
      KeyOrdered(rows) && forall i :: 0 <= i < |rows| ==> rows[i].id < nextId
    }

    constructor ()
      ensures Valid() && rows == [] && nextId == 1
    {
      rows := [];
      nextId := 1;
    }

    /** Inserts one row under a fresh id larger than every existing one, and returns it. */
    method Create(row: NewProduct) returns (p: Product)
      requires Valid()
      modifies this
      ensures Valid()
      ensures p == Product(old(nextId), row.title, row.price, row.image, row.category, row.description, row.metadata)
      ensures forall i :: 0 <= i < |old(rows)| ==> old(rows)[i].id < p.id
      ensures rows == old(rows) + [p] && nextId == old(nextId) + 1
    {
      p := Product(nextId, row.title, row.price, row.image, row.category, row.description, row.metadata);
      rows := rows + [p];
      nextId := nextId + 1;
    }
  }

  /** The service's `create(dto)`: inserts the dto with `{}` for missing metadata. */
  method CreateProduct(repo: ProductRepository, dto: ProductDto) returns (p: Product)
    requires repo.Valid()
    modifies repo
    ensures repo.Valid()
    ensures p.title == dto.title && p.price == dto.price && p.image == dto.image
    ensures p.category == dto.category && p.description == dto.description
    ensures p.metadata == dto.metadata.GetOr(EmptyMetadata)
    ensures p.id == old(repo.nextId)
    ensures repo.rows == old(repo.rows) + [p]
  {
    p := repo.Create(WithDefaultMetadata(dto));
  }
}
