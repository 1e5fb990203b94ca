/**
 * The `/products` handlers (products.controller.ts): query-parameter
 * defaults and checks, category upper-casing, and the mapping of failures to
 * status codes. Each handler receives the service call it makes as a function.
 */
module ProductsController {
  import opened Wrappers
  import opened Text
  import opened Numbers
  import opened Http
  import Catalog

  /** `param ? parseInt(param, 10) : default`. */
  function NumberParam(param: Option<string>, default: int): (n: JsNumber)
    ensures !Truthy(param) ==> n == Num(default)
  {
    if Truthy(param) then ParseInt(param.value) else Num(default)
  }

  /** `category?.toUpperCase()`. */
  function UpperCased(category: Option<string>): (r: Option<string>)
    ensures r.None? <==> category.None?
    ensures r.Some? ==> r.value == Upper(category.value)
  {
    match category
    case None => None
    case Some(c) => Some(Upper(c))
  }

  /** `productsService.findAll(category, page, pageSize)`. */
  type ListingCall = (Option<string>, JsNumber, JsNumber) -> Outcome<seq<Catalog.Product>>

  /** `productsService.search(query, category)`. */
  type SearchCall = (string, Option<string>) -> Outcome<seq<Catalog.Product>>

  /** `POST /products`: 201 with the created product; any failure is a 500. */
  function Create(dto: Catalog.ProductDto, create: Catalog.ProductDto -> Outcome<Catalog.Product>)
    : (r: Response<Catalog.Product>)
    ensures create(dto).Returned? ==> r == Success(CREATED, create(dto).value)
    ensures create(dto).Threw? ==> r == Error(INTERNAL_SERVER_ERROR)
  {
    Flattening(create(dto), CREATED)
  }

  /** `GET /products?category&page&pageSize`. */
  function FindAll(category: Option<string>, page: Option<string>, pageSize: Option<string>, findAll: ListingCall)
    : (r: Response<seq<Catalog.Product>>)
    ensures var pageNum := NumberParam(page, 1);
            var pageSizeNum := NumberParam(pageSize, 10);
            var call := findAll(UpperCased(category), pageNum, pageSizeNum);
            && (AtMostZero(pageNum) || AtMostZero(pageSizeNum) ==> r == Error(BAD_REQUEST))
            && (!AtMostZero(pageNum) && !AtMostZero(pageSizeNum) && call.Returned? ==> r == Success(OK, call.value))
            && (!AtMostZero(pageNum) && !AtMostZero(pageSizeNum) && call == Threw(OtherError) ==>
                  r == Error(INTERNAL_SERVER_ERROR))
  {
    var pageNum := NumberParam(page, 1);
    var pageSizeNum := NumberParam(pageSize, 10);
    if AtMostZero(pageNum) || AtMostZero(pageSizeNum) then Error(BAD_REQUEST)
    else Rethrowing(findAll(UpperCased(category), pageNum, pageSizeNum), OK)
  }

  /** Missing or empty page and pageSize mean page 1 of 10 rows. */
  lemma FindAllDefaults(category: Option<string>, findAll: ListingCall)
    ensures FindAll(category, None, Some(""), findAll)
         == Rethrowing(findAll(UpperCased(category), Num(1), Num(10)), OK)
    ensures FindAll(category, None, None, findAll) == FindAll(category, Some(""), None, findAll)
  {
  }

  /** A page or pageSize that parses to zero or less is a 400, and the service is not reached. */
  lemma NonPositivePageIsBadRequest(category: Option<string>, n: int, other: Option<string>, findAll: ListingCall)
    requires n <= 0
    ensures FindAll(category, Some(ToDecimal(n)), other, findAll) == Error(BAD_REQUEST)
    ensures FindAll(category, other, Some(ToDecimal(n)), findAll) == Error(BAD_REQUEST)
  {
    ParseIntOfDecimal(n);
  }

  /** Positive page and pageSize reach the service as numbers, with the category upper-cased. */
  lemma PositivePageReachesService(category: Option<string>, page: int, pageSize: int, findAll: ListingCall)
    requires page > 0 && pageSize > 0
    ensures FindAll(category, Some(ToDecimal(page)), Some(ToDecimal(pageSize)), findAll)
         == Rethrowing(findAll(UpperCased(category), Num(page), Num(pageSize)), OK)
  {
    ParseIntOfDecimal(page);
    ParseIntOfDecimal(pageSize);
  }

  /**
   * Over the catalog service: `?category=gaming` lists GAMING products only,
   * at most 10 of them.
   */
  lemma LowerCaseCategoryFilters(table: seq<Catalog.Product>)
    ensures var r := FindAll(Some("gaming"), None, None, (c, p, s) => Catalog.FindAll(table, c, p, s));
            && r.Success?
            && |r.body| <= 10
            && forall i :: 0 <= i < |r.body| ==> r.body[i].category == Catalog.GAMING
  {
    assert Upper("gaming") == "GAMING";
    Catalog.KnownCategoryRestricts(table, Catalog.GAMING, 1, 10);
    Catalog.FindAllIsPageOfListing(table, Some("GAMING"), 1, 10);
  }

  /**
   * Over the catalog service: a page that is not a number (`?page=abc`)
   * passes both `<= 0` checks as NaN and ends as a 500, not a 400.
   */
  lemma UnparsablePageIsServerError(table: seq<Catalog.Product>, category: Option<string>)
    ensures FindAll(category, Some("abc"), None, (c, p, s) => Catalog.FindAll(table, c, p, s))
         == Error(INTERNAL_SERVER_ERROR)
  {
    assert TrimStart("abc") == "abc";
    assert DigitRun("abc") == 0;
  }

  /** `GET /products/search?q&category`. */
  function Search(query: Option<string>, category: Option<string>, search: SearchCall)
    : (r: Response<seq<Catalog.Product>>)
    ensures !Truthy(query) ==> r == Error(BAD_REQUEST)
    ensures Truthy(query) && search(query.value, UpperCased(category)).Returned? ==>
              r == Success(OK, search(query.value, UpperCased(category)).value)
    ensures Truthy(query) && search(query.value, UpperCased(category)) == Threw(OtherError) ==>
              r == Error(INTERNAL_SERVER_ERROR)
  {
    if !Truthy(query) then Error(BAD_REQUEST)
    else Rethrowing(search(query.value, UpperCased(category)), OK)
  }

  /** `GET /products/:id`: 404 when the service finds nothing. */
  function FindOne(id: int, findOne: int -> Outcome<Option<Catalog.Product>>): (r: Response<Catalog.Product>)
    ensures findOne(id) == Returned(None) ==> r == Error(NOT_FOUND)
    ensures findOne(id).Returned? && findOne(id).value.Some? ==> r == Success(OK, findOne(id).value.value)
    ensures findOne(id) == Threw(OtherError) ==> r == Error(INTERNAL_SERVER_ERROR)
  {
    match findOne(id)
    case Returned(None) => Error(NOT_FOUND)
    case Returned(Some(p)) => Success(OK, p)
    case Threw(f) => Rethrowing(Threw(f), OK)
  }

  /** Over the catalog service: an id no row has is a 404. */
  lemma AbsentIdIsNotFound(table: seq<Catalog.Product>, id: int)
    requires forall i :: 0 <= i < |table| ==> table[i].id != id
    ensures FindOne(id, k => Returned(Catalog.FindOne(table, k))) == Error(NOT_FOUND)
  {
  }
}
