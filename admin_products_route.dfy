/**
 * `POST /api/admin/products` (frontend/src/app/api/admin/products/route.ts):
 * a falsy-field guard, then one insert into the product table.
 */
module AdminProductsRoute {
  import opened Wrappers
  import opened Http
  import opened Catalog

  /**
   * The JSON body's fields; None is a field that is absent or null. The
   * price is the number `parseFloat` reads, in cents. The category is sent as
   * a string and handed to the insert unchecked.
   */
  datatype Body = Body(
    title: Option<string>,
    description: Option<string>,
    price: Option<int>,
    category: Option<string>,
    image: Option<string>,
    metadata: Option<Metadata>)

  /** `title && description && price && category && image`: a price of 0 is falsy. */
  predicate AllFieldsTruthy(b: Body) {
    && Truthy(b.title)
    && Truthy(b.description)
    && b.price.Some? && b.price.value != 0
    && Truthy(b.category)
    && Truthy(b.image)
  }

  /** What the handler does with a request: answer with a status, or insert this row. */
  datatype Decision = Answer(status: int) | Insert(row: NewProduct)

  /**
   * An unreadable body makes `req.json()` throw (500); a falsy field is a 400;
   * a category outside the enum makes the insert throw (500); otherwise the
   * row is the body's fields with `metadata || {}`.
   */
  function Decide(body: Option<Body>): (d: Decision)
    ensures body.None? ==> d == Answer(INTERNAL_SERVER_ERROR)
    ensures body.Some? && !AllFieldsTruthy(body.value) ==> d == Answer(BAD_REQUEST)
    ensures d.Insert? <==> body.Some? && AllFieldsTruthy(body.value) && ParseCategory(body.value.category.value).Some?
    ensures d.Insert? ==>
              var b := body.value;
              && d.row.title == b.title.value
              && d.row.description == b.description.value
              && d.row.price == b.price.value
              && CategoryName(d.row.category) == b.category.value
              && d.row.image == b.image.value
              && d.row.metadata == b.metadata.GetOr(EmptyMetadata)
    ensures d.Answer? ==> d.status == BAD_REQUEST || d.status == INTERNAL_SERVER_ERROR
  {
    match body
    case None => Answer(INTERNAL_SERVER_ERROR)
    case Some(b) =>
      if !AllFieldsTruthy(b) then Answer(BAD_REQUEST)
      else match ParseCategory(b.category.value)
        case None => Answer(INTERNAL_SERVER_ERROR)
        case Some(c) =>
          Insert(NewProduct(b.title.value, b.price.value, b.image.value, c, b.description.value,
                            b.metadata.GetOr(EmptyMetadata)))
  }

  /** A price of zero is rejected whatever the other fields hold. */
  lemma ZeroPriceRejected(b: Body)
    requires b.price == Some(0)
    ensures Decide(Some(b)) == Answer(BAD_REQUEST)
  {
  }

  /** The handler: 201 with the created product, or the error status with nothing written. */
  method Post(repo: ProductRepository, body: Option<Body>) returns (r: Response<Product>)
    requires repo.Valid()
    modifies repo
    ensures repo.Valid()
    ensures Decide(body).Answer? ==> r == Error(Decide(body).status) && repo.rows == old(repo.rows)
    ensures Decide(body).Insert? ==>
              && r.Success? && r.status == CREATED
              && r.body.id == old(repo.nextId)
              && repo.rows == old(repo.rows) + [r.body]
    ensures Decide(body).Insert? ==>
              var row := Decide(body).row;
              r.body == Product(old(repo.nextId), row.title, row.price, row.image, row.category,
                                row.description, row.metadata)
  {
    match Decide(body)
    case Answer(status) =>
      r := Error(status);
    case Insert(row) =>
      var p := repo.Create(row);
      r := Success(CREATED, p);
  }
}
