/**
 * The `/cart` handlers (cart.controller.ts). Each takes the signed-in user
 * id (`req.auth?.userId`) and the service call it makes; it reaches the
 * service only with a user id, always passing that id.
 */
module CartController {
  import opened Wrappers
  import opened Http
  import opened Cart

  /** `GET /cart`: 401 without a user (the HttpException is re-thrown), else the user's lines. */
  function GetCart(userId: Option<string>, getCart: string -> Outcome<set<CartLine>>): (r: Response<set<CartLine>>)
    ensures !Truthy(userId) ==> r == Error(UNAUTHORIZED)
    ensures Truthy(userId) && getCart(userId.value).Returned? ==> r == Success(OK, getCart(userId.value).value)
    ensures Truthy(userId) && getCart(userId.value) == Threw(OtherError) ==> r == Error(INTERNAL_SERVER_ERROR)
  {
    if !Truthy(userId) then Error(UNAUTHORIZED) else Rethrowing(getCart(userId.value), OK)
  }

  /**
   * `POST /cart`: the body's userId is replaced by the signed-in one; every
   * failure, the missing user included, is answered with 500.
   */
  function AddToCart(userId: Option<string>, dto: CartItemDto, addToCart: CartItemDto -> Outcome<CartLine>)
    : (r: Response<CartLine>)
    ensures !Truthy(userId) ==> r == Error(INTERNAL_SERVER_ERROR)
    ensures Truthy(userId) && addToCart(dto.(userId := userId.value)).Returned? ==>
              r == Success(CREATED, addToCart(dto.(userId := userId.value)).value)
    ensures Truthy(userId) && addToCart(dto.(userId := userId.value)).Threw? ==> r == Error(INTERNAL_SERVER_ERROR)
  {
    if !Truthy(userId) then Error(INTERNAL_SERVER_ERROR)
    else Flattening(addToCart(dto.(userId := userId.value)), CREATED)
  }

  /** Whatever userId the body carries, the handler answers the same. */
  lemma AddToCartIgnoresBodyUser(userId: Option<string>, dto: CartItemDto, forged: string,
                                 addToCart: CartItemDto -> Outcome<CartLine>)
    ensures AddToCart(userId, dto.(userId := forged), addToCart) == AddToCart(userId, dto, addToCart)
  {
    assert dto.(userId := forged).(userId := userId.GetOr("")) == dto.(userId := userId.GetOr(""));
  }

  /** `PATCH /cart/:productId` with `{ quantity }`. */
  function UpdateCartItemQuantity(userId: Option<string>, productId: int, quantity: int,
                                  update: (string, int, int) -> Outcome<CartLine>): (r: Response<CartLine>)
    ensures !Truthy(userId) ==> r == Error(UNAUTHORIZED)
    ensures Truthy(userId) && update(userId.value, productId, quantity).Returned? ==>
              r == Success(OK, update(userId.value, productId, quantity).value)
    ensures Truthy(userId) && update(userId.value, productId, quantity) == Threw(OtherError) ==>
              r == Error(INTERNAL_SERVER_ERROR)
  {
    if !Truthy(userId) then Error(UNAUTHORIZED)
    else Rethrowing(update(userId.value, productId, quantity), OK)
  }

  /** `DELETE /cart/:productId`. */
  function RemoveFromCart(userId: Option<string>, productId: int, remove: (string, int) -> Outcome<CartLine>)
    : (r: Response<CartLine>)
    ensures !Truthy(userId) ==> r == Error(UNAUTHORIZED)
    ensures Truthy(userId) && remove(userId.value, productId).Returned? ==>
              r == Success(OK, remove(userId.value, productId).value)
    ensures Truthy(userId) && remove(userId.value, productId) == Threw(OtherError) ==>
              r == Error(INTERNAL_SERVER_ERROR)
  {
    if !Truthy(userId) then Error(UNAUTHORIZED)
    else Rethrowing(remove(userId.value, productId), OK)
  }

  /** `DELETE /cart`: the count of deleted lines. */
  function ClearCart(userId: Option<string>, clear: string -> Outcome<nat>): (r: Response<nat>)
    ensures !Truthy(userId) ==> r == Error(UNAUTHORIZED)
    ensures Truthy(userId) && clear(userId.value).Returned? ==> r == Success(OK, clear(userId.value).value)
    ensures Truthy(userId) && clear(userId.value) == Threw(OtherError) ==> r == Error(INTERNAL_SERVER_ERROR)
  {
    if !Truthy(userId) then Error(UNAUTHORIZED) else Rethrowing(clear(userId.value), OK)
  }

  /**
   * The missing user is a 401 for every cart handler except the add, where
   * the catch-all turns it into a 500.
   */
  lemma MissingUserStatuses(dto: CartItemDto, productId: int, quantity: int,
                            getCart: string -> Outcome<set<CartLine>>,
                            addToCart: CartItemDto -> Outcome<CartLine>,
                            update: (string, int, int) -> Outcome<CartLine>,
                            remove: (string, int) -> Outcome<CartLine>,
                            clear: string -> Outcome<nat>)
    ensures GetCart(None, getCart).status == UNAUTHORIZED
    ensures AddToCart(None, dto, addToCart).status == INTERNAL_SERVER_ERROR
    ensures UpdateCartItemQuantity(None, productId, quantity, update).status == UNAUTHORIZED
    ensures RemoveFromCart(None, productId, remove).status == UNAUTHORIZED
    ensures ClearCart(None, clear).status == UNAUTHORIZED
  {
  }
}
