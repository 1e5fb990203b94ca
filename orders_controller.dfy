/**
 * The `/orders` handlers (orders.controller.ts). `create`, `findUserOrders`,
 * `getStats` and `remove` answer every failure with 500, a missing user
 * included; `findOne` and `updateStatus` let their own 401, 404 and 400
 * through.
 */
module OrdersController {
  import opened Wrappers
  import opened Http
  import opened Orders

  /** `POST /orders`: the body's userId is replaced by the signed-in one. */
  function Create(userId: Option<string>, dto: CreateOrderDto, create: CreateOrderDto -> Outcome<Order>)
    : (r: Response<Order>)
    ensures !Truthy(userId) ==> r == Error(INTERNAL_SERVER_ERROR)
    ensures Truthy(userId) && create(dto.(userId := userId.value)).Returned? ==>
              r == Success(CREATED, create(dto.(userId := userId.value)).value)
    ensures Truthy(userId) && create(dto.(userId := userId.value)).Threw? ==> r == Error(INTERNAL_SERVER_ERROR)
  {
    if !Truthy(userId) then Error(INTERNAL_SERVER_ERROR)
    else Flattening(create(dto.(userId := userId.value)), CREATED)
  }

  /** The order created through the handler belongs to the signed-in user, whatever the body says. */
  lemma CreatedOrderBelongsToCaller(userId: string, dto: CreateOrderDto, id: string, now: int)
    requires userId != ""
    ensures var r := Create(Some(userId), dto, d => Returned(NewOrder(d, id, now)));
            && r.Success? && r.status == CREATED
            && r.body.userId == userId
            && r.body.total == dto.total && r.body.status == dto.status
            && r.body.items == ItemsOf(id, dto.items)
            && forall i :: 0 <= i < |dto.items| ==>
                 r.body.items[i].title == dto.items[i].title && r.body.items[i].price == dto.items[i].price
                 && r.body.items[i].quantity == dto.items[i].quantity && r.body.items[i].image == Some(dto.items[i].image)
  {
  }

  /** `GET /orders`. */
  function FindUserOrders(userId: Option<string>, findByUser: string -> Outcome<seq<Order>>)
    : (r: Response<seq<Order>>)
    ensures !Truthy(userId) ==> r == Error(INTERNAL_SERVER_ERROR)
    ensures Truthy(userId) && findByUser(userId.value).Returned? ==> r == Success(OK, findByUser(userId.value).value)
    ensures Truthy(userId) && findByUser(userId.value).Threw? ==> r == Error(INTERNAL_SERVER_ERROR)
  {
    if !Truthy(userId) then Error(INTERNAL_SERVER_ERROR) else Flattening(findByUser(userId.value), OK)
  }

  /** `GET /orders/stats`: needs no signed-in user. */
  function GetStats(getStats: Outcome<OrderStats>): (r: Response<OrderStats>)
    ensures getStats.Returned? ==> r == Success(OK, getStats.value)
    ensures getStats.Threw? ==> r == Error(INTERNAL_SERVER_ERROR)
  {
    Flattening(getStats, OK)
  }

  /** `GET /orders/:id`. */
  function FindOne(userId: Option<string>, id: string, findOne: (string, string) -> Outcome<Option<Order>>)
    : (r: Response<Order>)
    ensures !Truthy(userId) ==> r == Error(UNAUTHORIZED)
    ensures Truthy(userId) && findOne(id, userId.value) == Returned(None) ==> r == Error(NOT_FOUND)
    ensures Truthy(userId) && findOne(id, userId.value).Returned? && findOne(id, userId.value).value.Some? ==>
              r == Success(OK, findOne(id, userId.value).value.value)
    ensures Truthy(userId) && findOne(id, userId.value) == Threw(OtherError) ==> r == Error(INTERNAL_SERVER_ERROR)
  {
    if !Truthy(userId) then Error(UNAUTHORIZED)
    else
      match findOne(id, userId.value)
      case Returned(None) => Error(NOT_FOUND)
      case Returned(Some(o)) => Success(OK, o)
      case Threw(f) => Rethrowing(Threw(f), OK)
  }

  /**
   * Against the order table, `GET /orders/:id` answers 200 with the order
   * for its owner and 404 for every other signed-in user.
   */
  lemma FindOneAgainstTable(orders: seq<Order>, k: nat, userId: string)
    requires UniqueIds(orders) && k < |orders| && userId != ""
    ensures var r := FindOne(Some(userId), orders[k].id, (i, u) => Returned(FindOwned(orders, i, u)));
            if orders[k].userId == userId then r == Success(OK, orders[k]) else r == Error(NOT_FOUND)
  {
    FindOwnedOfStoredOrder(orders, k, userId);
  }

  /** `PATCH /orders/:id/status`. */
  function UpdateStatus(id: string, status: Option<string>, update: (string, string) -> Outcome<Order>)
    : (r: Response<Order>)
    ensures !Truthy(status) ==> r == Error(BAD_REQUEST)
    ensures Truthy(status) && update(id, status.value).Returned? ==> r == Success(OK, update(id, status.value).value)
    ensures Truthy(status) && update(id, status.value) == Threw(OtherError) ==> r == Error(INTERNAL_SERVER_ERROR)
  {
    if !Truthy(status) then Error(BAD_REQUEST) else Rethrowing(update(id, status.value), OK)
  }

  /** A missing or empty status is refused before the service is reached: the service cannot change the answer. */
  lemma EmptyStatusNeverReachesService(id: string, status: Option<string>,
                                       update1: (string, string) -> Outcome<Order>,
                                       update2: (string, string) -> Outcome<Order>)
    requires status == None || status == Some("")
    ensures UpdateStatus(id, status, update1) == UpdateStatus(id, status, update2) == Error(BAD_REQUEST)
  {
  }

  /** `DELETE /orders/:id`. */
  function Remove(userId: Option<string>, id: string, remove: (string, string) -> Outcome<Order>)
    : (r: Response<Order>)
    ensures !Truthy(userId) ==> r == Error(INTERNAL_SERVER_ERROR)
    ensures Truthy(userId) && remove(id, userId.value).Returned? ==> r == Success(OK, remove(id, userId.value).value)
    ensures Truthy(userId) && remove(id, userId.value).Threw? ==> r == Error(INTERNAL_SERVER_ERROR)
  {
    if !Truthy(userId) then Error(INTERNAL_SERVER_ERROR) else Flattening(remove(id, userId.value), OK)
  }

  /**
   * The missing user: 401 from `findOne` alone; `create`, `findUserOrders`
   * and `remove` turn it into 500.
   */
  lemma MissingUserStatuses(dto: CreateOrderDto, id: string,
                            create: CreateOrderDto -> Outcome<Order>,
                            findByUser: string -> Outcome<seq<Order>>,
                            findOne: (string, string) -> Outcome<Option<Order>>,
                            remove: (string, string) -> Outcome<Order>)
    ensures Create(None, dto, create).status == INTERNAL_SERVER_ERROR
    ensures FindUserOrders(None, findByUser).status == INTERNAL_SERVER_ERROR
    ensures FindOne(None, id, findOne).status == UNAUTHORIZED
    ensures Remove(None, id, remove).status == INTERNAL_SERVER_ERROR
  {
  }
}
