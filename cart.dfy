/**
 * The cart table (cart.service.ts): one quantity per (userId, productId)
 * pair, the table's compound key. The service's calls are atomic steps on
 * that map; the pure functions below are their meaning and the class holds
 * the table that the methods rewrite.
 */
module Cart {
  import opened Wrappers
  import opened Http

  /** The compound key `userId_productId`. */
  type Key = (string, int)

  type Lines = map<Key, int>

  /** A row of the cart table. */
  datatype CartLine = CartLine(userId: string, productId: int, quantity: int)

  /** The body of `POST /cart` after validation; `quantity` is optional. */
  datatype CartItemDto = CartItemDto(userId: string, productId: int, quantity: Option<int>)

  /** `const { quantity = 1 } = dto`. */
  function QuantityOrDefault(quantity: Option<int>): (q: int)
    ensures quantity.None? ==> q == 1
    ensures quantity.Some? ==> q == quantity.value
  {
    quantity.GetOr(1)
  }

  /** `findMany({ where: { userId } })`: the user's rows. */
  function LinesOf(lines: Lines, userId: string): (r: set<CartLine>)
    ensures forall l :: l in r <==> l.userId == userId && (l.userId, l.productId) in lines
                                    && lines[(l.userId, l.productId)] == l.quantity
  {
    set k | k in lines && k.0 == userId :: CartLine(k.0, k.1, lines[k])
  }

  /** The upsert: increment an existing row by `quantity`, or create it with `quantity`. */
  function Upserted(lines: Lines, userId: string, productId: int, quantity: int): (r: Lines)
    ensures (userId, productId) in r
    ensures r[(userId, productId)] == (if (userId, productId) in lines then lines[(userId, productId)] else 0) + quantity
    ensures forall k :: k != (userId, productId) ==> (k in r <==> k in lines) && (k in lines ==> r[k] == lines[k])
  {
    var k := (userId, productId);
    lines[k := if k in lines then lines[k] + quantity else quantity]
  }

  /** `deleteMany({ where: { userId } })`. */
  function WithoutUser(lines: Lines, userId: string): (r: Lines)
    ensures forall k :: k in r <==> k in lines && k.0 != userId
    ensures forall k :: k in r ==> r[k] == lines[k]
  {
    map k | k in lines && k.0 != userId :: lines[k]
  }

  /**
   * Adding the same product twice for a user with no line for it leaves one
   * line with the sum of both quantities: the adds merge.
   */
  lemma {:induction false} AddTwiceMerges(lines: Lines, userId: string, productId: int, q1: int, q2: int)
    requires (userId, productId) !in lines
    ensures Upserted(Upserted(lines, userId, productId, q1), userId, productId, q2)
         == lines[(userId, productId) := q1 + q2]
    ensures |set l | l in LinesOf(Upserted(Upserted(lines, userId, productId, q1), userId, productId, q2), userId)
                        && l.productId == productId| == 1
  {
    var after := Upserted(Upserted(lines, userId, productId, q1), userId, productId, q2);
    assert after == lines[(userId, productId) := q1 + q2];
    var matching := set l | l in LinesOf(after, userId) && l.productId == productId;
    assert matching == {CartLine(userId, productId, q1 + q2)};
  }

  /** Clearing a user's cart empties it and leaves every other user's cart as it was. */
  lemma ClearTouchesOnlyThatUser(lines: Lines, userId: string, other: string)
    requires other != userId
    ensures LinesOf(WithoutUser(lines, userId), userId) == {}
    ensures LinesOf(WithoutUser(lines, userId), other) == LinesOf(lines, other)
  {
  }

  /** After an add, the user's cart is the old one with that product's line replaced. */
  lemma AddUpdatesOneLine(lines: Lines, userId: string, productId: int, quantity: int)
    ensures var k := (userId, productId);
            var added := CartLine(userId, productId, (if k in lines then lines[k] else 0) + quantity);
            LinesOf(Upserted(lines, userId, productId, quantity), userId)
              == (set l | l in LinesOf(lines, userId) && l.productId != productId) + {added}
  {
  }

  /** The cart table. */
  class CartStore {
    var lines: Lines

    constructor ()
      ensures lines == map[]
    {
      lines := map[];
    }

    /** `getCart(userId)`. */
    function GetCart(userId: string): set<CartLine>
      reads this
    {
      LinesOf(lines, userId)
    }

    /** `addToCart(dto)`: the upsert, returning the resulting row. */
    method AddToCart(dto: CartItemDto) returns (line: CartLine)
      modifies this
      ensures lines == Upserted(old(lines), dto.userId, dto.productId, QuantityOrDefault(dto.quantity))
      ensures line == CartLine(dto.userId, dto.productId, lines[(dto.userId, dto.productId)])
    {
      var q := QuantityOrDefault(dto.quantity);
      lines := Upserted(lines, dto.userId, dto.productId, q);
      line := CartLine(dto.userId, dto.productId, lines[(dto.userId, dto.productId)]);
    }

    /**
     * `updateItemQuantity(userId, productId, quantity)`: sets, not adds, any
     * quantity, zero and negative included; throws when there is no row.
     */
    method UpdateItemQuantity(userId: string, productId: int, quantity: int) returns (r: Outcome<CartLine>)
      modifies this
      ensures r.Returned? <==> (userId, productId) in old(lines)
      ensures r.Returned? ==> r.value == CartLine(userId, productId, quantity)
      ensures r.Returned? ==> lines == old(lines)[(userId, productId) := quantity]
      ensures r.Threw? ==> r.failure == OtherError && lines == old(lines)
    {
      var k := (userId, productId);
      if k in lines {
        lines := lines[k := quantity];
        r := Returned(CartLine(userId, productId, quantity));
      } else {
        r := Threw(OtherError);
      }
    }

    /** `removeFromCart(userId, productId)`: deletes the row and returns it; throws when there is none. */
    method RemoveFromCart(userId: string, productId: int) returns (r: Outcome<CartLine>)
      modifies this
      ensures r.Returned? <==> (userId, productId) in old(lines)
      ensures r.Returned? ==> r.value == CartLine(userId, productId, old(lines)[(userId, productId)])
      ensures r.Returned? ==> lines == old(lines) - {(userId, productId)}
      ensures r.Threw? ==> r.failure == OtherError && lines == old(lines)
    {
      var k := (userId, productId);
      if k in lines {
        r := Returned(CartLine(userId, productId, lines[k]));
        lines := lines - {k};
      } else {
        r := Threw(OtherError);
      }
    }

    /** `clearCart(userId)`: deletes every row of the user, possibly none; returns the count. */
    method ClearCart(userId: string) returns (count: nat)
      modifies this
      ensures lines == WithoutUser(old(lines), userId)
      ensures count == |LinesOf(old(lines), userId)|
    {
      count := |LinesOf(lines, userId)|;
      lines := WithoutUser(lines, userId);
    }
  }
}
