/**
 * The client-side wishlist (WishlistContext.tsx): a list of items with no
 * two sharing an id. The provider holds the list; `addItem` and
 * `removeItem` replace it with a list computed from the current one.
 */
module Wishlist {
  import Seqs

  /** A saved product; only `id` takes part in the logic. */
  datatype WishlistItem = WishlistItem(id: int, title: string, price: int, image: string)

  /** `items.some(item => item.id === id)`. */
  predicate HasId(items: seq<WishlistItem>, id: int) {
    exists i :: 0 <= i < |items| && items[i].id == id
  }

  ghost predicate UniqueIds(items: seq<WishlistItem>) {
    forall i, j :: 0 <= i < j < |items| ==> items[i].id != items[j].id
  }

  /**
   * The list after `addItem(x)`: unchanged when an item with that id is
   * already there, else `x` appended at the end.
   */
  function WithItem(items: seq<WishlistItem>, x: WishlistItem): (r: seq<WishlistItem>)
    ensures HasId(r, x.id)
    ensures HasId(items, x.id) ==> r == items
    ensures !HasId(items, x.id) ==> |r| == |items| + 1 && r[..|items|] == items && r[|items|] == x
    ensures UniqueIds(items) ==> UniqueIds(r)
  {
    if HasId(items, x.id) then items
    else
      var r := items + [x];
      assert r[|items|].id == x.id;
      r
  }

  /** The list after `removeItem(id)`: every item with that id dropped. */
  function WithoutId(items: seq<WishlistItem>, id: int): (r: seq<WishlistItem>)
    ensures !HasId(r, id)
    ensures forall i :: 0 <= i < |r| ==> r[i] in items
    ensures forall i :: 0 <= i < |items| && items[i].id != id ==> items[i] in r
  {
    Seqs.Filter((it: WishlistItem) => it.id != id, items)
  }

  /** Removal keeps the remaining items in their original order, and the ids unique. */
  lemma WithoutIdKeepsOrder(items: seq<WishlistItem>, id: int)
    ensures Seqs.IsSubsequence(WithoutId(items, id), items)
    ensures UniqueIds(items) ==> UniqueIds(WithoutId(items, id))
  {
    var keep := (it: WishlistItem) => it.id != id;
    Seqs.FilterIsSubsequence(keep, items);
    if UniqueIds(items) {
      Seqs.FilterPairwise(keep, items, (a: WishlistItem, b: WishlistItem) => a.id != b.id);
    }
  }

  /** Removing an id that is not there changes nothing. */
  lemma {:induction false} WithoutAbsentId(items: seq<WishlistItem>, id: int)
    requires !HasId(items, id)
    ensures WithoutId(items, id) == items
  {
    Seqs.FilterAll((it: WishlistItem) => it.id != id, items);
  }

  /** Adding an item and then removing its id restores a list that did not have it. */
  lemma AddThenRemove(items: seq<WishlistItem>, x: WishlistItem)
    requires !HasId(items, x.id)
    ensures WithoutId(WithItem(items, x), x.id) == items
  {
    var keep := (it: WishlistItem) => it.id != x.id;
    WithoutAbsentId(items, x.id);
    assert WithItem(items, x) == items + [x];
    FilterAppendLast(keep, items, x);
  }

  lemma {:induction false} FilterAppendLast<T>(p: T -> bool, s: seq<T>, x: T)
    ensures Seqs.Filter(p, s + [x]) == Seqs.Filter(p, s) + (if p(x) then [x] else [])
  {
    if s == [] {
      assert s + [x] == [x];
    } else {
      FilterAppendLast(p, s[1..], x);
      assert (s + [x])[1..] == s[1..] + [x];
    }
  }

  /** The provider's state. */
  class WishlistState {
    var items: seq<WishlistItem>

    ghost predicate Valid()
      reads this
    {
      UniqueIds(items)
    }

    /** A fresh provider with nothing saved. */
    constructor ()
      ensures Valid() && items == []
    {
      items := [];
    }

    /** `addItem(newItem)`. */
    method AddItem(newItem: WishlistItem)
      requires Valid()
      modifies this
      ensures Valid()
      ensures items == WithItem(old(items), newItem)
      ensures IsInWishlist(newItem.id)
    {
      items := WithItem(items, newItem);
    }

    /** `removeItem(id)`. */
    method RemoveItem(id: int)
      requires Valid()
      modifies this
      ensures Valid()
      ensures items == WithoutId(old(items), id)
      ensures !IsInWishlist(id)
    {
      WithoutIdKeepsOrder(items, id);
      items := WithoutId(items, id);
    }

    /** `isInWishlist(id)`. */
    function IsInWishlist(id: int): bool
      reads this
    {
      HasId(items, id)
    }
  }
}
