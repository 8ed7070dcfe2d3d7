/**
 * The cart collection: entries are added and removed one at a time by any
 * caller (no ownership check), listed per owner, and removed in bulk when an
 * order is settled (`deleteMany` on `_id $in cartIds`).
 */
module Cart {
  import opened Records

  /**
   * GET /carts?email=...: the entries owned by `email`, or every entry when the
   * query has no email or an empty one (the source tests the value's
   * truthiness, and "" is falsy).
   */
  function CartView(cart: map<Id, CartEntry>, email: Option<string>): (r: map<Id, CartEntry>)
    ensures r.Keys <= cart.Keys
    ensures forall k :: k in r ==> r[k] == cart[k]
  {
    if email.Some? && email.value != "" then
      map k | k in cart && cart[k].email == email.value :: cart[k]
    else
      cart
  }

  /**
   * The cart after `deleteMany({ _id: { $in: ids } })`: no listed id remains
   * and every other entry is kept unchanged.
   */
  function WithoutIds(cart: map<Id, CartEntry>, ids: seq<Id>): (r: map<Id, CartEntry>)
    ensures forall k :: k in ids ==> k !in r
    ensures forall k :: k in cart && k !in ids ==> k in r && r[k] == cart[k]
    ensures r.Keys <= cart.Keys
  {
    map k | k in cart && k !in ids :: cart[k]
  }

  /** The `deletedCount` that `deleteMany` reports: existing entries whose id is listed. */
  function DeletedCount(cart: map<Id, CartEntry>, ids: seq<Id>): (n: nat)
    ensures n <= |ids| && n <= |cart|
    ensures n == 0 <==> forall k :: k in ids ==> k !in cart
  {
    SplitCardinality(cart.Keys, IdSet(ids));
    SplitCardinality(IdSet(ids), cart.Keys);
    assert IdSet(ids) * cart.Keys == cart.Keys * IdSet(ids);
    DistinctIdsAtMostLength(ids);
    assert forall k :: k in ids && k in cart ==> k in cart.Keys * IdSet(ids);
    |cart.Keys * IdSet(ids)|
  }

  /** A list names at most as many distinct ids as it has elements. */
  lemma {:induction false} DistinctIdsAtMostLength(ids: seq<Id>)
    ensures |IdSet(ids)| <= |ids|
  {
    if ids != [] {
      var init := ids[..|ids| - 1];
      DistinctIdsAtMostLength(init);
      assert ids == init + [ids[|ids| - 1]];
      assert IdSet(ids) == IdSet(init) + {ids[|ids| - 1]};
    }
  }

  /** Listing with no (or an empty) email shows the whole cart. */
  lemma UnfilteredViewIsWholeCart(cart: map<Id, CartEntry>)
    ensures CartView(cart, None) == cart
    ensures CartView(cart, Some("")) == cart
  {
  }

  /** Listing by a non-empty email shows exactly that owner's entries. */
  lemma OwnerViewIsOwnersEntries(cart: map<Id, CartEntry>, email: string)
    requires email != ""
    ensures forall k :: k in CartView(cart, Some(email)) <==> k in cart && cart[k].email == email
  {
  }

  /**
   * The count `deleteMany` reports is the number of entries that really
   * disappeared, which is at most the length of `ids`; ids that match no entry
   * (never added, or already removed) add nothing.
   */
  lemma SettlementCount(cart: map<Id, CartEntry>, ids: seq<Id>)
    ensures cart.Keys - WithoutIds(cart, ids).Keys == cart.Keys * IdSet(ids)
    ensures |cart| == |WithoutIds(cart, ids)| + DeletedCount(cart, ids)
    ensures DeletedCount(cart, ids) <= |ids|
  {
    var kept := WithoutIds(cart, ids).Keys;
    assert kept == cart.Keys - IdSet(ids);
    SplitCardinality(cart.Keys, IdSet(ids));
    SplitCardinality(IdSet(ids), cart.Keys);
    assert IdSet(ids) * cart.Keys == cart.Keys * IdSet(ids);
    DistinctIdsAtMostLength(ids);
  }

  /** Splitting `a` by membership in `b` splits its size. */
  lemma SplitCardinality(a: set<Id>, b: set<Id>)
    ensures |a| == |a - b| + |a * b|
  {
    assert a == (a - b) + (a * b);
    assert (a - b) !! (a * b);
  }

  /**
   * Settling the same id list a second time deletes nothing and leaves the
   * cart as the first settlement left it.
   */
  lemma SettleAgainDeletesNothing(cart: map<Id, CartEntry>, ids: seq<Id>)
    ensures DeletedCount(WithoutIds(cart, ids), ids) == 0
    ensures WithoutIds(WithoutIds(cart, ids), ids) == WithoutIds(cart, ids)
  {
    assert WithoutIds(cart, ids).Keys * IdSet(ids) == {};
  }

  /**
   * Listing a settled cart equals settling the listing: after paying for every
   * entry an owner had, that owner's listing is empty.
   */
  lemma SettledViewIsViewSettled(cart: map<Id, CartEntry>, ids: seq<Id>, email: Option<string>)
    ensures CartView(WithoutIds(cart, ids), email) == WithoutIds(CartView(cart, email), ids)
    ensures (forall k :: k in CartView(cart, email) ==> k in ids) ==>
      CartView(WithoutIds(cart, ids), email) == map[]
  {
    var lhs := CartView(WithoutIds(cart, ids), email);
    var rhs := WithoutIds(CartView(cart, email), ids);
    assert lhs.Keys == rhs.Keys;
  }

  /** Removing one entry by id deletes it if present and touches nothing else. */
  lemma RemoveOneEntry(cart: map<Id, CartEntry>, id: Id)
    ensures id !in cart - {id}
    ensures |cart - {id}| == |cart| - (if id in cart then 1 else 0)
    ensures forall k :: k in cart && k != id ==> k in cart - {id} && (cart - {id})[k] == cart[k]
  {
    if id in cart {
      assert cart.Keys == (cart - {id}).Keys + {id};
    } else {
      assert cart - {id} == cart;
    }
  }
}
