/**
 * The collections as one in-memory store, and the handlers that change them:
 * registration, promotion and removal of users, removal of menu items, cart
 * insert and delete, and order settlement. The read-only routes are the
 * functions of the other modules applied to the store's current fields.
 */
module Bistro {
  import opened Records
  import opened Access
  import opened Users
  import opened Cart
  import opened Payments

  /** What `updateOne` reports: documents matched, and documents actually changed. */
  datatype UpdateResult = UpdateResult(matchedCount: nat, modifiedCount: nat)

  class Store {
    var users: map<Id, User>
    var menu: map<Id, MenuItem>
    var cart: map<Id, CartEntry>
    /** The payment history, oldest first; nothing ever updates or deletes a payment. */
    var payments: seq<Payment>
    /** The next `_id` the driver hands out; above every stored key. */
    var nextId: Id

    /** Emails identify users, and no stored key has been handed out yet again. */
    ghost predicate Valid()
      reads this
    {
      && UniqueEmails(users)
      && (forall id :: id in users ==> id < nextId)
      && (forall id :: id in menu ==> id < nextId)
      && (forall id :: id in cart ==> id < nextId)
    }

    /** The store over the collections as the server finds them. */
    constructor (users: map<Id, User>, menu: map<Id, MenuItem>, cart: map<Id, CartEntry>,
                 payments: seq<Payment>, nextId: Id)
      requires UniqueEmails(users)
      requires forall id :: id in users ==> id < nextId
      requires forall id :: id in menu ==> id < nextId
      requires forall id :: id in cart ==> id < nextId
      ensures Valid()
      ensures this.users == users && this.menu == menu && this.cart == cart
      ensures this.payments == payments && this.nextId == nextId
    {
      this.users := users;
      this.menu := menu;
      this.cart := cart;
      this.payments := payments;
      this.nextId := nextId;
    }

    /**
     * POST /users: insert the body unless a user with its email exists, in
     * which case nothing changes and `insertedId` is null.
     */
    method Register(u: User) returns (insertedId: Option<Id>)
      requires Valid()
      modifies this
      ensures Valid()
      ensures users == Registered(old(users), u, old(nextId))
      ensures insertedId.None? <==> EmailTaken(old(users), u.email)
      ensures insertedId.None? ==> users == old(users)
      ensures insertedId.Some? ==>
        insertedId.value !in old(users) && users == old(users)[insertedId.value := u] &&
        |users| == |old(users)| + 1
      ensures menu == old(menu) && cart == old(cart) && payments == old(payments)
    {
      RegistrationKeepsEmailsUnique(users, u, nextId);
      if EmailTaken(users, u.email) {
        insertedId := None;
      } else {
        insertedId := Some(nextId);
        users := users[nextId := u];
        nextId := nextId + 1;
      }
    }

    /**
     * PATCH /users/admin/:id (admins only): set that user's role to "admin".
     * Nothing else changes; promoting an admin matches but modifies nothing.
     */
    method Promote(c: Credential, id: Id) returns (r: Reply<UpdateResult>)
      requires Valid()
      modifies this
      ensures Valid()
      ensures r.Refused? <==> !(c.Claims? && IsAdmin(old(users), c.email))
      ensures r.Refused? ==> r.status == VerifyAdmin(old(users), c).status && users == old(users)
      ensures r.Sent? ==>
        users == Promoted(old(users), id) &&
        r.body.matchedCount == (if id in old(users) then 1 else 0) &&
        r.body.modifiedCount == (if id in old(users) && old(users)[id].role != AdminRole then 1 else 0)
      ensures menu == old(menu) && cart == old(cart) && payments == old(payments) && nextId == old(nextId)
    {
      var g := VerifyAdmin(users, c);
      if g.Deny? {
        return Refused(g.status);
      }
      if id in users {
        PromotionSetsOneRole(users, id);
        var modified := if users[id].role != AdminRole then 1 else 0;
        users := Promoted(users, id);
        r := Sent(UpdateResult(1, modified));
      } else {
        r := Sent(UpdateResult(0, 0));
      }
    }

    /** DELETE /users/:id (admins only): remove that user document if present. */
    method DeleteUser(c: Credential, id: Id) returns (r: Reply<nat>)
      requires Valid()
      modifies this
      ensures Valid()
      ensures r.Refused? <==> !(c.Claims? && IsAdmin(old(users), c.email))
      ensures r.Refused? ==> r.status == VerifyAdmin(old(users), c).status && users == old(users)
      ensures r.Sent? ==> users == old(users) - {id} && r.body == (if id in old(users) then 1 else 0)
      ensures menu == old(menu) && cart == old(cart) && payments == old(payments) && nextId == old(nextId)
    {
      var g := VerifyAdmin(users, c);
      if g.Deny? {
        return Refused(g.status);
      }
      r := Sent(if id in users then 1 else 0);
      users := users - {id};
    }

    /**
     * DELETE /menu/:id (admins only): remove that menu item if present; its
     * line items leave the order statistics.
     */
    method DeleteMenuItem(c: Credential, id: Id) returns (r: Reply<nat>)
      requires Valid()
      modifies this
      ensures Valid()
      ensures r.Refused? <==> !(c.Claims? && IsAdmin(old(users), c.email))
      ensures r.Refused? ==> r.status == VerifyAdmin(old(users), c).status && menu == old(menu)
      ensures r.Sent? ==> menu == old(menu) - {id} && r.body == (if id in old(menu) then 1 else 0)
      ensures users == old(users) && cart == old(cart) && payments == old(payments) && nextId == old(nextId)
    {
      var g := VerifyAdmin(users, c);
      if g.Deny? {
        return Refused(g.status);
      }
      r := Sent(if id in menu then 1 else 0);
      menu := menu - {id};
    }

    /** POST /carts: insert the entry as sent, under a new `_id`; no check at all. */
    method AddToCart(e: CartEntry) returns (insertedId: Id)
      requires Valid()
      modifies this
      ensures Valid()
      ensures insertedId !in old(cart) && cart == old(cart)[insertedId := e]
      ensures |cart| == |old(cart)| + 1
      ensures users == old(users) && menu == old(menu) && payments == old(payments)
    {
      insertedId := nextId;
      cart := cart[nextId := e];
      nextId := nextId + 1;
    }

    /**
     * DELETE /carts/:id: remove that entry if present, whoever owns it, and
     * report how many were removed.
     */
    method DeleteCartEntry(id: Id) returns (deletedCount: nat)
      requires Valid()
      modifies this
      ensures Valid()
      ensures cart == old(cart) - {id}
      ensures deletedCount == (if id in old(cart) then 1 else 0)
      ensures |cart| == |old(cart)| - deletedCount
      ensures users == old(users) && menu == old(menu) && payments == old(payments) && nextId == old(nextId)
    {
      RemoveOneEntry(cart, id);
      deletedCount := if id in cart then 1 else 0;
      cart := cart - {id};
    }

    /**
     * POST /payments: record the payment first, then delete every cart entry
     * whose id it lists. Exactly one payment is appended however many of the
     * ids still name an entry; `deletedCount` is the number of entries that
     * really went, at most the number of ids listed.
     */
    method Settle(p: Payment) returns (insertedId: Id, deletedCount: nat)
      requires Valid()
      modifies this
      ensures Valid()
      ensures payments == old(payments) + [p]
      ensures cart == WithoutIds(old(cart), p.cartIds)
      ensures deletedCount == DeletedCount(old(cart), p.cartIds)
      ensures deletedCount == |old(cart)| - |cart| && deletedCount <= |p.cartIds|
      ensures insertedId !in old(cart) && insertedId !in old(users) && insertedId !in old(menu)
      ensures users == old(users) && menu == old(menu)
    {
      insertedId := nextId;
      payments := payments + [p];
      nextId := nextId + 1;
      SettlementCount(cart, p.cartIds);
      deletedCount := |cart.Keys * IdSet(p.cartIds)|;
      cart := WithoutIds(cart, p.cartIds);
    }
  }

  /**
   * The duplicate-submit case: two settlements of the same cart line record
   * two payments, the first deletes the line and the second deletes nothing.
   */
  method DuplicateSettlement(s: Store, p: Payment) returns (first: nat, second: nat)
    requires s.Valid() && p.cartIds == [7] && 7 in s.cart
    modifies s
    ensures s.Valid()
    ensures first == 1 && second == 0
    ensures s.payments == old(s.payments) + [p, p]
    ensures 7 !in s.cart && |s.cart| == |old(s.cart)| - 1
  {
    var _, d1 := s.Settle(p);
    assert IdSet([7]) == {7};
    var _, d2 := s.Settle(p);
    first, second := d1, d2;
  }
}
