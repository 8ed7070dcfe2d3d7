/**
 * The payments collection: an append-only history in insertion order, listed
 * per owner (self only) and summed for the admin dashboard.
 */
module Payments {
  import opened Records
  import opened Access

  /** `find({ email })` on the payments: the owner's payments, in history order. */
  function PaymentsOf(payments: seq<Payment>, email: string): (r: seq<Payment>)
    ensures |r| <= |payments|
    ensures forall i :: 0 <= i < |r| ==> r[i].email == email
  {
    if payments == [] then []
    else
      var last := payments[|payments| - 1];
      PaymentsOf(payments[..|payments| - 1], email) + (if last.email == email then [last] else [])
  }

  /**
   * The owner's listing holds exactly the payments with that email, each as
   * many times as the history holds it (identical settlements included).
   */
  lemma {:induction false} PaymentsOfAreTheOwners(payments: seq<Payment>, email: string)
    ensures forall p :: p in PaymentsOf(payments, email) <==> p in payments && p.email == email
    ensures forall p ::
      multiset(PaymentsOf(payments, email))[p] == (if p.email == email then multiset(payments)[p] else 0)
  {
    if payments != [] {
      var init := payments[..|payments| - 1];
      var last := payments[|payments| - 1];
      PaymentsOfAreTheOwners(init, email);
      assert payments == init + [last];
      assert multiset(payments) == multiset(init) + multiset{last};
      var extra := if last.email == email then [last] else [];
      assert PaymentsOf(payments, email) == PaymentsOf(init, email) + extra;
      assert multiset(PaymentsOf(payments, email)) == multiset(PaymentsOf(init, email)) + multiset(extra);
    }
  }

  /** Listing distributes over a split of the history: it is an order-keeping filter. */
  lemma {:induction false} PaymentsOfConcat(a: seq<Payment>, b: seq<Payment>, email: string)
    ensures PaymentsOf(a + b, email) == PaymentsOf(a, email) + PaymentsOf(b, email)
  {
    if b != [] {
      var init := b[..|b| - 1];
      PaymentsOfConcat(a, init, email);
      assert (a + b)[..|a + b| - 1] == a + init;
    } else {
      assert a + b == a;
    }
  }

  /**
   * GET /payments/:email: 401 without a valid token, 403 when the path email
   * is not the token's, otherwise that owner's payments.
   */
  function ListPayments(payments: seq<Payment>, c: Credential, pathEmail: string): (r: Reply<seq<Payment>>)
    ensures r.Sent? <==> c.Claims? && c.email == pathEmail
    ensures r.Sent? ==> r.body == PaymentsOf(payments, pathEmail)
    ensures r.Sent? ==> forall p :: p in r.body <==> p in payments && p.email == pathEmail
    ensures r.Refused? ==> r.status == (if c.Claims? then Forbidden else Unauthorized)
  {
    match VerifySelf(c, pathEmail)
    case Deny(s) => Refused(s)
    case Pass(email) =>
      PaymentsOfAreTheOwners(payments, email);
      Sent(PaymentsOf(payments, email))
  }

  /** The sum of `price` over the history. */
  function TotalRevenue(payments: seq<Payment>): Cents
  {
    if payments == [] then 0
    else TotalRevenue(payments[..|payments| - 1]) + payments[|payments| - 1].price
  }

  /**
   * `aggregate([{ $group: { _id: null, totalRevenue: { $sum: '$price' } } }])`:
   * one output document over a non-empty collection, none over an empty one.
   */
  function RevenueGroup(payments: seq<Payment>): (docs: seq<Cents>)
    ensures |docs| <= 1
    ensures |docs| == 0 <==> payments == []
  {
    if payments == [] then [] else [TotalRevenue(payments)]
  }

  /** The revenue the admin statistics report: the group's total, or 0 without one. */
  function AdminRevenue(payments: seq<Payment>): (r: Cents)
    ensures r == TotalRevenue(payments)
  {
    var docs := RevenueGroup(payments);
    if |docs| > 0 then docs[0] else 0
  }

  /** Revenue adds up over a split of the history. */
  lemma {:induction false} TotalRevenueConcat(a: seq<Payment>, b: seq<Payment>)
    ensures TotalRevenue(a + b) == TotalRevenue(a) + TotalRevenue(b)
  {
    if b != [] {
      var init := b[..|b| - 1];
      TotalRevenueConcat(a, init);
      assert (a + b)[..|a + b| - 1] == a + init;
    } else {
      assert a + b == a;
    }
  }

  /**
   * The reported revenue is the sum of every payment's price, 0 for an empty
   * history, and one more settlement raises it by exactly that payment's price.
   */
  lemma AdminRevenueIsTotal(payments: seq<Payment>, p: Payment)
    ensures AdminRevenue(payments) == TotalRevenue(payments)
    ensures payments == [] ==> AdminRevenue(payments) == 0
    ensures AdminRevenue(payments + [p]) == AdminRevenue(payments) + p.price
  {
    TotalRevenueConcat(payments, [p]);
    assert [p][..0] == [];
  }

  /** With no negative prices the revenue is never negative. */
  lemma {:induction false} RevenueNonNegative(payments: seq<Payment>)
    requires forall i :: 0 <= i < |payments| ==> payments[i].price >= 0
    ensures TotalRevenue(payments) >= 0
  {
    if payments != [] {
      RevenueNonNegative(payments[..|payments| - 1]);
    }
  }

  /**
   * GET /admin-stats, revenue part: admins only, and the value is the exact
   * sum of the payments' prices.
   */
  function AdminStats(users: map<Id, User>, payments: seq<Payment>, c: Credential): (r: Reply<Cents>)
    ensures r.Sent? <==> c.Claims? && IsAdmin(users, c.email)
    ensures r.Sent? ==> r.body == TotalRevenue(payments)
    ensures r.Refused? ==> r.status == (if c.Claims? then Forbidden else Unauthorized)
  {
    match VerifyAdmin(users, c)
    case Deny(s) => Refused(s)
    case Pass(_) => Sent(AdminRevenue(payments))
  }
}
