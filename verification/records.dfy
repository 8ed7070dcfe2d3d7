/**
 * The documents of the restaurant back end's five collections (users, menu,
 * reviews, cart, payments), reduced to the fields its handlers read or write.
 * Reviews are only ever listed and have no model here.
 */
module Records {

  /** A document's `_id` (a MongoDB ObjectId), abstracted to a natural number. */
  type Id = nat

  /** A money amount in integer cents; the source's decimal prices scaled by 100. */
  type Cents = int

  /** The one role value the access gates test for. */
  const AdminRole: string := "admin"

  datatype Option<T> = None | Some(value: T)

  /** The distinct ids listed in `ids` (what a `$in` or `$lookup` on the list can match). */
  function IdSet(ids: seq<Id>): set<Id>
  {
    set i | i in ids
  }

  /**
   * A registered user. The source inserts the request body verbatim, so `role`
   * is whatever the client sent; a body without a role is the empty string.
   */
  datatype User = User(name: string, email: string, role: string)

  /** A catalog item; `category` and `price` feed the order-statistics report. */
  datatype MenuItem = MenuItem(name: string, category: string, price: Cents)

  /** A cart line: a snapshot of a menu item taken for the owner `email`. */
  datatype CartEntry = CartEntry(email: string, menuItemId: Id, name: string, price: Cents)

  /**
   * A payment as the client submits it: the owner, the amount it claims was
   * charged, the processor's transaction id, the cart lines it pays for and the
   * menu items they referred to.
   */
  datatype Payment = Payment(
    email: string,
    price: Cents,
    transactionId: string,
    cartIds: seq<Id>,
    menuItemIds: seq<Id>)
}
