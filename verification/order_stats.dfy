/**
 * GET /order-stats: the aggregation that joins every payment's `menuItemIds`
 * with the menu (`$lookup`), emits one line item per matched menu item
 * (`$unwind`) and groups the line items by the menu item's current category,
 * counting them and summing their current prices (`$group`, `$project`).
 */
module OrderStats {
  import opened Records

  /** One output row: a category, its number of line items and their revenue. */
  datatype CategoryStat = CategoryStat(category: string, quantity: nat, revenue: Cents)

  /**
   * `$lookup` with an array `localField`: the menu items whose `_id` is listed
   * in `ids`, each once however often it is listed; ids with no menu item are
   * skipped. Items come in order of first mention.
   */
  function LookupItems(ids: seq<Id>, menu: map<Id, MenuItem>): (r: seq<MenuItem>)
    ensures |r| <= |ids|
  {
    if ids == [] then []
    else
      var init := ids[..|ids| - 1];
      var x := ids[|ids| - 1];
      LookupItems(init, menu) + (if x in menu && x !in init then [menu[x]] else [])
  }

  /**
   * `$lookup` then `$unwind` over the payment history: one line item per
   * (payment, matched menu item) pair. A payment whose lookup is empty is
   * dropped by `$unwind`, which here means it contributes nothing.
   */
  function LineItems(payments: seq<Payment>, menu: map<Id, MenuItem>): (r: seq<MenuItem>)
    ensures forall it :: it in r ==> it in menu.Values
  {
    if payments == [] then []
    else
      var ids := payments[|payments| - 1].menuItemIds;
      LookupFromMenu(ids, menu);
      LineItems(payments[..|payments| - 1], menu) + LookupItems(ids, menu)
  }

  /** The number of (payment, existing menu item it names) pairs, counted by sets. */
  function JoinCount(payments: seq<Payment>, menu: map<Id, MenuItem>): nat
  {
    if payments == [] then 0
    else
      JoinCount(payments[..|payments| - 1], menu) + |IdSet(payments[|payments| - 1].menuItemIds) * menu.Keys|
  }

  /** The number of payments that name menu item `id`. */
  function RefCount(payments: seq<Payment>, id: Id): nat
  {
    if payments == [] then 0
    else RefCount(payments[..|payments| - 1], id) + (if id in payments[|payments| - 1].menuItemIds then 1 else 0)
  }

  /** `$group` accumulation of one line item into the rows built so far. */
  function Tally(rows: seq<CategoryStat>, item: MenuItem): (r: seq<CategoryStat>)
    ensures |r| == |rows| || |r| == |rows| + 1
    ensures r != []
  {
    if rows == [] then [CategoryStat(item.category, 1, item.price)]
    else if rows[0].category == item.category then
      [rows[0].(quantity := rows[0].quantity + 1, revenue := rows[0].revenue + item.price)] + rows[1..]
    else
      [rows[0]] + Tally(rows[1..], item)
  }

  /** `$group` by category over the line items. */
  function GroupByCategory(items: seq<MenuItem>): (r: seq<CategoryStat>)
    ensures |r| <= |items|
    ensures items != [] ==> r != []
  {
    if items == [] then [] else Tally(GroupByCategory(items[..|items| - 1]), items[|items| - 1])
  }

  /**
   * The report. Prices are in cents, so `$round` to two decimals of the major
   * unit is the identity and `revenue` is the group's price total.
   */
  function OrderStats(payments: seq<Payment>, menu: map<Id, MenuItem>): (r: seq<CategoryStat>)
    ensures |r| <= JoinCount(payments, menu)
  {
    LineItemsCount(payments, menu);
    GroupByCategory(LineItems(payments, menu))
  }

  // Reference definitions the report is proved against.

  /** How many line items fall in category `c`. */
  function CountIn(items: seq<MenuItem>, c: string): nat
  {
    if items == [] then 0
    else CountIn(items[..|items| - 1], c) + (if items[|items| - 1].category == c then 1 else 0)
  }

  /** The price total of the line items in category `c`. */
  function RevenueIn(items: seq<MenuItem>, c: string): Cents
  {
    if items == [] then 0
    else RevenueIn(items[..|items| - 1], c) + (if items[|items| - 1].category == c then items[|items| - 1].price else 0)
  }

  /** The price total of all line items. */
  function PriceTotal(items: seq<MenuItem>): Cents
  {
    if items == [] then 0 else PriceTotal(items[..|items| - 1]) + items[|items| - 1].price
  }

  /** The quantity of the first row for `c`, or 0 when there is none. */
  function QuantityOf(rows: seq<CategoryStat>, c: string): nat
  {
    if rows == [] then 0 else if rows[0].category == c then rows[0].quantity else QuantityOf(rows[1..], c)
  }

  /** The revenue of the first row for `c`, or 0 when there is none. */
  function RevenueOf(rows: seq<CategoryStat>, c: string): Cents
  {
    if rows == [] then 0 else if rows[0].category == c then rows[0].revenue else RevenueOf(rows[1..], c)
  }

  function SumQuantity(rows: seq<CategoryStat>): nat
  {
    if rows == [] then 0 else rows[0].quantity + SumQuantity(rows[1..])
  }

  function SumRevenue(rows: seq<CategoryStat>): Cents
  {
    if rows == [] then 0 else rows[0].revenue + SumRevenue(rows[1..])
  }

  /** The categories that have a row. */
  function Categories(rows: seq<CategoryStat>): set<string>
  {
    if rows == [] then {} else {rows[0].category} + Categories(rows[1..])
  }

  /** Groups are disjoint: no row's category has another row after it. */
  predicate DistinctCategories(rows: seq<CategoryStat>)
  {
    rows == [] || (rows[0].category !in Categories(rows[1..]) && DistinctCategories(rows[1..]))
  }

  predicate AllPositive(rows: seq<CategoryStat>)
  {
    forall i :: 0 <= i < |rows| ==> rows[i].quantity > 0
  }

  /** The current price of menu item `id`, or 0 when there is none. */
  function PriceOf(id: Id, menu: map<Id, MenuItem>): Cents
  {
    if id in menu then menu[id].price else 0
  }

  /** The distinct ids in `ids` that name a menu item of category `c`. */
  function CategoryIds(ids: seq<Id>, menu: map<Id, MenuItem>, c: string): set<Id>
  {
    set id | id in ids && id in menu && menu[id].category == c
  }

  /** The current price total of a set of menu ids, summed in no particular order. */
  ghost function SetPrice(s: set<Id>, menu: map<Id, MenuItem>): Cents
  {
    if s == {} then 0 else var id :| id in s; PriceOf(id, menu) + SetPrice(s - {id}, menu)
  }

  /** The (payment, menu item of category `c`) pairs, counted by sets. */
  ghost function CategoryJoinCount(payments: seq<Payment>, menu: map<Id, MenuItem>, c: string): nat
  {
    if payments == [] then 0
    else
      CategoryJoinCount(payments[..|payments| - 1], menu, c) +
      |CategoryIds(payments[|payments| - 1].menuItemIds, menu, c)|
  }

  /** The current prices of those pairs' menu items, summed by sets. */
  ghost function CategoryJoinRevenue(payments: seq<Payment>, menu: map<Id, MenuItem>, c: string): Cents
  {
    if payments == [] then 0
    else
      CategoryJoinRevenue(payments[..|payments| - 1], menu, c) +
      SetPrice(CategoryIds(payments[|payments| - 1].menuItemIds, menu, c), menu)
  }

  /** The current prices of all join pairs' menu items, summed by sets. */
  ghost function JoinRevenue(payments: seq<Payment>, menu: map<Id, MenuItem>): Cents
  {
    if payments == [] then 0
    else
      JoinRevenue(payments[..|payments| - 1], menu) +
      SetPrice(IdSet(payments[|payments| - 1].menuItemIds) * menu.Keys, menu)
  }

  // The join.

  /**
   * A lookup yields one item per distinct listed id that names a menu item:
   * repeats are matched once and unknown ids contribute nothing.
   */
  lemma {:induction false} LookupCount(ids: seq<Id>, menu: map<Id, MenuItem>)
    ensures |LookupItems(ids, menu)| == |IdSet(ids) * menu.Keys|
  {
    if ids != [] {
      LookupCount(ids[..|ids| - 1], menu);
      MatchedSetStep(ids, menu);
    }
  }

  /**
   * One more listed id adds itself to the matched ids exactly when it names a
   * menu item and was not listed before.
   */
  lemma MatchedSetStep(ids: seq<Id>, menu: map<Id, MenuItem>)
    requires ids != []
    ensures var init, x := ids[..|ids| - 1], ids[|ids| - 1];
      if x in menu && x !in init then
        IdSet(ids) * menu.Keys == IdSet(init) * menu.Keys + {x} && x !in IdSet(init) * menu.Keys
      else
        IdSet(ids) * menu.Keys == IdSet(init) * menu.Keys
  {
    var init, x := ids[..|ids| - 1], ids[|ids| - 1];
    assert ids == init + [x];
    assert IdSet(ids) == IdSet(init) + {x};
  }

  /** Every looked-up item is the current menu entry of an id the payment lists. */
  lemma {:induction false} LookupFromMenu(ids: seq<Id>, menu: map<Id, MenuItem>)
    ensures forall it :: it in LookupItems(ids, menu) ==> exists id :: id in ids && id in menu && menu[id] == it
  {
    if ids != [] {
      var init := ids[..|ids| - 1];
      LookupFromMenu(init, menu);
      forall it | it in LookupItems(ids, menu)
        ensures exists id :: id in ids && id in menu && menu[id] == it
      {
        if it in LookupItems(init, menu) {
          var id :| id in init && id in menu && menu[id] == it;
          assert id in ids;
        } else {
          assert ids[|ids| - 1] in ids;
        }
      }
    }
  }

  /** Listing an id a second time, or an id with no menu item, changes nothing. */
  lemma RepeatedOrUnknownIdAddsNothing(ids: seq<Id>, x: Id, menu: map<Id, MenuItem>)
    requires x in ids || x !in menu
    ensures LookupItems(ids + [x], menu) == LookupItems(ids, menu)
  {
    assert (ids + [x])[..|ids|] == ids;
  }

  /** `$unwind` yields exactly as many line items as there are join pairs. */
  lemma {:induction false} LineItemsCount(payments: seq<Payment>, menu: map<Id, MenuItem>)
    ensures |LineItems(payments, menu)| == JoinCount(payments, menu)
  {
    if payments != [] {
      LineItemsCount(payments[..|payments| - 1], menu);
      LookupCount(payments[|payments| - 1].menuItemIds, menu);
    }
  }

  /** A payment none of whose ids names a menu item adds no line item. */
  lemma UnresolvablePaymentDropped(payments: seq<Payment>, p: Payment, menu: map<Id, MenuItem>)
    requires forall id :: id in p.menuItemIds ==> id !in menu
    ensures LineItems(payments + [p], menu) == LineItems(payments, menu)
  {
    assert IdSet(p.menuItemIds) * menu.Keys == {};
    LookupCount(p.menuItemIds, menu);
    assert (payments + [p])[..|payments|] == payments;
  }

  /**
   * Deleting menu item `x` removes one join pair for every payment that names
   * it, so those line items leave the report.
   */
  lemma {:induction false} DeletedMenuItemLeavesJoin(payments: seq<Payment>, menu: map<Id, MenuItem>, x: Id)
    requires x in menu
    ensures JoinCount(payments, menu - {x}) + RefCount(payments, x) == JoinCount(payments, menu)
  {
    if payments != [] {
      var s := IdSet(payments[|payments| - 1].menuItemIds);
      DeletedMenuItemLeavesJoin(payments[..|payments| - 1], menu, x);
      assert (menu - {x}).Keys == menu.Keys - {x};
      if x in s {
        assert s * menu.Keys == s * (menu - {x}).Keys + {x};
      } else {
        assert s * menu.Keys == s * (menu - {x}).Keys;
      }
    }
  }

  /** Every listed id that names a menu item yields that item: the lookup misses nothing. */
  lemma {:induction false} LookupComplete(ids: seq<Id>, menu: map<Id, MenuItem>)
    ensures forall id :: id in ids && id in menu ==> menu[id] in LookupItems(ids, menu)
  {
    if ids != [] {
      var init := ids[..|ids| - 1];
      var x := ids[|ids| - 1];
      LookupComplete(init, menu);
      assert ids == init + [x];
      forall id | id in ids && id in menu
        ensures menu[id] in LookupItems(ids, menu)
      {
        if id in init {
          assert menu[id] in LookupItems(init, menu);
        } else {
          assert id == x;
        }
      }
    }
  }

  /** A set's price total is any one member's price plus the rest's. */
  lemma SetPriceRemove(s: set<Id>, y: Id, menu: map<Id, MenuItem>)
    requires y in s
    ensures SetPrice(s, menu) == PriceOf(y, menu) + SetPrice(s - {y}, menu)
    decreases s
  {
    var x :| x in s && SetPrice(s, menu) == PriceOf(x, menu) + SetPrice(s - {x}, menu);
    if x != y {
      SetPriceRemove(s - {x}, y, menu);
      SetPriceRemove(s - {y}, x, menu);
      assert s - {x} - {y} == s - {y} - {x};
    }
  }

  /** Adding a new id to a set adds its price to the set's total. */
  lemma SetPriceAdd(s: set<Id>, x: Id, menu: map<Id, MenuItem>)
    requires x !in s
    ensures SetPrice(s + {x}, menu) == SetPrice(s, menu) + PriceOf(x, menu)
  {
    SetPriceRemove(s + {x}, x, menu);
    assert (s + {x}) - {x} == s;
  }

  /** Counts and sums over line items add up over a split of the items. */
  lemma {:induction false} ItemSumsConcat(a: seq<MenuItem>, b: seq<MenuItem>, c: string)
    ensures CountIn(a + b, c) == CountIn(a, c) + CountIn(b, c)
    ensures RevenueIn(a + b, c) == RevenueIn(a, c) + RevenueIn(b, c)
    ensures PriceTotal(a + b) == PriceTotal(a) + PriceTotal(b)
  {
    if b == [] {
      assert a + b == a;
    } else {
      var init := b[..|b| - 1];
      ItemSumsConcat(a, init, c);
      assert (a + b)[..|a + b| - 1] == a + init;
    }
  }

  /**
   * Per payment, the lookup yields one item of category `c` for each distinct
   * listed id naming a menu item of that category, at its current price.
   */
  lemma {:induction false} LookupByCategory(ids: seq<Id>, menu: map<Id, MenuItem>, c: string)
    ensures CountIn(LookupItems(ids, menu), c) == |CategoryIds(ids, menu, c)|
    ensures RevenueIn(LookupItems(ids, menu), c) == SetPrice(CategoryIds(ids, menu, c), menu)
  {
    if ids != [] {
      var init, x := ids[..|ids| - 1], ids[|ids| - 1];
      LookupByCategory(init, menu, c);
      LookupStep(ids, menu, c);
      CategoryIdsStep(ids, menu, c);
      if x in menu && x !in init && menu[x].category == c {
        SetPriceAdd(CategoryIds(init, menu, c), x, menu);
      }
    }
  }

  /** The lookup's counts and sums after one more listed id. */
  lemma LookupStep(ids: seq<Id>, menu: map<Id, MenuItem>, c: string)
    requires ids != []
    ensures var init, x := ids[..|ids| - 1], ids[|ids| - 1];
      var added := x in menu && x !in init;
      && CountIn(LookupItems(ids, menu), c) ==
           CountIn(LookupItems(init, menu), c) + (if added && menu[x].category == c then 1 else 0)
      && RevenueIn(LookupItems(ids, menu), c) ==
           RevenueIn(LookupItems(init, menu), c) + (if added && menu[x].category == c then menu[x].price else 0)
      && PriceTotal(LookupItems(ids, menu)) ==
           PriceTotal(LookupItems(init, menu)) + (if added then menu[x].price else 0)
  {
    var init, x := ids[..|ids| - 1], ids[|ids| - 1];
    var before := LookupItems(init, menu);
    var extra := if x in menu && x !in init then [menu[x]] else [];
    assert LookupItems(ids, menu) == before + extra;
    ItemSumsConcat(before, extra, c);
    assert extra != [] ==> extra[..0] == [];
  }

  /** The category's matched ids after one more listed id. */
  lemma CategoryIdsStep(ids: seq<Id>, menu: map<Id, MenuItem>, c: string)
    requires ids != []
    ensures var init, x := ids[..|ids| - 1], ids[|ids| - 1];
      if x in menu && x !in init && menu[x].category == c then
        CategoryIds(ids, menu, c) == CategoryIds(init, menu, c) + {x} && x !in CategoryIds(init, menu, c)
      else
        CategoryIds(ids, menu, c) == CategoryIds(init, menu, c)
  {
    var init, x := ids[..|ids| - 1], ids[|ids| - 1];
    assert ids == init + [x];
  }

  /** Per payment, the lookup's price total is that of the distinct listed ids in the menu. */
  lemma {:induction false} LookupPrice(ids: seq<Id>, menu: map<Id, MenuItem>)
    ensures PriceTotal(LookupItems(ids, menu)) == SetPrice(IdSet(ids) * menu.Keys, menu)
  {
    if ids != [] {
      var init, x := ids[..|ids| - 1], ids[|ids| - 1];
      LookupPrice(init, menu);
      LookupStep(ids, menu, "");
      MatchedSetStep(ids, menu);
      if x in menu && x !in init {
        SetPriceAdd(IdSet(init) * menu.Keys, x, menu);
      }
    }
  }

  /** Over the whole history, line items of category `c` are that category's join pairs. */
  lemma {:induction false} LineItemsByCategory(payments: seq<Payment>, menu: map<Id, MenuItem>, c: string)
    ensures CountIn(LineItems(payments, menu), c) == CategoryJoinCount(payments, menu, c)
    ensures RevenueIn(LineItems(payments, menu), c) == CategoryJoinRevenue(payments, menu, c)
  {
    if payments != [] {
      var init := payments[..|payments| - 1];
      var ids := payments[|payments| - 1].menuItemIds;
      LineItemsByCategory(init, menu, c);
      ItemSumsConcat(LineItems(init, menu), LookupItems(ids, menu), c);
      LookupByCategory(ids, menu, c);
    }
  }

  /** Over the whole history, the line items' price total is the join's. */
  lemma {:induction false} LineItemsPrice(payments: seq<Payment>, menu: map<Id, MenuItem>)
    ensures PriceTotal(LineItems(payments, menu)) == JoinRevenue(payments, menu)
  {
    if payments != [] {
      var init := payments[..|payments| - 1];
      var ids := payments[|payments| - 1].menuItemIds;
      LineItemsPrice(init, menu);
      ItemSumsConcat(LineItems(init, menu), LookupItems(ids, menu), "");
      LookupPrice(ids, menu);
    }
  }

  /** Category `c` has join pairs exactly when some payment lists an existing item of that category. */
  lemma {:induction false} CategoryJoinCountPositive(payments: seq<Payment>, menu: map<Id, MenuItem>, c: string)
    ensures CategoryJoinCount(payments, menu, c) > 0 <==>
      exists k, id :: 0 <= k < |payments| && id in payments[k].menuItemIds && id in menu && menu[id].category == c
  {
    if payments != [] {
      var init := payments[..|payments| - 1];
      var n := |payments| - 1;
      var s := CategoryIds(payments[n].menuItemIds, menu, c);
      CategoryJoinCountPositive(init, menu, c);
      if exists k, id :: 0 <= k < |init| && id in init[k].menuItemIds && id in menu && menu[id].category == c {
        var k, id :| 0 <= k < |init| && id in init[k].menuItemIds && id in menu && menu[id].category == c;
        assert payments[k] == init[k];
      }
      if s != {} {
        var id :| id in s;
        assert id in payments[n].menuItemIds;
      }
      if exists k, id :: 0 <= k < |payments| && id in payments[k].menuItemIds && id in menu && menu[id].category == c {
        var k, id :| 0 <= k < |payments| && id in payments[k].menuItemIds && id in menu && menu[id].category == c;
        if k < n {
          assert init[k] == payments[k];
        } else {
          assert id in s;
        }
      }
    }
  }

  // The grouping.

  /** Tallying an item bumps its category's row (creating it if new) and no other. */
  lemma {:induction false} TallyLookup(rows: seq<CategoryStat>, item: MenuItem, c: string)
    ensures QuantityOf(Tally(rows, item), c) == QuantityOf(rows, c) + (if c == item.category then 1 else 0)
    ensures RevenueOf(Tally(rows, item), c) == RevenueOf(rows, c) + (if c == item.category then item.price else 0)
    ensures SumQuantity(Tally(rows, item)) == SumQuantity(rows) + 1
    ensures SumRevenue(Tally(rows, item)) == SumRevenue(rows) + item.price
  {
    if rows != [] && rows[0].category != item.category {
      TallyLookup(rows[1..], item, c);
      assert Tally(rows, item)[1..] == Tally(rows[1..], item);
    } else if rows != [] {
      assert Tally(rows, item)[1..] == rows[1..];
    }
  }

  /** Tallying adds the item's category to the categories, and no other. */
  lemma {:induction false} TallyCategories(rows: seq<CategoryStat>, item: MenuItem)
    ensures Categories(Tally(rows, item)) == Categories(rows) + {item.category}
  {
    if rows != [] && rows[0].category != item.category {
      TallyCategories(rows[1..], item);
      assert Tally(rows, item)[1..] == Tally(rows[1..], item);
    } else if rows != [] {
      assert Tally(rows, item)[1..] == rows[1..];
    }
  }

  /** Tallying keeps the rows one per category and none of them empty. */
  lemma {:induction false} TallyShape(rows: seq<CategoryStat>, item: MenuItem)
    requires DistinctCategories(rows) && AllPositive(rows)
    ensures DistinctCategories(Tally(rows, item)) && AllPositive(Tally(rows, item))
  {
    var t := Tally(rows, item);
    if rows == [] {
      assert t[1..] == [];
    } else if rows[0].category == item.category {
      assert t[1..] == rows[1..];
      assert forall i :: 1 <= i < |rows| ==> t[i] == rows[i];
    } else {
      var rest := rows[1..];
      assert AllPositive(rest) by {
        assert forall i :: 0 <= i < |rest| ==> rest[i] == rows[i + 1];
      }
      TallyShape(rest, item);
      TallyCategories(rest, item);
      assert t[1..] == Tally(rest, item);
      assert forall i :: 1 <= i < |t| ==> t[i] == Tally(rest, item)[i - 1];
    }
  }

  /** A category occurs among the line items exactly when its count is positive. */
  lemma {:induction false} CountInPositive(items: seq<MenuItem>, c: string)
    ensures CountIn(items, c) > 0 <==> exists k :: 0 <= k < |items| && items[k].category == c
  {
    if items != [] {
      var init := items[..|items| - 1];
      CountInPositive(init, c);
      if exists k :: 0 <= k < |init| && init[k].category == c {
        var k :| 0 <= k < |init| && init[k].category == c;
        assert items[k].category == c;
      }
      if exists k :: 0 <= k < |items| && items[k].category == c {
        var k :| 0 <= k < |items| && items[k].category == c;
        if k < |init| {
          assert init[k].category == c;
        }
      }
    }
  }

  /**
   * Grouping by category: one row per category present among the items,
   * none empty; each row's quantity and revenue are that category's count and
   * price total; the quantities add up to the number of items and the revenues
   * to their price total.
   */
  lemma {:induction false} GroupByCategoryCorrect(items: seq<MenuItem>)
    ensures DistinctCategories(GroupByCategory(items)) && AllPositive(GroupByCategory(items))
    ensures forall c :: QuantityOf(GroupByCategory(items), c) == CountIn(items, c)
    ensures forall c :: RevenueOf(GroupByCategory(items), c) == RevenueIn(items, c)
    ensures forall c :: c in Categories(GroupByCategory(items)) <==> CountIn(items, c) > 0
    ensures SumQuantity(GroupByCategory(items)) == |items|
    ensures SumRevenue(GroupByCategory(items)) == PriceTotal(items)
  {
    if items != [] {
      var init := items[..|items| - 1];
      var last := items[|items| - 1];
      var g := GroupByCategory(init);
      GroupByCategoryCorrect(init);
      TallyShape(g, last);
      TallyCategories(g, last);
      forall c
        ensures QuantityOf(Tally(g, last), c) == CountIn(items, c)
        ensures RevenueOf(Tally(g, last), c) == RevenueIn(items, c)
      {
        TallyLookup(g, last, c);
      }
      TallyLookup(g, last, last.category);
    }
  }

  /** In rows with one row per category, a row is what the lookup by its category finds. */
  lemma {:induction false} RowIsItsCategory(rows: seq<CategoryStat>, i: nat)
    requires DistinctCategories(rows) && i < |rows|
    ensures QuantityOf(rows, rows[i].category) == rows[i].quantity
    ensures RevenueOf(rows, rows[i].category) == rows[i].revenue
  {
    if i > 0 {
      var rest := rows[1..];
      assert rest[i - 1] == rows[i];
      RowIsItsCategory(rest, i - 1);
      CategoryOfRow(rest, i - 1);
    }
  }

  lemma {:induction false} CategoryOfRow(rows: seq<CategoryStat>, i: nat)
    requires i < |rows|
    ensures rows[i].category in Categories(rows)
  {
    if i > 0 {
      CategoryOfRow(rows[1..], i - 1);
    }
  }

  /**
   * The order-statistics report: disjoint groups, one for each category of an
   * existing menu item that some payment lists, and no other; each row counts
   * its category's (payment, menu item) pairs and sums those items' current
   * prices; the quantities add up to all join pairs and the revenues to all
   * their prices.
   */
  lemma OrderStatsCorrect(payments: seq<Payment>, menu: map<Id, MenuItem>)
    ensures DistinctCategories(OrderStats(payments, menu))
    ensures forall i :: 0 <= i < |OrderStats(payments, menu)| ==>
      0 < OrderStats(payments, menu)[i].quantity == CategoryJoinCount(payments, menu, OrderStats(payments, menu)[i].category) &&
      OrderStats(payments, menu)[i].revenue == CategoryJoinRevenue(payments, menu, OrderStats(payments, menu)[i].category)
    ensures forall c :: c in Categories(OrderStats(payments, menu)) <==>
      exists k, id :: 0 <= k < |payments| && id in payments[k].menuItemIds && id in menu && menu[id].category == c
    ensures SumQuantity(OrderStats(payments, menu)) == JoinCount(payments, menu)
    ensures SumRevenue(OrderStats(payments, menu)) == JoinRevenue(payments, menu)
  {
    var items := LineItems(payments, menu);
    var rows := OrderStats(payments, menu);
    GroupByCategoryCorrect(items);
    LineItemsCount(payments, menu);
    LineItemsPrice(payments, menu);
    forall i | 0 <= i < |rows|
      ensures rows[i].quantity == CategoryJoinCount(payments, menu, rows[i].category)
      ensures rows[i].revenue == CategoryJoinRevenue(payments, menu, rows[i].category)
    {
      RowIsItsCategory(rows, i);
      LineItemsByCategory(payments, menu, rows[i].category);
    }
    forall c
      ensures c in Categories(rows) <==>
        exists k, id :: 0 <= k < |payments| && id in payments[k].menuItemIds && id in menu && menu[id].category == c
    {
      LineItemsByCategory(payments, menu, c);
      CategoryJoinCountPositive(payments, menu, c);
    }
  }
}
