/** The order history page of src/pages/Orders.js: newest-first loading,
    the single expanded order, and the status badge. */
module OrdersPage {
  import opened Wrappers
  import opened Records
  import IndexScan
  import Db
  import AuthContext

  // ---------------------------------------------------------------- sorting

  /** `orders.sort((a, b) => new Date(b.orderDate) - new Date(a.orderDate))`:
      `Array.prototype.sort` is stable, so this is a stable sort on
      decreasing date. It is written here as insertion from the back: the
      first element is inserted ahead of every element that is not newer. */
  function SortNewestFirst(s: seq<Order>): (r: seq<Order>)
    ensures |r| == |s|
  {
    if s == [] then [] else Insert(s[0], SortNewestFirst(s[1..]))
  }

  function Insert(x: Order, t: seq<Order>): (r: seq<Order>)
    ensures |r| == |t| + 1
  {
    if t == [] || x.orderDate >= t[0].orderDate then [x] + t
    else [t[0]] + Insert(x, t[1..])
  }

  predicate NewestFirst(s: seq<Order>) {
    forall i, j :: 0 <= i < j < |s| ==> s[i].orderDate >= s[j].orderDate
  }

  /** The orders placed at `date`, in their order. */
  function AtDate(s: seq<Order>, date: int): (r: seq<Order>)
    ensures |r| <= |s|
  {
    if s == [] then []
    else (if s[0].orderDate == date then [s[0]] else []) + AtDate(s[1..], date)
  }

  lemma {:induction false} InsertPermutes(x: Order, t: seq<Order>)
    ensures multiset(Insert(x, t)) == multiset(t) + multiset{x}
  {
    if !(t == [] || x.orderDate >= t[0].orderDate) {
      InsertPermutes(x, t[1..]);
      assert t == [t[0]] + t[1..];
    }
  }

  /** The inserted list starts with the new element or with the old head. */
  lemma InsertHead(x: Order, t: seq<Order>)
    ensures Insert(x, t)[0] == x || (t != [] && Insert(x, t)[0] == t[0])
  {
  }

  lemma {:induction false} InsertSorted(x: Order, t: seq<Order>)
    requires NewestFirst(t)
    ensures NewestFirst(Insert(x, t))
  {
    if !(t == [] || x.orderDate >= t[0].orderDate) {
      var rest := Insert(x, t[1..]);
      InsertSorted(x, t[1..]);
      InsertHead(x, t[1..]);
      var r := [t[0]] + rest;
      assert rest[0].orderDate <= t[0].orderDate;
      forall i, j | 0 <= i < j < |r| ensures r[i].orderDate >= r[j].orderDate {
        assert r[j] == rest[j - 1];
        if i > 0 {
          assert r[i] == rest[i - 1];
        } else {
          assert rest[0].orderDate >= rest[j - 1].orderDate;
        }
      }
    }
  }

  /** Inserting never moves the new element past an order of its own date,
      so the orders of each date keep their relative order. */
  lemma {:induction false} InsertKeepsDateOrder(x: Order, t: seq<Order>, d: int)
    ensures AtDate(Insert(x, t), d) == (if x.orderDate == d then [x] else []) + AtDate(t, d)
  {
    var hx := if x.orderDate == d then [x] else [];
    if t == [] || x.orderDate >= t[0].orderDate {
      assert ([x] + t)[1..] == t;
      assert AtDate([x] + t, d) == hx + AtDate(t, d);
    } else {
      var rest := Insert(x, t[1..]);
      InsertKeepsDateOrder(x, t[1..], d);
      var h0 := if t[0].orderDate == d then [t[0]] else [];
      assert ([t[0]] + rest)[1..] == rest;
      assert AtDate([t[0]] + rest, d) == h0 + (hx + AtDate(t[1..], d));
      assert AtDate(t, d) == h0 + AtDate(t[1..], d);
      assert hx == [] || h0 == [];
    }
  }

  /** The displayed list is the stored list reordered newest first; orders
      with the same date keep their stored order. */
  lemma {:induction false} SortFacts(s: seq<Order>)
    ensures NewestFirst(SortNewestFirst(s))
    ensures multiset(SortNewestFirst(s)) == multiset(s)
    ensures forall d :: AtDate(SortNewestFirst(s), d) == AtDate(s, d)
  {
    if s != [] {
      var t := SortNewestFirst(s[1..]);
      SortFacts(s[1..]);
      InsertPermutes(s[0], t);
      InsertSorted(s[0], t);
      forall d ensures AtDate(SortNewestFirst(s), d) == AtDate(s, d) {
        InsertKeepsDateOrder(s[0], t, d);
      }
      assert s == [s[0]] + s[1..];
    }
  }

  /** Sorting a list that is already newest first changes nothing. */
  lemma {:induction false} SortSorted(s: seq<Order>)
    requires NewestFirst(s)
    ensures SortNewestFirst(s) == s
  {
    if s != [] {
      SortSorted(s[1..]);
      assert SortNewestFirst(s[1..]) == s[1..];
      if |s| > 1 {
        assert s[0].orderDate >= s[1].orderDate;
      }
    }
  }

  // ---------------------------------------------------------------- expansion

  /** `toggleOrderExpansion`: collapse the expanded order, or expand another
      one in its place. Orders are told apart by their display id. */
  function Toggle(expanded: Option<string>, orderId: string): (r: Option<string>)
    ensures r == None || r == Some(orderId)
  {
    if expanded == Some(orderId) then None else Some(orderId)
  }

  /** Toggling the expanded order collapses it, toggling any other expands
      just that one, and toggling twice from collapsed is collapsed again. */
  lemma ToggleFacts(expanded: Option<string>, orderId: string)
    ensures Toggle(Some(orderId), orderId) == None
    ensures expanded != Some(orderId) ==> Toggle(expanded, orderId) == Some(orderId)
    ensures Toggle(Toggle(None, orderId), orderId) == None
  {
  }

  // ---------------------------------------------------------------- status

  /** `getStatusColor`. */
  function StatusColor(status: string): (c: string)
    ensures status !in {"confirmed", "processing", "shipped", "delivered"} ==> c == "text-gray-600 bg-gray-100"
  {
    if status == "confirmed" then "text-green-600 bg-green-100"
    else if status == "processing" then "text-blue-600 bg-blue-100"
    else if status == "shipped" then "text-purple-600 bg-purple-100"
    else if status == "delivered" then "text-emerald-600 bg-emerald-100"
    else "text-gray-600 bg-gray-100"
  }

  /** The four known statuses get four different classes, none of them the
      default. */
  lemma StatusColorsDistinct()
    ensures |{StatusColor("confirmed"), StatusColor("processing"), StatusColor("shipped"),
              StatusColor("delivered"), StatusColor("")}| == 5
  {
  }

  /** `toUpperCase` on one character, for the ASCII letters. */
  function UpperAscii(c: char): (u: char)
    ensures 'a' <= c <= 'z' ==> 'A' <= u <= 'Z' && u as int == c as int - 32
    ensures !('a' <= c <= 'z') ==> u == c
  {
    if 'a' <= c <= 'z' then (c as int - 32) as char else c
  }

  /** `status.charAt(0).toUpperCase() + status.slice(1)`. */
  function StatusLabel(status: string): (r: string)
    ensures |r| == |status|
    ensures status != [] ==> r[0] == UpperAscii(status[0]) && r[1..] == status[1..]
  {
    if status == [] then [] else [UpperAscii(status[0])] + status[1..]
  }

  lemma ConfirmedLabel()
    ensures StatusLabel(Confirmed) == "Confirmed"
  {
  }

  // ---------------------------------------------------------------- the page

  class OrdersPageState {
    const db: Db.IndexedDBManager
    const session: AuthContext.Session
    var orders: seq<Order>
    var loading: bool
    var expanded: Option<string>

    /** The page reads the orders of the session's user from the one
        `dbManager` the session also uses. */
    constructor (db: Db.IndexedDBManager, session: AuthContext.Session)
      requires session.db == db
      ensures this.db == db && this.session == session && this.session.db == this.db
      ensures orders == [] && loading && expanded == None
    {
      this.db := db;
      this.session := session;
      orders := [];
      loading := true;
      expanded := None;
    }

    /** `loadOrders`: with no user it does nothing, so the page keeps
        loading; otherwise it shows the user's orders newest first (a failed
        read keeps the old list) and stops loading. */
    method LoadOrders(ioFault: bool)
      requires db.Valid()
      modifies this`orders, this`loading, db`stores
      ensures db.Valid()
      ensures session.user.None? ==> orders == old(orders) && loading == old(loading) && db.stores == old(db.stores)
      ensures session.user.Some? ==> !loading
      ensures session.user.Some? && ioFault ==> orders == old(orders)
      ensures session.user.Some? && !ioFault ==>
        var e := session.user.value.email;
        var stored := IndexScan.Scan(db.orders, OrderOwner, e, db.nextOrderKey);
        && orders == SortNewestFirst(stored)
        && NewestFirst(orders)
        && multiset(orders) == multiset(stored)
        && (forall o :: o in orders <==> o in db.orders.Values && o.userEmail == e)
    {
      if session.user.None? {
        return;
      }
      var e := session.user.value.email;
      var r := db.GetOrders(e, ioFault);
      if r.Ok? {
        orders := SortNewestFirst(r.value);
        SortFacts(r.value);
        forall o ensures o in orders <==> o in r.value {
          assert o in orders <==> o in multiset(orders);
          assert o in r.value <==> o in multiset(r.value);
        }
      }
      loading := false;
    }

    method ToggleOrderExpansion(orderId: string)
      modifies this`expanded
      ensures expanded == Toggle(old(expanded), orderId)
    {
      expanded := Toggle(expanded, orderId);
    }

    /** Whether an order shows its details. */
    function IsExpanded(o: Order): bool
      reads this
    {
      expanded == Some(o.orderId)
    }
  }

  /** Expansion is keyed on the display id, so two orders whose ids collide
      are expanded together. */
  lemma SharedIdExpandsBoth(p: OrdersPageState, a: Order, b: Order)
    requires a.orderId == b.orderId && p.IsExpanded(a)
    ensures p.IsExpanded(b)
  {
  }
}
