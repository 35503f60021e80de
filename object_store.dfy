/** The `IndexedDBManager` of src/utils/db.js: one database with three object
    stores, modelled as maps plus one key generator per auto-increment store.
    The underlying IndexedDB request machinery is not modelled: each method
    takes `ioFault`, the environment's verdict on whether its request fails.
    A failed request aborts its transaction, so it changes no record and no
    key generator. */
module Db {
  import opened Wrappers
  import opened Records
  import IndexScan

  datatype IndexSchema = IndexSchema(name: string, keyPath: string, unique: bool)

  /** What `createObjectStore` and `createIndex` declare for one store. */
  datatype StoreSchema = StoreSchema(keyPath: string, autoIncrement: bool, indexes: seq<IndexSchema>)

  const UsersSchema: StoreSchema :=
    StoreSchema("email", false, [IndexSchema("email", "email", true)])
  const CartSchema: StoreSchema :=
    StoreSchema("id", true, [IndexSchema("userEmail", "userEmail", false)])
  const OrdersSchema: StoreSchema :=
    StoreSchema("id", true, [IndexSchema("userEmail", "userEmail", false),
                             IndexSchema("orderDate", "orderDate", false)])

  /** The `onupgradeneeded` handler: each of the three stores is created only
      when the database does not already hold a store of that name. */
  function UpgradedSchema(s: map<string, StoreSchema>): (r: map<string, StoreSchema>)
    ensures r.Keys == s.Keys + {"users", "cart", "orders"}
    ensures forall n :: n in s ==> r[n] == s[n]
    ensures "users" !in s ==> r["users"] == UsersSchema
    ensures "cart" !in s ==> r["cart"] == CartSchema
    ensures "orders" !in s ==> r["orders"] == OrdersSchema
  {
    var withUsers := if "users" in s then s else s["users" := UsersSchema];
    var withCart := if "cart" in withUsers then withUsers else withUsers["cart" := CartSchema];
    if "orders" in withCart then withCart else withCart["orders" := OrdersSchema]
  }

  /** Running the upgrade on an upgraded database changes nothing, so the
      manager's opening of the database before every request is the same as
      upgrading it once. */
  lemma UpgradeIdempotent(s: map<string, StoreSchema>)
    ensures UpgradedSchema(UpgradedSchema(s)) == UpgradedSchema(s)
  {
  }

  datatype DbError =
    | ConstraintError          // `add` of a key that is already stored
    | NotFound(message: string) // the rejection of `updateCartItem`
    | IoError                  // any failed request

  datatype DbResult<T> = Ok(value: T) | Err(error: DbError)

  const ItemNotFound: string := "Item not found"

  /** The cart rows that do not belong to `e`. */
  function WithoutOwner(m: map<int, CartItem>, e: string): (r: map<int, CartItem>)
    ensures forall k :: k in r <==> k in m && m[k].userEmail != e
    ensures forall k :: k in r ==> r[k] == m[k]
  {
    map k | k in m && m[k].userEmail != e :: m[k]
  }

  /** The keys carried by a list of cart rows. */
  function KeysOf(items: seq<CartItem>): set<int> {
    set x | x in items :: x.id
  }

  /** The keys of `e`'s scanned rows are exactly the keys of `e`'s rows. */
  lemma KeysOfScan(m: map<int, CartItem>, e: string, hi: int)
    requires forall k :: k in m ==> m[k].id == k
    ensures KeysOf(IndexScan.Scan(m, CartOwner, e, hi)) == IndexScan.MatchingKeys(m, CartOwner, e, hi)
  {
    var items := IndexScan.Scan(m, CartOwner, e, hi);
    var matching := IndexScan.MatchingKeys(m, CartOwner, e, hi);
    IndexScan.ScanSorted(m, CartOwner, CartKey, e, hi);
    forall k | k in matching ensures k in KeysOf(items) {
      IndexScan.ScanMembers(m, CartOwner, e, hi, m[k]);
    }
    forall k | k in KeysOf(items) ensures k in matching {
      var x :| x in items && x.id == k;
      var i :| 0 <= i < |items| && items[i] == x;
    }
  }

  /** Deleting the keys of `e`'s scanned rows removes exactly `e`'s rows, and
      the number of rows removed is the length of the scan. */
  lemma ClearPartition(m: map<int, CartItem>, e: string, hi: int)
    requires forall k :: k in m ==> 1 <= k < hi && m[k].id == k
    ensures m - KeysOf(IndexScan.Scan(m, CartOwner, e, hi)) == WithoutOwner(m, e)
    ensures |m| == |WithoutOwner(m, e)| + |IndexScan.Scan(m, CartOwner, e, hi)|
  {
    KeysOfScan(m, e, hi);
    IndexScan.ScanCount(m, CartOwner, e, hi);
    MinusMatching(m, e, hi);
  }

  /** `e`'s keys and the rest split the store in two. */
  lemma MinusMatching(m: map<int, CartItem>, e: string, hi: int)
    requires forall k :: k in m ==> 1 <= k < hi
    ensures m - IndexScan.MatchingKeys(m, CartOwner, e, hi) == WithoutOwner(m, e)
    ensures |m| == |WithoutOwner(m, e)| + |IndexScan.MatchingKeys(m, CartOwner, e, hi)|
  {
    var matching := IndexScan.MatchingKeys(m, CartOwner, e, hi);
    var rest := WithoutOwner(m, e);
    forall k ensures k in m - matching <==> k in rest {
      assert k in matching <==> k in m && m[k].userEmail == e;
    }
    assert (m - matching).Keys == rest.Keys;
    assert m - matching == rest;
    forall k | k in m ensures k in rest.Keys + matching {
      assert m[k].userEmail == e ==> k in matching;
    }
    assert m.Keys == rest.Keys + matching;
    SplitCount(m.Keys, rest.Keys, matching);
  }

  lemma SplitCount(all: set<int>, a: set<int>, b: set<int>)
    requires all == a + b && a * b == {}
    ensures |all| == |a| + |b|
  {
  }

  /** What `clearCart` leaves behind once every fetched row is deleted. */
  lemma Cleared(before: map<int, CartItem>, after: map<int, CartItem>, e: string, hi: int)
    requires forall k :: k in before ==> 1 <= k < hi && before[k].id == k
    requires after == before - KeysOf(IndexScan.Scan(before, CartOwner, e, hi))
    ensures after == WithoutOwner(before, e)
    ensures |after| == |before| - |IndexScan.Scan(before, CartOwner, e, hi)|
    ensures forall k :: k in after ==> 1 <= k < hi && after[k].id == k
  {
    ClearPartition(before, e, hi);
  }

  class IndexedDBManager {
    const dbName: string
    const dbVersion: int
    /** The object stores the database holds, by name. */
    var stores: map<string, StoreSchema>
    /** `users`, keyed by email. */
    var users: map<string, User>
    /** `cart`, keyed by the generated id. */
    var cart: map<int, CartItem>
    /** `orders`, keyed by the generated id. */
    var orders: map<int, Order>
    /** The key generators' current numbers: the next key each will hand out. */
    var nextCartKey: int
    var nextOrderKey: int

    ghost predicate Valid()
      reads this
    {
      && (forall k :: k in users ==> users[k].email == k)
      && 1 <= nextCartKey
      && (forall k :: k in cart ==> 1 <= k < nextCartKey && cart[k].id == k)
      && 1 <= nextOrderKey
      && (forall k :: k in orders ==> 1 <= k < nextOrderKey && orders[k].id == k)
      && ("users" !in stores ==> users == map[])
      && ("cart" !in stores ==> cart == map[] && nextCartKey == 1)
      && ("orders" !in stores ==> orders == map[] && nextOrderKey == 1)
    }

    /** A browser that has never opened the database. */
    constructor ()
      ensures Valid()
      ensures dbName == "anantaPerfumeDB" && dbVersion == 1
      ensures stores == map[] && users == map[] && cart == map[] && orders == map[]
      ensures nextCartKey == 1 && nextOrderKey == 1
    {
      dbName, dbVersion := "anantaPerfumeDB", 1;
      stores, users, cart, orders := map[], map[], map[], map[];
      nextCartKey, nextOrderKey := 1, 1;
    }

    /** `initDB`: open the database, running the upgrade handler. */
    method InitDB()
      requires Valid()
      modifies this`stores
      ensures Valid()
      ensures stores == UpgradedSchema(old(stores))
    {
      if "users" !in stores {
        stores := stores["users" := UsersSchema];
      }
      if "cart" !in stores {
        stores := stores["cart" := CartSchema];
      }
      if "orders" !in stores {
        stores := stores["orders" := OrdersSchema];
      }
    }

    /** `addUser`: a no-overwrite `add` into `users`; an email already stored
        is a constraint error and the stored user is left as it was. */
    method AddUser(u: User, ioFault: bool) returns (r: DbResult<string>)
      requires Valid()
      modifies this`stores, this`users
      ensures Valid() && stores == UpgradedSchema(old(stores))
      ensures ioFault ==> r == Err(IoError) && users == old(users)
      ensures !ioFault && u.email in old(users) ==> r == Err(ConstraintError) && users == old(users)
      ensures !ioFault && u.email !in old(users) ==> r == Ok(u.email) && users == old(users)[u.email := u]
    {
      InitDB();
      if ioFault {
        return Err(IoError);
      }
      if u.email in users {
        return Err(ConstraintError);
      }
      users := users[u.email := u];
      r := Ok(u.email);
    }

    /** `getUser`: the stored user with that email, or none. */
    method GetUser(email: string, ioFault: bool) returns (r: DbResult<Option<User>>)
      requires Valid()
      modifies this`stores
      ensures Valid() && stores == UpgradedSchema(old(stores))
      ensures ioFault ==> r == Err(IoError)
      ensures !ioFault ==> r.Ok? && (r.value.Some? <==> email in users)
      ensures !ioFault && email in users ==> r.value == Some(users[email]) && r.value.value.email == email
    {
      InitDB();
      if ioFault {
        return Err(IoError);
      }
      r := Ok(if email in users then Some(users[email]) else None);
    }

    /** `addToCart`: the row is stored under the key generator's current
        number, which is returned; the generator moves past it, so the key is
        above every key the store has handed out before. */
    method AddToCart(item: CartItem, ioFault: bool) returns (r: DbResult<int>)
      requires Valid()
      modifies this`stores, this`cart, this`nextCartKey
      ensures Valid() && stores == UpgradedSchema(old(stores))
      ensures ioFault ==> r == Err(IoError) && cart == old(cart) && nextCartKey == old(nextCartKey)
      ensures !ioFault ==> r == Ok(old(nextCartKey))
      ensures !ioFault ==> old(nextCartKey) !in old(cart) && (forall k :: k in old(cart) ==> k < r.value)
      ensures !ioFault ==> cart == old(cart)[r.value := item.(id := r.value)] && nextCartKey == r.value + 1
    {
      InitDB();
      if ioFault {
        return Err(IoError);
      }
      var key := nextCartKey;
      cart := cart[key := item.(id := key)];
      nextCartKey := key + 1;
      r := Ok(key);
    }

    /** `getCartItems`: the `userEmail` index scan. */
    method GetCartItems(e: string, ioFault: bool) returns (r: DbResult<seq<CartItem>>)
      requires Valid()
      modifies this`stores
      ensures Valid() && stores == UpgradedSchema(old(stores))
      ensures ioFault ==> r == Err(IoError)
      ensures !ioFault ==> r == Ok(IndexScan.Scan(cart, CartOwner, e, nextCartKey))
      ensures !ioFault ==> forall x :: x in r.value <==> x in cart.Values && x.userEmail == e
      ensures !ioFault ==> forall i, j :: 0 <= i < j < |r.value| ==> r.value[i].id < r.value[j].id
    {
      InitDB();
      if ioFault {
        return Err(IoError);
      }
      var rows := IndexScan.Scan(cart, CartOwner, e, nextCartKey);
      IndexScan.ScanSorted(cart, CartOwner, CartKey, e, nextCartKey);
      forall x ensures x in rows <==> x in cart.Values && x.userEmail == e {
        IndexScan.ScanMembers(cart, CartOwner, e, nextCartKey, x);
        if x in cart.Values && x.userEmail == e {
          var k :| k in cart && cart[k] == x;
          assert k in IndexScan.MatchingKeys(cart, CartOwner, e, nextCartKey);
        }
      }
      r := Ok(rows);
    }

    /** `updateCartItem(itemId, { quantity })`: read, overwrite the quantity,
        write back. Only that row's quantity changes; an absent id is rejected
        with "Item not found". */
    method UpdateCartItem(id: int, quantity: int, ioFault: bool) returns (r: DbResult<int>)
      requires Valid()
      modifies this`stores, this`cart
      ensures Valid() && stores == UpgradedSchema(old(stores))
      ensures ioFault ==> r == Err(IoError) && cart == old(cart)
      ensures !ioFault && id !in old(cart) ==> r == Err(NotFound(ItemNotFound)) && cart == old(cart)
      ensures !ioFault && id in old(cart) ==>
        r == Ok(id) && cart == old(cart)[id := old(cart)[id].(quantity := quantity)]
    {
      InitDB();
      if ioFault {
        return Err(IoError);
      }
      if id !in cart {
        return Err(NotFound(ItemNotFound));
      }
      cart := cart[id := cart[id].(quantity := quantity)];
      r := Ok(id);
    }

    /** `removeCartItem`: delete one key; deleting an absent key succeeds. */
    method RemoveCartItem(id: int, ioFault: bool) returns (r: DbResult<()>)
      requires Valid()
      modifies this`stores, this`cart
      ensures Valid() && stores == UpgradedSchema(old(stores))
      ensures ioFault ==> r == Err(IoError) && cart == old(cart)
      ensures !ioFault ==> r == Ok(()) && cart == old(cart) - {id}
    {
      InitDB();
      if ioFault {
        return Err(IoError);
      }
      cart := cart - {id};
      r := Ok(());
    }

    /** `clearCart`: fetch `e`'s rows through the index, delete each, and
        resolve with how many there were. Other users' rows stay. */
    method ClearCart(e: string, ioFault: bool) returns (r: DbResult<int>)
      requires Valid()
      modifies this`stores, this`cart
      ensures Valid() && stores == UpgradedSchema(old(stores))
      ensures ioFault ==> r == Err(IoError) && cart == old(cart)
      ensures !ioFault ==> cart == WithoutOwner(old(cart), e)
      ensures !ioFault ==> r == Ok(|old(cart)| - |cart|)
    {
      InitDB();
      if ioFault {
        return Err(IoError);
      }
      var n := DeleteRowsOf(e);
      r := Ok(n);
    }

    /** The body of the `clearCart` transaction once the store is open:
        scan `e`'s rows, delete each, count them. */
    method DeleteRowsOf(e: string) returns (n: int)
      requires Valid()
      modifies this`cart
      ensures Valid()
      ensures cart == WithoutOwner(old(cart), e) && n == |old(cart)| - |cart|
    {
      var items := IndexScan.Scan(cart, CartOwner, e, nextCartKey);
      ghost var before := cart;
      DeleteEach(items);
      Cleared(before, cart, e, nextCartKey);
      n := |items|;
    }

    /** The `store.delete(item.id)` requests that `clearCart` issues, one per
        fetched row. */
    method DeleteEach(items: seq<CartItem>)
      modifies this`cart
      ensures cart == old(cart) - KeysOf(items)
    {
      var i := 0;
      while i < |items|
        invariant 0 <= i <= |items|
        invariant cart == old(cart) - KeysOf(items[..i])
      {
        assert KeysOf(items[..i + 1]) == KeysOf(items[..i]) + {items[i].id} by {
          assert items[..i + 1] == items[..i] + [items[i]];
        }
        cart := cart - {items[i].id};
        i := i + 1;
      }
      assert items[..i] == items;
    }

    /** `addOrder`: as `addToCart`, for the `orders` store. */
    method AddOrder(order: Order, ioFault: bool) returns (r: DbResult<int>)
      requires Valid()
      modifies this`stores, this`orders, this`nextOrderKey
      ensures Valid() && stores == UpgradedSchema(old(stores))
      ensures ioFault ==> r == Err(IoError) && orders == old(orders) && nextOrderKey == old(nextOrderKey)
      ensures !ioFault ==> r == Ok(old(nextOrderKey))
      ensures !ioFault ==> old(nextOrderKey) !in old(orders) && (forall k :: k in old(orders) ==> k < r.value)
      ensures !ioFault ==> orders == old(orders)[r.value := order.(id := r.value)] && nextOrderKey == r.value + 1
    {
      InitDB();
      if ioFault {
        return Err(IoError);
      }
      var key := nextOrderKey;
      orders := orders[key := order.(id := key)];
      nextOrderKey := key + 1;
      r := Ok(key);
    }

    /** `getOrders`: the `userEmail` index scan of `orders`. */
    method GetOrders(e: string, ioFault: bool) returns (r: DbResult<seq<Order>>)
      requires Valid()
      modifies this`stores
      ensures Valid() && stores == UpgradedSchema(old(stores))
      ensures ioFault ==> r == Err(IoError)
      ensures !ioFault ==> r == Ok(IndexScan.Scan(orders, OrderOwner, e, nextOrderKey))
      ensures !ioFault ==> forall x :: x in r.value <==> x in orders.Values && x.userEmail == e
      ensures !ioFault ==> forall i, j :: 0 <= i < j < |r.value| ==> r.value[i].id < r.value[j].id
    {
      InitDB();
      if ioFault {
        return Err(IoError);
      }
      var rows := IndexScan.Scan(orders, OrderOwner, e, nextOrderKey);
      IndexScan.ScanSorted(orders, OrderOwner, OrderKey, e, nextOrderKey);
      forall x ensures x in rows <==> x in orders.Values && x.userEmail == e {
        IndexScan.ScanMembers(orders, OrderOwner, e, nextOrderKey, x);
        if x in orders.Values && x.userEmail == e {
          var k :| k in orders && orders[k] == x;
          assert k in IndexScan.MatchingKeys(orders, OrderOwner, e, nextOrderKey);
        }
      }
      r := Ok(rows);
    }
  }

  /** After a clear, the owner has no rows left, so a second clear resolves
      with 0. */
  lemma ClearAgainRemovesNothing(m: map<int, CartItem>, e: string, hi: int)
    ensures IndexScan.MatchingKeys(WithoutOwner(m, e), CartOwner, e, hi) == {}
    ensures WithoutOwner(WithoutOwner(m, e), e) == WithoutOwner(m, e)
  {
  }
}
