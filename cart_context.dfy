/** The cart manager of src/context/CartContext.js: an in-memory list that
    mirrors the signed-in user's rows of the `cart` store, patched after
    every successful store write, plus the two sums the pages display. */
module CartContext {
  import opened Wrappers
  import opened Records
  import Catalog
  import IndexScan
  import Db
  import AuthContext

  const PleaseLogin: string := "Please login to add items to cart"
  const AddFailed: string := "Failed to add item to cart"
  const UpdateFailed: string := "Failed to update quantity"
  const RemoveFailed: string := "Failed to remove item"
  const ClearFailed: string := "Failed to clear cart"

  /** `getCartTotal`: the `reduce` of `price * quantity` from the left. */
  function CartTotal(items: seq<CartItem>): (total: int)
    ensures items == [] ==> total == 0
    ensures |items| == 1 ==> total == items[0].price * items[0].quantity
  {
    if items == [] then 0
    else CartTotal(items[..|items| - 1]) + items[|items| - 1].price * items[|items| - 1].quantity
  }

  /** `getCartCount`: the `reduce` of `quantity` from the left. */
  function CartCount(items: seq<CartItem>): (count: int)
    ensures items == [] ==> count == 0
    ensures |items| == 1 ==> count == items[0].quantity
  {
    if items == [] then 0
    else CartCount(items[..|items| - 1]) + items[|items| - 1].quantity
  }

  /** Both sums are additive over concatenation (so, in particular, an append
      adds the new line's amount) and are 0 on the empty cart. */
  lemma {:induction false} SumsAppend(a: seq<CartItem>, b: seq<CartItem>)
    ensures CartTotal(a + b) == CartTotal(a) + CartTotal(b)
    ensures CartCount(a + b) == CartCount(a) + CartCount(b)
    ensures CartTotal([]) == 0 && CartCount([]) == 0
    decreases |b|
  {
    if b == [] {
      assert a + b == a;
    } else {
      var init := b[..|b| - 1];
      assert (a + b)[..|a + b| - 1] == a + init;
      SumsAppend(a, init);
    }
  }

  /** With non-negative prices and quantities, neither sum is negative. */
  lemma {:induction false} SumsNonNegative(items: seq<CartItem>)
    requires forall i :: 0 <= i < |items| ==> items[i].price >= 0 && items[i].quantity >= 0
    ensures CartTotal(items) >= 0 && CartCount(items) >= 0
  {
    if items != [] {
      SumsNonNegative(items[..|items| - 1]);
    }
  }

  /** Two bottles of Golden IRIS (Men) at 50ml and one Ananta AGHORI (Men) at
      100ml: the cart shows 3 items costing 2 * 499 + 1800. */
  lemma SampleCartSums(e: string, t: string)
    ensures var a := NewLine(e, Catalog.Products[0], "50ml", 2, t).(id := 1);
            var b := NewLine(e, Catalog.Products[2], "100ml", 1, t).(id := 2);
            CartTotal([a, b]) == 2798 && CartCount([a, b]) == 3
  {
    var a := NewLine(e, Catalog.Products[0], "50ml", 2, t).(id := 1);
    var b := NewLine(e, Catalog.Products[2], "100ml", 1, t).(id := 2);
    assert Catalog.Products[0].price50ml == 499 && Catalog.Products[2].price100ml == 1800;
    assert [a, b][..1] == [a];
    assert [a][..0] == [];
    assert CartTotal([a]) == 998 && CartCount([a]) == 2;
  }

  /** The row `addToCart` builds: the price is picked by size from the
      catalog entry. Its id is replaced by the key the store generates. */
  function NewLine(userEmail: string, p: Catalog.Product, size: string, quantity: int, addedAt: string): (c: CartItem)
    ensures c.userEmail == userEmail && c.productId == p.id && c.size == size && c.quantity == quantity
    ensures c.price == Catalog.PriceFor(p, size)
    ensures c.productName == p.name && c.productImage == p.image && c.addedAt == addedAt
  {
    CartItem(0, userEmail, p.id, p.name, p.image, size, quantity, Catalog.PriceFor(p, size), addedAt)
  }

  /** `prev.map(item => item.id === itemId ? { ...item, quantity } : item)`. */
  function WithQuantity(items: seq<CartItem>, id: int, quantity: int): (r: seq<CartItem>)
    ensures |r| == |items|
    ensures forall i :: 0 <= i < |items| ==> r[i].(quantity := items[i].quantity) == items[i]
    ensures forall i :: 0 <= i < |items| ==> r[i].quantity == if items[i].id == id then quantity else items[i].quantity
  {
    seq(|items|, i requires 0 <= i < |items| =>
      if items[i].id == id then items[i].(quantity := quantity) else items[i])
  }

  /** `prev.filter(item => item.id !== itemId)`. */
  function WithoutId(items: seq<CartItem>, id: int): (r: seq<CartItem>)
    ensures forall x :: x in r <==> x in items && x.id != id
    ensures |r| <= |items|
  {
    if items == [] then []
    else (if items[0].id != id then [items[0]] else []) + WithoutId(items[1..], id)
  }

  lemma {:induction false} WithoutIdAppend(a: seq<CartItem>, b: seq<CartItem>, id: int)
    ensures WithoutId(a + b, id) == WithoutId(a, id) + WithoutId(b, id)
  {
    if a == [] {
      assert a + b == b;
    } else {
      assert (a + b)[1..] == a[1..] + b;
      WithoutIdAppend(a[1..], b, id);
    }
  }

  /** Removing an id twice is removing it once. */
  lemma {:induction false} WithoutIdIdempotent(items: seq<CartItem>, id: int)
    ensures WithoutId(WithoutId(items, id), id) == WithoutId(items, id)
  {
    if items != [] {
      var rest := WithoutId(items[1..], id);
      WithoutIdIdempotent(items[1..], id);
      if items[0].id != id {
        var r := [items[0]] + rest;
        assert r[0] == items[0] && r[1..] == rest;
      } else {
        assert [] + rest == rest;
      }
    }
  }

  /** Mirror and store agree after a quantity update: updating the row in the
      store and mapping the mirror give the same list. */
  lemma {:induction false} ScanAfterUpdate(m: map<int, CartItem>, e: string, hi: int, id: int, quantity: int)
    requires forall k :: k in m ==> m[k].id == k
    requires id in m
    ensures IndexScan.Scan(m[id := m[id].(quantity := quantity)], CartOwner, e, hi)
      == WithQuantity(IndexScan.Scan(m, CartOwner, e, hi), id, quantity)
    decreases hi
  {
    var m' := m[id := m[id].(quantity := quantity)];
    if hi > 1 {
      ScanAfterUpdate(m, e, hi - 1, id, quantity);
      var before := IndexScan.Scan(m, CartOwner, e, hi - 1);
      var k := hi - 1;
      var last := if k in m && CartOwner(m[k]) == e then [m[k]] else [];
      var last' := if k in m' && CartOwner(m'[k]) == e then [m'[k]] else [];
      assert last' == WithQuantity(last, id, quantity) by {
        if k in m && CartOwner(m[k]) == e {
          assert WithQuantity(last, id, quantity)[0] == last'[0];
        }
      }
      assert WithQuantity(before + last, id, quantity)
        == WithQuantity(before, id, quantity) + WithQuantity(last, id, quantity);
    }
  }

  /** Mirror and store agree after a removal. */
  lemma {:induction false} ScanAfterRemove(m: map<int, CartItem>, e: string, hi: int, id: int)
    requires forall k :: k in m ==> m[k].id == k
    ensures IndexScan.Scan(m - {id}, CartOwner, e, hi) == WithoutId(IndexScan.Scan(m, CartOwner, e, hi), id)
    decreases hi
  {
    if hi > 1 {
      ScanAfterRemove(m, e, hi - 1, id);
      var k := hi - 1;
      var last := if k in m && CartOwner(m[k]) == e then [m[k]] else [];
      WithoutIdAppend(IndexScan.Scan(m, CartOwner, e, hi - 1), last, id);
      assert last != [] ==> last[1..] == [];
    }
  }

  /** Mirror and store agree after an add under the generator's next key. */
  lemma ScanAfterAdd(m: map<int, CartItem>, e: string, next: int, x: CartItem)
    requires 1 <= next
    requires forall k :: k in m ==> k < next
    requires x.userEmail == e
    ensures IndexScan.Scan(m[next := x], CartOwner, e, next + 1) == IndexScan.Scan(m, CartOwner, e, next) + [x]
  {
    IndexScan.ScanAddLast(m, CartOwner, e, next, x);
  }

  /** Mirror and store agree after a clear: the user has no rows left. */
  lemma ScanAfterClear(m: map<int, CartItem>, e: string, hi: int)
    ensures IndexScan.Scan(Db.WithoutOwner(m, e), CartOwner, e, hi) == []
  {
    Db.ClearAgainRemovesNothing(m, e, hi);
    IndexScan.ScanCount(Db.WithoutOwner(m, e), CartOwner, e, hi);
  }

  class CartManager {
    const db: Db.IndexedDBManager
    const session: AuthContext.Session
    /** `cartItems`. */
    var items: seq<CartItem>
    var loading: bool

    /** The provider sits inside the session provider, and both use the one
        `dbManager`, so the session's database is the cart's. */
    constructor (db: Db.IndexedDBManager, session: AuthContext.Session)
      requires session.db == db
      ensures this.db == db && this.session == session && this.session.db == this.db
      ensures items == [] && loading
    {
      this.db := db;
      this.session := session;
      items := [];
      loading := true;
    }

    /** The mirror holds exactly the signed-in user's rows of the store, in
        the store's index order; with nobody signed in it is empty. */
    ghost predicate Synced()
      reads this, session, db
    {
      match session.user
      case None => items == []
      case Some(u) => items == IndexScan.Scan(db.cart, CartOwner, u.email, db.nextCartKey)
    }

    /** `loadCartItems`: replace the mirror by the store's rows of the user. A
        failed read leaves the mirror as it was. With no user it does
        nothing at all, not even end the loading state. */
    method LoadCartItems(ioFault: bool)
      requires db.Valid()
      modifies this`items, this`loading, db`stores
      ensures db.Valid()
      ensures session.user.None? ==> items == old(items) && loading == old(loading) && db.stores == old(db.stores)
      ensures session.user.Some? ==> !loading && db.stores == Db.UpgradedSchema(old(db.stores))
      ensures session.user.Some? && ioFault ==> items == old(items)
      ensures session.user.Some? && !ioFault ==> Synced()
    {
      if session.user.None? {
        return;
      }
      var r := db.GetCartItems(session.user.value.email, ioFault);
      if r.Ok? {
        items := r.value;
      }
      loading := false;
    }

    /** The effect that runs whenever the signed-in user changes. */
    method UserChanged(ioFault: bool)
      requires db.Valid()
      modifies this`items, this`loading, db`stores
      ensures db.Valid() && !loading
      ensures session.user.None? ==> items == [] && Synced()
      ensures session.user.Some? && !ioFault ==> Synced()
    {
      if session.user.Some? {
        LoadCartItems(ioFault);
      } else {
        items := [];
        loading := false;
      }
    }

    /** `addToCart`: with nobody signed in, fail and touch nothing. Otherwise
        store one new row and append it, with the store's key as its id, at
        the end of the mirror; identical lines are not merged. */
    method AddToCart(p: Catalog.Product, size: string, quantity: int, addedAt: string, ioFault: bool)
      returns (r: Outcome)
      requires db.Valid()
      modifies this`items, db`stores, db`cart, db`nextCartKey
      ensures db.Valid()
      ensures session.user.None? ==>
        r == Failure(PleaseLogin) && items == old(items) && unchanged(db)
      ensures session.user.Some? && ioFault ==>
        r == Failure(AddFailed) && items == old(items) && db.cart == old(db.cart)
        && db.nextCartKey == old(db.nextCartKey)
      ensures session.user.Some? && !ioFault ==>
        var key := old(db.nextCartKey);
        var line := NewLine(session.user.value.email, p, size, quantity, addedAt).(id := key);
        && r == Success
        && key !in old(db.cart)
        && db.cart == old(db.cart)[key := line]
        && items == old(items) + [line]
      ensures old(Synced()) ==> Synced()
    {
      if session.user.None? {
        return Failure(PleaseLogin);
      }
      var e := session.user.value.email;
      var line := NewLine(e, p, size, quantity, addedAt);
      ghost var before := db.cart;
      ghost var next := db.nextCartKey;
      var key := db.AddToCart(line, ioFault);
      if key.Err? {
        return Failure(AddFailed);
      }
      items := items + [line.(id := key.value)];
      if old(Synced()) {
        ScanAfterAdd(before, e, next, line.(id := key.value));
      }
      r := Success;
    }

    /** `removeFromCart`: delete the row and drop every mirror entry with that
        id, keeping the rest in order. Removing an absent id succeeds. */
    method RemoveFromCart(id: int, ioFault: bool) returns (r: Outcome)
      requires db.Valid()
      modifies this`items, db`stores, db`cart
      ensures db.Valid() && db.stores == Db.UpgradedSchema(old(db.stores))
      ensures ioFault ==> r == Failure(RemoveFailed) && items == old(items) && db.cart == old(db.cart)
      ensures !ioFault ==> r == Success && items == WithoutId(old(items), id) && db.cart == old(db.cart) - {id}
      ensures old(Synced()) ==> Synced()
    {
      ghost var before := db.cart;
      var res := db.RemoveCartItem(id, ioFault);
      if res.Err? {
        return Failure(RemoveFailed);
      }
      items := WithoutId(items, id);
      if old(Synced()) && session.user.Some? {
        ScanAfterRemove(before, session.user.value.email, db.nextCartKey, id);
      }
      r := Success;
    }

    /** `updateQuantity`: a quantity of 0 or less is a removal; any positive
        quantity (there is no upper bound here) overwrites the quantity of
        the row in the store and of the entries with that id in the mirror.
        When the store rejects the update, the mirror stays as it was. */
    method UpdateQuantity(id: int, quantity: int, ioFault: bool) returns (r: Outcome)
      requires db.Valid()
      modifies this`items, db`stores, db`cart
      ensures db.Valid() && db.stores == Db.UpgradedSchema(old(db.stores))
      ensures quantity <= 0 && ioFault ==>
        r == Failure(RemoveFailed) && items == old(items) && db.cart == old(db.cart)
      ensures quantity <= 0 && !ioFault ==>
        r == Success && items == WithoutId(old(items), id) && db.cart == old(db.cart) - {id}
      ensures quantity > 0 && (ioFault || id !in old(db.cart)) ==>
        r == Failure(UpdateFailed) && items == old(items) && db.cart == old(db.cart)
      ensures quantity > 0 && !ioFault && id in old(db.cart) ==>
        && r == Success
        && db.cart == old(db.cart)[id := old(db.cart)[id].(quantity := quantity)]
        && items == WithQuantity(old(items), id, quantity)
      ensures old(Synced()) ==> Synced()
    {
      if quantity <= 0 {
        r := RemoveFromCart(id, ioFault);
        return;
      }
      ghost var before := db.cart;
      var res := db.UpdateCartItem(id, quantity, ioFault);
      if res.Err? {
        return Failure(UpdateFailed);
      }
      items := WithQuantity(items, id, quantity);
      if old(Synced()) && session.user.Some? {
        ScanAfterUpdate(before, session.user.value.email, db.nextCartKey, id, quantity);
      }
      r := Success;
    }

    /** `clearCart`: with nobody signed in it returns nothing and does
        nothing; otherwise it deletes the user's rows and empties the mirror,
        reporting a failed delete as a value. */
    method ClearCart(ioFault: bool) returns (r: Option<Outcome>)
      requires db.Valid()
      modifies this`items, db`stores, db`cart
      ensures db.Valid()
      ensures session.user.None? ==> r == None && items == old(items) && unchanged(db)
      ensures session.user.Some? && ioFault ==>
        r == Some(Failure(ClearFailed)) && items == old(items) && db.cart == old(db.cart)
      ensures session.user.Some? && !ioFault ==>
        r == Some(Success) && items == []
        && db.cart == Db.WithoutOwner(old(db.cart), session.user.value.email)
      ensures old(Synced()) ==> Synced()
    {
      if session.user.None? {
        return None;
      }
      var e := session.user.value.email;
      var res := db.ClearCart(e, ioFault);
      if res.Err? {
        return Some(Failure(ClearFailed));
      }
      items := [];
      ScanAfterClear(old(db.cart), e, db.nextCartKey);
      r := Some(Success);
    }
  }
}
