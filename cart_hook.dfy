/**
 * The persisted cart of a signed-in customer. The remote `cart_items` table is
 * a list of rows shared by all users (row ids distinct); the hook keeps a local
 * copy of the signed-in user's rows, joined with each product's price, and
 * refetches it after every successful write except clearing, which empties the
 * local copy. The replies of the remote store
 * (write accepted or refused, fetch succeeded or failed) are parameters.
 */
module CartHook {
  import opened Sequences

  /** The free-form customizations stored with a row. */
  type Customizations = map<string, string>

  datatype CartRow = CartRow(id: string, userId: string, productId: string, quantity: int, customizations: Customizations)

  /** A fetched row with its product's price (`item.products.price`), in cents. */
  datatype CartItem = CartItem(id: string, productId: string, quantity: int, customizations: Customizations, price: int)

  predicate DistinctRowIds(rows: seq<CartRow>) {
    forall i, j :: 0 <= i < j < |rows| ==> rows[i].id != rows[j].id
  }

  predicate KnownProducts(rows: seq<CartRow>, prices: map<string, int>) {
    forall i :: 0 <= i < |rows| ==> rows[i].productId in prices
  }

  /** The select of `fetchCartItems`: the user's rows, in table order, joined with their product's price. */
  function ItemsOf(rows: seq<CartRow>, user: string, prices: map<string, int>): seq<CartItem>
    requires KnownProducts(rows, prices)
  {
    if rows == [] then []
    else
      var rest := ItemsOf(rows[1..], user, prices);
      if rows[0].userId == user then
        [CartItem(rows[0].id, rows[0].productId, rows[0].quantity, rows[0].customizations, prices[rows[0].productId])] + rest
      else rest
  }

  /** `total`: the sum of price times quantity over the items. */
  function CartTotal(items: seq<CartItem>): int {
    if items == [] then 0 else items[0].price * items[0].quantity + CartTotal(items[1..])
  }

  /** `itemCount`: the sum of the quantities (not the number of lines). */
  function CartItemCount(items: seq<CartItem>): int {
    if items == [] then 0 else items[0].quantity + CartItemCount(items[1..])
  }

  /** The row targeted by `.eq('id', itemId).eq('user_id', user)`. */
  function Targets(itemId: string, user: string): CartRow -> bool {
    (r: CartRow) => r.id == itemId && r.userId == user
  }

  function NotTargets(itemId: string, user: string): CartRow -> bool {
    (r: CartRow) => !(r.id == itemId && r.userId == user)
  }

  function NotOwnedBy(user: string): CartRow -> bool {
    (r: CartRow) => r.userId != user
  }

  /** `.update({ quantity })` on the targeted row. */
  function WithQuantity(rows: seq<CartRow>, itemId: string, user: string, quantity: int): (r: seq<CartRow>)
    ensures |r| == |rows|
    ensures forall k :: 0 <= k < |rows| ==>
      r[k] == if Targets(itemId, user)(rows[k]) then rows[k].(quantity := quantity) else rows[k]
  {
    if rows == [] then []
    else [if Targets(itemId, user)(rows[0]) then rows[0].(quantity := quantity) else rows[0]]
         + WithQuantity(rows[1..], itemId, user, quantity)
  }

  // ---------------------------------------------------------------------------
  // Properties of the derived values

  lemma {:induction false} TotalConcat(a: seq<CartItem>, b: seq<CartItem>)
    ensures CartTotal(a + b) == CartTotal(a) + CartTotal(b)
  {
    if a != [] {
      assert (a + b)[1..] == a[1..] + b;
      TotalConcat(a[1..], b);
    } else {
      assert a + b == b;
    }
  }

  /** With every quantity at least 1 the item count is at least the number of lines. */
  lemma {:induction false} ItemCountAtLeastLines(items: seq<CartItem>)
    requires forall k :: 0 <= k < |items| ==> items[k].quantity >= 1
    ensures CartItemCount(items) >= |items|
  {
    if items != [] {
      ItemCountAtLeastLines(items[1..]);
    }
  }

  /** Example: one line of quantity 3 counts as 3 items: the count is of units, not of lines. */
  lemma ItemCountCountsUnits(item: CartItem)
    requires item.quantity == 3
    ensures CartItemCount([item]) == 3 && |[item]| == 1
  {
  }

  // ---------------------------------------------------------------------------
  // Properties of the table writes

  lemma {:induction false} ItemsOfAppend(rows: seq<CartRow>, row: CartRow, user: string, prices: map<string, int>)
    requires KnownProducts(rows, prices) && row.productId in prices
    ensures KnownProducts(rows + [row], prices)
    ensures ItemsOf(rows + [row], user, prices) ==
      ItemsOf(rows, user, prices) +
      (if row.userId == user then [CartItem(row.id, row.productId, row.quantity, row.customizations, prices[row.productId])] else [])
  {
    if rows == [] {
      assert rows + [row] == [row];
    } else {
      assert (rows + [row])[1..] == rows[1..] + [row];
      ItemsOfAppend(rows[1..], row, user, prices);
    }
  }

  /**
   * A new row for the signed-in user shows up as one more line at the end of that
   * user's fetched cart, so the total grows by exactly its price times its quantity.
   */
  lemma AddedRowTotal(rows: seq<CartRow>, row: CartRow, prices: map<string, int>)
    requires KnownProducts(rows, prices) && row.productId in prices
    ensures KnownProducts(rows + [row], prices)
    ensures CartTotal(ItemsOf(rows + [row], row.userId, prices)) ==
            CartTotal(ItemsOf(rows, row.userId, prices)) + prices[row.productId] * row.quantity
  {
    ItemsOfAppend(rows, row, row.userId, prices);
    var item := CartItem(row.id, row.productId, row.quantity, row.customizations, prices[row.productId]);
    TotalConcat(ItemsOf(rows, row.userId, prices), [item]);
  }

  /** Deleting rows keeps every remaining row's product known. */
  lemma FilterKnownProducts(keep: CartRow -> bool, rows: seq<CartRow>, prices: map<string, int>)
    requires KnownProducts(rows, prices)
    ensures KnownProducts(Filter(keep, rows), prices)
  {
    var r := Filter(keep, rows);
    forall k | 0 <= k < |r| ensures r[k].productId in prices {
      var w :| 0 <= w < |rows| && rows[w] == r[k];
    }
  }

  /** Setting a quantity touches no other user's cart. */
  lemma {:induction false} WithQuantityOtherUsers(rows: seq<CartRow>, itemId: string, user: string, quantity: int,
                                                  other: string, prices: map<string, int>)
    requires KnownProducts(rows, prices) && other != user
    ensures KnownProducts(WithQuantity(rows, itemId, user, quantity), prices)
    ensures ItemsOf(WithQuantity(rows, itemId, user, quantity), other, prices) == ItemsOf(rows, other, prices)
  {
    if rows != [] {
      var r := WithQuantity(rows, itemId, user, quantity);
      assert r[1..] == WithQuantity(rows[1..], itemId, user, quantity);
      WithQuantityOtherUsers(rows[1..], itemId, user, quantity, other, prices);
    }
  }

  /** Deleting the targeted row touches no other user's cart. */
  lemma {:induction false} WithoutRowOtherUsers(rows: seq<CartRow>, itemId: string, user: string,
                                                other: string, prices: map<string, int>)
    requires KnownProducts(rows, prices) && other != user
    ensures KnownProducts(Filter(NotTargets(itemId, user), rows), prices)
    ensures ItemsOf(Filter(NotTargets(itemId, user), rows), other, prices) == ItemsOf(rows, other, prices)
  {
    FilterKnownProducts(NotTargets(itemId, user), rows, prices);
    if rows != [] {
      WithoutRowOtherUsers(rows[1..], itemId, user, other, prices);
      KeptFirst(NotTargets(itemId, user), rows, other, prices);
    }
  }

  /** After clearing, the user's fetched cart is empty and every other user's is as before. */
  lemma {:induction false} WithoutUserCarts(rows: seq<CartRow>, user: string, other: string, prices: map<string, int>)
    requires KnownProducts(rows, prices)
    ensures KnownProducts(Filter(NotOwnedBy(user), rows), prices)
    ensures ItemsOf(Filter(NotOwnedBy(user), rows), user, prices) == []
    ensures other != user ==> ItemsOf(Filter(NotOwnedBy(user), rows), other, prices) == ItemsOf(rows, other, prices)
  {
    FilterKnownProducts(NotOwnedBy(user), rows, prices);
    if rows != [] {
      WithoutUserCarts(rows[1..], user, other, prices);
      KeptFirst(NotOwnedBy(user), rows, user, prices);
      KeptFirst(NotOwnedBy(user), rows, other, prices);
    }
  }

  /** One step of fetching a filtered table: the first row contributes only if the filter keeps it. */
  lemma KeptFirst(keep: CartRow -> bool, rows: seq<CartRow>, user: string, prices: map<string, int>)
    requires rows != [] && KnownProducts(rows, prices)
    ensures KnownProducts(Filter(keep, rows), prices) && KnownProducts(Filter(keep, rows[1..]), prices)
    ensures ItemsOf(Filter(keep, rows), user, prices) ==
      if keep(rows[0]) && rows[0].userId == user
      then [CartItem(rows[0].id, rows[0].productId, rows[0].quantity, rows[0].customizations, prices[rows[0].productId])]
           + ItemsOf(Filter(keep, rows[1..]), user, prices)
      else ItemsOf(Filter(keep, rows[1..]), user, prices)
  {
    FilterKnownProducts(keep, rows, prices);
    FilterKnownProducts(keep, rows[1..], prices);
    var tail := Filter(keep, rows[1..]);
    if keep(rows[0]) {
      assert Filter(keep, rows) == [rows[0]] + tail;
      assert ([rows[0]] + tail)[1..] == tail;
    } else {
      assert Filter(keep, rows) == tail;
    }
  }

  lemma {:induction false} FilterKeepsDistinctIds(keep: CartRow -> bool, rows: seq<CartRow>)
    requires DistinctRowIds(rows)
    ensures DistinctRowIds(Filter(keep, rows))
  {
    if rows != [] {
      FilterKeepsDistinctIds(keep, rows[1..]);
      if keep(rows[0]) {
        var tail := Filter(keep, rows[1..]);
        var r := [rows[0]] + tail;
        assert Filter(keep, rows) == r;
        forall i, j | 0 <= i < j < |r| ensures r[i].id != r[j].id {
          assert r[j] == tail[j - 1];
          if i > 0 {
            assert r[i] == tail[i - 1];
          } else {
            HeadIdNotInRest(rows, tail[j - 1]);
          }
        }
      }
    }
  }

  /** Under distinct ids, no later row shares the first row's id. */
  lemma HeadIdNotInRest(rows: seq<CartRow>, x: CartRow)
    requires DistinctRowIds(rows) && rows != [] && x in rows[1..]
    ensures x.id != rows[0].id
  {
    var w :| 0 <= w < |rows[1..]| && rows[1..][w] == x;
    assert rows[w + 1] == x;
  }

  // ---------------------------------------------------------------------------
  // The hook's state and handlers

  class CartSession {
    /** The signed-in user, if any. */
    var user: Option<string>
    /** The hook's local `cartItems`. */
    var cartItems: seq<CartItem>
    /** The remote `cart_items` table. */
    var rows: seq<CartRow>
    /** The `products` table's prices, in cents. */
    const prices: map<string, int>

    ghost predicate Valid()
      reads this
    {
      DistinctRowIds(rows) && KnownProducts(rows, prices)
    }

    constructor (prices: map<string, int>, rows: seq<CartRow>)
      requires DistinctRowIds(rows) && KnownProducts(rows, prices)
      ensures Valid()
      ensures this.prices == prices && this.rows == rows && user == None && cartItems == []
    {
      this.prices := prices;
      this.rows := rows;
      user := None;
      cartItems := [];
    }

    function Total(): int
      reads this
    {
      CartTotal(cartItems)
    }

    function ItemCount(): int
      reads this
    {
      CartItemCount(cartItems)
    }

    /** `fetchCartItems`: reload the user's rows; a failed read leaves the local copy as it was. */
    method FetchCartItems(fetchOk: bool)
      requires Valid()
      modifies this`cartItems
      ensures user.Some? && fetchOk ==> cartItems == ItemsOf(rows, user.value, prices)
      ensures user.None? || !fetchOk ==> cartItems == old(cartItems)
    {
      if user.None? {
        return;
      }
      if fetchOk {
        cartItems := ItemsOf(rows, user.value, prices);
      }
    }

    /** The effect run when the signed-in user changes: signing out empties the local cart. */
    method SetUser(u: Option<string>, fetchOk: bool)
      requires Valid()
      modifies this`user, this`cartItems
      ensures Valid() && user == u
      ensures u.None? ==> cartItems == []
      ensures u.Some? && fetchOk ==> cartItems == ItemsOf(rows, u.value, prices)
      ensures u.Some? && !fetchOk ==> cartItems == old(cartItems)
    {
      user := u;
      if u.Some? {
        FetchCartItems(fetchOk);
      } else {
        cartItems := [];
      }
    }

    /**
     * `addToCart`: write a row holding exactly `quantity` (nothing is added to an existing
     * quantity). The write carries no row id, so the store gives it the fresh id `newId`.
     * A refused write is rethrown (`threw`); a product the store does not know is refused.
     */
    method AddToCart(productId: string, quantity: int, customizations: Customizations,
                     newId: string, writeOk: bool, fetchOk: bool) returns (threw: bool)
      requires Valid()
      requires forall i :: 0 <= i < |rows| ==> rows[i].id != newId
      modifies this`rows, this`cartItems
      ensures Valid()
      ensures old(user).None? ==> !threw && rows == old(rows) && cartItems == old(cartItems)
      ensures user.Some? && !(writeOk && productId in prices) ==>
        threw && rows == old(rows) && cartItems == old(cartItems)
      ensures user.Some? && writeOk && productId in prices ==>
        && !threw
        && rows == old(rows) + [CartRow(newId, user.value, productId, quantity, customizations)]
        && cartItems == (if fetchOk then ItemsOf(rows, user.value, prices) else old(cartItems))
    {
      if user.None? {
        return false;
      }
      if !(writeOk && productId in prices) {
        return true;
      }
      rows := rows + [CartRow(newId, user.value, productId, quantity, customizations)];
      FetchCartItems(fetchOk);
      threw := false;
    }

    /** `updateQuantity`: a quantity of 0 or less deletes the row; otherwise the targeted row takes it. */
    method UpdateQuantity(itemId: string, quantity: int, writeOk: bool, fetchOk: bool)
      requires Valid()
      modifies this`rows, this`cartItems
      ensures Valid()
      ensures old(user).None? || !writeOk ==> rows == old(rows) && cartItems == old(cartItems)
      ensures user.Some? && writeOk && quantity <= 0 ==>
        rows == Filter(NotTargets(itemId, user.value), old(rows))
      ensures user.Some? && writeOk && quantity > 0 ==>
        rows == WithQuantity(old(rows), itemId, user.value, quantity)
      ensures user.Some? && writeOk ==>
        cartItems == (if fetchOk then ItemsOf(rows, user.value, prices) else old(cartItems))
    {
      if user.None? {
        return;
      }
      if quantity <= 0 {
        RemoveFromCart(itemId, writeOk, fetchOk);
        return;
      }
      if !writeOk {
        return;
      }
      rows := WithQuantity(rows, itemId, user.value, quantity);
      FetchCartItems(fetchOk);
    }

    /** `removeFromCart`: delete the row with this id that belongs to the signed-in user. */
    method RemoveFromCart(itemId: string, writeOk: bool, fetchOk: bool)
      requires Valid()
      modifies this`rows, this`cartItems
      ensures Valid()
      ensures old(user).None? || !writeOk ==> rows == old(rows) && cartItems == old(cartItems)
      ensures user.Some? && writeOk ==>
        && rows == Filter(NotTargets(itemId, user.value), old(rows))
        && cartItems == (if fetchOk then ItemsOf(rows, user.value, prices) else old(cartItems))
    {
      if user.None? || !writeOk {
        return;
      }
      FilterKeepsDistinctIds(NotTargets(itemId, user.value), rows);
      rows := Filter(NotTargets(itemId, user.value), rows);
      FetchCartItems(fetchOk);
    }

    /** `clearCart`: delete all of the user's rows; only a successful delete empties the local cart. */
    method ClearCart(writeOk: bool)
      requires Valid()
      modifies this`rows, this`cartItems
      ensures Valid()
      ensures old(user).None? || !writeOk ==> rows == old(rows) && cartItems == old(cartItems)
      ensures user.Some? && writeOk ==>
        rows == Filter(NotOwnedBy(user.value), old(rows)) && cartItems == []
    {
      if user.None? || !writeOk {
        return;
      }
      FilterKeepsDistinctIds(NotOwnedBy(user.value), rows);
      rows := Filter(NotOwnedBy(user.value), rows);
      cartItems := [];
    }
  }
}
