/**
 * The checkout page: the order total is the cart's total plus a flat delivery
 * fee; submitting writes one `orders` row, then one `order_items` row per cart
 * line, then clears the cart. Amounts are in integer cents (KES 150 is 15000).
 * The replies of the remote store and the id it gives the new order are
 * parameters.
 */
module Checkout {
  import opened Sequences
  import opened CartHook

  /** The flat delivery fee, KES 150. */
  const DeliveryFee: int := 15000

  /** `finalTotal`: no tax is charged at checkout. */
  function FinalTotal(items: seq<CartItem>): int {
    CartTotal(items) + DeliveryFee
  }

  datatype OrderForm = OrderForm(deliveryAddress: string, phone: string, notes: string)

  datatype Order = Order(id: string, userId: string, totalAmount: int, deliveryAddress: string, phone: string, notes: string)

  datatype OrderItem = OrderItem(orderId: string, productId: string, quantity: int, price: int, customizations: Customizations)

  /** The rows written to `order_items`: one per cart line, in cart order, at the price the cart was fetched with. */
  function OrderItems(orderId: string, items: seq<CartItem>): (r: seq<OrderItem>)
    ensures |r| == |items|
    ensures forall k :: 0 <= k < |items| ==>
      && r[k].orderId == orderId
      && r[k].productId == items[k].productId
      && r[k].quantity == items[k].quantity
      && r[k].price == items[k].price
      && r[k].customizations == items[k].customizations
  {
    if items == [] then []
    else [OrderItem(orderId, items[0].productId, items[0].quantity, items[0].price, items[0].customizations)]
         + OrderItems(orderId, items[1..])
  }

  /** The value of a set of order lines: price times quantity, summed. */
  function ItemsTotal(lines: seq<OrderItem>): int {
    if lines == [] then 0 else lines[0].price * lines[0].quantity + ItemsTotal(lines[1..])
  }

  /** The written order lines are worth exactly what the cart was worth. */
  lemma {:induction false} OrderItemsTotal(orderId: string, items: seq<CartItem>)
    ensures ItemsTotal(OrderItems(orderId, items)) == CartTotal(items)
  {
    if items != [] {
      var r := OrderItems(orderId, items);
      assert r[1..] == OrderItems(orderId, items[1..]);
      OrderItemsTotal(orderId, items[1..]);
    }
  }

  /** An order's recorded total is its lines' value plus the delivery fee. */
  lemma OrderTotalIsLinesPlusFee(orderId: string, items: seq<CartItem>)
    ensures FinalTotal(items) == ItemsTotal(OrderItems(orderId, items)) + DeliveryFee
    ensures FinalTotal(items) - CartTotal(items) == DeliveryFee
  {
    OrderItemsTotal(orderId, items);
  }

  /** What the page renders: an empty-cart notice, or the form with its three amounts. */
  datatype View = EmptyCart | CheckoutForm(subtotal: int, deliveryFee: int, total: int)

  function PageView(items: seq<CartItem>): View {
    if |items| == 0 then EmptyCart else CheckoutForm(CartTotal(items), DeliveryFee, FinalTotal(items))
  }

  /** The form is shown exactly when the cart has lines, and its total is the subtotal plus the fee. */
  lemma PageViewShowsTotals(items: seq<CartItem>)
    ensures PageView(items).EmptyCart? <==> items == []
    ensures PageView(items).CheckoutForm? ==>
      PageView(items).total == PageView(items).subtotal + PageView(items).deliveryFee
      && PageView(items).deliveryFee == 15000
  {
  }

  /** The remote `orders` and `order_items` tables. */
  class OrderTables {
    var orders: seq<Order>
    var orderItems: seq<OrderItem>

    constructor ()
      ensures orders == [] && orderItems == []
    {
      orders := [];
      orderItems := [];
    }
  }

  /** How a submission ended. */
  datatype SubmitResult = NoUser | OrderFailed | ItemsFailed | Placed

  /**
   * `handleSubmit`. Without a signed-in user nothing happens. A refused order insert
   * changes nothing. A refused items insert leaves the order row in place (the two
   * inserts are not one transaction) and keeps the cart. Otherwise the cart is
   * cleared; a refused clear is swallowed and the order still counts as placed.
   * The handler belongs to the form, which the page renders only for a cart with
   * lines, so it never runs on an empty cart.
   */
  method HandleSubmit(cart: CartSession, store: OrderTables, form: OrderForm, orderId: string,
                      orderOk: bool, itemsOk: bool, clearOk: bool) returns (result: SubmitResult)
    requires cart.Valid()
    requires PageView(cart.cartItems).CheckoutForm?
    modifies store, cart`rows, cart`cartItems
    ensures cart.Valid()
    ensures result.NoUser? <==> cart.user.None?
    ensures result.OrderFailed? <==> cart.user.Some? && !orderOk
    ensures result.ItemsFailed? <==> cart.user.Some? && orderOk && !itemsOk
    ensures result.Placed? <==> cart.user.Some? && orderOk && itemsOk
    ensures result.NoUser? || result.OrderFailed? ==> store.orders == old(store.orders)
    ensures result.ItemsFailed? || result.Placed? ==>
      store.orders == old(store.orders) +
        [Order(orderId, cart.user.value, FinalTotal(old(cart.cartItems)), form.deliveryAddress, form.phone, form.notes)]
    ensures !result.Placed? ==>
      && store.orderItems == old(store.orderItems)
      && cart.rows == old(cart.rows) && cart.cartItems == old(cart.cartItems)
    ensures result.Placed? ==> |store.orderItems| > |old(store.orderItems)|
    ensures result.Placed? ==>
      && store.orderItems == old(store.orderItems) + OrderItems(orderId, old(cart.cartItems))
      && cart.rows == (if clearOk then Filter(NotOwnedBy(cart.user.value), old(cart.rows)) else old(cart.rows))
      && cart.cartItems == (if clearOk then [] else old(cart.cartItems))
  {
    if cart.user.None? {
      return NoUser;
    }
    var user := cart.user.value;
    var total := FinalTotal(cart.cartItems);
    if !orderOk {
      return OrderFailed;
    }
    store.orders := store.orders + [Order(orderId, user, total, form.deliveryAddress, form.phone, form.notes)];
    if !itemsOk {
      return ItemsFailed;
    }
    store.orderItems := store.orderItems + OrderItems(orderId, cart.cartItems);
    cart.ClearCart(clearOk);
    result := Placed;
  }
}
