/**
 * The checkout screen (app/checkout.tsx): rehydrating the order summary
 * saved by the cart screen, and the "place order" handler with its
 * re-entry flag, field checks, payload mapping and outcomes.
 */
module Checkout {
  import opened Wrappers
  import opened ProductList
  import opened Cart

  /** The summary as read back from storage: every field may be missing. */
  datatype StoredSummary = StoredSummary(
    subTotal: Option<int>,
    deliveryCharge: Option<int>,
    discount: Option<int>,
    total: Option<int>,
    items: Option<seq<Product>>)

  /** One line of the order request: `{ productId: item.id, quantity: item.quantity, price: item.price }`. */
  datatype OrderItem = OrderItem(productId: string, quantity: Option<int>, price: Option<int>)

  /** The body of `POST /api/order/add`. */
  datatype OrderDetails = OrderDetails(
    name: string,
    address: string,
    mobileNumber: string,
    paymentMethod: string,
    items: seq<OrderItem>,
    total: int)

  /** What a press of the order button leads to. */
  datatype ClickResult =
    | AlreadyPlacing         // a request is still in flight: nothing happens
    | MissingFields          // alert "Please fill all fields"
    | EmptyCart              // alert "No products in cart"
    | Sent(order: OrderDetails)

  /** How the order request ends, as seen by the handler. */
  datatype OrderOutcome =
    | Placed                 // response ok and both storage keys removed
    | PlacedButStorageFailed // response ok, but removing a storage key threw
    | NotOk                  // the server answered with a non-ok status
    | NetworkFailure         // fetch threw

  /** The summary the screen starts with, and the one it returns to after an order (all zero, no items). */
  function EmptySummary(): CartItems {
    CartItems([], 0, 0, 0, 0)
  }

  /** The rehydrate effect: stored fields default to 0 (items to []); no stored value keeps the current summary. */
  function Rehydrated(current: CartItems, data: Option<StoredSummary>): (r: CartItems)
    ensures data.None? ==> r == current
    ensures data.Some? ==>
              && r.subTotal == data.value.subTotal.GetOr(0)
              && r.deliveryCharge == data.value.deliveryCharge.GetOr(0)
              && r.discount == data.value.discount.GetOr(0)
              && r.total == data.value.total.GetOr(0)
              && r.items == data.value.items.GetOr([])
  {
    match data
    case None => current
    case Some(d) =>
      CartItems(d.items.GetOr([]), d.subTotal.GetOr(0), d.deliveryCharge.GetOr(0),
                d.discount.GetOr(0), d.total.GetOr(0))
  }

  /** The cart lines mapped in order to order lines. */
  function ToOrderItems(items: seq<Product>): (r: seq<OrderItem>)
    ensures |r| == |items|
    ensures forall i :: 0 <= i < |items| ==>
              r[i].productId == items[i].id && r[i].quantity == items[i].quantity && r[i].price == items[i].price
  {
    if items == [] then [] else [OrderItem(items[0].id, items[0].quantity, items[0].price)] + ToOrderItems(items[1..])
  }

  /** The decision taken by `handleOrderButtonClick` from the screen's state. */
  function Click(isPlacingOrder: bool, name: string, address: string, mobileNumber: string,
                 paymentMethod: string, summary: CartItems): (r: ClickResult)
    ensures r.Sent? ==> r.order.total == summary.total && |r.order.items| == |summary.items|
  {
    if isPlacingOrder then AlreadyPlacing
    else if name == "" || address == "" || mobileNumber == "" then MissingFields
    else if |summary.items| == 0 then EmptyCart
    else Sent(OrderDetails(name, address, mobileNumber, paymentMethod, ToOrderItems(summary.items), summary.total))
  }

  /** A request goes out exactly when no request is in flight, all three fields are filled and the cart is non-empty. */
  lemma ClickSendsIff(isPlacingOrder: bool, name: string, address: string, mobileNumber: string,
                      paymentMethod: string, summary: CartItems)
    ensures Click(isPlacingOrder, name, address, mobileNumber, paymentMethod, summary).Sent?
            <==> !isPlacingOrder && name != "" && address != "" && mobileNumber != "" && summary.items != []
  {
  }

  /** The request carries the form fields unchanged, the stored total (not a recomputation) and one line per cart line. */
  lemma ClickPayload(isPlacingOrder: bool, name: string, address: string, mobileNumber: string,
                     paymentMethod: string, summary: CartItems)
    requires Click(isPlacingOrder, name, address, mobileNumber, paymentMethod, summary).Sent?
    ensures var o := Click(isPlacingOrder, name, address, mobileNumber, paymentMethod, summary).order;
            && o.name == name && o.address == address && o.mobileNumber == mobileNumber
            && o.paymentMethod == paymentMethod && o.total == summary.total
            && o.items == ToOrderItems(summary.items)
  {
  }

  /**
   * End to end: when the checkout screen reads back the summary the cart
   * screen saved, the order it sends carries the cart's total (subtotal
   * plus the delivery charge of 5) and one line per cart line.
   */
  lemma CartToOrder(cart: seq<Product>, name: string, address: string, mobileNumber: string, paymentMethod: string)
    requires cart != [] && name != "" && address != "" && mobileNumber != ""
    ensures var s := Summarize(cart);
            var stored := StoredSummary(Some(s.subTotal), Some(s.deliveryCharge), Some(s.discount), Some(s.total), Some(s.items));
            var r := Click(false, name, address, mobileNumber, paymentMethod, Rehydrated(EmptySummary(), Some(stored)));
            r.Sent? && r.order.total == SubTotal(cart) + DeliveryCharge && r.order.items == ToOrderItems(cart)
  {
  }

  /** The checkout screen's state. */
  class CheckoutScreen {
    var paymentMethod: string
    var name: string
    var address: string
    var mobileNumber: string
    var orderSummary: CartItems
    var isPlacingOrder: bool

    /** Mount: payment "card", empty form, the all-zero summary, no order in flight. */
    constructor ()
      ensures paymentMethod == "card" && name == "" && address == "" && mobileNumber == ""
      ensures orderSummary == EmptySummary() && !isPlacingOrder
    {
      paymentMethod := "card";
      name, address, mobileNumber := "", "", "";
      orderSummary := EmptySummary();
      isPlacingOrder := false;
    }

    /** The rehydrate effect: the "cartItems" value, when present, replaces the summary. */
    method Rehydrate(data: Option<StoredSummary>)
      modifies this`orderSummary
      ensures orderSummary == Rehydrated(old(orderSummary), data)
    {
      if data.Some? {
        var parsed := data.value;
        orderSummary := CartItems(parsed.items.GetOr([]), parsed.subTotal.GetOr(0),
                                  parsed.deliveryCharge.GetOr(0), parsed.discount.GetOr(0),
                                  parsed.total.GetOr(0));
      }
    }

    /**
     * `handleOrderButtonClick` up to its `await fetch`: the guard, the field
     * and cart checks (each resetting the flag), and the payload. When a
     * request is sent the flag stays set until the response settles.
     */
    method HandleOrderButtonClick() returns (result: ClickResult)
      modifies this`isPlacingOrder
      ensures result == Click(old(isPlacingOrder), name, address, mobileNumber, paymentMethod, orderSummary)
      ensures isPlacingOrder == (old(isPlacingOrder) || result.Sent?)
    {
      if isPlacingOrder {
        return AlreadyPlacing;
      }
      isPlacingOrder := true;
      if name == "" || address == "" || mobileNumber == "" {
        isPlacingOrder := false;
        return MissingFields;
      }
      if |orderSummary.items| == 0 {
        isPlacingOrder := false;
        return EmptyCart;
      }
      var items := ToOrderItems(orderSummary.items);
      result := Sent(OrderDetails(name, address, mobileNumber, paymentMethod, items, orderSummary.total));
    }

    /**
     * The rest of the handler once the request settles: only a fully
     * successful order resets the summary; every outcome clears the flag.
     */
    method OrderSettled(outcome: OrderOutcome) returns (cleared: bool)
      requires isPlacingOrder
      modifies this`isPlacingOrder, this`orderSummary
      ensures !isPlacingOrder
      ensures cleared == (outcome == Placed)
      ensures orderSummary == if cleared then EmptySummary() else old(orderSummary)
    {
      if outcome == Placed {
        orderSummary := EmptySummary();
        cleared := true;
      } else {
        cleared := false;
      }
      isPlacingOrder := false;
    }
  }

  /** A second press while the first order is in flight sends nothing and keeps the flag set. */
  method DoubleClickSendsOnce(screen: CheckoutScreen) returns (first: ClickResult, second: ClickResult)
    requires !screen.isPlacingOrder && screen.name != "" && screen.address != ""
    requires screen.mobileNumber != "" && screen.orderSummary.items != []
    modifies screen
    ensures first.Sent? && second == AlreadyPlacing && screen.isPlacingOrder
  {
    first := screen.HandleOrderButtonClick();
    second := screen.HandleOrderButtonClick();
  }
}
