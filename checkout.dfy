/**
 * The checkout page (src/pages/CartPage.tsx): quantity changes, and the
 * order sequence build, persist, send, and clear the cart only on success.
 */
module Checkout {
  import opened Wrappers
  import Cart
  import Orders
  import Telegram
  import Lists

  /** The three form fields of the page. */
  datatype CustomerInfo = CustomerInfo(name: string, phone: string, address: string)

  const NoCustomer := CustomerInfo("", "", "")

  /** The order button is enabled: name, phone and address filled in, and no order under way. */
  function CanOrder(info: CustomerInfo, isOrdering: bool): (enabled: bool)
    ensures !enabled <==> info.name == "" || info.phone == "" || info.address == "" || isOrdering
  {
    info.name != "" && info.phone != "" && info.address != "" && !isOrdering
  }

  /** The button is disabled while an order is under way, and after a successful order until the form is filled in again. */
  lemma CanOrderGuards(info: CustomerInfo)
    ensures !CanOrder(info, true)
    ensures !CanOrder(NoCustomer, false)
  {
  }

  function ToLineItem(item: Cart.CartItem): Orders.LineItem
  {
    Orders.LineItem(item.id, item.name, item.quantity, item.price, item.image, item.category)
  }

  /** The cart entries as order line items: the same entries, field for field, in cart order. */
  function ToLineItems(items: seq<Cart.CartItem>): (r: seq<Orders.LineItem>)
    ensures |r| == |items|
    ensures forall i :: 0 <= i < |items| ==>
              && r[i].id == items[i].id && r[i].name == items[i].name
              && r[i].quantity == items[i].quantity && r[i].price == items[i].price
              && r[i].image == items[i].image && r[i].category == items[i].category
  {
    Lists.Map(items, ToLineItem)
  }

  function ToTelegramLine(item: Cart.CartItem): Telegram.TelegramLine
  {
    Telegram.TelegramLine(item.name, item.quantity, item.price)
  }

  /** The cart entries as message lines: name, quantity and price of each, in cart order. */
  function ToTelegramLines(items: seq<Cart.CartItem>): (r: seq<Telegram.TelegramLine>)
    ensures |r| == |items|
    ensures forall i :: 0 <= i < |items| ==>
              r[i].name == items[i].name && r[i].quantity == items[i].quantity && r[i].price == items[i].price
  {
    Lists.Map(items, ToTelegramLine)
  }

  /** The draft `handleOrder` hands to the ledger. */
  function OrderDraftOf(info: CustomerInfo, items: seq<Cart.CartItem>, total: int, orderDate: string): (d: Orders.OrderDraft)
    ensures d.status == Orders.Pending && d.notes == None
    ensures d.customerName == info.name && d.customerPhone == info.phone && d.customerAddress == info.address
    ensures d.items == ToLineItems(items) && d.totalPrice == total && d.orderDate == orderDate
  {
    Orders.OrderDraft(info.name, info.phone, info.address, ToLineItems(items), total, Orders.Pending, orderDate, None)
  }

  /** The payload `handleOrder` hands to the notification service. */
  function TelegramOrderOf(info: CustomerInfo, items: seq<Cart.CartItem>, total: int, sendDate: string): (t: Telegram.TelegramOrder)
    ensures t.customerName == info.name && t.customerPhone == info.phone && t.customerAddress == info.address
    ensures t.items == ToTelegramLines(items) && t.totalPrice == total && t.orderDate == sendDate
  {
    Telegram.TelegramOrder(info.name, info.phone, info.address, ToTelegramLines(items), total, sendDate)
  }

  /** The payload lists exactly the draft's line items by name, quantity and price, with the same customer and total. */
  lemma PayloadMatchesDraft(info: CustomerInfo, items: seq<Cart.CartItem>, total: int, orderDate: string, sendDate: string)
    ensures var d := OrderDraftOf(info, items, total, orderDate);
            var t := TelegramOrderOf(info, items, total, sendDate);
            && |t.items| == |d.items|
            && (forall i :: 0 <= i < |d.items| ==>
                  t.items[i] == Telegram.TelegramLine(d.items[i].name, d.items[i].quantity, d.items[i].price))
            && t.totalPrice == d.totalPrice
            && t.customerName == d.customerName && t.customerPhone == d.customerPhone
            && t.customerAddress == d.customerAddress
  {
  }

  /**
   * The page's state: the cart hook, the ledger and the notification service
   * it calls, the form fields and the in-progress flag.
   */
  class CheckoutPage {
    const cart: Cart.CartStore
    const ledger: Orders.OrderService
    const telegram: Telegram.TelegramService
    var customer: CustomerInfo
    var isOrdering: bool

    constructor (cart: Cart.CartStore, ledger: Orders.OrderService, telegram: Telegram.TelegramService)
      ensures this.cart == cart && this.ledger == ledger && this.telegram == telegram
      ensures customer == NoCustomer && !isOrdering
    {
      this.cart := cart;
      this.ledger := ledger;
      this.telegram := telegram;
      customer := NoCustomer;
      isOrdering := false;
    }

    /** `handleQuantityChange`: remove for a quantity of 0 or less, otherwise set that exact quantity. */
    method HandleQuantityChange(id: int, newQuantity: int)
      modifies cart
      ensures newQuantity <= 0 ==> cart.items == Cart.WithoutItem(old(cart.items), id)
      ensures newQuantity > 0 ==> cart.items == Cart.WithQuantity(old(cart.items), id, newQuantity)
      ensures cart.items == Cart.WithQuantity(old(cart.items), id, newQuantity)
      ensures Cart.Valid(old(cart.items)) ==> Cart.Valid(cart.items)
    {
      if newQuantity <= 0 {
        cart.RemoveFromCart(id);
      } else {
        cart.UpdateQuantity(id, newQuantity);
      }
    }

    /**
     * `handleOrder`.  An empty cart does nothing.  Otherwise a pending order
     * is stored in the ledger first, then sent; only a successful send clears
     * the cart and the form.  `orderDate` and `sendDate` are the two clock
     * readings the page takes, `createdAt` and `updatedAt` the two the ledger
     * takes; `saved`, `config` and `reply` stand for what the notification
     * service reads and receives.
     */
    method HandleOrder(orderId: string, createdAt: string, updatedAt: string, orderDate: string, sendDate: string,
                       saved: Option<Telegram.SavedSettings>, config: Telegram.Settings, reply: Telegram.Reply)
      returns (placed: Option<Orders.Order>, sent: bool, request: Option<Telegram.Request>)
      requires cart.items != [] ==> Cart.TotalPrice(cart.items).Some?
      modifies this, cart, ledger
      ensures old(cart.items) == [] ==>
                && placed.None? && !sent && request.None?
                && cart.items == old(cart.items) && ledger.orders == old(ledger.orders)
                && customer == old(customer) && isOrdering == old(isOrdering)
      ensures old(cart.items) != [] ==>
                var total := Cart.TotalPrice(old(cart.items)).value;
                var settings := Telegram.GetTelegramSettings(saved, config);
                && placed == Some(Orders.Stamped(OrderDraftOf(old(customer), old(cart.items), total, orderDate), orderId, createdAt, updatedAt))
                && ledger.orders == [placed.value] + old(ledger.orders)
                && (request.Some? <==> Telegram.Complete(settings))
                && (request.Some? ==>
                      request.value.text == Telegram.FormatOrderMessage(TelegramOrderOf(old(customer), old(cart.items), total, sendDate)))
                && (sent <==> Telegram.SendSucceeds(settings, reply))
                && (sent ==> cart.items == [] && customer == NoCustomer)
                && (!sent ==> cart.items == old(cart.items) && customer == old(customer))
                && !isOrdering
    {
      if |cart.items| == 0 {
        return None, false, None;
      }
      isOrdering := true;
      var items := cart.items;
      var total := Cart.TotalPrice(items).value;
      var draft := OrderDraftOf(customer, items, total, orderDate);
      var stored := ledger.Add(draft, orderId, createdAt, updatedAt);
      placed := Some(stored);
      var payload := TelegramOrderOf(customer, items, total, sendDate);
      sent, request := telegram.SendOrder(payload, saved, config, reply);
      if sent {
        cart.ClearCart();
        customer := NoCustomer;
      }
      isOrdering := false;
    }
  }
}
