/**
 * The order service of the Cloud Functions back end
 * (functions/src/services/order_service.py): order pricing, the shape of a
 * new order, the add-to-cart acknowledgement and the status-to-progress
 * table. Firestore reads and writes are replaced by parameters: the stored
 * order an id resolves to, and the id the database assigns to a new order.
 */
module OrderService {
  import opened Wrappers
  import opened Text

  /** One ordered line: `id`, `name`, `price` (SEK) and `quantity`. */
  datatype OrderItem = OrderItem(id: string, name: string, price: real, quantity: int)

  /** `sum(item['price'] * item['quantity'] for item in items)` (line 41). */
  function Subtotal(items: seq<OrderItem>): real
  {
    if items == [] then 0.0 else items[0].price * items[0].quantity as real + Subtotal(items[1..])
  }

  /** The subtotal of a joined order is the sum of the parts' subtotals, so line order does not matter. */
  lemma {:induction false} SubtotalAppend(a: seq<OrderItem>, b: seq<OrderItem>)
    ensures Subtotal(a + b) == Subtotal(a) + Subtotal(b)
  {
    if a != [] {
      assert (a + b)[1..] == a[1..] + b;
      SubtotalAppend(a[1..], b);
    } else {
      assert a + b == b;
    }
  }

  /** With non-negative prices and quantities, the subtotal is non-negative. */
  lemma {:induction false} SubtotalNonNegative(items: seq<OrderItem>)
    requires forall i | 0 <= i < |items| :: items[i].price >= 0.0 && items[i].quantity >= 0
    ensures Subtotal(items) >= 0.0
  {
    if items != [] {
      SubtotalNonNegative(items[1..]);
    }
  }

  const FreeDeliveryFrom := 50.0
  const DeliveryFee := 2.99
  const TaxRate := 0.08

  /** The `pricing` block, before rounding to two decimals. */
  datatype Pricing = Pricing(subtotal: real, deliveryFee: real, taxes: real, total: real)

  /** The pricing lines of `create_order` (lines 41-45). */
  function PriceOrder(items: seq<OrderItem>): (p: Pricing)
    ensures p.subtotal == Subtotal(items)
    ensures p.deliveryFee == (if p.subtotal < FreeDeliveryFrom then DeliveryFee else 0.0)
    ensures p.taxes == p.subtotal * TaxRate
    ensures p.total == p.subtotal + p.deliveryFee + p.taxes
  {
    var subtotal := Subtotal(items);
    var deliveryFee := if subtotal < FreeDeliveryFrom then DeliveryFee else 0.0;
    var taxes := subtotal * TaxRate;
    Pricing(subtotal, deliveryFee, taxes, subtotal + deliveryFee + taxes)
  }

  /** Delivery is free from a subtotal of exactly 50 up, and charged below it. */
  lemma FreeDeliveryThreshold(items: seq<OrderItem>)
    ensures PriceOrder(items).deliveryFee == 0.0 <==> Subtotal(items) >= 50.0
    ensures Subtotal(items) >= 50.0 ==> PriceOrder(items).total == Subtotal(items) * 1.08
  {
  }

  /** For a non-negative order the taxes and fee are non-negative, so the total never falls below the subtotal. */
  lemma {:induction false} TotalCoversSubtotal(items: seq<OrderItem>)
    requires forall i | 0 <= i < |items| :: items[i].price >= 0.0 && items[i].quantity >= 0
    ensures PriceOrder(items).taxes >= 0.0
    ensures PriceOrder(items).total == PriceOrder(items).subtotal + PriceOrder(items).deliveryFee + PriceOrder(items).taxes
    ensures PriceOrder(items).total >= Subtotal(items)
  {
    SubtotalNonNegative(items);
  }

  /** Adding a line can lower the total: 49 SEK costs 55.91 in all, 50 SEK only 54. */
  lemma TotalDropsAtThreshold()
    ensures PriceOrder([OrderItem("a", "A", 49.0, 1)]).total == 55.91
    ensures PriceOrder([OrderItem("a", "A", 49.0, 1), OrderItem("b", "B", 1.0, 1)]).total == 54.0
  {
    var one := [OrderItem("a", "A", 49.0, 1)];
    var two := [OrderItem("a", "A", 49.0, 1), OrderItem("b", "B", 1.0, 1)];
    assert Subtotal(one[1..]) == 0.0;
    assert Subtotal(two[1..][1..]) == 0.0;
    assert Subtotal(two[1..]) == 1.0;
  }

  /** An order document as created, without its timestamps. */
  datatype Order = Order(
    userId: string,
    items: seq<OrderItem>,
    pricing: Pricing,
    customerInfo: map<string, string>,
    status: string,
    orderId: string)

  /**
   * `create_order` (lines 39-78): the order is priced, starts 'pending',
   * keeps a missing `customer_info` as {}, and takes the id the database
   * gives the new document.
   */
  function CreateOrder(userId: string, items: seq<OrderItem>, customerInfo: Option<map<string, string>>, newDocId: string): (o: Order)
    ensures o.status == "pending" && o.userId == userId && o.items == items && o.orderId == newDocId
    ensures o.pricing == PriceOrder(items)
    ensures customerInfo.None? ==> o.customerInfo == map[]
    ensures customerInfo.Some? ==> o.customerInfo == customerInfo.value
  {
    Order(userId, items, PriceOrder(items), customerInfo.GetOr(map[]), "pending", newDocId)
  }

  /** The reply of `add_to_cart` (lines 231-237). */
  datatype CartReply = CartReply(success: bool, message: string, userId: string, itemId: string, quantity: int)

  const AddedPrefix := "Added "
  const AddedSuffix := " item(s) to cart"

  function AddToCart(userId: string, itemId: string, quantity: int): (r: CartReply)
    ensures r.success && r.userId == userId && r.itemId == itemId && r.quantity == quantity
    ensures |r.message| > |AddedPrefix| + |AddedSuffix|
    ensures r.message[..|AddedPrefix|] == AddedPrefix
    ensures r.message[|r.message| - |AddedSuffix|..] == AddedSuffix
  {
    CartReply(true, AddedPrefix + IntToString(quantity) + AddedSuffix, userId, itemId, quantity)
  }

  /** `add_to_cart` with its default `quantity: int = 1` (lines 202-207). */
  function AddOneToCart(userId: string, itemId: string): (r: CartReply)
    ensures r.success && r.userId == userId && r.itemId == itemId && r.quantity == 1
    ensures r.message == "Added 1 item(s) to cart"
  {
    OneAsText();
    AddToCart(userId, itemId, 1)
  }

  /** The acknowledgement text for a quantity of 1. */
  lemma OneAsText()
    ensures AddedPrefix + IntToString(1) + AddedSuffix == "Added 1 item(s) to cart"
  {
    assert IntToString(1) == NatToString(1) == [Digit(1)] == "1";
  }

  /** The quantity can be read back from the acknowledgement's message. */
  lemma {:induction false} CartMessageStatesQuantity(userId: string, itemId: string, quantity: int)
    ensures var m := AddToCart(userId, itemId, quantity).message;
      m[|AddedPrefix|..|m| - |AddedSuffix|] == IntToString(quantity) &&
      ParseInt(m[|AddedPrefix|..|m| - |AddedSuffix|]) == quantity
  {
    var m := AddToCart(userId, itemId, quantity).message;
    assert m == AddedPrefix + IntToString(quantity) + AddedSuffix;
    assert m[|AddedPrefix|..|m| - |AddedSuffix|] == IntToString(quantity);
    IntToStringRoundTrip(quantity);
  }

  /** One row of `status_map`. */
  datatype StatusEntry = StatusEntry(progress: nat, message: string)

  /** `status_map` (lines 274-281). */
  const StatusMap: map<string, StatusEntry> := map[
    "pending" := StatusEntry(10, "Order received"),
    "confirmed" := StatusEntry(25, "Order confirmed"),
    "preparing" := StatusEntry(60, "Being prepared"),
    "ready" := StatusEntry(85, "Ready for pickup/delivery"),
    "delivered" := StatusEntry(100, "Delivered"),
    "cancelled" := StatusEntry(0, "Order cancelled")]

  /** `status_map.get(current_status, status_map['pending'])` (line 284). */
  function EntryFor(status: string): (e: StatusEntry)
    ensures e.progress <= 100
    ensures status in StatusMap ==> e == StatusMap[status]
    ensures status !in StatusMap ==> e == StatusMap["pending"]
  {
    if status in StatusMap then StatusMap[status] else StatusMap["pending"]
  }

  /** A stored order as `get_order` returns it: only the fields the status reply reads. */
  datatype StoredOrder = StoredOrder(status: Option<string>)

  /** The reply of `get_order_status_info`; timestamps are not modelled. */
  datatype StatusReply =
    | NotFound(error: string)
    | StatusInfo(orderId: string, status: string, progress: nat, message: string)

  /** `get_order_status_info` (lines 268-294), given what the order id resolves to. */
  function GetOrderStatusInfo(orderId: string, order: Option<StoredOrder>): (r: StatusReply)
    ensures order.None? <==> r == NotFound("Order not found")
    ensures r.StatusInfo? ==> r.orderId == orderId && r.progress <= 100
    ensures r.StatusInfo? ==> r.status == order.value.status.GetOr("pending")
    ensures r.StatusInfo? ==> r.progress == EntryFor(r.status).progress && r.message == EntryFor(r.status).message
  {
    match order
    case None => NotFound("Order not found")
    case Some(o) =>
      var currentStatus := o.status.GetOr("pending");
      var info := EntryFor(currentStatus);
      StatusInfo(orderId, currentStatus, info.progress, info.message)
  }

  /** An unknown or missing status reports pending's progress and message, but keeps the stored status text. */
  lemma UnknownStatusReadsAsPending(orderId: string, order: StoredOrder)
    requires order.status.None? || order.status.value !in StatusMap
    ensures var r := GetOrderStatusInfo(orderId, Some(order));
      r.StatusInfo? && r.progress == 10 && r.message == "Order received" &&
      (order.status.Some? ==> r.status == order.status.value) &&
      (order.status.None? ==> r.status == "pending")
  {
  }

  /** Progress rises along the lifecycle pending, confirmed, preparing, ready, delivered; cancelled reads 0. */
  lemma ProgressFollowsLifecycle()
    ensures forall i, j | 0 <= i < j < |Lifecycle| :: EntryFor(Lifecycle[i]).progress < EntryFor(Lifecycle[j]).progress
    ensures EntryFor(Lifecycle[|Lifecycle| - 1]).progress == 100
    ensures EntryFor("cancelled").progress == 0
  {
  }

  const Lifecycle := ["pending", "confirmed", "preparing", "ready", "delivered"]

  /** A freshly created order, read back, reports 10% and "Order received". */
  lemma NewOrderIsReceived(userId: string, items: seq<OrderItem>, customerInfo: Option<map<string, string>>, newDocId: string)
    ensures var o := CreateOrder(userId, items, customerInfo, newDocId);
      GetOrderStatusInfo(o.orderId, Some(StoredOrder(Some(o.status)))) ==
        StatusInfo(newDocId, "pending", 10, "Order received")
  {
  }
}
