/** Orders, their items, and return requests: the choice lists, the
    defaults, and the records as the views read and write them.  Amounts
    are in paise. */
module OrderModels {
  import opened Basics
  import opened CatalogModels

  /** The fifteen keys of `Order.STATUS_CHOICES`, in their declared order. */
  const StatusKeys: seq<string> := [
    "created", "paid", "confirmed", "packed", "dispatched", "out_for_delivery",
    "delivered", "processing", "shipped", "return_requested", "exchange_requested",
    "return_in_transit", "return_completed", "cancelled", "refunded"]

  /** `Order.PAYMENT_METHODS`. */
  const PaymentMethods: seq<string> := ["razorpay", "cod"]

  /** `ReturnRequest.TYPES` and `ReturnRequest.STATUSES`. */
  const ReturnTypes: seq<string> := ["return", "exchange"]
  const ReturnStatuses: seq<string> := ["requested", "approved", "pickup_scheduled", "in_transit", "completed", "rejected"]

  predicate IsStatus(s: string) { s in StatusKeys }

  /** Every order carries one of the fifteen status keys. */
  predicate StatusesValid(orders: seq<Order>)
  {
    forall j :: 0 <= j < |orders| ==> IsStatus(orders[j].status)
  }

  /** The status choices are fifteen distinct keys. */
  lemma StatusKeysShape()
    ensures |StatusKeys| == 15 && Distinct(StatusKeys)
  {
    var a, b, c := StatusKeys[..5], StatusKeys[5..10], StatusKeys[10..];
    StatusGroupsDistinct();
    StatusGroupsDisjoint();
    DistinctConcat(a, b);
    DistinctConcat(a + b, c);
    assert StatusKeys == a + b + c;
  }

  /** A few statuses the views rely on; the empty string is not one. */
  lemma KnownStatuses()
    ensures IsStatus("created") && IsStatus("paid") && IsStatus("delivered")
    ensures !IsStatus("")
  {
    forall k | 0 <= k < |StatusKeys| ensures |StatusKeys[k]| > 0 { }
  }

  lemma StatusGroupsDistinct()
    ensures Distinct(StatusKeys[..5]) && Distinct(StatusKeys[5..10]) && Distinct(StatusKeys[10..])
  {
    assert StatusKeys[..5] == ["created", "paid", "confirmed", "packed", "dispatched"];
    assert StatusKeys[5..10] == ["out_for_delivery", "delivered", "processing", "shipped", "return_requested"];
    assert StatusKeys[10..] == ["exchange_requested", "return_in_transit", "return_completed", "cancelled", "refunded"];
  }

  lemma StatusGroupsDisjoint()
    ensures forall x :: x in StatusKeys[..5] ==> x !in StatusKeys[5..10]
    ensures forall x :: x in StatusKeys[..5] + StatusKeys[5..10] ==> x !in StatusKeys[10..]
  {
    assert StatusKeys[..5] == ["created", "paid", "confirmed", "packed", "dispatched"];
    assert StatusKeys[5..10] == ["out_for_delivery", "delivered", "processing", "shipped", "return_requested"];
    assert StatusKeys[10..] == ["exchange_requested", "return_in_transit", "return_completed", "cancelled", "refunded"];
  }

  /** The other choice lists are distinct too. */
  lemma ChoiceListsShape()
    ensures |PaymentMethods| == 2 && Distinct(PaymentMethods)
    ensures |ReturnTypes| == 2 && Distinct(ReturnTypes)
    ensures |ReturnStatuses| == 6 && Distinct(ReturnStatuses)
  {
  }

  /** The address and contact snapshot an order keeps. */
  datatype ShipTo = ShipTo(name: string, phone: string, line1: string, line2: string, city: string, state: string, postalCode: string, country: string)

  /** An `Order` row.  `status` and `paymentMethod` are text columns: the
      choices constrain forms, not the database. */
  datatype Order = Order(
    id: int,
    userId: int,
    orderNumber: string,
    status: string,
    paymentMethod: string,
    razorpayOrderId: string,
    razorpayPaymentId: string,
    razorpaySignature: string,
    subtotal: int,
    gst: int,
    shipping: int,
    total: int,
    couponCode: string,
    discount: int,
    shipTo: ShipTo,
    shippingProvider: string,
    trackingNumber: string)

  /** The fields a creator supplies; everything else takes its declared
      default. */
  datatype NewOrder = NewOrder(userId: int, orderNumber: string, paymentMethod: string, subtotal: int, gst: int, shipping: int, total: int, shipTo: ShipTo)

  /** `Order.objects.create(...)` without explicit status, discount or
      tracking fields. */
  function CreateOrder(id: int, n: NewOrder): (o: Order)
    ensures o.status == "created" && o.discount == 0 && o.couponCode == ""
    ensures o.trackingNumber == "" && o.shippingProvider == "Shiprocket"
    ensures o.razorpayOrderId == "" && o.razorpayPaymentId == "" && o.razorpaySignature == ""
    ensures o.id == id && o.userId == n.userId && o.orderNumber == n.orderNumber && o.paymentMethod == n.paymentMethod
    ensures o.subtotal == n.subtotal && o.gst == n.gst && o.shipping == n.shipping && o.total == n.total && o.shipTo == n.shipTo
  {
    Order(id, n.userId, n.orderNumber, "created", n.paymentMethod, "", "", "", n.subtotal, n.gst, n.shipping, n.total, "", 0, n.shipTo, "Shiprocket", "")
  }

  /** `order_number` is unique. */
  predicate OrderNumbersUnique(orders: seq<Order>)
  {
    forall i, j :: 0 <= i < j < |orders| ==> orders[i].orderNumber != orders[j].orderNumber
  }

  /** Inserting an order: the database refuses a second row with the same
      order number. */
  function InsertOrder(orders: seq<Order>, o: Order): (r: Result<seq<Order>, string>)
    ensures r.Ok? <==> forall i :: 0 <= i < |orders| ==> orders[i].orderNumber != o.orderNumber
    ensures r.Ok? ==> r.value == orders + [o]
  {
    if exists i :: 0 <= i < |orders| && orders[i].orderNumber == o.orderNumber then Err("IntegrityError")
    else Ok(orders + [o])
  }

  lemma InsertOrderKeepsUnique(orders: seq<Order>, o: Order)
    requires OrderNumbersUnique(orders)
    ensures InsertOrder(orders, o).Ok? ==> OrderNumbersUnique(InsertOrder(orders, o).value)
  {
  }

  /** An `OrderItem` row. */
  datatype OrderItem = OrderItem(
    id: int,
    orderId: int,
    product: Product,
    variant: Option<Variant>,
    variantSize: string,
    variantColor: string,
    quantity: nat,
    unitPrice: int,
    lineTotal: int,
    unitCost: int,
    lineCost: int)

  /** A `ReturnRequest` row; it starts out `requested` with no AWB. */
  datatype ReturnRequest = ReturnRequest(id: int, orderId: int, userId: int, rtype: string, reason: string, status: string, awbCode: string)

  function CreateReturnRequest(id: int, orderId: int, userId: int, rtype: string, reason: string): (r: ReturnRequest)
    ensures r.status == "requested" && r.status in ReturnStatuses && r.awbCode == ""
    ensures r.id == id && r.orderId == orderId && r.userId == userId && r.rtype == rtype && r.reason == reason
  {
    ReturnRequest(id, orderId, userId, rtype, reason, "requested", "")
  }

  /** A `ReturnItem` row: a quantity and an optional exchange variant. */
  datatype ReturnItem = ReturnItem(requestId: int, orderItemId: int, quantity: nat, exchangeVariant: Option<Variant>)

  /** A return item created without a quantity gets 1. */
  const DefaultReturnQuantity: nat := 1
}
