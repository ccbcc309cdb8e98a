/** The two Razorpay entry points: the browser callback that confirms a
    checkout payment, and the server-to-server webhook.  Both mark an order
    `paid`; the callback also empties the buyer's cart.  The payment SDK's
    signature check is an oracle (`sdkAccepts`). */
module Payments {
  import opened Basics
  import opened Json
  import opened Forms
  import opened OrderModels
  import opened CartViews
  import opened OrderSignals
  import Shiprocket

  // ---------------------------------------------------------------------
  // The SDK client

  /** `verify_razorpay_signature(params)`.  Building the client raises when
      either key is unset, outside the `try` (`None`); otherwise the SDK's
      verdict, with an exception it raises read as a failed check. */
  function VerifySignature(keyId: string, keySecret: string, sdkAccepts: bool): (r: Option<bool>)
    ensures r.None? <==> keyId == "" || keySecret == ""
    ensures r.Some? ==> (r.value <==> sdkAccepts)
  {
    if keyId == "" || keySecret == "" then None else Some(sdkAccepts)
  }

  /** The Razorpay configuration checkout sees: both keys, and the SDK's
      answer to creating an order for an amount in paise and a receipt:
      the `id` of the order it returns ("" when the answer has none), or
      the name of the exception it raises. */
  datatype Gateway = Gateway(keyId: string, keySecret: string, create: (int, string) -> Result<string, string>)

  /** `create_razorpay_order(amount_paise, receipt)`.  Building the client
      raises `RuntimeError` when either key is unset, as for the signature
      check; otherwise the SDK's answer, an exception it raises propagating. */
  function CreateGatewayOrder(g: Gateway, amountPaise: int, receipt: string): (r: Result<string, string>)
    ensures g.keyId == "" || g.keySecret == "" ==> r == Err("RuntimeError")
    ensures g.keyId != "" && g.keySecret != "" ==> r == g.create(amountPaise, receipt)
  {
    if g.keyId == "" || g.keySecret == "" then Err("RuntimeError") else g.create(amountPaise, receipt)
  }

  /** The order a Razorpay order id belongs to.  A missing POST value is
      `None`, which the lookup reads as `IS NULL`: since the column is not
      nullable, it matches nothing. A posted id matches exactly the orders
      holding it. */
  function PaysFor(key: Option<string>): (p: Order -> bool)
    ensures key.None? ==> forall o: Order :: !p(o)
    ensures key.Some? ==> forall o: Order :: p(o) <==> o.razorpayOrderId == key.value
  {
    (o: Order) => key.Some? && o.razorpayOrderId == key.value
  }

  /** What a confirmed payment records on the order. */
  function Paid(o: Order, paymentId: string, signature: string): (p: Order)
    ensures p.status == "paid" && p.razorpayPaymentId == paymentId && p.razorpaySignature == signature
    ensures p == o.(status := p.status, razorpayPaymentId := p.razorpayPaymentId, razorpaySignature := p.razorpaySignature)
  {
    o.(status := "paid", razorpayPaymentId := paymentId, razorpaySignature := signature)
  }

  /** Every order is as it was, or is that order marked paid, with the
      payment fields possibly set and possibly the tracking number and
      provider that the shipment its save triggers writes. */
  predicate OnlyMarkedPaid(before: seq<Order>, after: seq<Order>)
  {
    |after| == |before|
    && forall j :: 0 <= j < |before| ==>
         after[j] == before[j]
         || (after[j].status == "paid"
             && after[j] == before[j].(status := "paid", razorpayPaymentId := after[j].razorpayPaymentId,
                                       razorpaySignature := after[j].razorpaySignature,
                                       trackingNumber := after[j].trackingNumber, shippingProvider := after[j].shippingProvider))
  }

  lemma OnlyMarkedPaidKeeps(before: seq<Order>, after: seq<Order>)
    requires OnlyMarkedPaid(before, after)
    ensures StatusesValid(before) ==> StatusesValid(after)
    ensures OrderNumbersUnique(before) ==> OrderNumbersUnique(after)
  {
    KnownStatuses();
    assert forall j :: 0 <= j < |after| ==> after[j].orderNumber == before[j].orderNumber;
  }

  // ---------------------------------------------------------------------
  // The callback

  datatype CallbackReply =
    | BadMethod                           // 400 "Invalid method"
    | OrderNotFound                       // 404
    | ServerError                         // 500
    | ToOrderDetail(orderNumber: string)  // "Payment successful", to the order page
    | ToCheckout                          // "Payment verification failed"

  /** `user.cart.items.all().delete()` when the user has a cart. */
  function EmptyCartOf(carts: map<int, DbCart>, userId: int): (r: map<int, DbCart>)
    ensures r.Keys == carts.Keys
    ensures userId in carts ==> r[userId] == DbCart(carts[userId].id, [])
    ensures forall u :: u in carts && u != userId ==> r[u] == carts[u]
  {
    if userId in carts then carts[userId := DbCart(carts[userId].id, [])] else carts
  }

  /** `razorpay_callback`.  `carts` holds every user's cart by user id
      (`Cart.user` is one-to-one).  A confirmed payment whose id or
      signature was not posted stores `None` in a non-null column, which the
      database refuses (500).  Saving the paid order runs the `post_save`
      handler in the same request: `enabled` is `SHIPROCKET_ENABLED` and
      `awb` the answer of the shipment call it makes. */
  method RazorpayCallback(isPost: bool, form: map<string, string>, orders: seq<Order>, carts: map<int, DbCart>,
                          keyId: string, keySecret: string, sdkAccepts: bool, enabled: bool, awb: Option<string>)
    returns (reply: CallbackReply, ordersAfter: seq<Order>, cartsAfter: map<int, DbCart>)
    ensures !isPost ==> reply == BadMethod
    ensures !reply.ToOrderDetail? ==> ordersAfter == orders && cartsAfter == carts
    ensures isPost ==>
              var found := FindOne(orders, PaysFor(Param(form, "razorpay_order_id")));
              var verdict := VerifySignature(keyId, keySecret, sdkAccepts);
              (found.Missing? ==> reply == OrderNotFound)
              && (found.Many? ==> reply == ServerError)
              && (found.One? && verdict.None? ==> reply == ServerError)
              && (found.One? && verdict == Some(false) ==> reply == ToCheckout)
              && (found.One? && verdict == Some(true) ==>
                    var pid, sig := Param(form, "razorpay_payment_id"), Param(form, "razorpay_signature");
                    if pid.None? || sig.None? then reply == ServerError
                    else
                      var o := orders[found.row];
                      reply == ToOrderDetail(o.orderNumber)
                      && ordersAfter == orders[found.row := AfterSave(enabled, Paid(o, pid.value, sig.value), awb)]
                      && cartsAfter == EmptyCartOf(carts, o.userId))
    ensures isPost ==> (ordersAfter, cartsAfter) == CallbackState(form, orders, carts, VerifySignature(keyId, keySecret, sdkAccepts), enabled, awb)
    ensures OnlyMarkedPaid(orders, ordersAfter)
  {
    ordersAfter, cartsAfter := orders, carts;
    if !isPost {
      return BadMethod, ordersAfter, cartsAfter;
    }
    var paymentId := Param(form, "razorpay_payment_id");
    var orderKey := Param(form, "razorpay_order_id");
    var signature := Param(form, "razorpay_signature");
    match FindOne(orders, PaysFor(orderKey)) {
      case Missing => reply := OrderNotFound;
      case Many => reply := ServerError;
      case One(k) =>
        var verdict := VerifySignature(keyId, keySecret, sdkAccepts);
        if verdict.None? {
          reply := ServerError;
        } else if !verdict.value {
          reply := ToCheckout;
        } else if paymentId.None? || signature.None? {
          reply := ServerError;
        } else {
          var o := orders[k];
          ordersAfter := orders[k := AfterSave(enabled, Paid(o, paymentId.value, signature.value), awb)];
          cartsAfter := EmptyCartOf(carts, o.userId);
          reply := ToOrderDetail(o.orderNumber);
        }
    }
  }

  /** The callback as a function of its inputs: the new orders and carts,
      after the handler its save runs.  Orders are at most marked paid (and
      tracked), and only the one the posted Razorpay order id names; no cart
      appears or disappears; and nothing changes unless the signature was
      verified. */
  function CallbackState(form: map<string, string>, orders: seq<Order>, carts: map<int, DbCart>, verdict: Option<bool>,
                         enabled: bool, awb: Option<string>): (r: (seq<Order>, map<int, DbCart>))
    ensures OnlyMarkedPaid(orders, r.0)
    ensures forall j :: 0 <= j < |orders| && r.0[j] != orders[j] ==> PaysFor(Param(form, "razorpay_order_id"))(orders[j])
    ensures r.1.Keys == carts.Keys
    ensures verdict != Some(true) ==> r == (orders, carts)
  {
    var pid, sig := Param(form, "razorpay_payment_id"), Param(form, "razorpay_signature");
    match FindOne(orders, PaysFor(Param(form, "razorpay_order_id")))
    case One(k) =>
      if verdict == Some(true) && pid.Some? && sig.Some? then
        (orders[k := AfterSave(enabled, Paid(orders[k], pid.value, sig.value), awb)], EmptyCartOf(carts, orders[k].userId))
      else (orders, carts)
    case _ => (orders, carts)
  }

  /** Delivering the same callback twice, with the carrier answering the
      second shipment call as it did the first, leaves the orders and carts
      as delivering it once did: the paid order is found again by its
      Razorpay order id and rewritten with the same values.  (An order that
      got its AWB is not shipped again whatever the carrier would say:
      `OrderSignals.TrackedSaveShipsNothing`.) */
  lemma CallbackIdempotent(form: map<string, string>, orders: seq<Order>, carts: map<int, DbCart>, verdict: Option<bool>,
                           enabled: bool, awb: Option<string>)
    ensures var once := CallbackState(form, orders, carts, verdict, enabled, awb);
            CallbackState(form, once.0, once.1, verdict, enabled, awb) == once
  {
    var once := CallbackState(form, orders, carts, verdict, enabled, awb);
    var p := PaysFor(Param(form, "razorpay_order_id"));
    var pid, sig := Param(form, "razorpay_payment_id"), Param(form, "razorpay_signature");
    var found := FindOne(orders, p);
    if found.One? && verdict == Some(true) && pid.Some? && sig.Some? {
      var k := found.row;
      var after := once.0;
      assert forall j :: 0 <= j < |after| ==> (p(after[j]) <==> p(orders[j]));
      assert FindOne(after, p) == One(k) by {
        assert p(after[k]);
        assert forall j :: 0 <= j < |after| && j != k ==> !p(after[j]);
      }
      assert Paid(after[k], pid.value, sig.value) == after[k];
      AfterSaveIdempotent(enabled, Paid(orders[k], pid.value, sig.value), awb);
      assert after[k := AfterSave(enabled, Paid(after[k], pid.value, sig.value), awb)] == after;
      var u := orders[k].userId;
      assert after[k].userId == u;
      assert EmptyCartOf(once.1, u) == once.1;
    }
  }

  // ---------------------------------------------------------------------
  // The webhook

  datatype WebhookReply = InvalidPayload | WebhookError | WebhookOk

  /** Whether an object has the key. */
  predicate HasKey(fields: seq<(string, Json)>, key: string)
  {
    exists i :: 0 <= i < |fields| && fields[i].0 == key
  }

  /** `x.get(key, default)`; `None` is the `AttributeError` a value that
      is not an object raises. */
  function GetDefault(x: Json, key: string, default: Json): (r: Option<Json>)
    ensures !x.JObj? ==> r.None?
    ensures x.JObj? && !HasKey(x.fields, key) ==> r == Some(default)
    ensures x.JObj? && HasKey(x.fields, key) ==> r == Some(Get(x.fields, key))
  {
    if !x.JObj? then None
    else if HasKey(x.fields, key) then Some(Get(x.fields, key))
    else Some(default)
  }

  /** What the webhook reads from a decoded body. */
  datatype Event = Broken | Ignored | Captured(orderKey: string)

  /** `event`, `payload.payment.entity.order_id`: only a
      `payment.captured` event with a truthy order id names an order; a
      body or nested member that is not an object where `.get` is applied
      raises (`Broken`).  The order id is compared as text (`str`). */
  function ReadEvent(data: Json): (e: Event)
    ensures !data.JObj? ==> e == Broken
    ensures data.JObj? && Get(data.fields, "event") != JStr("payment.captured") ==> e == Ignored
    ensures e.Captured? ==>
              exists payload, payment, entity ::
                GetDefault(data, "payload", JObj([])) == Some(payload)
                && GetDefault(payload, "payment", JObj([])) == Some(payment)
                && GetDefault(payment, "entity", JObj([])) == Some(entity)
                && entity.JObj? && Truthy(Get(entity.fields, "order_id"))
                && e.orderKey == StrOf(Get(entity.fields, "order_id"))
  {
    if !data.JObj? then Broken
    else
      var payload := GetDefault(data, "payload", JObj([])).value;
      if Get(data.fields, "event") != JStr("payment.captured") then Ignored
      else match GetDefault(payload, "payment", JObj([]))
        case None => Broken
        case Some(payment) =>
          match GetDefault(payment, "entity", JObj([]))
          case None => Broken
          case Some(entity) =>
            if !entity.JObj? then Broken
            else
              var orderId := Get(entity.fields, "order_id");
              if Truthy(orderId) then Captured(StrOf(orderId)) else Ignored
  }

  /** `razorpay_webhook`.  `body` is the decoded request body, `None` when
      it is not valid UTF-8 JSON.  As in the callback, saving the paid
      order runs the `post_save` handler, whose shipment call answers `awb`. */
  method RazorpayWebhook(body: Option<Json>, orders: seq<Order>, enabled: bool, awb: Option<string>) returns (reply: WebhookReply, after: seq<Order>)
    ensures reply == InvalidPayload <==> body.None?
    ensures reply != WebhookOk ==> after == orders
    ensures body.Some? && ReadEvent(body.value) == Broken ==> reply == WebhookError
    ensures body.Some? && ReadEvent(body.value) == Ignored ==> reply == WebhookOk && after == orders
    ensures body.Some? && ReadEvent(body.value).Captured? ==>
              var key := ReadEvent(body.value).orderKey;
              match FindOne(orders, PaysFor(Some(key)))
              case Missing => reply == WebhookOk && after == orders
              case Many => reply == WebhookError
              case One(k) => reply == WebhookOk && after == orders[k := AfterSave(enabled, orders[k].(status := "paid"), awb)]
    ensures OnlyMarkedPaid(orders, after)
  {
    after := orders;
    if body.None? {
      return InvalidPayload, after;
    }
    match ReadEvent(body.value) {
      case Broken => reply := WebhookError;
      case Ignored => reply := WebhookOk;
      case Captured(key) =>
        match FindOne(orders, PaysFor(Some(key))) {
          case Missing => reply := WebhookOk;
          case Many => reply := WebhookError;
          case One(k) =>
            after := orders[k := AfterSave(enabled, orders[k].(status := "paid"), awb)];
            reply := WebhookOk;
        }
    }
  }

  /** A webhook for a payment the callback already confirmed changes
      nothing when the callback's save left the order tracked, when the
      carrier is off, or when the carrier answers as it did then; otherwise
      the webhook's save retries the shipment. */
  lemma WebhookAfterCallback(form: map<string, string>, orders: seq<Order>, carts: map<int, DbCart>, key: string,
                             enabled: bool, awb: Option<string>, awb2: Option<string>)
    requires Param(form, "razorpay_order_id") == Some(key)
    requires FindOne(orders, PaysFor(Some(key))).One?
    requires Param(form, "razorpay_payment_id").Some? && Param(form, "razorpay_signature").Some?
    ensures var paid := CallbackState(form, orders, carts, Some(true), enabled, awb).0;
            var k := FindOne(orders, PaysFor(Some(key))).row;
            FindOne(paid, PaysFor(Some(key))) == One(k)
            && (paid[k].trackingNumber != "" || !enabled || awb2 == awb ==>
                  paid[k := AfterSave(enabled, paid[k].(status := "paid"), awb2)] == paid)
  {
    var p := PaysFor(Some(key));
    var k := FindOne(orders, p).row;
    var pid, sig := Param(form, "razorpay_payment_id").value, Param(form, "razorpay_signature").value;
    var paid := CallbackState(form, orders, carts, Some(true), enabled, awb).0;
    MarkingPaidKeepsMatches(orders, paid, key);
    assert paid[k] == AfterSave(enabled, Paid(orders[k], pid, sig), awb);
    assert paid[k].status == "paid";
    assert paid[k].(status := "paid") == paid[k];
    AfterSaveIdempotent(enabled, Paid(orders[k], pid, sig), awb);
  }

  /** Marking orders paid leaves the same orders matching a Razorpay
      order id. */
  lemma MarkingPaidKeepsMatches(before: seq<Order>, after: seq<Order>, key: string)
    requires OnlyMarkedPaid(before, after)
    ensures FindOne(after, PaysFor(Some(key))) == FindOne(before, PaysFor(Some(key)))
  {
    var p := PaysFor(Some(key));
    assert forall j :: 0 <= j < |after| ==> after[j].razorpayOrderId == before[j].razorpayOrderId;
    assert forall j :: 0 <= j < |after| ==> (p(after[j]) <==> p(before[j]));
  }

  /** Marking an order paid twice, the carrier answering alike, is marking
      it once. */
  lemma WebhookIdempotent(orders: seq<Order>, key: string, enabled: bool, awb: Option<string>)
    requires FindOne(orders, PaysFor(Some(key))).One?
    ensures var k := FindOne(orders, PaysFor(Some(key))).row;
            var once := orders[k := AfterSave(enabled, orders[k].(status := "paid"), awb)];
            FindOne(once, PaysFor(Some(key))) == One(k) && once[k := AfterSave(enabled, once[k].(status := "paid"), awb)] == once
  {
    var p := PaysFor(Some(key));
    var k := FindOne(orders, p).row;
    var once := orders[k := AfterSave(enabled, orders[k].(status := "paid"), awb)];
    assert forall j :: 0 <= j < |once| ==> (p(once[j]) <==> p(orders[j]));
    assert p(once[k]);
    assert once[k].(status := "paid") == once[k];
    AfterSaveIdempotent(enabled, orders[k].(status := "paid"), awb);
  }

  // ---------------------------------------------------------------------
  // The shipment a payment triggers

  /** A confirmed callback saves the order as paid, so the handler makes
      the shipment call exactly when the integration is on and the order
      had no tracking number, and the order ends with the AWB that call
      returns. */
  lemma CallbackTriggersShipment(form: map<string, string>, orders: seq<Order>, carts: map<int, DbCart>,
                                 enabled: bool, raises: bool, awb: string, k: nat)
    requires FindOne(orders, PaysFor(Param(form, "razorpay_order_id"))) == One(k)
    requires Param(form, "razorpay_payment_id").Some? && Param(form, "razorpay_signature").Some?
    ensures var after := CallbackState(form, orders, carts, Some(true), enabled, Some(awb)).0;
            var paid := Paid(orders[k], Param(form, "razorpay_payment_id").value, Param(form, "razorpay_signature").value);
            k < |after|
            && (OnOrderSaved(enabled, paid, raises).ShipmentAttempted? <==> enabled && orders[k].trackingNumber == "")
            && (enabled && orders[k].trackingNumber == "" ==> after[k].trackingNumber == awb && after[k].shippingProvider == "Shiprocket")
            && (!(enabled && orders[k].trackingNumber == "") ==> after[k] == paid)
  {
  }

  /** The webhook's save of a captured payment triggers the handler in the
      same way. */
  lemma WebhookTriggersShipment(orders: seq<Order>, key: string, enabled: bool, raises: bool, awb: string, k: nat)
    requires FindOne(orders, PaysFor(Some(key))) == One(k)
    ensures var paid := orders[k].(status := "paid");
            var saved := AfterSave(enabled, paid, Some(awb));
            (OnOrderSaved(enabled, paid, raises).ShipmentAttempted? <==> enabled && orders[k].trackingNumber == "")
            && (enabled && orders[k].trackingNumber == "" ==> saved == paid.(trackingNumber := awb, shippingProvider := "Shiprocket"))
            && (!(enabled && orders[k].trackingNumber == "") ==> saved == paid)
  {
  }
}
