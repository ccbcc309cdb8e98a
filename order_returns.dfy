/** The customer's return views: a return or exchange of chosen items with
    chosen quantities, and a one-click return of a delivered order.  Both
    record the request and its items, ask the carrier for a reverse pickup,
    and with an AWB mark the pickup scheduled and move the order on. */
module OrderReturns {
  import opened Basics
  import opened Text
  import opened CatalogModels
  import opened OrderModels
  import opened Shiprocket
  import opened Users
  import opened Json
  import opened Forms
  import opened CartViews

  /** The tables the return views read and write. */
  datatype ReturnTables = ReturnTables(orders: seq<Order>, items: seq<OrderItem>, requests: seq<ReturnRequest>, returnItems: seq<ReturnItem>)

  /** `get_object_or_404(Order, user=..., order_number=...)`, as the row's
      index. */
  function FindOrder(orders: seq<Order>, userId: int, number: string): (r: Result<nat, string>)
    ensures r.Ok? ==> r.value < |orders| && orders[r.value].userId == userId && orders[r.value].orderNumber == number
    ensures r.Err? && r.error == "Http404" <==> forall i :: 0 <= i < |orders| ==> !(orders[i].userId == userId && orders[i].orderNumber == number)
    ensures OrderNumbersUnique(orders) ==> r.Ok? || r.error == "Http404"
  {
    var p := (o: Order) => o.userId == userId && o.orderNumber == number;
    match LookupBy(orders, p)
    case Missing => Err("Http404")
    case Many =>
      assert !OrderNumbersUnique(orders) by {
        var f := FirstWhere(orders, p);
        if OrderNumbersUnique(orders) {
          FilterSingle(orders, p, f.value);
        }
      }
      Err("MultipleObjectsReturned")
    case One(_) => Ok(FirstWhere(orders, p).value)
  }

  /** `order.items.all()`, in table order. */
  function ItemsOf(items: seq<OrderItem>, orderId: int): (r: seq<OrderItem>)
    ensures forall it :: it in r ==> it in items && it.orderId == orderId
  {
    Filter(items, (it: OrderItem) => it.orderId == orderId)
  }

  /** One chosen item: the order item, the quantity going back and, for an
      exchange, the variant wanted instead. */
  datatype ReturnLine = ReturnLine(item: OrderItem, qty: nat, exchange: Option<Variant>)

  /** The form field holding an item's quantity, `qty_<id>`. */
  function QtyField(id: int): string
  {
    "qty_" + IntToString(id)
  }

  /** `int(request.POST.get("qty_<id>", 0) or 0)`: a missing or empty field
      is 0, other text must parse (`Err` is the `ValueError`). */
  function PostedQty(form: map<string, string>, id: int): Result<int, string>
  {
    var key := QtyField(id);
    if key !in form || form[key] == "" then Ok(0)
    else match ParseInt(form[key])
      case None => Err("ValueError")
      case Some(n) => Ok(n)
  }

  /** What `PostedQty` reads: a missing or empty field is 0, any other text
      is its integer value, and text that is not an integer fails. */
  lemma PostedQtyMeaning(form: map<string, string>, id: int)
    ensures QtyField(id) !in form || form[QtyField(id)] == "" ==> PostedQty(form, id) == Ok(0)
    ensures QtyField(id) in form && form[QtyField(id)] != "" ==>
              (PostedQty(form, id).Err? <==> ParseInt(form[QtyField(id)]).None?)
              && (PostedQty(form, id).Ok? ==> ParseInt(form[QtyField(id)]) == Some(PostedQty(form, id).value))
  {
  }

  /** The field the form sends for item `id` round-trips its quantity. */
  lemma PostedQtyOfRenderedQty(form: map<string, string>, id: int, n: int)
    requires QtyField(id) in form && form[QtyField(id)] == IntToString(n)
    ensures PostedQty(form, id) == Ok(n)
  {
    ParseIntOfIntToString(n);
  }

  /** For an exchange, the variant named by `ex_<id>_variant`; nothing when
      the field is empty, does not parse or names no variant, and nothing
      for a plain return. */
  function ExchangeVariant(form: map<string, string>, id: int, rtype: string, variants: map<int, Variant>): (r: Option<Variant>)
    ensures rtype != "exchange" ==> r.None?
    ensures r.Some? ==> r.value in variants.Values
  {
    var key := "ex_" + IntToString(id) + "_variant";
    if rtype != "exchange" || key !in form || form[key] == "" then None
    else match ParseInt(form[key])
      case None => None
      case Some(vid) => if vid in variants then Some(variants[vid]) else None
  }

  /** How the posted form is read, item by item: its quantity field and, for
      an exchange, its variant field. */
  function QtyReader(form: map<string, string>): int -> Result<int, string>
  {
    id => PostedQty(form, id)
  }

  function ExchangeReader(form: map<string, string>, rtype: string, variants: map<int, Variant>): int -> Option<Variant>
  {
    id => ExchangeVariant(form, id, rtype, variants)
  }

  /** The line an item contributes when its posted quantity `q` is positive:
      that quantity, but at most the ordered one. */
  function LineFor(it: OrderItem, q: int, exchange: int -> Option<Variant>): (r: ReturnLine)
    requires q > 0
    ensures r.item == it && r.qty <= it.quantity && r.exchange == exchange(it.id)
    ensures r.qty == q || r.qty == it.quantity
    ensures it.quantity > 0 ==> r.qty >= 1
  {
    ReturnLine(it, Min(q, it.quantity), exchange(it.id))
  }

  /** The selection loop of `order_return_request` over the order's items,
      in order, with `qty` and `exchange` reading the posted form. */
  function SelectReturns(items: seq<OrderItem>, qty: int -> Result<int, string>, exchange: int -> Option<Variant>): (r: Result<seq<ReturnLine>, string>)
    ensures r.Ok? ==> |r.value| <= |items|
    decreases |items|
  {
    if items == [] then Ok([])
    else
      var it := items[|items| - 1];
      var prev := SelectReturns(items[..|items| - 1], qty, exchange);
      var q := qty(it.id);
      if prev.Err? then prev
      else if q.Err? then Err(q.error)
      else Ok(if q.value > 0 then prev.value + [LineFor(it, q.value, exchange)] else prev.value)
  }

  /** The selection fails exactly when some item's quantity does not
      parse. */
  lemma {:induction false} SelectFailsOnBadQty(items: seq<OrderItem>, qty: int -> Result<int, string>, exchange: int -> Option<Variant>)
    ensures SelectReturns(items, qty, exchange).Err? <==> exists i :: 0 <= i < |items| && qty(items[i].id).Err?
    decreases |items|
  {
    if items != [] {
      var n := |items| - 1;
      var init := items[..n];
      SelectFailsOnBadQty(init, qty, exchange);
      if SelectReturns(init, qty, exchange).Err? {
        var i :| 0 <= i < |init| && qty(init[i].id).Err?;
        assert init[i] == items[i];
      } else if qty(items[n].id).Ok? {
        forall i | 0 <= i < |items| ensures qty(items[i].id).Ok?
        {
          if i < n {
            assert init[i] == items[i];
          }
        }
      }
    }
  }

  /** Every chosen line is an item of the order whose posted quantity is
      positive, going back at that quantity clamped to the ordered one, with
      the exchange variant posted for it. */
  lemma {:induction false} SelectedLinesAreClamped(items: seq<OrderItem>, qty: int -> Result<int, string>, exchange: int -> Option<Variant>)
    requires SelectReturns(items, qty, exchange).Ok?
    ensures var lines := SelectReturns(items, qty, exchange).value;
            forall k :: 0 <= k < |lines| ==>
              lines[k].item in items && qty(lines[k].item.id).Ok? && 0 < qty(lines[k].item.id).value
              && lines[k].qty == Min(qty(lines[k].item.id).value, lines[k].item.quantity)
              && lines[k].exchange == exchange(lines[k].item.id)
    decreases |items|
  {
    if items != [] {
      var init := items[..|items| - 1];
      SelectedLinesAreClamped(init, qty, exchange);
      assert forall x :: x in init ==> x in items;
    }
  }

  /** Every item of the order whose posted quantity is positive is chosen. */
  lemma {:induction false} PositiveQtyIsSelected(items: seq<OrderItem>, qty: int -> Result<int, string>, exchange: int -> Option<Variant>, i: nat)
    requires SelectReturns(items, qty, exchange).Ok?
    requires i < |items| && qty(items[i].id).Ok? && qty(items[i].id).value > 0
    ensures exists k :: 0 <= k < |SelectReturns(items, qty, exchange).value| && SelectReturns(items, qty, exchange).value[k].item == items[i]
    decreases |items|
  {
    var lines := SelectReturns(items, qty, exchange).value;
    var init := items[..|items| - 1];
    if i == |items| - 1 {
      assert lines[|lines| - 1].item == items[i];
    } else {
      assert init[i] == items[i];
      PositiveQtyIsSelected(init, qty, exchange, i);
      var k :| 0 <= k < |SelectReturns(init, qty, exchange).value| && SelectReturns(init, qty, exchange).value[k].item == items[i];
      assert lines[k] == SelectReturns(init, qty, exchange).value[k];
    }
  }

  /** One step of the loop: the selection over one more item. */
  lemma SelectReturnsSnoc(items: seq<OrderItem>, i: nat, qty: int -> Result<int, string>, exchange: int -> Option<Variant>)
    requires i < |items|
    ensures var prev := SelectReturns(items[..i], qty, exchange);
            var q := qty(items[i].id);
            SelectReturns(items[..i + 1], qty, exchange)
              == if prev.Err? then prev
                 else if q.Err? then Err(q.error)
                 else Ok(if q.value > 0 then prev.value + [LineFor(items[i], q.value, exchange)] else prev.value)
  {
    assert items[..i + 1][..i] == items[..i];
  }

  /** The selection loop; an unparsable quantity ends the request. */
  method SelectLines(items: seq<OrderItem>, form: map<string, string>, rtype: string, variants: map<int, Variant>) returns (r: Result<seq<ReturnLine>, string>)
    ensures r == SelectReturns(items, QtyReader(form), ExchangeReader(form, rtype, variants))
  {
    var qty, exchange := QtyReader(form), ExchangeReader(form, rtype, variants);
    var lines: seq<ReturnLine> := [];
    var i := 0;
    while i < |items|
      invariant 0 <= i <= |items|
      invariant SelectReturns(items[..i], qty, exchange) == Ok(lines)
    {
      SelectReturnsSnoc(items, i, qty, exchange);
      var q := PostedQty(form, items[i].id);
      assert q == qty(items[i].id);
      if q.Err? {
        ErrorSticks(items, i + 1, qty, exchange);
        return Err(q.error);
      }
      if q.value > 0 {
        lines := lines + [ReturnLine(items[i], Min(q.value, items[i].quantity), ExchangeVariant(form, items[i].id, rtype, variants))];
      }
      i := i + 1;
    }
    assert items[..i] == items;
    r := Ok(lines);
  }

  /** Once the selection fails, it stays failed. */
  lemma {:induction false} ErrorSticks(items: seq<OrderItem>, i: nat, qty: int -> Result<int, string>, exchange: int -> Option<Variant>)
    requires i <= |items| && SelectReturns(items[..i], qty, exchange).Err?
    ensures SelectReturns(items, qty, exchange) == SelectReturns(items[..i], qty, exchange)
    decreases |items| - i
  {
    if i < |items| {
      SelectReturnsSnoc(items, i, qty, exchange);
      ErrorSticks(items, i + 1, qty, exchange);
    } else {
      assert items[..i] == items;
    }
  }

  /** The order items as handed to the carrier: each with its quantity set
      to the quantity going back. */
  function Outgoing(lines: seq<ReturnLine>): (r: seq<OrderItem>)
    ensures |r| == |lines|
    ensures forall i :: 0 <= i < |lines| ==> r[i] == lines[i].item.(quantity := lines[i].qty)
  {
    if lines == [] then [] else Outgoing(lines[..|lines| - 1]) + [lines[|lines| - 1].item.(quantity := lines[|lines| - 1].qty)]
  }

  /** The `ReturnItem` rows of a request, one per line. */
  function ReturnItemsFor(requestId: int, lines: seq<ReturnLine>): (r: seq<ReturnItem>)
    ensures |r| == |lines|
    ensures forall i :: 0 <= i < |lines| ==> r[i] == ReturnItem(requestId, lines[i].item.id, lines[i].qty, lines[i].exchange)
  {
    if lines == [] then [] else ReturnItemsFor(requestId, lines[..|lines| - 1]) + [ReturnItem(requestId, lines[|lines| - 1].item.id, lines[|lines| - 1].qty, lines[|lines| - 1].exchange)]
  }

  /** The order status a scheduled pickup moves the order to. */
  function ReturnedStatus(rtype: string): (s: string)
    ensures s == "return_requested" <==> rtype == "return"
    ensures s != "return_requested" ==> s == "exchange_requested"
    ensures IsStatus(s)
  {
    if rtype == "return" then "return_requested" else "exchange_requested"
  }

  /** What a recorded request writes: the request (with its AWB and
      `pickup_scheduled` when the carrier returned one) and its items, and
      with an AWB the order's new status. */
  function Recorded(t: ReturnTables, i: nat, rr: ReturnRequest, lines: seq<ReturnLine>, awb: Option<string>): (r: ReturnTables)
    requires i < |t.orders|
    ensures r.items == t.items && |r.orders| == |t.orders|
    ensures r.requests == t.requests + [if awb.Some? then rr.(awbCode := awb.value, status := "pickup_scheduled") else rr]
    ensures r.returnItems == t.returnItems + ReturnItemsFor(rr.id, lines)
    ensures awb.None? ==> r.orders == t.orders
    ensures awb.Some? ==> r.orders == t.orders[i := t.orders[i].(status := ReturnedStatus(rr.rtype))]
  {
    var saved := if awb.Some? then rr.(awbCode := awb.value, status := "pickup_scheduled") else rr;
    var orders := if awb.Some? then t.orders[i := t.orders[i].(status := ReturnedStatus(rr.rtype))] else t.orders;
    ReturnTables(orders, t.items, t.requests + [saved], t.returnItems + ReturnItemsFor(rr.id, lines))
  }

  /** Recording a request changes no order's number and, when every order
      has a known status, keeps it so; the request's status is one of the
      declared ones. */
  lemma RecordedKeepsOrders(t: ReturnTables, i: nat, rr: ReturnRequest, lines: seq<ReturnLine>, awb: Option<string>)
    requires i < |t.orders| && rr.status == "requested"
    ensures var r := Recorded(t, i, rr, lines, awb);
            (forall j :: 0 <= j < |t.orders| ==> r.orders[j].orderNumber == t.orders[j].orderNumber && r.orders[j].id == t.orders[j].id)
            && (OrderNumbersUnique(t.orders) ==> OrderNumbersUnique(r.orders))
            && ((forall j :: 0 <= j < |t.orders| ==> IsStatus(t.orders[j].status)) ==> forall j :: 0 <= j < |r.orders| ==> IsStatus(r.orders[j].status))
            && r.requests[|t.requests|].status in ReturnStatuses
  {
    var r := Recorded(t, i, rr, lines, awb);
    ChoiceListsShape();
    if OrderNumbersUnique(t.orders) {
      forall a, b | 0 <= a < b < |r.orders| ensures r.orders[a].orderNumber != r.orders[b].orderNumber
      {
        assert r.orders[a].orderNumber == t.orders[a].orderNumber;
      }
    }
  }

  /** What goes back, to the carrier and into the `ReturnItem` rows, never
      exceeds what was ordered, item by item. */
  lemma ReturnNeverExceedsOrdered(items: seq<OrderItem>, qty: int -> Result<int, string>, exchange: int -> Option<Variant>, requestId: int)
    requires SelectReturns(items, qty, exchange).Ok?
    ensures var lines := SelectReturns(items, qty, exchange).value;
            forall k :: 0 <= k < |lines| ==>
              lines[k].item in items
              && Outgoing(lines)[k].id == lines[k].item.id && Outgoing(lines)[k].quantity <= lines[k].item.quantity
              && ReturnItemsFor(requestId, lines)[k].orderItemId == lines[k].item.id
              && ReturnItemsFor(requestId, lines)[k].quantity <= lines[k].item.quantity
  {
    SelectedLinesAreClamped(items, qty, exchange);
  }

  /** The carrier's part of a return: the carrier as the first token fetch
      sees it, the instant and login answer of the second fetch, and the
      return and AWB endpoints. */
  datatype Pickup = Pickup(carrier: Carrier, later: real, login2: LoginReply,
                           createReturn: ReturnRequestBody -> Option<Json>, assign: Json -> Option<Json>)

  /** The AWB and token cache a reverse pickup for `items` of `o` ends with. */
  function PickupOutcome(token: Json, expiry: real, pickup: Pickup, o: Order, u: User, orderDate: string, items: seq<OrderItem>): (r: (Option<string>, Json, real))
  {
    var c := pickup.carrier;
    ReturnOutcome(token, expiry, c.cfg, c.now, c.login, pickup.later, pickup.login2, pickup.createReturn, pickup.assign, o, u, orderDate, items)
  }

  /** Creates the request and its items and asks for a reverse pickup. */
  method RecordReturn(cache: TokenCache, pickup: Pickup, t: ReturnTables, i: nat, rr: ReturnRequest, lines: seq<ReturnLine>, u: User, orderDate: string)
    returns (after: ReturnTables, awb: Option<string>)
    requires i < |t.orders|
    modifies cache
    ensures (awb, cache.token, cache.expiry) == PickupOutcome(old(cache.token), old(cache.expiry), pickup, t.orders[i], u, orderDate, Outgoing(lines))
    ensures after == Recorded(t, i, rr, lines, awb)
    ensures !Enabled(pickup.carrier.cfg) ==> awb.None? && after.orders == t.orders && cache.token == old(cache.token) && cache.expiry == old(cache.expiry)
    ensures awb.Some? ==> awb.value != "" && after.requests[|t.requests|].status == "pickup_scheduled"
                          && after.orders[i].status == ReturnedStatus(rr.rtype)
  {
    var c := pickup.carrier;
    awb := CreateReturn(cache, c.cfg, c.now, c.login, pickup.later, pickup.login2, pickup.createReturn, pickup.assign, t.orders[i], u, orderDate, Outgoing(lines));
    after := Recorded(t, i, rr, lines, awb);
  }

  /** `order_return_request`.  The answers are the page (`return_request`),
      the redirect back to it when nothing is chosen, and the redirect to
      the order once the request is recorded.  An unparsable quantity is a
      server error and writes nothing. */
  method OrderReturnRequest(cache: TokenCache, pickup: Pickup, variants: seq<Variant>, t: ReturnTables, u: User, number: string,
                            verb: string, form: map<string, string>, requestId: int, orderDate: string)
    returns (r: Result<string, string>, after: ReturnTables, awb: Option<string>)
    modifies cache
    ensures FindOrder(t.orders, u.id, number).Err? ==>
              r == Err(FindOrder(t.orders, u.id, number).error) && after == t && awb.None?
              && cache.token == old(cache.token) && cache.expiry == old(cache.expiry)
    ensures FindOrder(t.orders, u.id, number).Ok? ==>
              var i := FindOrder(t.orders, u.id, number).value;
              var rtype := if "type" in form then form["type"] else "return";
              var sel := SelectReturns(ItemsOf(t.items, t.orders[i].id), QtyReader(form), ExchangeReader(form, rtype, VariantMap(variants)));
              (verb != "POST" ==> r == Ok("return_request") && after == t)
              && (verb == "POST" && sel.Err? ==> r == Err(sel.error) && after == t)
              && (verb == "POST" && sel == Ok([]) ==> r == Ok("order_return_request") && after == t)
              && (verb == "POST" && sel.Ok? && sel.value != [] ==>
                    r == Ok("order_detail")
                    && (awb, cache.token, cache.expiry)
                       == PickupOutcome(old(cache.token), old(cache.expiry), pickup, t.orders[i], u, orderDate, Outgoing(sel.value))
                    && after == Recorded(t, i, CreateReturnRequest(requestId, t.orders[i].id, u.id, rtype, Posted(form, "reason")), sel.value, awb))
              && (!(verb == "POST" && sel.Ok? && sel.value != []) ==> awb.None? && cache.token == old(cache.token) && cache.expiry == old(cache.expiry))
    ensures awb.Some? ==> awb.value != ""
    ensures after.items == t.items
  {
    after, awb := t, None;
    var found := FindOrder(t.orders, u.id, number);
    if found.Err? {
      return Err(found.error), after, awb;
    }
    var i := found.value;
    if verb != "POST" {
      return Ok("return_request"), after, awb;
    }
    var rtype := if "type" in form then form["type"] else "return";
    var sel := SelectLines(ItemsOf(t.items, t.orders[i].id), form, rtype, VariantMap(variants));
    if sel.Err? {
      return Err(sel.error), after, awb;
    }
    if sel.value == [] {
      return Ok("order_return_request"), after, awb;
    }
    var rr := CreateReturnRequest(requestId, t.orders[i].id, u.id, rtype, Posted(form, "reason"));
    after, awb := RecordReturn(cache, pickup, t, i, rr, sel.value, u, orderDate);
    r := Ok("order_detail");
  }

  /** Every item of the order at its full quantity, with no exchange. */
  function FullLines(items: seq<OrderItem>): (r: seq<ReturnLine>)
    ensures |r| == |items|
    ensures forall k :: 0 <= k < |items| ==> r[k] == ReturnLine(items[k], items[k].quantity, None)
  {
    if items == [] then [] else FullLines(items[..|items| - 1]) + [ReturnLine(items[|items| - 1], items[|items| - 1].quantity, None)]
  }

  /** A quick return hands the carrier the order's items unchanged. */
  lemma {:induction false} QuickReturnSendsItems(items: seq<OrderItem>)
    ensures Outgoing(FullLines(items)) == items
  {
    var out := Outgoing(FullLines(items));
    assert |out| == |items|;
    forall k | 0 <= k < |items| ensures out[k] == items[k]
    {
      assert FullLines(items)[k] == ReturnLine(items[k], items[k].quantity, None);
    }
  }

  /** `order_return_quick`: only a delivered order can be returned this way;
      it records a return of every item at its full quantity. */
  method OrderReturnQuick(cache: TokenCache, pickup: Pickup, t: ReturnTables, u: User, number: string, requestId: int, orderDate: string)
    returns (r: Result<string, string>, after: ReturnTables, awb: Option<string>)
    modifies cache
    ensures FindOrder(t.orders, u.id, number).Err? ==>
              r == Err(FindOrder(t.orders, u.id, number).error) && after == t && awb.None?
              && cache.token == old(cache.token) && cache.expiry == old(cache.expiry)
    ensures FindOrder(t.orders, u.id, number).Ok? ==>
              var i := FindOrder(t.orders, u.id, number).value;
              var o := t.orders[i];
              r == Ok("order_detail")
              && (o.status != "delivered" ==> after == t && awb.None? && cache.token == old(cache.token) && cache.expiry == old(cache.expiry))
              && (o.status == "delivered" ==>
                    (awb, cache.token, cache.expiry)
                    == PickupOutcome(old(cache.token), old(cache.expiry), pickup, o, u, orderDate, ItemsOf(t.items, o.id))
                    && after == Recorded(t, i, CreateReturnRequest(requestId, o.id, u.id, "return", "Quick return"), FullLines(ItemsOf(t.items, o.id)), awb)
                    && (awb.Some? ==> after.orders[i].status == "return_requested"))
    ensures awb.Some? ==> awb.value != ""
  {
    after, awb := t, None;
    var found := FindOrder(t.orders, u.id, number);
    if found.Err? {
      return Err(found.error), after, awb;
    }
    var i := found.value;
    var o := t.orders[i];
    if o.status != "delivered" {
      return Ok("order_detail"), after, awb;
    }
    var rr := CreateReturnRequest(requestId, o.id, u.id, "return", "Quick return");
    var lines := FullLines(ItemsOf(t.items, o.id));
    QuickReturnSendsItems(ItemsOf(t.items, o.id));
    after, awb := RecordReturn(cache, pickup, t, i, rr, lines, u, orderDate);
    r := Ok("order_detail");
  }
}
