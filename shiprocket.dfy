/** The carrier integration: configuration check, the cached login token,
    the cheapest-rate estimate, and the shipment and return requests.  The
    carrier's HTTP endpoints are oracles passed in as functions from the
    request body to the decoded response, `None` standing for a transport
    or HTTP error; the clock is a parameter. */
module Shiprocket {
  import opened Basics
  import opened Text
  import opened Money
  import opened Json
  import opened CatalogModels
  import opened OrderModels
  import opened Parcel
  import opened Users

  /** The `SHIPROCKET_*` settings. */
  datatype Config = Config(
    enabled: bool,
    email: string,
    password: string,
    pickupLocation: string,
    channelId: string,
    pickupPin: string,
    defaults: Defaults)

  /** `_enabled()`: the flag and all three credentials. */
  predicate Enabled(c: Config)
  {
    c.enabled && c.email != "" && c.password != "" && c.pickupLocation != ""
  }

  // ---------------------------------------------------------------------
  // Login token cache

  /** Tokens live ten minutes; the cache trusts one for nine. */
  const TokenTtl: real := 540.0

  /** What the login endpoint returns: an HTTP error, or a decoded body. */
  datatype LoginReply = LoginFailed | LoginBody(body: Json)

  /** One `_get_token()` call from state `(token, expiry)` at `now`: the new
      state and the token returned (`None` when the call raises). A live
      token is returned as it is; a returned token is truthy and is the one
      now cached; and the cache changes only by a refresh, which sets the
      expiry nine minutes ahead. */
  function TokenStep(token: Json, expiry: real, now: real, login: LoginReply): (r: (Json, real, Option<Json>))
    ensures Truthy(token) && now < expiry ==> r == (token, expiry, Some(token))
    ensures r.2.Some? ==> Truthy(r.2.value) && r.2.value == r.0
    ensures (r.0, r.1) != (token, expiry) ==> r.1 == now + TokenTtl
  {
    if Truthy(token) && now < expiry then (token, expiry, Some(token))
    else match login
      case LoginFailed => (token, expiry, None)
      case LoginBody(body) =>
        if !body.JObj? then (token, expiry, None)
        else
          var t := Get(body.fields, "token");
          (t, now + TokenTtl, if Truthy(t) then Some(t) else None)
  }

  /** The module globals `_token` and `_token_expiry_ts`. */
  class TokenCache {
    var token: Json
    var expiry: real

    constructor ()
      ensures token == JNull && expiry == 0.0
    {
      token := JNull;
      expiry := 0.0;
    }

    /** `_get_token()`. */
    method GetToken(now: real, login: LoginReply) returns (r: Option<Json>)
      modifies this
      ensures (token, expiry, r) == TokenStep(old(token), old(expiry), now, login)
    {
      if Truthy(token) && now < expiry {
        return Some(token);
      }
      match login {
        case LoginFailed =>
          return None;
        case LoginBody(body) =>
          if !body.JObj? {
            return None;
          }
          token := Get(body.fields, "token");
          expiry := now + TokenTtl;
          if !Truthy(token) {
            return None;
          }
          return Some(token);
      }
    }
  }

  /** A cached token that has not expired is returned without asking the
      login endpoint: the result is the same whatever it would answer. */
  lemma CachedTokenNeedsNoLogin(token: Json, expiry: real, now: real, a: LoginReply, b: LoginReply)
    requires Truthy(token) && now < expiry
    ensures TokenStep(token, expiry, now, a) == TokenStep(token, expiry, now, b) == (token, expiry, Some(token))
  {
  }

  /** A refresh stores the new token with expiry `now + 540`, and a missing
      or empty token makes the call fail. */
  lemma RefreshSetsExpiry(token: Json, expiry: real, now: real, body: seq<(string, Json)>)
    requires !(Truthy(token) && now < expiry)
    ensures TokenStep(token, expiry, now, LoginBody(JObj(body))).1 == now + 540.0
    ensures TokenStep(token, expiry, now, LoginBody(JObj(body))).2.Some? <==> Truthy(Get(body, "token"))
    ensures TokenStep(token, expiry, now, LoginFailed) == (token, expiry, None)
  {
  }

  /** After any successful call, a second call up to 540 s later in the same
      window reuses the token without logging in. */
  lemma TokenReusedWithinTtl(token: Json, expiry: real, now: real, later: real, a: LoginReply, b: LoginReply)
    requires TokenStep(token, expiry, now, a).2.Some?
    requires now <= later < TokenStep(token, expiry, now, a).1
    ensures var (t, e, _) := TokenStep(token, expiry, now, a);
            TokenStep(t, e, later, b) == (t, e, Some(t))
  {
  }

  // ---------------------------------------------------------------------
  // Rate estimate

  /** The serviceability request body; weight in grams. */
  datatype RateQuery = RateQuery(pickupPin: string, dropPin: string, weightG: int, cod: bool, lengthCm: int, breadthCm: int, heightCm: int, declared: Option<int>)

  /** The request `estimate_shipping_charge` sends: the given weight, or the
      default unit weight times at least one unit; the given dimensions, or
      the defaults. */
  function QueryFor(cfg: Config, dropPin: string, unitsTotal: int, cod: bool, declared: Option<int>, weightG: Option<int>, dims: Option<(int, int, int)>): (q: RateQuery)
    ensures weightG.Some? ==> q.weightG == weightG.value
    ensures weightG.None? ==> q.weightG == cfg.defaults.unitWeightG * Max(1, unitsTotal)
    ensures dims.None? ==> (q.lengthCm, q.breadthCm, q.heightCm) == (cfg.defaults.lengthCm, cfg.defaults.breadthCm, cfg.defaults.heightCm)
    ensures dims.Some? ==> (q.lengthCm, q.breadthCm, q.heightCm) == dims.value
    ensures q.pickupPin == cfg.pickupPin && q.dropPin == dropPin && q.cod == cod && q.declared == declared
  {
    var w := if weightG.Some? then weightG.value else cfg.defaults.unitWeightG * Max(1, unitsTotal);
    var (l, b, h) := if dims.Some? then dims.value else (cfg.defaults.lengthCm, cfg.defaults.breadthCm, cfg.defaults.heightCm);
    RateQuery(cfg.pickupPin, dropPin, w, cod, l, b, h, declared)
  }

  /** The value a courier company offers: `rate` unless it is `None`, else
      `freight_charge or total_amount`. */
  function RateField(c: seq<(string, Json)>): (r: Json)
    ensures Get(c, "rate") != JNull ==> r == Get(c, "rate")
    ensures Get(c, "rate") == JNull && Truthy(Get(c, "freight_charge")) ==> r == Get(c, "freight_charge")
    ensures Get(c, "rate") == JNull && !Truthy(Get(c, "freight_charge")) ==> r == Get(c, "total_amount")
  {
    var rate := Get(c, "rate");
    if rate != JNull then rate else Or(Get(c, "freight_charge"), Get(c, "total_amount"))
  }

  /** The rates collected from the company list, in order; `None` when a
      company is not an object (the `get` on it raises and the estimate
      fails). Values that do not parse as decimals are skipped, so there is
      at most one rate per company. */
  function Rates(companies: seq<Json>): (r: Option<seq<Dec>>)
    ensures r.None? <==> exists i :: 0 <= i < |companies| && !companies[i].JObj?
    ensures r.Some? ==> |r.value| <= |companies|
  {
    if companies == [] then Some([])
    else
      var init := companies[..|companies| - 1];
      assert forall i :: 0 <= i < |init| ==> init[i] == companies[i];
      assert (exists i :: 0 <= i < |companies| && !companies[i].JObj?)
             <==> (exists i :: 0 <= i < |init| && !init[i].JObj?) || !companies[|companies| - 1].JObj?;
      match Rates(init)
      case None => None
      case Some(rs) => AddRate(rs, companies[|companies| - 1])
  }

  /** One company's contribution: `None` when it is not an object, else
      the list with at most its one rate appended. */
  function AddRate(rs: seq<Dec>, c: Json): (r: Option<seq<Dec>>)
    ensures r.None? <==> !c.JObj?
    ensures r.Some? ==> r.value == rs || (|r.value| == |rs| + 1 && r.value[..|rs|] == rs)
  {
    if !c.JObj? then None
    else
      var v := RateField(c.fields);
      if v == JNull then Some(rs)
      else match DecimalOf(v)
        case None => Some(rs)
        case Some(d) => Some(rs + [d])
  }

  /** The collecting loop. */
  method CollectRates(companies: seq<Json>) returns (r: Option<seq<Dec>>)
    ensures r == Rates(companies)
  {
    var rates: seq<Dec> := [];
    var i := 0;
    while i < |companies|
      invariant 0 <= i <= |companies|
      invariant Rates(companies[..i]) == Some(rates)
    {
      assert companies[..i + 1][..i] == companies[..i];
      var c := companies[i];
      if !c.JObj? {
        NoneStaysNone(companies, i + 1);
        return None;
      }
      var v := RateField(c.fields);
      if v != JNull {
        var d := DecimalOf(v);
        if d.Some? {
          rates := rates + [d.value];
        }
      }
      i := i + 1;
    }
    assert companies[..i] == companies;
    return Some(rates);
  }

  /** Once a prefix fails, the whole list fails. */
  lemma {:induction false} NoneStaysNone(companies: seq<Json>, k: nat)
    requires k <= |companies| && Rates(companies[..k]).None?
    ensures Rates(companies).None?
    decreases |companies| - k
  {
    if k < |companies| {
      assert companies[..k + 1][..k] == companies[..k];
      NoneStaysNone(companies, k + 1);
    } else {
      assert companies[..k] == companies;
    }
  }

  /** `min(rates)`: the first of the smallest values. */
  function MinRate(rs: seq<Dec>): (m: Dec)
    requires |rs| > 0
    ensures m in rs
    ensures forall x :: x in rs ==> Value(m) <= Value(x)
  {
    if |rs| == 1 then rs[0]
    else
      var m := MinRate(rs[..|rs| - 1]);
      assert forall x :: x in rs ==> x in rs[..|rs| - 1] || x == rs[|rs| - 1];
      if Value(rs[|rs| - 1]) < Value(m) then rs[|rs| - 1] else m
  }

  /** The company list in a response: `(data.data or {}).available_courier_companies
      or data.available_courier_companies or []`, which must be a list to be
      walked (`None` for the exception otherwise). */
  function Companies(data: Json): (r: Option<seq<Json>>)
  {
    if !data.JObj? then None
    else match GetOrEmpty(Get(data.fields, "data"), "available_courier_companies")
      case None => None
      case Some(nested) =>
        var cs := Or(nested, Or(Get(data.fields, "available_courier_companies"), JArr([])));
        if cs.JArr? then Some(cs.items)
        else if !Truthy(cs) then Some([])
        else None
  }

  /** What the estimate makes of the serviceability response: nothing
      without an answer; otherwise an estimate exactly when the answer lists
      companies whose rates could be read and some rate was collected, and
      then the cheapest of them. */
  function EstimateFrom(reply: Option<Json>): (r: Option<Dec>)
    ensures reply.None? ==> r.None?
    ensures reply.Some? ==>
              (r.Some? <==> Companies(reply.value).Some? && Rates(Companies(reply.value).value).Some?
                            && Rates(Companies(reply.value).value).value != [])
    ensures r.Some? ==>
              var rs := Rates(Companies(reply.value).value).value;
              r.value in rs && forall x :: x in rs ==> Value(r.value) <= Value(x)
  {
    if reply.None? then None
    else match Companies(reply.value)
      case None => None
      case Some(cs) =>
        match Rates(cs)
        case None => None
        case Some(rs) => if rs == [] then None else Some(MinRate(rs))
  }

  /** A company quoting `rate: 0` contributes 0, while a zero
      `freight_charge` is skipped over in favour of `total_amount`. */
  lemma ZeroRateIsKept(rs: seq<Dec>, rest: seq<(string, Json)>, total: Json)
    ensures AddRate(rs, JObj([("rate", JNum(Dec(0, 0)))])) == Some(rs + [Dec(0, 0)])
    ensures AddRate(rs, JObj([("freight_charge", JNum(Dec(0, 0))), ("total_amount", total)])) ==
            AddRate(rs, JObj([("total_amount", total)]))
  {
    var c1: seq<(string, Json)> := [("rate", JNum(Dec(0, 0)))];
    assert Get(c1, "rate") == JNum(Dec(0, 0));
    var c2: seq<(string, Json)> := [("freight_charge", JNum(Dec(0, 0))), ("total_amount", total)];
    var c3: seq<(string, Json)> := [("total_amount", total)];
    assert c2[..1] == [("freight_charge", JNum(Dec(0, 0)))];
    assert Get(c2, "rate") == JNull && Get(c3, "rate") == JNull;
    assert Get(c2, "total_amount") == total && Get(c3, "total_amount") == total;
    assert Get(c2, "freight_charge") == JNum(Dec(0, 0));
    assert Get(c3, "freight_charge") == JNull;
  }

  /** Whether `estimate_shipping_charge` gets as far as the carrier. */
  predicate EstimateAttempted(cfg: Config, dropPin: string)
  {
    Enabled(cfg) && cfg.pickupPin != "" && dropPin != ""
  }

  /** `estimate_shipping_charge`'s result once the token fetch has given
      `token`: nothing when disabled, without PINs or without a token, and
      otherwise the cheapest rate of the carrier's answer. */
  function EstimateOutcome(cfg: Config, token: Option<Json>, serviceability: RateQuery -> Option<Json>,
                           dropPin: string, unitsTotal: int, cod: bool, declared: Option<int>,
                           weightG: Option<int>, dims: Option<(int, int, int)>): (r: Option<Dec>)
    ensures !EstimateAttempted(cfg, dropPin) || token.None? ==> r.None?
    ensures EstimateAttempted(cfg, dropPin) && token.Some? ==>
              r == EstimateFrom(serviceability(QueryFor(cfg, dropPin, unitsTotal, cod, declared, weightG, dims)))
  {
    if !EstimateAttempted(cfg, dropPin) || token.None? then None
    else EstimateFrom(serviceability(QueryFor(cfg, dropPin, unitsTotal, cod, declared, weightG, dims)))
  }

  /** `estimate_shipping_charge`. */
  method EstimateShipping(cache: TokenCache, cfg: Config, now: real, login: LoginReply,
                          serviceability: RateQuery -> Option<Json>,
                          dropPin: string, unitsTotal: int, cod: bool, declared: Option<int>,
                          weightG: Option<int>, dims: Option<(int, int, int)>) returns (r: Option<Dec>)
    modifies cache
    ensures !EstimateAttempted(cfg, dropPin) ==> cache.token == old(cache.token) && cache.expiry == old(cache.expiry)
    ensures EstimateAttempted(cfg, dropPin) ==>
              var step := TokenStep(old(cache.token), old(cache.expiry), now, login);
              cache.token == step.0 && cache.expiry == step.1
    ensures r == EstimateOutcome(cfg, TokenStep(old(cache.token), old(cache.expiry), now, login).2, serviceability,
                                 dropPin, unitsTotal, cod, declared, weightG, dims)
  {
    if !EstimateAttempted(cfg, dropPin) {
      return None;
    }
    var q := QueryFor(cfg, dropPin, unitsTotal, cod, declared, weightG, dims);
    var tok := cache.GetToken(now, login);
    if tok.None? {
      return None;
    }
    var reply := serviceability(q);
    if reply.None? {
      return None;
    }
    var cs := Companies(reply.value);
    if cs.None? {
      return None;
    }
    var rs := CollectRates(cs.value);
    if rs.None? || rs.value == [] {
      return None;
    }
    return Some(MinRate(rs.value));
  }

  // ---------------------------------------------------------------------
  // Order items as the carrier sees them

  /** One `order_items` entry; the price is in paise. */
  datatype ShipItem = ShipItem(name: string, sku: string, units: int, sellingPrice: int)

  /** `_format_order_items` for one item: the product's name, with
      `" - size/color"` when there is a variant; the variant's SKU, else
      `SKU-<product id>`. */
  function FormatItem(it: OrderItem): ShipItem
  {
    var name := if it.variant.Some? then it.product.name + " - " + it.variant.value.size + "/" + it.variant.value.color else it.product.name;
    var sku := if it.variant.Some? then it.variant.value.sku else "SKU-" + IntToString(it.product.id);
    ShipItem(name, sku, it.quantity, it.unitPrice)
  }

  /** The fallback SKU carries the product id back: reading the number after
      `SKU-` yields it. */
  lemma FallbackSkuNamesProduct(it: OrderItem)
    requires it.variant.None?
    ensures FormatItem(it).sku[..4] == "SKU-"
    ensures ParseInt(FormatItem(it).sku[4..]) == Some(it.product.id)
  {
    var s := FormatItem(it).sku;
    assert s[4..] == IntToString(it.product.id);
    ParseIntOfIntToString(it.product.id);
  }

  /** `_format_order_items`: one entry per order item, in order. */
  function ShipItems(items: seq<OrderItem>): (r: seq<ShipItem>)
    ensures |r| == |items|
    ensures forall i :: 0 <= i < |items| ==> r[i] == FormatItem(items[i])
  {
    seq(|items|, i requires 0 <= i < |items| => FormatItem(items[i]))
  }

  /** The formatting loop. */
  method FormatItems(items: seq<OrderItem>) returns (r: seq<ShipItem>)
    ensures r == ShipItems(items)
  {
    r := [];
    var i := 0;
    while i < |items|
      invariant 0 <= i <= |items|
      invariant r == ShipItems(items[..i])
    {
      ShipItemsSnoc(items, i);
      r := r + [FormatItem(items[i])];
      i := i + 1;
    }
    assert items[..i] == items;
  }

  lemma ShipItemsSnoc(items: seq<OrderItem>, i: nat)
    requires i < |items|
    ensures ShipItems(items[..i + 1]) == ShipItems(items[..i]) + [FormatItem(items[i])]
  {
    assert items[..i + 1][..i] == items[..i];
  }

  function LineTotalsOf(items: seq<OrderItem>): (r: seq<int>)
    ensures |r| == |items|
    ensures forall i :: 0 <= i < |items| ==> r[i] == items[i].lineTotal
  {
    if items == [] then [] else LineTotalsOf(items[..|items| - 1]) + [items[|items| - 1].lineTotal]
  }

  /** `_order_subtotal_from_items`: the sum of the stored line totals. */
  method OrderSubtotal(items: seq<OrderItem>) returns (total: int)
    ensures total == Sum(LineTotalsOf(items))
  {
    total := 0;
    var i := 0;
    while i < |items|
      invariant 0 <= i <= |items|
      invariant total == Sum(LineTotalsOf(items[..i]))
    {
      assert items[..i + 1][..i] == items[..i];
      total := total + items[i].lineTotal;
      i := i + 1;
    }
    assert items[..i] == items;
  }

  function ParcelLines(items: seq<OrderItem>): (r: seq<ParcelLine>)
    ensures |r| == |items|
    ensures forall i :: 0 <= i < |items| ==> r[i] == LineOf(items[i].product, items[i].variant, items[i].quantity)
  {
    if items == [] then [] else ParcelLines(items[..|items| - 1]) + [LineOf(items[|items| - 1].product, items[|items| - 1].variant, items[|items| - 1].quantity)]
  }

  // ---------------------------------------------------------------------
  // Shipment

  /** `shipping_name or user.get_full_name() or user.username`. */
  function CustomerName(o: Order, u: User): (r: string)
    ensures o.shipTo.name != "" ==> r == o.shipTo.name
    ensures o.shipTo.name == "" && FullName(u) != "" ==> r == FullName(u)
    ensures o.shipTo.name == "" && FullName(u) == "" ==> r == u.username
  {
    if o.shipTo.name != "" then o.shipTo.name else if FullName(u) != "" then FullName(u) else u.username
  }

  function AddressLine(o: Order): string
  {
    Trim(Python, o.shipTo.line1 + " " + o.shipTo.line2)
  }

  function CountryOrIndia(c: string): (r: string)
    ensures r != ""
  {
    if c != "" then c else "India"
  }

  /** `"Prepaid"` exactly for Razorpay orders. */
  function PaymentLabel(pm: string): (r: string)
    ensures r == "Prepaid" <==> pm == "razorpay"
    ensures r == "COD" <==> pm != "razorpay"
  {
    if pm == "razorpay" then "Prepaid" else "COD"
  }

  /** The order request body.  Members the source sets to `None` are
      removed before sending; `channel_id` is the only one that can be, so
      it is an `Option` here and absent exactly when it is `None`. */
  datatype ShipmentRequest = ShipmentRequest(
    orderId: string,
    orderDate: string,
    pickupLocation: string,
    channelId: Option<string>,
    customerName: string,
    lastName: string,
    address: string,
    city: string,
    pincode: string,
    state: string,
    country: string,
    email: string,
    phone: string,
    shippingIsBilling: bool,
    orderItems: seq<ShipItem>,
    paymentMethod: string,
    subTotal: int,
    lengthCm: int,
    breadthCm: int,
    heightCm: int,
    weightG: int)

  /** `create_shiprocket_shipment`'s payload for an order, its formatted
      items, their subtotal and the measured parcel. */
  function ShipmentPayload(cfg: Config, o: Order, u: User, orderDate: string, items: seq<ShipItem>, subTotal: int, box: Box): (r: ShipmentRequest)
    ensures r.channelId.None? <==> cfg.channelId == ""
    ensures r.channelId.Some? ==> r.channelId.value == cfg.channelId
    ensures r.paymentMethod == "Prepaid" <==> o.paymentMethod == "razorpay"
    ensures r.country != ""
    ensures r.orderId == o.orderNumber && r.orderItems == items && r.subTotal == subTotal
    ensures (r.lengthCm, r.breadthCm, r.heightCm, r.weightG) == (box.lengthCm, box.breadthCm, box.heightCm, box.weightG)
  {
    ShipmentRequest(
      o.orderNumber, orderDate, cfg.pickupLocation,
      if cfg.channelId != "" then Some(cfg.channelId) else None,
      CustomerName(o, u), "", AddressLine(o), o.shipTo.city, o.shipTo.postalCode, o.shipTo.state,
      CountryOrIndia(o.shipTo.country), u.email, o.shipTo.phone, true, items,
      PaymentLabel(o.paymentMethod), subTotal, box.lengthCm, box.breadthCm, box.heightCm, box.weightG)
  }

  /** The request `create_shiprocket_shipment` builds for an order and its
      items: formatted items, their stored subtotal, and the parcel measured
      over them. */
  function ShipmentRequestFor(cfg: Config, o: Order, u: User, orderDate: string, items: seq<OrderItem>): ShipmentRequest
  {
    ShipmentPayload(cfg, o, u, orderDate, ShipItems(items), Sum(LineTotalsOf(items)), ParcelOf(ParcelLines(items), cfg.defaults))
  }

  // ---------------------------------------------------------------------
  // AWB assignment

  /** `data.get("shipment_id") or (data.get("data") or {}).get("shipment_id")`
      when it is truthy; `None` for a failed call, a malformed body or a
      falsy id. */
  function ShipmentIdFrom(reply: Option<Json>): (r: Option<Json>)
    ensures r.Some? ==> Truthy(r.value)
    ensures reply.None? ==> r.None?
  {
    if reply.None? then None
    else match TopOrNested(reply.value, "shipment_id")
      case None => None
      case Some(sid) => if Truthy(sid) then Some(sid) else None
  }

  /** The AWB code in a response, as `str(awb) if awb else None`. */
  function AwbFrom(reply: Option<Json>): (r: Option<string>)
    ensures r.Some? ==> r.value != ""
  {
    if reply.None? then None
    else match TopOrNested(reply.value, "awb_code")
      case None => None
      case Some(a) => if Truthy(a) then Some(StrOf(a)) else None
  }

  /** `_assign_awb` once its token has been fetched: any failure is `None`. */
  function Assigned(token: Option<Json>, reply: Option<Json>): (r: Option<string>)
    ensures token.None? ==> r.None?
    ensures token.Some? ==> r == AwbFrom(reply)
  {
    if token.None? then None else AwbFrom(reply)
  }

  /** `_assign_awb(shipment_id)`. */
  method AssignAwb(cache: TokenCache, now: real, login: LoginReply, assign: Json -> Option<Json>, shipmentId: Json) returns (awb: Option<string>)
    modifies cache
    ensures var step := TokenStep(old(cache.token), old(cache.expiry), now, login);
            cache.token == step.0 && cache.expiry == step.1 && awb == Assigned(step.2, assign(shipmentId))
  {
    var tok := cache.GetToken(now, login);
    if tok.None? {
      return None;
    }
    awb := AwbFrom(assign(shipmentId));
  }

  /** What a shipment attempt does to the order: a new AWB becomes its
      tracking number with provider `Shiprocket`; otherwise it is untouched. */
  function Tracked(o: Order, awb: Option<string>): (r: Order)
    ensures awb.Some? ==> r == o.(trackingNumber := awb.value, shippingProvider := "Shiprocket")
    ensures awb.None? ==> r == o
  {
    if awb.Some? then o.(trackingNumber := awb.value, shippingProvider := "Shiprocket") else o
  }

  /** `create_shiprocket_shipment(order)`: the AWB code (or `None`) and the
      order as saved.  `createOrder` and `assign` are the two carrier
      endpoints.  The first token fetch happens at `now` against the login
      endpoint's answer `login`, the second, for the AWB call, at `later`
      against `login2`: each fetch reads the clock and may log in anew. */
  method CreateShipment(cache: TokenCache, cfg: Config, now: real, login: LoginReply, later: real, login2: LoginReply,
                        createOrder: ShipmentRequest -> Option<Json>, assign: Json -> Option<Json>,
                        o: Order, u: User, orderDate: string, items: seq<OrderItem>) returns (awb: Option<string>, saved: Order)
    modifies cache
    ensures !Enabled(cfg) ==> awb.None? && saved == o && cache.token == old(cache.token) && cache.expiry == old(cache.expiry)
    ensures Enabled(cfg) && o.trackingNumber != "" ==>
              awb == Some(o.trackingNumber) && saved == o && cache.token == old(cache.token) && cache.expiry == old(cache.expiry)
    ensures Enabled(cfg) && o.trackingNumber == "" ==>
              var first := TokenStep(old(cache.token), old(cache.expiry), now, login);
              var sid := ShipmentIdFrom(createOrder(ShipmentRequestFor(cfg, o, u, orderDate, items)));
              if first.2.None? then awb.None? && cache.token == first.0 && cache.expiry == first.1
              else if sid.None? then awb.None? && cache.token == first.0 && cache.expiry == first.1
              else
                var second := TokenStep(first.0, first.1, later, login2);
                awb == Assigned(second.2, assign(sid.value)) && cache.token == second.0 && cache.expiry == second.1
    ensures saved == Tracked(o, if o.trackingNumber != "" then None else awb)
  {
    if !Enabled(cfg) {
      return None, o;
    }
    if o.trackingNumber != "" {
      return Some(o.trackingNumber), o;
    }
    var shipItems := FormatItems(items);
    var subTotal := OrderSubtotal(items);
    var box := Measure(ParcelLines(items), cfg.defaults);
    var req := ShipmentPayload(cfg, o, u, orderDate, shipItems, subTotal, box);
    var tok := cache.GetToken(now, login);
    if tok.None? {
      return None, o;
    }
    var sid := ShipmentIdFrom(createOrder(req));
    if sid.None? {
      return None, o;
    }
    awb := AssignAwb(cache, later, login2, assign, sid.value);
    saved := Tracked(o, awb);
  }

  /** Within one request the second token fetch, for the AWB call, reuses
      the token the first one obtained. */
  lemma SecondFetchHitsCache(token: Json, expiry: real, now: real, login: LoginReply)
    requires TokenStep(token, expiry, now, login).2.Some?
    ensures var first := TokenStep(token, expiry, now, login);
            TokenStep(first.0, first.1, now, login) == (first.0, first.1, first.2)
  {
  }

  // ---------------------------------------------------------------------
  // Returns

  /** The reverse-pickup request body: the customer's address is the pickup
      point and the warehouse the delivery point. */
  datatype ReturnRequestBody = ReturnRequestBody(
    orderId: string,
    orderDate: string,
    pickupName: string,
    pickupAddress: string,
    pickupCity: string,
    pickupPincode: string,
    pickupState: string,
    pickupCountry: string,
    pickupEmail: string,
    pickupPhone: string,
    pickupIsdCode: string,
    deliveryName: string,
    deliveryAddress: string,
    deliveryPincode: string,
    deliveryCountry: string,
    deliveryEmail: string,
    deliveryPhone: string,
    orderItems: seq<ShipItem>,
    lengthCm: int,
    breadthCm: int,
    heightCm: int,
    weightG: int)

  /** The body `create_shiprocket_return` builds for the given items, whose
      quantities are the quantities being returned. */
  function ReturnPayload(cfg: Config, o: Order, u: User, orderDate: string, items: seq<OrderItem>): (r: ReturnRequestBody)
    ensures r.orderId == "RET-" + o.orderNumber
    ensures r.pickupName == o.shipTo.name && r.pickupCountry != ""
    ensures r.deliveryName == (if cfg.pickupLocation != "" then cfg.pickupLocation else "Warehouse")
    ensures r.deliveryPincode == cfg.pickupPin && r.deliveryCountry == "India"
    ensures r.orderItems == ShipItems(items)
    ensures var box := ParcelOf(ParcelLines(items), cfg.defaults);
            (r.lengthCm, r.breadthCm, r.heightCm, r.weightG) == (box.lengthCm, box.breadthCm, box.heightCm, box.weightG)
  {
    var box := ParcelOf(ParcelLines(items), cfg.defaults);
    ReturnRequestBody(
      "RET-" + o.orderNumber, orderDate,
      o.shipTo.name, AddressLine(o), o.shipTo.city, o.shipTo.postalCode, o.shipTo.state,
      CountryOrIndia(o.shipTo.country), u.email, o.shipTo.phone, "91",
      if cfg.pickupLocation != "" then cfg.pickupLocation else "Warehouse",
      cfg.pickupLocation, cfg.pickupPin, "India", u.email, o.shipTo.phone,
      ShipItems(items), box.lengthCm, box.breadthCm, box.heightCm, box.weightG)
  }

  /** Returns are only requested when the integration is enabled, so the
      warehouse is always named by the pickup location. */
  lemma ReturnGoesToPickupLocation(cfg: Config, o: Order, u: User, orderDate: string, items: seq<OrderItem>)
    requires Enabled(cfg)
    ensures ReturnPayload(cfg, o, u, orderDate, items).deliveryName == cfg.pickupLocation
  {
  }

  /** What `create_shiprocket_return(order, items)` ends with, as the AWB
      and the token cache it leaves: the first token fetch is at `now`
      against `login`, the second, for the AWB call, at `later` against
      `login2`. */
  function ReturnOutcome(token: Json, expiry: real, cfg: Config, now: real, login: LoginReply, later: real, login2: LoginReply,
                         createReturn: ReturnRequestBody -> Option<Json>, assign: Json -> Option<Json>,
                         o: Order, u: User, orderDate: string, items: seq<OrderItem>): (r: (Option<string>, Json, real))
    ensures !Enabled(cfg) ==> r == (None, token, expiry)
    ensures r.0.Some? ==> r.0.value != "" && Enabled(cfg) && TokenStep(token, expiry, now, login).2.Some?
    ensures r.0.Some? && r.0 != AwbFrom(createReturn(ReturnPayload(cfg, o, u, orderDate, items))) ==>
              var first := TokenStep(token, expiry, now, login);
              TokenStep(first.0, first.1, later, login2).2.Some?
  {
    if !Enabled(cfg) then (None, token, expiry)
    else
      var first := TokenStep(token, expiry, now, login);
      var reply := createReturn(ReturnPayload(cfg, o, u, orderDate, items));
      if first.2.None? then (None, first.0, first.1)
      else if reply.None? || AwbFrom(reply).Some? || TopOrNested(reply.value, "awb_code").None? then (AwbFrom(reply), first.0, first.1)
      else
        var sid := ShipmentIdFrom(reply);
        if sid.None? then (None, first.0, first.1)
        else
          var second := TokenStep(first.0, first.1, later, login2);
          (Assigned(second.2, assign(sid.value)), second.0, second.1)
  }

  /** `create_shiprocket_return(order, items)`: the AWB code the return
      response carries, else the one assigned for its shipment id. */
  method CreateReturn(cache: TokenCache, cfg: Config, now: real, login: LoginReply, later: real, login2: LoginReply,
                      createReturn: ReturnRequestBody -> Option<Json>, assign: Json -> Option<Json>,
                      o: Order, u: User, orderDate: string, items: seq<OrderItem>) returns (awb: Option<string>)
    modifies cache
    ensures !Enabled(cfg) ==> awb.None? && cache.token == old(cache.token) && cache.expiry == old(cache.expiry)
    ensures Enabled(cfg) ==>
              var first := TokenStep(old(cache.token), old(cache.expiry), now, login);
              var reply := createReturn(ReturnPayload(cfg, o, u, orderDate, items));
              if first.2.None? || reply.None? || AwbFrom(reply).Some? || TopOrNested(reply.value, "awb_code").None? then
                awb == (if first.2.None? then None else AwbFrom(reply)) && cache.token == first.0 && cache.expiry == first.1
              else
                var sid := ShipmentIdFrom(reply);
                if sid.None? then awb.None? && cache.token == first.0 && cache.expiry == first.1
                else
                  var second := TokenStep(first.0, first.1, later, login2);
                  awb == Assigned(second.2, assign(sid.value)) && cache.token == second.0 && cache.expiry == second.1
    ensures (awb, cache.token, cache.expiry)
            == ReturnOutcome(old(cache.token), old(cache.expiry), cfg, now, login, later, login2, createReturn, assign, o, u, orderDate, items)
    ensures awb.Some? ==> awb.value != ""
  {
    if !Enabled(cfg) {
      return None;
    }
    var body := ReturnPayload(cfg, o, u, orderDate, items);
    var tok := cache.GetToken(now, login);
    if tok.None? {
      return None;
    }
    var reply := createReturn(body);
    if reply.None? {
      return None;
    }
    var direct := AwbFrom(reply);
    if direct.Some? || TopOrNested(reply.value, "awb_code").None? {
      return direct;
    }
    var sid := ShipmentIdFrom(reply);
    if sid.None? {
      return None;
    }
    awb := AssignAwb(cache, later, login2, assign, sid.value);
  }

  /** The two fetches of a return can see different caches: when the token
      the first obtained has expired by the AWB call and that login fails,
      a return whose answer named a shipment but no AWB gets none. */
  lemma ReturnTokenExpiringBetweenFetches(token: Json, expiry: real, cfg: Config, now: real, login: LoginReply, later: real,
                                          createReturn: ReturnRequestBody -> Option<Json>, assign: Json -> Option<Json>,
                                          o: Order, u: User, orderDate: string, items: seq<OrderItem>)
    requires Enabled(cfg) && TokenStep(token, expiry, now, login).2.Some?
    requires later >= TokenStep(token, expiry, now, login).1
    requires var reply := createReturn(ReturnPayload(cfg, o, u, orderDate, items));
             reply.Some? && AwbFrom(reply).None? && TopOrNested(reply.value, "awb_code").Some? && ShipmentIdFrom(reply).Some?
    ensures ReturnOutcome(token, expiry, cfg, now, login, later, LoginFailed, createReturn, assign, o, u, orderDate, items).0.None?
  {
    var first := TokenStep(token, expiry, now, login);
    assert TokenStep(first.0, first.1, later, LoginFailed).2.None?;
  }
}
