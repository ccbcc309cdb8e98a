/** Checkout and returns: gathering what is bought (one buy-now line or the
    merged cart), pricing it, quoting shipping twice (for the page and for
    the order), creating the order and its items, and settling cash on
    delivery or handing over to the payment gateway; then the two return
    views.  Tables are values the views read and return; the session and
    the carrier's token cache are the objects they update. */
module OrderViews {
  import opened Basics
  import opened Text
  import opened Money
  import opened Json
  import opened CatalogModels
  import opened CartModels
  import opened Coupons
  import opened SessionCart
  import opened OrderModels
  import opened Parcel
  import opened Pricing
  import opened Shiprocket
  import opened Users
  import opened Forms
  import opened CartViews
  import opened Payments

  // ---------------------------------------------------------------------
  // What is bought

  /** One line being checked out: the buy-now line, or a row of the cart. */
  datatype Purchase = Purchase(product: Product, variant: Option<Variant>, quantity: nat)

  function PurchaseOf(it: CartItem): (p: Purchase)
    ensures p.product == it.product && p.variant == it.variant && p.quantity == it.quantity
  {
    Purchase(it.product, it.variant, it.quantity)
  }

  function Purchases(items: seq<CartItem>): (r: seq<Purchase>)
    ensures |r| == |items|
    ensures forall i :: 0 <= i < |items| ==> r[i] == PurchaseOf(items[i])
  {
    if items == [] then [] else Purchases(items[..|items| - 1]) + [PurchaseOf(items[|items| - 1])]
  }

  /** The parcel lines `_items_total_weight_dims` walks. */
  function PurchaseLines(ps: seq<Purchase>): (r: seq<ParcelLine>)
    ensures |r| == |ps|
    ensures forall i :: 0 <= i < |ps| ==> r[i] == LineOf(ps[i].product, ps[i].variant, ps[i].quantity)
  {
    if ps == [] then [] else PurchaseLines(ps[..|ps| - 1]) + [LineOf(ps[|ps| - 1].product, ps[|ps| - 1].variant, ps[|ps| - 1].quantity)]
  }

  /** Checkout weighs a cart exactly as the cart pages do. */
  lemma PurchaseLinesOfCart(items: seq<CartItem>)
    ensures PurchaseLines(Purchases(items)) == ParcelLinesOf(items)
  {
    var a := PurchaseLines(Purchases(items));
    var b := ParcelLinesOf(items);
    assert |a| == |b|;
    forall i | 0 <= i < |items| ensures a[i] == b[i]
    {
      ParcelLinesOfAt(items, i);
    }
  }

  lemma {:induction false} ParcelLinesOfAt(items: seq<CartItem>, i: nat)
    requires i < |items|
    ensures ParcelLinesOf(items)[i] == LineOf(items[i].product, items[i].variant, items[i].quantity)
    decreases |items|
  {
    if i < |items| - 1 {
      ParcelLinesOfAt(items[..|items| - 1], i);
    }
  }

  /** Whether this checkout runs in buy-now mode: a pending buy-now line,
      unless the query says `bn` is `0`, `false` or `cart` in any case. */
  predicate Overridden(query: map<string, string>)
  {
    var bn := Lower(if "bn" in query then query["bn"] else "");
    bn == "0" || bn == "false" || bn == "cart"
  }

  predicate BuyNowMode(b: Option<BuyNow>, query: map<string, string>)
  {
    b.Some? && !Overridden(query)
  }

  /** The buy-now line as checkout reads it back: its product must exist
      (`None` sends the visitor home), an unknown variant id means no
      variant, and the quantity is at least 1. */
  function BuyNowPurchase(shop: Shop, b: BuyNow): (r: Option<Purchase>)
    ensures r.None? <==> b.productId !in shop.products
    ensures r.Some? ==> r.value.product == shop.products[b.productId] && r.value.quantity == Max(1, b.quantity) && r.value.quantity >= 1
    ensures r.Some? && r.value.variant.Some? ==> b.variantId == Some(r.value.variant.value.id) && r.value.variant.value in shop.variants
  {
    if b.productId !in shop.products then None
    else
      var vm := VariantMap(shop.variants);
      var variant := if b.variantId.Some? && b.variantId.value in vm then Some(vm[b.variantId.value]) else None;
      Some(Purchase(shop.products[b.productId], variant, Max(1, b.quantity)))
  }

  // ---------------------------------------------------------------------
  // Merging the session cart into the user's cart

  /** `cart.items.get_or_create(product=..., variant=..., defaults={"quantity": q})`
      for each session item in turn, summing quantities on an existing row;
      new rows take consecutive ids from `nextId`.  The flag is false when a
      lookup finds two rows (the rows merged so far stay written). */
  function MergeRows(items: seq<CartItem>, cartId: int, nextId: int, ses: seq<SessionItem>): (r: (seq<CartItem>, bool))
    decreases |ses|
  {
    if ses == [] then (items, true)
    else
      var prev := MergeRows(items, cartId, nextId, ses[..|ses| - 1]);
      var it := ses[|ses| - 1];
      if !prev.1 then prev
      else AddToDbCart(prev.0, cartId, nextId + |ses| - 1, it.product, it.variant, it.quantity)
  }

  /** One more session item: a failed merge stays failed, a running one
      adds the item. */
  lemma MergeRowsSnoc(items: seq<CartItem>, cartId: int, nextId: int, ses: seq<SessionItem>, i: nat)
    requires i < |ses|
    ensures var prev := MergeRows(items, cartId, nextId, ses[..i]);
            MergeRows(items, cartId, nextId, ses[..i + 1])
              == if !prev.1 then prev else AddToDbCart(prev.0, cartId, nextId + i, ses[i].product, ses[i].variant, ses[i].quantity)
  {
    assert ses[..i + 1][..i] == ses[..i];
  }

  /** Merging keeps at most one row per key and, on a cart with unique keys
      and session quantities of at least 1, never fails. */
  lemma {:induction false} MergeKeepsUnique(items: seq<CartItem>, cartId: int, nextId: int, ses: seq<SessionItem>)
    requires ItemsUnique(items)
    requires forall it :: it in ses ==> it.quantity >= 1
    ensures ItemsUnique(MergeRows(items, cartId, nextId, ses).0)
    ensures MergeRows(items, cartId, nextId, ses).1
    decreases |ses|
  {
    if ses != [] {
      var init := ses[..|ses| - 1];
      assert forall it :: it in init ==> it in ses;
      MergeKeepsUnique(items, cartId, nextId, init);
      var rows := MergeRows(items, cartId, nextId, init).0;
      var it := ses[|ses| - 1];
      assert it in ses;
      AddToDbCartSucceeds(rows, cartId, nextId + |ses| - 1, it.product, it.variant, it.quantity);
    }
  }

  /** On rows with unique keys, adding a non-negative quantity succeeds and
      keeps the keys unique. */
  lemma AddToDbCartSucceeds(items: seq<CartItem>, cartId: int, newId: int, product: Product, variant: Option<Variant>, qty: int)
    requires ItemsUnique(items) && qty >= 0
    ensures AddToDbCart(items, cartId, newId, product, variant, qty).1
    ensures ItemsUnique(AddToDbCart(items, cartId, newId, product, variant, qty).0)
  {
    AddToDbCartKeepsUnique(items, cartId, newId, product, variant, qty);
    UniqueKeyNotMany(items, KeyOf(cartId, product, variant));
  }

  /** Merging one session item into a cart that holds its key raises that
      row by the item's quantity; into one that lacks it, appends a row
      holding exactly that quantity. */
  lemma MergeOne(items: seq<CartItem>, cartId: int, nextId: int, it: SessionItem)
    requires ItemsUnique(items) && it.quantity >= 1
    ensures var key := KeyOf(cartId, it.product, it.variant);
            var r := MergeRows(items, cartId, nextId, [it]);
            r.1
            && (FindItem(items, key).Some? ==>
                  var i := FindItem(items, key).value;
                  r.0 == items[i := items[i].(quantity := items[i].quantity + it.quantity)])
            && (FindItem(items, key).None? ==> r.0 == items + [CartItem(nextId, cartId, it.product, it.variant, it.quantity)])
  {
    var key := KeyOf(cartId, it.product, it.variant);
    assert [it][..0] == [];
    var f := FindItem(items, key);
    if f.Some? {
      AddToDbCartExisting(items, cartId, nextId, it.product, it.variant, it.quantity, f.value);
    } else {
      AddToDbCartNew(items, cartId, nextId, it.product, it.variant, it.quantity);
    }
  }

  /** The merge loop. */
  method MergeSession(items: seq<CartItem>, cartId: int, nextId: int, ses: seq<SessionItem>) returns (rows: seq<CartItem>, ok: bool)
    ensures rows == MergeRows(items, cartId, nextId, ses).0 && ok == MergeRows(items, cartId, nextId, ses).1
  {
    rows, ok := items, true;
    var i := 0;
    while i < |ses| && ok
      invariant 0 <= i <= |ses|
      invariant rows == MergeRows(items, cartId, nextId, ses[..i]).0 && ok == MergeRows(items, cartId, nextId, ses[..i]).1
    {
      MergeRowsSnoc(items, cartId, nextId, ses, i);
      var step := AddToDbCart(rows, cartId, nextId + i, ses[i].product, ses[i].variant, ses[i].quantity);
      rows, ok := step.0, step.1;
      i := i + 1;
    }
    if ok {
      assert ses[..i] == ses;
    } else {
      MergeFailureSticks(items, cartId, nextId, ses, i);
    }
  }

  /** Once a merge step fails, the later items change nothing. */
  lemma {:induction false} MergeFailureSticks(items: seq<CartItem>, cartId: int, nextId: int, ses: seq<SessionItem>, i: nat)
    requires i <= |ses| && !MergeRows(items, cartId, nextId, ses[..i]).1
    ensures MergeRows(items, cartId, nextId, ses) == MergeRows(items, cartId, nextId, ses[..i])
    decreases |ses| - i
  {
    if i < |ses| {
      MergeRowsSnoc(items, cartId, nextId, ses, i);
      MergeFailureSticks(items, cartId, nextId, ses, i + 1);
    } else {
      assert ses[..i] == ses;
    }
  }

  /** A merge that goes through adds the session items' units to the cart. */
  lemma {:induction false} MergeAddsUnits(items: seq<CartItem>, cartId: int, nextId: int, ses: seq<SessionItem>)
    ensures MergeRows(items, cartId, nextId, ses).1 ==>
              Units(MergeRows(items, cartId, nextId, ses).0) == Units(items) + SessionUnits(ses)
    decreases |ses|
  {
    if ses != [] {
      var init := ses[..|ses| - 1];
      var it := ses[|ses| - 1];
      MergeAddsUnits(items, cartId, nextId, init);
      var prev := MergeRows(items, cartId, nextId, init);
      if prev.1 {
        AddToDbCartUnits(prev.0, cartId, nextId + |ses| - 1, it.product, it.variant, it.quantity);
      }
      assert Quantities(ses) == Quantities(init) + [it.quantity];
      SumAppend(Quantities(init), [it.quantity]);
    }
  }

  /** Checking out again after a server error that followed a successful
      merge: the unsaved session still holds the same items, so they are
      merged a second time and the cart gains their units twice. */
  lemma RetryMergesAgain(cart: Option<DbCart>, newCartId: int, nextItemId: int, ses: seq<SessionItem>,
                         retryCartId: int, retryItemId: int)
    requires ses != [] && (cart.Some? ==> ItemsUnique(cart.value.items))
    requires forall it :: it in ses ==> it.quantity >= 1
    ensures var first := Merged(cart, newCartId, nextItemId, ses);
            var second := Merged(first.0, retryCartId, retryItemId, ses);
            first.1 && second.1 && second.0.Some?
            && Units(second.0.value.items) == Units(CartOrNew(cart, newCartId).items) + 2 * SessionUnits(ses)
  {
    var c := CartOrNew(cart, newCartId);
    MergeKeepsUnique(c.items, c.id, nextItemId, ses);
    MergeAddsUnits(c.items, c.id, nextItemId, ses);
    var first := Merged(cart, newCartId, nextItemId, ses);
    var c2 := first.0.value;
    assert CartOrNew(first.0, retryCartId) == c2;
    MergeKeepsUnique(c2.items, c2.id, retryItemId, ses);
    MergeAddsUnits(c2.items, c2.id, retryItemId, ses);
  }

  // ---------------------------------------------------------------------
  // Starting checkout

  /** Where checkout stands once it knows what is bought. */
  datatype Start =
    | Ready(buyNow: bool, purchases: seq<Purchase>, subtotal: int, units: int)
    | EmptyCart     // redirect to the cart page
    | Unavailable   // the buy-now product is gone: redirect home

  /** The merge outcome: the cart afterwards and whether every item went in. */
  function Merged(cart: Option<DbCart>, newCartId: int, nextItemId: int, ses: seq<SessionItem>): (r: (Option<DbCart>, bool))
    ensures ses == [] ==> r == (cart, true)
    ensures ses != [] ==> r.0.Some? && r.0.value.id == CartOrNew(cart, newCartId).id
  {
    if ses == [] then (cart, true)
    else
      var c := CartOrNew(cart, newCartId);
      var m := MergeRows(c.items, c.id, nextItemId, ses);
      (Some(DbCart(c.id, m.0)), m.1)
  }

  /** What checkout buys from the cart: nothing when there is no cart or it
      is empty. */
  function CartStart(cart: Option<DbCart>): (r: Start)
    ensures r.Ready? <==> cart.Some? && cart.value.items != []
    ensures r.Ready? ==> !r.buyNow && r.purchases == Purchases(cart.value.items)
                         && r.subtotal == Subtotal(cart.value.items) && r.units == Units(cart.value.items)
  {
    if cart.None? || cart.value.items == [] then EmptyCart
    else Ready(false, Purchases(cart.value.items), Subtotal(cart.value.items), Units(cart.value.items))
  }

  /** What checkout buys in buy-now mode. */
  function BuyNowStart(shop: Shop, b: BuyNow): (r: Start)
    ensures r.Unavailable? <==> BuyNowPurchase(shop, b).None?
    ensures r.Ready? ==> var p := BuyNowPurchase(shop, b).value;
                         r.buyNow && r.purchases == [p] && r.subtotal == Price(p.product) * p.quantity && r.units == p.quantity
  {
    match BuyNowPurchase(shop, b)
    case None => Unavailable
    case Some(p) => Ready(true, [p], Price(p.product) * p.quantity, p.quantity)
  }

  /** The first part of `checkout`, up to the subtotal: the override of
      buy-now mode, the merge of the session cart into the user's cart
      (which then empties the session cart), and what is bought.  `Err` is
      a merge lookup finding two rows: a server error, so the popped
      `buy_now` is not saved and the session stays as it was stored, while
      the rows merged before the failure stay written. */
  method StartCheckout(session: Session, shop: Shop, cart: Option<DbCart>, newCartId: int, nextItemId: int, query: map<string, string>)
    returns (r: Result<Start, string>, cartAfter: Option<DbCart>)
    modifies session
    ensures r.Err? ==> session.State() == old(session.State())
    ensures Overridden(query) && r.Ok? ==> session.buyNow.None?
    ensures !Overridden(query) ==> session.buyNow == old(session.buyNow)
    ensures BuyNowMode(old(session.buyNow), query) ==>
              cartAfter == cart && session.Lines() == old(session.Lines()) && r == Ok(BuyNowStart(shop, old(session.buyNow).value))
    ensures !BuyNowMode(old(session.buyNow), query) ==>
              var ses := ReadItems(old(session.Lines()), shop.products, VariantMap(shop.variants));
              var m := Merged(cart, newCartId, nextItemId, ses);
              cartAfter == m.0
              && (!m.1 ==> r == Err("MultipleObjectsReturned") && session.Lines() == old(session.Lines()))
              && (m.1 ==> r == Ok(CartStart(cartAfter)) && session.Lines() == (if ses == [] then old(session.Lines()) else []))
    ensures session.coupon == old(session.coupon) && session.selected == old(session.selected) && session.lastVariant == old(session.lastVariant)
  {
    var saved := session.State();
    var mode := session.buyNow.Some?;
    if Overridden(query) {
      mode := false;
      session.SetBuyNow(None);
    }
    cartAfter := cart;
    if mode {
      return Ok(BuyNowStart(shop, session.buyNow.value)), cartAfter;
    }
    var ses := session.GetItems(shop.products, VariantMap(shop.variants));
    if ses != [] {
      var c := CartOrNew(cart, newCartId);
      var rows, ok := MergeSession(c.items, c.id, nextItemId, ses);
      cartAfter := Some(DbCart(c.id, rows));
      if !ok {
        session.Discard(saved);
        return Err("MultipleObjectsReturned"), cartAfter;
      }
      session.ClearCart();
    }
    r := Ok(CartStart(cartAfter));
  }

  // ---------------------------------------------------------------------
  // Addresses and shipping quotes

  /** `addresses.get(id=int(raw))` when `raw` is non-empty: `None` when it
      does not parse or names no address of the user. */
  function ChosenAddress(addrs: seq<Address>, raw: Option<string>): (r: Option<Address>)
    ensures r.Some? ==> r.value in addrs && raw.Some? && ParseInt(raw.value) == Some(r.value.id)
    ensures raw.None? || raw.value == "" ==> r.None?
  {
    if raw.None? || raw.value == "" then None
    else match ParseInt(raw.value)
      case None => None
      case Some(id) =>
        match LookupBy(addrs, (a: Address) => a.id == id)
        case One(a) => Some(a)
        case _ => None
  }

  /** The address the checkout page quotes for: the one chosen in the query,
      else the preferred one. */
  function PageAddress(addrs: seq<Address>, query: map<string, string>): (r: Option<Address>)
    ensures ChosenAddress(addrs, Param(query, "address_id")).Some? ==> r == ChosenAddress(addrs, Param(query, "address_id"))
    ensures ChosenAddress(addrs, Param(query, "address_id")).None? ==> r == PreferredAddress(addrs)
  {
    var chosen := ChosenAddress(addrs, Param(query, "address_id"));
    if chosen.Some? then chosen else PreferredAddress(addrs)
  }

  /** The PIN checkout quotes for: an address's postal code, or the posted
      one when the order has no saved address (empty when neither). */
  function PinFrom(a: Option<Address>, typed: Option<string>): (r: string)
    ensures a.Some? ==> r == a.value.postalCode
    ensures a.None? && typed.Some? ==> r == typed.value
    ensures a.None? && typed.None? ==> r == ""
  {
    if a.Some? then a.value.postalCode else if typed.Some? then typed.value else ""
  }

  /** Whether a checkout quote asks the carrier. */
  predicate QuoteAsks(carrier: Carrier, pin: string, declared: int, s: Settings)
  {
    declared < s.freeThresholdRupees * 100 && pin != "" && EstimateAttempted(carrier.cfg, pin)
  }

  /** The carrier estimate checkout obtains for the bought lines, given the
      token the fetch yields: none at or above the free-shipping threshold
      or without a PIN. */
  function Quote(carrier: Carrier, token: Option<Json>, pin: string, start: Start, declared: int, cod: bool, s: Settings): (r: Option<Dec>)
    requires start.Ready?
    ensures !QuoteAsks(carrier, pin, declared, s) ==> r.None?
  {
    if declared >= s.freeThresholdRupees * 100 || pin == "" then None
    else
      var box := ParcelOf(PurchaseLines(start.purchases), carrier.cfg.defaults);
      EstimateOutcome(carrier.cfg, token, carrier.serviceability, pin, OrOne(start.units), cod,
                      Some(declared), Some(box.weightG), Some((box.lengthCm, box.breadthCm, box.heightCm)))
  }

  /** One shipping quote, fetching the carrier token when it asks. */
  method FetchQuote(cache: TokenCache, carrier: Carrier, pin: string, start: Start, declared: int, cod: bool, s: Settings)
    returns (est: Option<Dec>)
    requires start.Ready?
    modifies cache
    ensures var step := TokenStep(old(cache.token), old(cache.expiry), carrier.now, carrier.login);
            est == Quote(carrier, step.2, pin, start, declared, cod, s)
            && (if QuoteAsks(carrier, pin, declared, s) then cache.token == step.0 && cache.expiry == step.1
                else cache.token == old(cache.token) && cache.expiry == old(cache.expiry))
  {
    est := None;
    if declared < s.freeThresholdRupees * 100 && pin != "" {
      var box := Measure(PurchaseLines(start.purchases), carrier.cfg.defaults);
      est := EstimateShipping(cache, carrier.cfg, carrier.now, carrier.login, carrier.serviceability,
                              pin, OrOne(start.units), cod, Some(declared),
                              Some(box.weightG), Some((box.lengthCm, box.breadthCm, box.heightCm)));
    }
  }

  // ---------------------------------------------------------------------
  // The order and its items

  /** The unit cost an order item records: the variant's cost price when
      it has one, 0 otherwise. */
  function UnitCost(variant: Option<Variant>): (c: int)
    ensures variant.Some? && variant.value.costPrice.Some? ==> c == variant.value.costPrice.value
    ensures variant.None? || variant.value.costPrice.None? ==> c == 0
  {
    if variant.Some? && variant.value.costPrice.Some? then variant.value.costPrice.value else 0
  }

  /** The order item recorded for one bought line. */
  function ItemFor(p: Purchase, orderId: int, id: int): (r: OrderItem)
    ensures r.id == id && r.orderId == orderId && r.product == p.product && r.variant == p.variant && r.quantity == p.quantity
    ensures r.unitPrice == Price(p.product) && r.lineTotal == r.unitPrice * r.quantity
    ensures r.unitCost == UnitCost(p.variant) && r.lineCost == r.unitCost * r.quantity
  {
    var cost := UnitCost(p.variant);
    OrderItem(id, orderId, p.product, p.variant, "", "", p.quantity, Price(p.product), Price(p.product) * p.quantity, cost, cost * p.quantity)
  }

  /** The items of a new order, one per bought line in order, with
      consecutive ids from `nextId`. */
  function ItemsFor(ps: seq<Purchase>, orderId: int, nextId: int): (r: seq<OrderItem>)
    ensures |r| == |ps|
    ensures forall i :: 0 <= i < |ps| ==> r[i] == ItemFor(ps[i], orderId, nextId + i)
  {
    if ps == [] then [] else ItemsFor(ps[..|ps| - 1], orderId, nextId) + [ItemFor(ps[|ps| - 1], orderId, nextId + |ps| - 1)]
  }

  /** An order made from a cart records each row's line total, so its
      items add up to the cart's subtotal. */
  lemma {:induction false} ItemsForCartTotal(items: seq<CartItem>, orderId: int, nextId: int)
    ensures Sum(LineTotalsOf(ItemsFor(Purchases(items), orderId, nextId))) == Subtotal(items)
    decreases |items|
  {
    if items != [] {
      var init := items[..|items| - 1];
      ItemsForCartTotal(init, orderId, nextId);
      var its := ItemsFor(Purchases(items), orderId, nextId);
      var initIts := ItemsFor(Purchases(init), orderId, nextId);
      assert its[..|its| - 1] == initIts;
      assert LineTotalsOf(its)[..|its| - 1] == LineTotalsOf(initIts);
      assert LineTotals(items)[..|items| - 1] == LineTotals(init);
    }
  }

  /** The item-creation loop. */
  method CreateItems(ps: seq<Purchase>, orderId: int, nextId: int, table: seq<OrderItem>) returns (r: seq<OrderItem>)
    ensures r == table + ItemsFor(ps, orderId, nextId)
  {
    r := table;
    var i := 0;
    while i < |ps|
      invariant 0 <= i <= |ps|
      invariant r == table + ItemsFor(ps[..i], orderId, nextId)
    {
      assert ps[..i + 1][..i] == ps[..i];
      r := r + [ItemFor(ps[i], orderId, nextId + i)];
      i := i + 1;
    }
    assert ps[..i] == ps;
  }

  /** The order's address and contact fields: a saved address's, or the
      posted ones, with the name falling back to the user's full name and
      then the username, and the country fixed to India. */
  function ShipToFor(a: Option<Address>, form: map<string, string>, u: User): (r: ShipTo)
    ensures a.Some? ==> r == ShipTo(a.value.fullName, a.value.phone, a.value.line1, a.value.line2, a.value.city,
                                    a.value.state, a.value.postalCode, a.value.country)
    ensures a.None? ==> r.country == "India" && r.postalCode == Posted(form, "postal_code") && r.phone == Posted(form, "shipping_phone")
                        && r.line1 == Posted(form, "address_line1") && r.city == Posted(form, "city")
    ensures a.None? && Posted(form, "shipping_name") != "" ==> r.name == form["shipping_name"]
    ensures a.None? && Posted(form, "shipping_name") == "" ==> r.name == (if FullName(u) != "" then FullName(u) else u.username)
  {
    if a.Some? then
      ShipTo(a.value.fullName, a.value.phone, a.value.line1, a.value.line2, a.value.city, a.value.state, a.value.postalCode, a.value.country)
    else
      var typed := Posted(form, "shipping_name");
      var name := if typed != "" then typed else if FullName(u) != "" then FullName(u) else u.username;
      ShipTo(name, Posted(form, "shipping_phone"), Posted(form, "address_line1"), Posted(form, "address_line2"),
             Posted(form, "city"), Posted(form, "state"), Posted(form, "postal_code"), "India")
  }

  /** The order row checkout creates: status `created`, the discounted
      subtotal stored as `subtotal`, the discount and the applied code. */
  function CheckoutOrder(id: int, u: User, number: string, pm: string, t: Totals, coupon: Option<Coupon>, shipTo: ShipTo): (o: Order)
    ensures o.id == id && o.userId == u.id && o.orderNumber == number && o.status == "created" && o.paymentMethod == pm
    ensures o.subtotal == t.discounted && o.discount == t.discount && o.gst == t.gst && o.shipping == t.shipping && o.total == t.total
    ensures o.couponCode == (if coupon.Some? then coupon.value.code else "")
    ensures o.shipTo == shipTo && o.trackingNumber == "" && o.razorpayOrderId == "" && o.razorpayPaymentId == ""
  {
    CreateOrder(id, NewOrder(u.id, number, pm, t.discounted, t.gst, t.shipping, t.total, shipTo))
      .(discount := t.discount, couponCode := if coupon.Some? then coupon.value.code else "")
  }

  // ---------------------------------------------------------------------
  // Placing the order

  /** The tables checkout writes. */
  datatype Tables = Tables(cart: Option<DbCart>, orders: seq<Order>, items: seq<OrderItem>)

  /** Identifiers the database and `uuid` hand out. */
  datatype Ids = Ids(orderNumber: string, cartId: int, cartItemId: int, orderId: int, orderItemId: int)

  /** What checkout answers. */
  datatype Outcome =
    | Redirect(to: string)
    | Page(totals: Totals, address: Option<Address>)
    | PayOnline(order: Order, amountPaise: int)
    | Placed(orderNumber: string)

  /** An order number some stored order already has. */
  predicate NumberTaken(orders: seq<Order>, number: string)
  {
    exists i :: 0 <= i < |orders| && orders[i].orderNumber == number
  }

  /** What placing the order writes and answers, given the totals: the order
      with its items; online payment then asks the gateway for an order of
      the total in paise and stores its id, cash on delivery empties the
      cart outside buy-now mode.  An order number already taken is the
      `IntegrityError` of the insert, and nothing is written.  A gateway
      call that raises (unset keys, or the SDK) is a server error that
      comes after the order and its items were written: they stay, the
      order without a gateway id. */
  function Placement(tables: Tables, start: Start, t: Totals, coupon: Option<Coupon>, u: User, pm: string,
                     shipTo: ShipTo, ids: Ids, gateway: Gateway): (r: (Result<Outcome, string>, Tables))
    requires start.Ready?
    ensures NumberTaken(tables.orders, ids.orderNumber) ==> r.0 == Err("IntegrityError") && r.1 == tables
    ensures !NumberTaken(tables.orders, ids.orderNumber) ==>
              |r.1.orders| == |tables.orders| + 1 && r.1.orders[..|tables.orders|] == tables.orders
              && r.1.items == tables.items + ItemsFor(start.purchases, ids.orderId, ids.orderItemId)
              && var o := r.1.orders[|tables.orders|];
                 o.orderNumber == ids.orderNumber && o.status == "created" && o.paymentMethod == pm
                 && o.total == t.total && o.subtotal == t.discounted && o.shipping == t.shipping
    ensures !NumberTaken(tables.orders, ids.orderNumber) && pm == "razorpay" ==>
              var o := r.1.orders[|tables.orders|];
              r.1.cart == tables.cart
              && match CreateGatewayOrder(gateway, t.total, ids.orderNumber)
                 case Ok(id) => r.0 == Ok(PayOnline(o, t.total)) && o.razorpayOrderId == id
                 case Err(e) => r.0 == Err(e) && o.razorpayOrderId == ""
    ensures !NumberTaken(tables.orders, ids.orderNumber) && pm != "razorpay" ==>
              r.0 == Ok(Placed(ids.orderNumber))
              && r.1.cart == (if !start.buyNow && tables.cart.Some? then Some(DbCart(tables.cart.value.id, [])) else tables.cart)
  {
    var o := CheckoutOrder(ids.orderId, u, ids.orderNumber, pm, t, coupon, shipTo);
    match InsertOrder(tables.orders, o)
    case Err(e) => (Err(e), tables)
    case Ok(orders) =>
      var its := tables.items + ItemsFor(start.purchases, ids.orderId, ids.orderItemId);
      if pm == "razorpay" then
        match CreateGatewayOrder(gateway, t.total, ids.orderNumber)
        case Err(e) => (Err(e), Tables(tables.cart, orders, its))
        case Ok(id) =>
          var paid := o.(razorpayOrderId := id);
          (Ok(PayOnline(paid, t.total)), Tables(tables.cart, tables.orders + [paid], its))
      else
        var cart := if !start.buyNow && tables.cart.Some? then Some(DbCart(tables.cart.value.id, [])) else tables.cart;
        (Ok(Placed(ids.orderNumber)), Tables(cart, orders, its))
  }

  /** The order placed is `CheckoutOrder` of the totals, coupon and
      address, holding the gateway's id exactly when online payment created
      a gateway order. */
  lemma PlacedOrderIsCheckoutOrder(tables: Tables, start: Start, t: Totals, coupon: Option<Coupon>, u: User, pm: string,
                                   shipTo: ShipTo, ids: Ids, gateway: Gateway)
    requires start.Ready? && !NumberTaken(tables.orders, ids.orderNumber)
    ensures var r := Placement(tables, start, t, coupon, u, pm, shipTo, ids, gateway);
            var o := CheckoutOrder(ids.orderId, u, ids.orderNumber, pm, t, coupon, shipTo);
            r.1.orders[|tables.orders|]
            == (if pm == "razorpay" && CreateGatewayOrder(gateway, t.total, ids.orderNumber).Ok?
                then o.(razorpayOrderId := CreateGatewayOrder(gateway, t.total, ids.orderNumber).value)
                else o)
  {
  }

  /** Placing an order keeps order numbers unique. */
  lemma PlacementKeepsOrderNumbersUnique(tables: Tables, start: Start, t: Totals, coupon: Option<Coupon>, u: User, pm: string,
                                         shipTo: ShipTo, ids: Ids, gateway: Gateway)
    requires start.Ready? && OrderNumbersUnique(tables.orders)
    ensures OrderNumbersUnique(Placement(tables, start, t, coupon, u, pm, shipTo, ids, gateway).1.orders)
  {
    var after := Placement(tables, start, t, coupon, u, pm, shipTo, ids, gateway).1.orders;
    if after != tables.orders {
      forall i, j | 0 <= i < j < |after| ensures after[i].orderNumber != after[j].orderNumber
      {
        if j < |tables.orders| {
          assert after[i] == tables.orders[i] && after[j] == tables.orders[j];
        } else {
          assert after[i] == tables.orders[i];
        }
      }
    }
  }

  /** An order placed from the cart holds items whose line totals add up to
      the subtotal it was priced on; so does a buy-now order, whose one item
      is the subtotal. */
  lemma PlacedItemsAccountForSubtotal(cart: Option<DbCart>, shop: Shop, b: BuyNow, orderId: int, nextId: int)
    ensures CartStart(cart).Ready? ==>
              Sum(LineTotalsOf(ItemsFor(CartStart(cart).purchases, orderId, nextId))) == CartStart(cart).subtotal
    ensures BuyNowStart(shop, b).Ready? ==>
              Sum(LineTotalsOf(ItemsFor(BuyNowStart(shop, b).purchases, orderId, nextId))) == BuyNowStart(shop, b).subtotal
  {
    if CartStart(cart).Ready? {
      ItemsForCartTotal(cart.value.items, orderId, nextId);
    }
    if BuyNowStart(shop, b).Ready? {
      var its := ItemsFor(BuyNowStart(shop, b).purchases, orderId, nextId);
      assert LineTotalsOf(its)[..0] == [];
    }
  }

  /** `checkout`'s last step on a POST: places the order; then cash on
      delivery clears the session coupon, and in buy-now mode the buy-now
      line is dropped.  A gateway call that raises leaves the session as it
      was, with the order and its items written. */
  method PlaceOrder(session: Session, tables: Tables, start: Start, t: Totals, coupon: Option<Coupon>, u: User, pm: string,
                    shipTo: ShipTo, ids: Ids, gateway: Gateway)
    returns (r: Result<Outcome, string>, after: Tables)
    requires start.Ready?
    modifies session
    ensures (r, after) == Placement(tables, start, t, coupon, u, pm, shipTo, ids, gateway)
    ensures session.buyNow == (if r.Ok? && start.buyNow then None else old(session.buyNow))
    ensures session.coupon == (if r.Ok? && pm != "razorpay" then NoCoupon else old(session.coupon))
    ensures session.cart == old(session.cart) && session.selected == old(session.selected) && session.lastVariant == old(session.lastVariant)
  {
    var o := CheckoutOrder(ids.orderId, u, ids.orderNumber, pm, t, coupon, shipTo);
    var inserted := InsertOrder(tables.orders, o);
    if inserted.Err? {
      return Err(inserted.error), tables;
    }
    var its := CreateItems(start.purchases, ids.orderId, ids.orderItemId, tables.items);
    if pm == "razorpay" {
      var created := CreateGatewayOrder(gateway, t.total, ids.orderNumber);
      if created.Err? {
        return Err(created.error), Tables(tables.cart, inserted.value, its);
      }
      var paid := o.(razorpayOrderId := created.value);
      after := Tables(tables.cart, tables.orders + [paid], its);
      if start.buyNow {
        session.SetBuyNow(None);
      }
      return Ok(PayOnline(paid, t.total)), after;
    }
    var cart := tables.cart;
    if !start.buyNow && cart.Some? {
      cart := Some(DbCart(cart.value.id, []));
    }
    after := Tables(cart, inserted.value, its);
    session.ClearCoupon();
    if start.buyNow {
      session.SetBuyNow(None);
    }
    r := Ok(Placed(ids.orderNumber));
  }

  // ---------------------------------------------------------------------
  // Pricing the page and the order

  /** The PIN the page quotes for: the chosen or preferred address's. */
  function PagePin(addrs: seq<Address>, query: map<string, string>): string
  {
    PinFrom(PageAddress(addrs, query), None)
  }

  /** The PIN the order is quoted for: the posted address's, else the
      posted postal code. */
  function OrderPin(addrs: seq<Address>, form: map<string, string>): string
  {
    PinFrom(ChosenAddress(addrs, Param(form, "address_id")), Param(form, "postal_code"))
  }

  /** The discounted subtotal checkout prices and quotes on. */
  function NetSubtotal(start: Start, coupon: Option<Coupon>): int
    requires start.Ready?
  {
    Discounted(start.subtotal, Discount(start.subtotal, DiscountPercent(coupon)))
  }

  /** The totals on the checkout page, given the coupon and the token the
      page's quote yields: GST on the discounted subtotal, shipping free from
      the threshold on, and the total their sum. */
  function PageTotals(carrier: Carrier, token: Option<Json>, start: Start, coupon: Option<Coupon>, addrs: seq<Address>,
                      query: map<string, string>, s: Settings): (t: Totals)
    requires start.Ready?
    ensures t.subtotal == start.subtotal
    ensures t.discounted == NetSubtotal(start, coupon) && t.discounted >= 0
    ensures t.gst == Gst(t.discounted, s)
    ensures t.discounted >= s.freeThresholdRupees * 100 ==> t.shipping == 0
    ensures t.total == t.discounted + t.gst + t.shipping
  {
    CartTotals(start.subtotal, DiscountPercent(coupon), Quote(carrier, token, PagePin(addrs, query), start, NetSubtotal(start, coupon), false, s), s)
  }

  /** The totals the order is created with: the page's discount and GST, with
      shipping quoted again for the order's PIN and payment method, free
      from the threshold on, and the total their sum. */
  function OrderTotals(carrier: Carrier, token: Option<Json>, start: Start, coupon: Option<Coupon>, addrs: seq<Address>,
                       form: map<string, string>, pm: string, s: Settings): (t: Totals)
    requires start.Ready?
    ensures t.subtotal == start.subtotal
    ensures t.discounted == NetSubtotal(start, coupon) && t.discounted >= 0
    ensures t.gst == Gst(t.discounted, s)
    ensures t.discounted >= s.freeThresholdRupees * 100 ==> t.shipping == 0
    ensures t.total == t.discounted + t.gst + t.shipping
  {
    CartTotals(start.subtotal, DiscountPercent(coupon), Quote(carrier, token, OrderPin(addrs, form), start, NetSubtotal(start, coupon), pm == "cod", s), s)
  }

  /** The order is priced as the page was, except for shipping: same
      subtotal, discount, discounted subtotal and GST, and a total that is
      their sum with the order's own shipping; at or above the free-shipping
      threshold both charge no shipping. */
  lemma OrderPricedAsPage(carrier: Carrier, t1: Option<Json>, t2: Option<Json>, start: Start, coupon: Option<Coupon>,
                          addrs: seq<Address>, query: map<string, string>, form: map<string, string>, pm: string, s: Settings)
    requires start.Ready?
    ensures var page := PageTotals(carrier, t1, start, coupon, addrs, query, s);
            var order := OrderTotals(carrier, t2, start, coupon, addrs, form, pm, s);
            order.subtotal == page.subtotal && order.discount == page.discount && order.discounted == page.discounted
            && order.gst == page.gst && order.total == page.discounted + page.gst + order.shipping
            && (page.discounted >= s.freeThresholdRupees * 100 ==> page.shipping == 0 && order.shipping == 0)
  {
  }

  /** Without a quote, and below the threshold, the order pays the flat
      rate: a missing PIN, or a carrier that is not configured. */
  lemma OrderWithoutQuotePaysFlat(carrier: Carrier, token: Option<Json>, start: Start, coupon: Option<Coupon>,
                                  addrs: seq<Address>, form: map<string, string>, pm: string, s: Settings)
    requires start.Ready?
    requires OrderPin(addrs, form) == "" || !Enabled(carrier.cfg) || token.None?
    ensures var t := OrderTotals(carrier, token, start, coupon, addrs, form, pm, s);
            t.discounted < s.freeThresholdRupees * 100 ==> t.shipping == s.flatRupees * 100
  {
  }

  /** The cache after a quote that asks the carrier or not. */
  function CacheAfter(token: Json, expiry: real, asks: bool, carrier: Carrier): (r: (Json, real))
    ensures !asks ==> r == (token, expiry)
    ensures asks ==> r == (TokenStep(token, expiry, carrier.now, carrier.login).0, TokenStep(token, expiry, carrier.now, carrier.login).1)
  {
    if asks then
      var step := TokenStep(token, expiry, carrier.now, carrier.login);
      (step.0, step.1)
    else (token, expiry)
  }

  /** When the page's quote obtained a token, the order's quote in the same
      request reuses it without logging in again. */
  lemma OrderQuoteReusesToken(token: Json, expiry: real, asks: bool, carrier: Carrier)
    requires TokenStep(token, expiry, carrier.now, carrier.login).2.Some?
    ensures var c := CacheAfter(token, expiry, asks, carrier);
            TokenStep(c.0, c.1, carrier.now, carrier.login).2 == TokenStep(token, expiry, carrier.now, carrier.login).2
  {
    if asks {
      SecondFetchHitsCache(token, expiry, carrier.now, carrier.login);
    }
  }

  // ---------------------------------------------------------------------
  // The checkout view

  /** What every placed order satisfies: exactly one order appended to the
      table, created under the new number for the user, its total the sum
      of its discounted subtotal, GST and shipping, the online amount that
      total and the payment method the one chosen. */
  predicate OrderRecorded(before: seq<Order>, after: seq<Order>, r: Result<Outcome, string>, u: User, ids: Ids)
  {
    r.Ok? && (r.value.Placed? || r.value.PayOnline?) ==>
      |after| == |before| + 1 && after[..|before|] == before
      && var o := after[|before|];
         o.orderNumber == ids.orderNumber && o.status == "created" && o.userId == u.id
         && o.total == o.subtotal + o.gst + o.shipping
         && (r.value.PayOnline? ==> r.value.amountPaise == o.total && o.paymentMethod == "razorpay")
         && (r.value.Placed? ==> o.paymentMethod == "cod")
  }

  /** Placing an order priced by the checkout rule records it as above. */
  lemma PlacementRecordsOrder(tables: Tables, start: Start, subtotal: int, pct: nat, est: Option<Dec>, s: Settings,
                              coupon: Option<Coupon>, u: User, pm: string, shipTo: ShipTo, ids: Ids, gateway: Gateway)
    requires start.Ready? && (pm == "razorpay" || pm == "cod")
    ensures var p := Placement(tables, start, CartTotals(subtotal, pct, est, s), coupon, u, pm, shipTo, ids, gateway);
            OrderRecorded(tables.orders, p.1.orders, p.0, u, ids)
            && (p.0.Ok? ==> (p.0.value.Placed? || p.0.value.PayOnline?) && (p.0.value.Placed? <==> pm == "cod"))
            && (p.0.Err? ==> p.1.cart == tables.cart)
  {
    var t := CartTotals(subtotal, pct, est, s);
    var p := Placement(tables, start, t, coupon, u, pm, shipTo, ids, gateway);
    if p.0.Ok? {
      var o := CheckoutOrder(ids.orderId, u, ids.orderNumber, pm, t, coupon, shipTo);
      assert InsertOrder(tables.orders, o).Ok?;
      if pm == "razorpay" {
        assert p.1.orders == tables.orders + [o.(razorpayOrderId := CreateGatewayOrder(gateway, t.total, ids.orderNumber).value)];
      } else {
        assert p.1.orders == tables.orders + [o];
      }
    }
  }

  /** A POST with a valid payment method: shipping is quoted again for the
      order's PIN, cash on delivery quoted as such, and the order placed. */
  method PostCheckout(session: Session, cache: TokenCache, shop: Shop, carrier: Carrier, u: User, addrs: seq<Address>,
                      tables: Tables, start: Start, coupon: Option<Coupon>, pm: string, form: map<string, string>,
                      ids: Ids, gateway: Gateway)
    returns (r: Result<Outcome, string>, after: Tables)
    requires start.Ready? && (pm == "razorpay" || pm == "cod")
    modifies session, cache
    ensures var step := TokenStep(old(cache.token), old(cache.expiry), carrier.now, carrier.login);
            var t := OrderTotals(carrier, step.2, start, coupon, addrs, form, pm, shop.settings);
            (r, after) == Placement(tables, start, t, coupon, u, pm, ShipToFor(ChosenAddress(addrs, Param(form, "address_id")), form, u), ids, gateway)
            && (cache.token, cache.expiry) == CacheAfter(old(cache.token), old(cache.expiry), QuoteAsks(carrier, OrderPin(addrs, form), NetSubtotal(start, coupon), shop.settings), carrier)
    ensures OrderRecorded(tables.orders, after.orders, r, u, ids)
    ensures r.Ok? ==> (r.value.Placed? || r.value.PayOnline?) && (r.value.Placed? <==> pm == "cod")
    ensures r.Err? ==> after.cart == tables.cart
    ensures r.Ok? ==> after.items == tables.items + ItemsFor(start.purchases, ids.orderId, ids.orderItemId)
    ensures session.buyNow == (if r.Ok? && start.buyNow then None else old(session.buyNow))
    ensures session.coupon == (if r.Ok? && pm == "cod" then NoCoupon else old(session.coupon))
    ensures r.Ok? && start.buyNow ==> after.cart == tables.cart
    ensures session.cart == old(session.cart) && session.selected == old(session.selected) && session.lastVariant == old(session.lastVariant)
  {
    var pct := DiscountPercent(coupon);
    var est := FetchQuote(cache, carrier, OrderPin(addrs, form), start, NetSubtotal(start, coupon), pm == "cod", shop.settings);
    var shipTo := ShipToFor(ChosenAddress(addrs, Param(form, "address_id")), form, u);
    PlacementRecordsOrder(tables, start, start.subtotal, pct, est, shop.settings, coupon, u, pm, shipTo, ids, gateway);
    r, after := PlaceOrder(session, tables, start, CartTotals(start.subtotal, pct, est, shop.settings), coupon, u, pm, shipTo, ids, gateway);
  }

  /** Resolves the session coupon and quotes the page's shipping. */
  method QuotePage(session: Session, cache: TokenCache, shop: Shop, carrier: Carrier, addrs: seq<Address>,
                   start: Start, query: map<string, string>)
    returns (resolved: Result<Option<Coupon>, string>, page: Totals)
    requires start.Ready?
    modifies cache
    ensures resolved == ResolveCoupon(shop.coupons, session.Coupon(), shop.today)
    ensures resolved.Err? ==> cache.token == old(cache.token) && cache.expiry == old(cache.expiry)
    ensures resolved.Ok? ==>
              page == PageTotals(carrier, TokenStep(old(cache.token), old(cache.expiry), carrier.now, carrier.login).2,
                                 start, resolved.value, addrs, query, shop.settings)
              && (cache.token, cache.expiry) == CacheAfter(old(cache.token), old(cache.expiry),
                                                           QuoteAsks(carrier, PagePin(addrs, query), NetSubtotal(start, resolved.value), shop.settings), carrier)
  {
    resolved := ResolveCoupon(shop.coupons, session.Coupon(), shop.today);
    page := Totals(0, 0, 0, 0, 0, 0);
    if resolved.Ok? {
      var pct := DiscountPercent(resolved.value);
      var est := FetchQuote(cache, carrier, PagePin(addrs, query), start, NetSubtotal(start, resolved.value), false, shop.settings);
      page := CartTotals(start.subtotal, pct, est, shop.settings);
    }
  }

  /** `checkout` once it knows what is bought: the coupon is resolved and
      the page's shipping quoted; a GET shows the page, a POST with a
      payment method other than `razorpay` or `cod` goes back to checkout,
      and any other POST places the order. */
  method FinishCheckout(session: Session, cache: TokenCache, shop: Shop, carrier: Carrier, u: User, addrs: seq<Address>,
                        tables: Tables, start: Start, verb: string, query: map<string, string>, form: map<string, string>,
                        ids: Ids, gateway: Gateway)
    returns (r: Result<Outcome, string>, after: Tables)
    requires start.Ready?
    modifies session, cache
    ensures var resolved := ResolveCoupon(shop.coupons, old(session.Coupon()), shop.today);
            resolved.Err? ==>
              r == Err(resolved.error) && after == tables && cache.token == old(cache.token) && cache.expiry == old(cache.expiry)
    ensures var resolved := ResolveCoupon(shop.coupons, old(session.Coupon()), shop.today);
            var pm := Param(form, "payment_method");
            resolved.Ok? ==>
              var coupon := resolved.value;
              var first := TokenStep(old(cache.token), old(cache.expiry), carrier.now, carrier.login);
              var c1 := CacheAfter(old(cache.token), old(cache.expiry), QuoteAsks(carrier, PagePin(addrs, query), NetSubtotal(start, coupon), shop.settings), carrier);
              (verb != "POST" ==> r == Ok(Page(PageTotals(carrier, first.2, start, coupon, addrs, query, shop.settings), PageAddress(addrs, query))))
              && (verb == "POST" && pm != Some("razorpay") && pm != Some("cod") ==> r == Ok(Redirect("checkout")))
              && (verb != "POST" || (pm != Some("razorpay") && pm != Some("cod")) ==> after == tables && (cache.token, cache.expiry) == c1)
              && (verb == "POST" && (pm == Some("razorpay") || pm == Some("cod")) ==>
                    var second := TokenStep(c1.0, c1.1, carrier.now, carrier.login);
                    var t := OrderTotals(carrier, second.2, start, coupon, addrs, form, pm.value, shop.settings);
                    (r, after) == Placement(tables, start, t, coupon, u, pm.value, ShipToFor(ChosenAddress(addrs, Param(form, "address_id")), form, u), ids, gateway)
                    && (cache.token, cache.expiry) == CacheAfter(c1.0, c1.1, QuoteAsks(carrier, OrderPin(addrs, form), NetSubtotal(start, coupon), shop.settings), carrier))
    ensures OrderRecorded(tables.orders, after.orders, r, u, ids)
    ensures r.Ok? && (r.value.Placed? || r.value.PayOnline?) ==>
              after.items == tables.items + ItemsFor(start.purchases, ids.orderId, ids.orderItemId)
              && session.buyNow == (if start.buyNow then None else old(session.buyNow))
              && (r.value.Placed? ==> session.coupon == NoCoupon)
              && (r.value.PayOnline? ==> session.coupon == old(session.coupon))
              && (start.buyNow ==> after.cart == tables.cart)
    ensures !(r.Ok? && (r.value.Placed? || r.value.PayOnline?)) ==> session.coupon == old(session.coupon) && session.buyNow == old(session.buyNow)
    ensures r.Err? ==> after.cart == tables.cart
    ensures session.cart == old(session.cart) && session.selected == old(session.selected) && session.lastVariant == old(session.lastVariant)
  {
    var resolved, page := QuotePage(session, cache, shop, carrier, addrs, start, query);
    after := tables;
    if resolved.Err? {
      return Err(resolved.error), after;
    }
    if verb != "POST" {
      return Ok(Page(page, PageAddress(addrs, query))), after;
    }
    var pm := Param(form, "payment_method");
    if pm != Some("razorpay") && pm != Some("cod") {
      return Ok(Redirect("checkout")), after;
    }
    r, after := PostCheckout(session, cache, shop, carrier, u, addrs, tables, start, resolved.value, pm.value, form, ids, gateway);
  }

  /** The rest of `checkout` once there is something to buy: the order is
      placed as `FinishCheckout` says, and a server error leaves the
      session as `saved`, the state it was in when the request began. */
  method CheckoutReady(session: Session, cache: TokenCache, shop: Shop, carrier: Carrier, u: User, addrs: seq<Address>,
                       tables: Tables, start: Start, verb: string, query: map<string, string>, form: map<string, string>,
                       ids: Ids, gateway: Gateway, saved: SessionData)
    returns (r: Result<Outcome, string>, after: Tables)
    requires start.Ready?
    modifies session, cache
    ensures r.Err? ==> session.State() == saved && after.cart == tables.cart
    ensures r.Ok? ==> session.cart == old(session.cart)
    ensures verb != "POST" ==> after == tables
    ensures OrderRecorded(tables.orders, after.orders, r, u, ids)
    ensures r.Ok? && (r.value.Placed? || r.value.PayOnline?) ==>
              after.items == tables.items + ItemsFor(start.purchases, ids.orderId, ids.orderItemId)
              && session.buyNow == (if start.buyNow then None else old(session.buyNow))
              && (r.value.Placed? ==> session.coupon == NoCoupon)
              && (start.buyNow ==> after.cart == tables.cart)
  {
    r, after := FinishCheckout(session, cache, shop, carrier, u, addrs, tables, start, verb, query, form, ids, gateway);
    if r.Err? {
      session.Discard(saved);
    }
  }

  /** `checkout` for a signed-in user.  A failing merge or coupon lookup, a
      taken order number, or a Razorpay gateway call that raises, is a
      server error (`Err`): the rows written before it stay (the merged
      cart rows; the order and its items when the gateway raised), while
      Django does not save the session of such a request, so the session
      cart that was merged is still stored (see `RetryMergesAgain`).
      Outside buy-now mode an empty cart sends the user to the cart page; a
      buy-now product that no longer exists sends them home. */
  method Checkout(session: Session, cache: TokenCache, shop: Shop, carrier: Carrier, u: User, addrs: seq<Address>,
                  tables: Tables, verb: string, query: map<string, string>, form: map<string, string>,
                  ids: Ids, gateway: Gateway)
    returns (r: Result<Outcome, string>, after: Tables)
    modifies session, cache
    ensures BuyNowMode(old(session.buyNow), query) && BuyNowPurchase(shop, old(session.buyNow).value).None? ==>
              r == Ok(Redirect("/")) && after == tables
    ensures !BuyNowMode(old(session.buyNow), query) ==>
              var ses := ReadItems(old(session.Lines()), shop.products, VariantMap(shop.variants));
              var m := Merged(tables.cart, ids.cartId, ids.cartItemId, ses);
              (!m.1 ==> r == Err("MultipleObjectsReturned") && after == tables.(cart := m.0))
              && (m.1 && (m.0.None? || m.0.value.items == []) ==> r == Ok(Redirect("view_cart")) && after == tables.(cart := m.0))
              && (m.1 && r.Ok? && (r.value.Placed? || r.value.PayOnline?) ==>
                    m.0.Some? && after.items == tables.items + ItemsFor(Purchases(m.0.value.items), ids.orderId, ids.orderItemId))
              && (r.Err? ==> after.cart == m.0)
              && (r.Ok? && ses != [] ==> session.Lines() == [])
    ensures r.Err? ==> session.State() == old(session.State())
    ensures verb != "POST" ==> after.orders == tables.orders && after.items == tables.items
    ensures OrderRecorded(tables.orders, after.orders, r, u, ids)
    ensures r.Ok? && r.value.Placed? ==> session.coupon == NoCoupon
    ensures r.Ok? && (r.value.Placed? || r.value.PayOnline?) && BuyNowMode(old(session.buyNow), query) ==>
              session.buyNow.None? && after.cart == tables.cart
  {
    var saved := session.State();
    var start, cartAfter := StartCheckout(session, shop, tables.cart, ids.cartId, ids.cartItemId, query);
    after := tables.(cart := cartAfter);
    if start.Err? {
      return Err(start.error), after;
    }
    match start.value {
      case EmptyCart =>
        return Ok(Redirect("view_cart")), after;
      case Unavailable =>
        return Ok(Redirect("/")), after;
      case Ready(_, _, _, _) =>
        r, after := CheckoutReady(session, cache, shop, carrier, u, addrs, after, start.value, verb, query, form, ids, gateway, saved);
    }
  }
}
