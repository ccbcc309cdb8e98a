/** The cart pages: the totals the cart page and its AJAX responses show,
    adding, updating, removing and saving items, the checkout selection and
    the coupon form.  Database tables are values the views read and return;
    the session and the carrier's token cache are the objects they update.
    Request parameters are maps from name to raw text. */
module CartViews {
  import opened Basics
  import opened Text
  import opened Forms
  import opened Money
  import opened Json
  import opened CatalogModels
  import opened CartModels
  import opened Coupons
  import opened SessionCart
  import opened Parcel
  import opened Pricing
  import opened Shiprocket
  import opened Users

  /** The tables and settings every view reads; `today` is the instant the
      coupon windows are checked against. */
  datatype Shop = Shop(
    products: map<int, Product>,
    variants: seq<Variant>,
    coupons: seq<Coupon>,
    today: int,
    settings: Settings)

  /** The carrier as one request reaches it: its configuration, the clock,
      and the answers of its login and rate endpoints. */
  datatype Carrier = Carrier(cfg: Config, now: real, login: LoginReply, serviceability: RateQuery -> Option<Json>)

  /** The signed-in user's cart row and its items. */
  datatype DbCart = DbCart(id: int, items: seq<CartItem>)

  /** `request.user`: anonymous, or signed in with their addresses and, when
      `hasattr(user, "cart")`, their cart. */
  datatype Visitor = Anonymous | SignedIn(user: User, cart: Option<DbCart>, addresses: seq<Address>)

  /** The variant table indexed by id. */
  function VariantMap(vs: seq<Variant>): (m: map<int, Variant>)
    ensures forall v :: v in vs ==> v.id in m
    ensures forall id :: id in m ==> m[id] in vs && m[id].id == id
  {
    if vs == [] then map[] else VariantMap(vs[..|vs| - 1])[vs[|vs| - 1].id := vs[|vs| - 1]]
  }

  function DbItems(v: Visitor): seq<CartItem>
  {
    if v.SignedIn? && v.cart.Some? then v.cart.value.items else []
  }

  /** `int(raw) if raw not in (None, "", "None") else None`, the variant id
      the cart forms send; `Err` is the `ValueError` of an unparsable id. */
  function VariantParam(raw: Option<string>): (r: Result<Option<int>, string>)
    ensures raw.None? || raw.value == "" || raw.value == "None" ==> r == Ok(None)
    ensures raw.Some? && raw.value != "" && raw.value != "None" ==>
              (r.Ok? <==> ParseInt(raw.value).Some?) && (r.Ok? ==> r.value == ParseInt(raw.value))
  {
    if raw.None? || raw.value == "" || raw.value == "None" then Ok(None)
    else match ParseInt(raw.value)
      case None => Err("ValueError")
      case Some(n) => Ok(Some(n))
  }

  // ---------------------------------------------------------------------
  // The shipping address used for estimates

  /** Address rows are ordered by `("-is_default", "-updated_at")`: `a`
      sorts strictly before `b`. */
  predicate SortsBefore(a: Address, b: Address)
  {
    (a.isDefault && !b.isDefault) || (a.isDefault == b.isDefault && a.updatedAt > b.updatedAt)
  }

  /** `addresses.filter(is_default=True).first() or addresses.first()`: with
      that ordering both pick the address sorting first, and among equal
      keys the earlier row. */
  function PreferredAddress(addrs: seq<Address>): (r: Option<Address>)
    ensures r.None? <==> addrs == []
    ensures r.Some? ==> r.value in addrs && forall a :: a in addrs ==> !SortsBefore(a, r.value)
    ensures (exists a :: a in addrs && a.isDefault) ==> r.Some? && r.value.isDefault
  {
    if addrs == [] then None
    else
      var init := addrs[..|addrs| - 1];
      var last := addrs[|addrs| - 1];
      assert forall a :: a in addrs ==> a in init || a == last;
      match PreferredAddress(init)
      case None => Some(last)
      case Some(best) => if SortsBefore(last, best) then Some(last) else Some(best)
  }

  /** The PIN the cart pages estimate shipping to: the preferred address's
      postal code, when there is an address and its code is not empty. */
  function DropPin(v: Visitor): (r: Option<string>)
    ensures r.Some? ==> v.SignedIn? && PreferredAddress(v.addresses).Some?
                        && r.value == PreferredAddress(v.addresses).value.postalCode && r.value != ""
    ensures v.SignedIn? && PreferredAddress(v.addresses).Some? && PreferredAddress(v.addresses).value.postalCode != "" ==> r.Some?
    ensures v.Anonymous? ==> r.None?
  {
    if v.Anonymous? then None
    else match PreferredAddress(v.addresses)
      case None => None
      case Some(a) => if a.postalCode != "" then Some(a.postalCode) else None
  }

  // ---------------------------------------------------------------------
  // Database cart rows

  function KeyOf(cartId: int, product: Product, variant: Option<Variant>): (int, int, Option<int>)
  {
    (cartId, product.id, if variant.Some? then Some(variant.value.id) else None)
  }

  /** `CartItem.objects.get_or_create(cart=..., product=..., variant=...)`,
      then `quantity += qty` on an existing row or `quantity = qty` on a
      created one, then `save()`.  The flag is false when this fails: two
      rows with the key make the lookup raise, and a negative quantity
      violates the positive-integer column on save (a created row then stays
      with its default quantity of 1). */
  function AddToDbCart(items: seq<CartItem>, cartId: int, newId: int, product: Product, variant: Option<Variant>, qty: int): (r: (seq<CartItem>, bool))
  {
    var key := KeyOf(cartId, product, variant);
    if LookupBy(items, (it: CartItem) => ItemKey(it) == key).Many? then (items, false)
    else match FindItem(items, key)
      case Some(i) =>
        if items[i].quantity + qty < 0 then (items, false)
        else (items[i := items[i].(quantity := items[i].quantity + qty)], true)
      case None =>
        var row := CartItem(newId, cartId, product, variant, 1);
        if qty < 0 then (items + [row], false) else (items + [row.(quantity := qty)], true)
  }

  /** The exception a failed `AddToDbCart` raises: several rows under the
      key make `get_or_create` raise `MultipleObjectsReturned`; otherwise it
      is the save of a negative quantity, an `IntegrityError`. */
  function AddFailure(items: seq<CartItem>, cartId: int, product: Product, variant: Option<Variant>): string
  {
    if LookupBy(items, (it: CartItem) => ItemKey(it) == KeyOf(cartId, product, variant)).Many?
    then "MultipleObjectsReturned" else "IntegrityError"
  }

  /** With keys unique, a key matches at most one row, so the lookup never
      finds several. */
  lemma UniqueKeyNotMany(items: seq<CartItem>, key: (int, int, Option<int>))
    requires ItemsUnique(items)
    ensures !LookupBy(items, (it: CartItem) => ItemKey(it) == key).Many?
  {
    var p := (it: CartItem) => ItemKey(it) == key;
    var f := FindItem(items, key);
    if f.Some? {
      FilterSingle(items, p, f.value);
    }
  }

  /** Adding to a row that exists raises its quantity by `qty` and leaves
      every other row as it was. */
  lemma AddToDbCartExisting(items: seq<CartItem>, cartId: int, newId: int, product: Product, variant: Option<Variant>, qty: int, i: nat)
    requires ItemsUnique(items) && i < |items| && ItemKey(items[i]) == KeyOf(cartId, product, variant)
    requires items[i].quantity + qty >= 0
    ensures AddToDbCart(items, cartId, newId, product, variant, qty) == (items[i := items[i].(quantity := items[i].quantity + qty)], true)
  {
    UniqueKeyNotMany(items, KeyOf(cartId, product, variant));
    var f := FindItem(items, KeyOf(cartId, product, variant));
    assert f.Some? && f.value == i;
  }

  /** Adding a product and variant the cart lacks appends one row holding
      exactly `qty`. */
  lemma AddToDbCartNew(items: seq<CartItem>, cartId: int, newId: int, product: Product, variant: Option<Variant>, qty: int)
    requires forall j :: 0 <= j < |items| ==> ItemKey(items[j]) != KeyOf(cartId, product, variant)
    requires qty >= 0
    ensures AddToDbCart(items, cartId, newId, product, variant, qty) == (items + [CartItem(newId, cartId, product, variant, qty)], true)
  {
    var p := (it: CartItem) => ItemKey(it) == KeyOf(cartId, product, variant);
    FilterNoneLemma(items, p);
  }

  /** A successful `get_or_create` and quantity update adds exactly `qty`
      units to the cart, whether it raises a row or creates one. */
  lemma AddToDbCartUnits(items: seq<CartItem>, cartId: int, newId: int, product: Product, variant: Option<Variant>, qty: int)
    ensures AddToDbCart(items, cartId, newId, product, variant, qty).1 ==>
              Units(AddToDbCart(items, cartId, newId, product, variant, qty).0) == Units(items) + qty
  {
    var key := KeyOf(cartId, product, variant);
    if !LookupBy(items, (it: CartItem) => ItemKey(it) == key).Many? {
      match FindItem(items, key)
      case Some(i) =>
        if items[i].quantity + qty >= 0 {
          UnitsUpdate(items, i, items[i].quantity + qty);
        }
      case None =>
        if qty >= 0 {
          UnitsSnoc(items, CartItem(newId, cartId, product, variant, qty));
        }
    }
  }

  /** Adding keeps at most one row per key, whether it succeeds or not. */
  lemma AddToDbCartKeepsUnique(items: seq<CartItem>, cartId: int, newId: int, product: Product, variant: Option<Variant>, qty: int)
    requires ItemsUnique(items)
    ensures ItemsUnique(AddToDbCart(items, cartId, newId, product, variant, qty).0)
  {
    UniqueKeyNotMany(items, KeyOf(cartId, product, variant));
  }

  /** The first row with the given id. */
  function FindById(items: seq<CartItem>, id: int): (r: Option<nat>)
    ensures r.Some? ==> r.value < |items| && items[r.value].id == id
    ensures r.None? <==> forall j :: 0 <= j < |items| ==> items[j].id != id
  {
    if items == [] then None
    else if items[0].id == id then Some(0)
    else match FindById(items[1..], id)
      case None => None
      case Some(k) => Some(k + 1)
  }

  /** `item.delete()`: the table loses exactly the deleted row, and the
      rows before and after it keep their order. */
  function DeleteAt(items: seq<CartItem>, i: nat): (r: seq<CartItem>)
    requires i < |items|
    ensures multiset(r) + multiset{items[i]} == multiset(items)
    ensures forall k :: 0 <= k < i ==> r[k] == items[k]
    ensures forall k :: i <= k < |r| ==> r[k] == items[k + 1]
  {
    assert items == items[..i] + [items[i]] + items[i + 1..];
    items[..i] + items[i + 1..]
  }

  /** Deleting a row keeps the key unique, adds nothing, and leaves no row
      under the deleted row's key. */
  lemma DeleteKeepsUnique(items: seq<CartItem>, i: nat)
    requires ItemsUnique(items) && i < |items|
    ensures ItemsUnique(DeleteAt(items, i))
    ensures forall x :: x in DeleteAt(items, i) ==> x in items
    ensures forall x :: x in DeleteAt(items, i) ==> ItemKey(x) != ItemKey(items[i])
  {
    var r := DeleteAt(items, i);
    forall a, b | 0 <= a < b < |r| ensures ItemKey(r[a]) != ItemKey(r[b])
    {
      var a' := if a < i then a else a + 1;
      var b' := if b < i then b else b + 1;
      assert r[a] == items[a'] && r[b] == items[b'];
    }
    forall x | x in r ensures x in items && ItemKey(x) != ItemKey(items[i])
    {
      var k :| 0 <= k < |r| && r[k] == x;
      var k' := if k < i then k else k + 1;
      assert x == items[k'] && k' != i;
    }
  }

  function ParcelLinesOf(items: seq<CartItem>): (r: seq<ParcelLine>)
    ensures |r| == |items|
  {
    if items == [] then [] else ParcelLinesOf(items[..|items| - 1]) + [LineOf(items[|items| - 1].product, items[|items| - 1].variant, items[|items| - 1].quantity)]
  }

  // ---------------------------------------------------------------------
  // The cart page

  /** The subtotal the page shows: the database cart's when the user has
      one, the session items' otherwise. */
  function ShownSubtotal(v: Visitor, sessionItems: seq<SessionItem>): int
  {
    if v.SignedIn? && v.cart.Some? then Subtotal(v.cart.value.items) else SessionSubtotal(sessionItems)
  }

  /** The units over the shown items. */
  function ShownUnits(v: Visitor, sessionItems: seq<SessionItem>): int
  {
    if v.SignedIn? && v.cart.Some? then Units(v.cart.value.items) else SessionUnits(sessionItems)
  }

  /** `n or 1`. */
  function OrOne(n: int): (r: int)
    ensures r != 0
    ensures n != 0 ==> r == n
  {
    if n != 0 then n else 1
  }

  /** Whether a cart page asks the carrier for a rate on `amount`: below
      the free-shipping threshold, with a PIN to ship to, and with the
      carrier configured. */
  predicate AsksCarrier(carrier: Carrier, pin: Option<string>, amount: int, s: Settings)
  {
    amount < s.freeThresholdRupees * 100 && pin.Some? && EstimateAttempted(carrier.cfg, pin.value)
  }

  /** The estimate a cart page obtains for `amount`, given the token the
      fetch yields: the parcel is measured over the database cart's rows,
      `units` is raised to 1 when zero, and `amount` is declared as the
      value. */
  function CartEstimate(carrier: Carrier, token: Option<Json>, pin: Option<string>, dbItems: seq<CartItem>,
                        amount: int, units: int, s: Settings): (r: Option<Dec>)
    ensures !AsksCarrier(carrier, pin, amount, s) ==> r.None?
    ensures pin.None? ==> r.None?
  {
    if amount >= s.freeThresholdRupees * 100 || pin.None? then None
    else
      var box := ParcelOf(ParcelLinesOf(dbItems), carrier.cfg.defaults);
      EstimateOutcome(carrier.cfg, token, carrier.serviceability, pin.value, OrOne(units), false,
                      Some(amount), Some(box.weightG), Some((box.lengthCm, box.breadthCm, box.heightCm)))
  }

  /** `view_cart`'s totals, given the session's items and coupon code and the
      token the carrier fetch yields; `Err` when two coupons match the
      code. */
  function CartPageTotals(shop: Shop, carrier: Carrier, token: Option<Json>, v: Visitor,
                          sessionItems: seq<SessionItem>, code: Option<string>): (r: Result<Totals, string>)
    ensures r.Err? <==> ResolveCoupon(shop.coupons, code, shop.today).Err?
    ensures r.Ok? ==>
              var pct := DiscountPercent(ResolveCoupon(shop.coupons, code, shop.today).value);
              var sub := ShownSubtotal(v, sessionItems);
              r.value.subtotal == sub && r.value.discount == Discount(sub, pct)
              && r.value.discounted == Discounted(sub, Discount(sub, pct))
              && r.value.total == r.value.discounted + r.value.gst + r.value.shipping
  {
    match ResolveCoupon(shop.coupons, code, shop.today)
    case Err(e) => Err(e)
    case Ok(c) =>
      var sub := ShownSubtotal(v, sessionItems);
      var pct := DiscountPercent(c);
      var discounted := Discounted(sub, Discount(sub, pct));
      var est := CartEstimate(carrier, token, DropPin(v), DbItems(v), discounted, ShownUnits(v, sessionItems), shop.settings);
      Ok(CartTotals(sub, pct, est, shop.settings))
  }

  /** An anonymous visitor is never quoted a carrier rate: below the
      threshold shipping is the flat rate, whatever the carrier says. */
  lemma AnonymousPaysFlat(shop: Shop, carrier: Carrier, token: Option<Json>, items: seq<SessionItem>, code: Option<string>)
    requires CartPageTotals(shop, carrier, token, Anonymous, items, code).Ok?
    ensures var t := CartPageTotals(shop, carrier, token, Anonymous, items, code).value;
            t.shipping == (if t.discounted >= shop.settings.freeThresholdRupees * 100 then 0 else shop.settings.flatRupees * 100)
  {
  }

  /** Without a coupon code the page applies no discount. */
  lemma NoCodeNoDiscount(shop: Shop, carrier: Carrier, token: Option<Json>, v: Visitor, items: seq<SessionItem>)
    requires ShownSubtotal(v, items) >= 0
    ensures CartPageTotals(shop, carrier, token, v, items, None).Ok?
    ensures CartPageTotals(shop, carrier, token, v, items, None).value.discount == 0
    ensures CartPageTotals(shop, carrier, token, v, items, None).value.discounted == ShownSubtotal(v, items)
  {
    NoCouponNoDiscount(ShownSubtotal(v, items), None, shop.settings);
  }

  /** `view_cart`. */
  method ViewCart(session: Session, cache: TokenCache, shop: Shop, carrier: Carrier, v: Visitor) returns (r: Result<Totals, string>)
    modifies session, cache
    ensures var items := ReadItems(old(session.Lines()), shop.products, VariantMap(shop.variants));
            var token := TokenStep(old(cache.token), old(cache.expiry), carrier.now, carrier.login);
            r == CartPageTotals(shop, carrier, token.2, v, items, old(session.Coupon()))
            && (if r.Ok? && AsksCarrier(carrier, DropPin(v), r.value.discounted, shop.settings)
                then cache.token == token.0 && cache.expiry == token.1
                else cache.token == old(cache.token) && cache.expiry == old(cache.expiry))
    ensures session.Lines() == old(session.Lines())
    ensures session.coupon == old(session.coupon) && session.buyNow == old(session.buyNow)
    ensures session.selected == old(session.selected) && session.lastVariant == old(session.lastVariant)
  {
    var items: seq<SessionItem> := [];
    if !(v.SignedIn? && v.cart.Some?) {
      items := session.GetItems(shop.products, VariantMap(shop.variants));
    }
    ghost var allItems := ReadItems(old(session.Lines()), shop.products, VariantMap(shop.variants));
    assert ShownSubtotal(v, items) == ShownSubtotal(v, allItems) && ShownUnits(v, items) == ShownUnits(v, allItems);
    var coupon := ResolveCoupon(shop.coupons, session.Coupon(), shop.today);
    if coupon.Err? {
      return Err(coupon.error);
    }
    var sub := ShownSubtotal(v, items);
    var pct := DiscountPercent(coupon.value);
    var discounted := Discounted(sub, Discount(sub, pct));
    var est: Option<Dec> := None;
    if discounted < shop.settings.freeThresholdRupees * 100 {
      var pin := DropPin(v);
      if pin.Some? {
        var box := Measure(ParcelLinesOf(DbItems(v)), carrier.cfg.defaults);
        est := EstimateShipping(cache, carrier.cfg, carrier.now, carrier.login, carrier.serviceability,
                                pin.value, OrOne(ShownUnits(v, items)), false, Some(discounted),
                                Some(box.weightG), Some((box.lengthCm, box.breadthCm, box.heightCm)));
      }
    }
    return Ok(CartTotals(sub, pct, est, shop.settings));
  }

  // ---------------------------------------------------------------------
  // Adding to the cart

  /** `get_object_or_404(Product, id=..., is_active=True)`. */
  function ActiveProduct(shop: Shop, id: int): (r: Option<Product>)
    ensures r.Some? <==> id in shop.products && shop.products[id].isActive
    ensures r.Some? ==> r.value == shop.products[id]
  {
    if id in shop.products && shop.products[id].isActive then Some(shop.products[id]) else None
  }

  /** The product's variants, in table order. */
  function VariantsOf(vs: seq<Variant>, productId: int): (r: seq<Variant>)
    ensures forall x :: x in r ==> x in vs && x.productId == productId
  {
    Filter(vs, (x: Variant) => x.productId == productId)
  }

  /** The variant `add_to_cart` uses: none for a product without variants,
      otherwise the one with the posted size and colour (`Err` is the 404
      when none has them). */
  function PickVariant(vs: seq<Variant>, product: Product, size: Option<string>, color: Option<string>): (r: Result<Option<Variant>, string>)
    ensures r.Ok? && r.value.None? <==> VariantsOf(vs, product.id) == []
    ensures r.Ok? && r.value.Some? ==>
              r.value.value in vs && r.value.value.productId == product.id
              && size == Some(r.value.value.size) && color == Some(r.value.value.color)
    ensures VariantsOf(vs, product.id) != [] && (forall x :: x in VariantsOf(vs, product.id) ==> size != Some(x.size) || color != Some(x.color)) ==> r == Err("Http404")
  {
    var own := VariantsOf(vs, product.id);
    if own == [] then Ok(None)
    else
      var p := (x: Variant) => size == Some(x.size) && color == Some(x.color);
      match LookupBy(own, p)
      case Missing => Err("Http404")
      case Many => Err("MultipleObjectsReturned")
      case One(x) => Ok(Some(x))
  }

  function VariantId(v: Option<Variant>): Option<int>
  {
    if v.Some? then Some(v.value.id) else None
  }

  /** What `add_to_cart` settles before touching any state: the product,
      its variant and the quantity (`int(POST quantity)`, 1 when absent). */
  function AddPlan(shop: Shop, productId: int, form: map<string, string>): (r: Result<(Product, Option<Variant>, int), string>)
    ensures r.Ok? ==> ActiveProduct(shop, productId) == Some(r.value.0)
    ensures r.Ok? ==> PickVariant(shop.variants, r.value.0, Param(form, "size"), Param(form, "color")) == Ok(r.value.1)
    ensures r.Ok? ==> IntParam(form, "quantity", 1) == Some(r.value.2)
    ensures ActiveProduct(shop, productId).None? ==> r == Err("Http404")
  {
    match ActiveProduct(shop, productId)
    case None => Err("Http404")
    case Some(product) =>
      match PickVariant(shop.variants, product, Param(form, "size"), Param(form, "color"))
      case Err(e) => Err(e)
      case Ok(variant) =>
        match IntParam(form, "quantity", 1)
        case None => Err("ValueError")
        case Some(qty) => Ok((product, variant, qty))
  }

  /** `_get_user_cart`: the user's cart, created when missing. */
  function CartOrNew(c: Option<DbCart>, newCartId: int): (r: DbCart)
    ensures c.Some? ==> r == c.value
    ensures c.None? ==> r == DbCart(newCartId, [])
  {
    if c.Some? then c.value else DbCart(newCartId, [])
  }

  /** `add_to_cart`: the redirect target, or the error, and the user's cart
      afterwards.  Buy-now stores the single pending line and leaves every
      cart alone; otherwise a signed-in user's database cart, or else the
      session cart, receives the quantity, and the variant is remembered. */
  method AddToCart(session: Session, shop: Shop, v: Visitor, newCartId: int, newItemId: int, productId: int, form: map<string, string>)
    returns (r: Result<string, string>, cart: Option<DbCart>)
    modifies session
    ensures AddPlan(shop, productId, form).Err? ==>
              r == Err(AddPlan(shop, productId, form).error) && cart == (if v.SignedIn? then v.cart else None)
              && session.cart == old(session.cart) && session.buyNow == old(session.buyNow) && session.lastVariant == old(session.lastVariant)
    ensures AddPlan(shop, productId, form).Ok? && Param(form, "buy_now") == Some("1") ==>
              var (product, variant, qty) := AddPlan(shop, productId, form).value;
              r == Ok("checkout") && session.buyNow == Some(BuyNow(product.id, VariantId(variant), qty))
              && cart == (if v.SignedIn? then v.cart else None)
              && session.cart == old(session.cart) && session.lastVariant == old(session.lastVariant)
    ensures AddPlan(shop, productId, form).Ok? && Param(form, "buy_now") != Some("1") && v.SignedIn? ==>
              var (product, variant, qty) := AddPlan(shop, productId, form).value;
              var c := CartOrNew(v.cart, newCartId);
              var (rows, ok) := AddToDbCart(c.items, c.id, newItemId, product, variant, qty);
              cart == Some(DbCart(c.id, rows)) && session.cart == old(session.cart) && session.buyNow == old(session.buyNow)
              && (ok ==> r == Ok("view_cart") && session.lastVariant == old(session.lastVariant)[IntToString(product.id) := VariantId(variant)])
              && (!ok ==> r == Err(AddFailure(c.items, c.id, product, variant)) && session.lastVariant == old(session.lastVariant))
    ensures AddPlan(shop, productId, form).Ok? && Param(form, "buy_now") != Some("1") && v.Anonymous? ==>
              var (product, variant, qty) := AddPlan(shop, productId, form).value;
              r == Ok("view_cart") && cart.None? && session.buyNow == old(session.buyNow)
              && session.cart == Some(AddLines(old(session.Lines()), product.id, VariantId(variant), qty))
              && session.lastVariant == old(session.lastVariant)[IntToString(product.id) := VariantId(variant)]
    ensures session.coupon == old(session.coupon) && session.selected == old(session.selected)
  {
    cart := if v.SignedIn? then v.cart else None;
    var plan := AddPlan(shop, productId, form);
    if plan.Err? {
      return Err(plan.error), cart;
    }
    var (product, variant, qty) := plan.value;
    if Param(form, "buy_now") == Some("1") {
      session.SetBuyNow(Some(BuyNow(product.id, VariantId(variant), qty)));
      return Ok("checkout"), cart;
    }
    if v.SignedIn? {
      var c := CartOrNew(v.cart, newCartId);
      var (rows, ok) := AddToDbCart(c.items, c.id, newItemId, product, variant, qty);
      cart := Some(DbCart(c.id, rows));
      if !ok {
        return Err(AddFailure(c.items, c.id, product, variant)), cart;
      }
    } else {
      session.AddItem(product.id, VariantId(variant), qty);
    }
    session.RememberVariant(IntToString(product.id), VariantId(variant));
    r := Ok("view_cart");
  }

  // ---------------------------------------------------------------------
  // Changing and removing a line

  /** What the AJAX responses of `update_cart_item` and `remove_cart_item`
      carry: the product and variant of the changed line, its line total
      (zero when the response reports none), the cart totals and the
      number of units in the cart. */
  datatype CartReply = CartReply(pid: int, vid: Option<int>, itemTotal: int, totals: Totals, count: int)

  /** The visitor with their cart row replaced. */
  function WithCart(v: Visitor, c: Option<DbCart>): (r: Visitor)
    ensures v.Anonymous? ==> r == Anonymous
    ensures v.SignedIn? ==> r == SignedIn(v.user, c, v.addresses)
  {
    if v.SignedIn? then v.(cart := c) else v
  }

  /** The cart row a visitor starts a request with (`None` for anonymous
      visitors). */
  function CartOf(v: Visitor): Option<DbCart>
  {
    if v.SignedIn? then v.cart else None
  }

  /** The row of the signed-in user's own cart with the given id. */
  function OwnRow(v: Visitor, itemId: int): (r: Option<nat>)
    ensures r.Some? ==> v.SignedIn? && v.cart.Some? && r.value < |v.cart.value.items| && v.cart.value.items[r.value].id == itemId
    ensures r.None? && v.SignedIn? && v.cart.Some? ==> forall j :: 0 <= j < |v.cart.value.items| ==> v.cart.value.items[j].id != itemId
  {
    if v.SignedIn? && v.cart.Some? then FindById(v.cart.value.items, itemId) else None
  }

  /** The PIN `update_cart_item` estimates to: the cart page's, but only for
      a user who has a cart row. */
  function UpdatePin(v: Visitor): (r: Option<string>)
    ensures v.SignedIn? && v.cart.Some? ==> r == DropPin(v)
    ensures !(v.SignedIn? && v.cart.Some?) ==> r.None?
  {
    if v.SignedIn? && v.cart.Some? then DropPin(v) else None
  }

  /** The totals after `update_cart_item`'s change, given the token the
      carrier fetch yields: no coupon applies, and only a user with a cart
      row and an address is quoted a carrier rate. */
  function ChangedTotals(carrier: Carrier, token: Option<Json>, v: Visitor, sessionItems: seq<SessionItem>, s: Settings): (r: Totals)
    ensures r.subtotal == ShownSubtotal(v, sessionItems) && r.discount == 0 && r.discounted == r.subtotal
    ensures r.gst == Gst(r.subtotal, s) && r.total == r.subtotal + r.gst + r.shipping
    ensures r.subtotal >= s.freeThresholdRupees * 100 ==> r.shipping == 0
    ensures !AsksCarrier(carrier, UpdatePin(v), r.subtotal, s) ==> r == PlainTotals(r.subtotal, None, s)
  {
    var sub := ShownSubtotal(v, sessionItems);
    PlainTotals(sub, CartEstimate(carrier, token, UpdatePin(v), DbItems(v), sub, ShownUnits(v, sessionItems), s), s)
  }

  /** An anonymous visitor's totals after a change use the flat rate below
      the threshold. */
  lemma AnonymousChangePaysFlat(carrier: Carrier, token: Option<Json>, items: seq<SessionItem>, s: Settings)
    ensures var t := ChangedTotals(carrier, token, Anonymous, items, s);
            t.shipping == (if t.subtotal >= s.freeThresholdRupees * 100 then 0 else s.flatRupees * 100)
  {
  }

  /** The rows with one row's quantity set. */
  function SetQuantity(items: seq<CartItem>, i: nat, q: nat): (r: seq<CartItem>)
    requires i < |items|
    ensures |r| == |items| && r[i].quantity == q
    ensures r[i].id == items[i].id && ItemKey(r[i]) == ItemKey(items[i])
    ensures forall j :: 0 <= j < |items| && j != i ==> r[j] == items[j]
  {
    items[i := items[i].(quantity := q)]
  }

  /** Setting a quantity changes no key, so keys stay unique. */
  lemma SetQuantityKeepsUnique(items: seq<CartItem>, i: nat, q: nat)
    requires ItemsUnique(items) && i < |items|
    ensures ItemsUnique(SetQuantity(items, i, q))
  {
    var r := SetQuantity(items, i, q);
    forall a, b | 0 <= a < b < |r| ensures ItemKey(r[a]) != ItemKey(r[b])
    {
      assert ItemKey(r[a]) == ItemKey(items[a]) && ItemKey(r[b]) == ItemKey(items[b]);
    }
  }

  /** `int(request.POST.get("product_id"))` and the variant id beside it:
      a missing product id is the `TypeError` of `int(None)`. */
  function PostedLine(form: map<string, string>): (r: Result<(int, Option<int>), string>)
    ensures "product_id" !in form ==> r == Err("TypeError")
    ensures r.Ok? ==> "product_id" in form && ParseInt(form["product_id"]) == Some(r.value.0)
                      && VariantParam(Param(form, "variant_id")) == Ok(r.value.1)
    ensures "product_id" in form && ParseInt(form["product_id"]).Some? && VariantParam(Param(form, "variant_id")).Ok? ==> r.Ok?
  {
    if "product_id" !in form then Err("TypeError")
    else match ParseInt(form["product_id"])
      case None => Err("ValueError")
      case Some(pid) =>
        match VariantParam(Param(form, "variant_id"))
        case Err(e) => Err(e)
        case Ok(vid) => Ok((pid, vid))
  }

  /** The totals and unit count `update_cart_item` reports for the cart
      as the change left it, fetching a carrier rate when one is asked for. */
  method ChangedReply(session: Session, cache: TokenCache, shop: Shop, carrier: Carrier, v: Visitor)
    returns (totals: Totals, count: int)
    modifies session, cache
    ensures var items := if v.SignedIn? && v.cart.Some? then [] else ReadItems(old(session.Lines()), shop.products, VariantMap(shop.variants));
            var step := TokenStep(old(cache.token), old(cache.expiry), carrier.now, carrier.login);
            totals == ChangedTotals(carrier, step.2, v, items, shop.settings) && count == ShownUnits(v, items)
            && (if AsksCarrier(carrier, UpdatePin(v), totals.subtotal, shop.settings)
                then cache.token == step.0 && cache.expiry == step.1
                else cache.token == old(cache.token) && cache.expiry == old(cache.expiry))
    ensures session.Lines() == old(session.Lines())
    ensures session.coupon == old(session.coupon) && session.buyNow == old(session.buyNow)
    ensures session.selected == old(session.selected) && session.lastVariant == old(session.lastVariant)
  {
    var items: seq<SessionItem> := [];
    if !(v.SignedIn? && v.cart.Some?) {
      items := session.GetItems(shop.products, VariantMap(shop.variants));
    }
    var sub := ShownSubtotal(v, items);
    var est: Option<Dec> := None;
    var pin := UpdatePin(v);
    if sub < shop.settings.freeThresholdRupees * 100 && pin.Some? {
      var box := Measure(ParcelLinesOf(DbItems(v)), carrier.cfg.defaults);
      est := EstimateShipping(cache, carrier.cfg, carrier.now, carrier.login, carrier.serviceability,
                              pin.value, OrOne(ShownUnits(v, items)), false, Some(sub),
                              Some(box.weightG), Some((box.lengthCm, box.breadthCm, box.heightCm)));
    }
    totals, count := PlainTotals(sub, est, shop.settings), ShownUnits(v, items);
  }

  /** `update_cart_item` on a line of the session cart: the posted product
      and variant get quantity `q`, and the product must exist for the
      line total (the session change is kept either way). */
  method UpdateSessionLine(session: Session, shop: Shop, form: map<string, string>, q: int)
    returns (r: Result<(int, Option<int>, int), string>)
    modifies session
    ensures PostedLine(form).Err? ==> r == Err(PostedLine(form).error) && session.Lines() == old(session.Lines())
    ensures PostedLine(form).Ok? ==>
              var (pid, vid) := PostedLine(form).value;
              session.Lines() == UpdateLines(old(session.Lines()), pid, vid, q)
              && (pid !in shop.products ==> r == Err("Http404"))
              && (pid in shop.products ==> r == Ok((pid, vid, Price(shop.products[pid]) * q)))
    ensures session.coupon == old(session.coupon) && session.buyNow == old(session.buyNow)
    ensures session.selected == old(session.selected) && session.lastVariant == old(session.lastVariant)
  {
    var posted := PostedLine(form);
    if posted.Err? {
      return Err(posted.error);
    }
    var (pid, vid) := posted.value;
    session.UpdateItem(pid, vid, q);
    if pid !in shop.products {
      return Err("Http404");
    }
    r := Ok((pid, vid, Price(shop.products[pid]) * q));
  }

  /** `update_cart_item`: the quantity, at least 1, goes to the user's own
      row when the id names one, and otherwise to the session line the form
      names; the reply carries the new totals. */
  method UpdateCartItem(session: Session, cache: TokenCache, shop: Shop, carrier: Carrier, v: Visitor, itemId: int, form: map<string, string>)
    returns (r: Result<CartReply, string>, cart: Option<DbCart>)
    modifies session, cache
    ensures IntParam(form, "quantity", 1).None? ==> r == Err("ValueError")
    ensures IntParam(form, "quantity", 1).None? || OwnRow(v, itemId).Some? ==> session.Lines() == old(session.Lines())
    ensures IntParam(form, "quantity", 1).Some? && OwnRow(v, itemId).Some? ==>
              var q := Max(1, IntParam(form, "quantity", 1).value);
              var c := v.cart.value;
              var i := OwnRow(v, itemId).value;
              cart == Some(DbCart(c.id, SetQuantity(c.items, i, q)))
              && r.Ok? && r.value.pid == c.items[i].product.id && r.value.vid == VariantId(c.items[i].variant)
              && r.value.itemTotal == Price(c.items[i].product) * q
              && r.value.count == Units(cart.value.items)
              && r.value.totals == ChangedTotals(carrier, TokenStep(old(cache.token), old(cache.expiry), carrier.now, carrier.login).2, WithCart(v, cart), [], shop.settings)
    ensures OwnRow(v, itemId).None? ==> cart == CartOf(v)
    ensures IntParam(form, "quantity", 1).Some? && OwnRow(v, itemId).None? ==>
              var q := Max(1, IntParam(form, "quantity", 1).value);
              (PostedLine(form).Err? ==> r == Err(PostedLine(form).error) && session.Lines() == old(session.Lines()))
              && (PostedLine(form).Ok? ==>
                    var (pid, vid) := PostedLine(form).value;
                    session.Lines() == UpdateLines(old(session.Lines()), pid, vid, q)
                    && (pid !in shop.products ==> r == Err("Http404"))
                    && (pid in shop.products ==>
                          var items := ReadItems(session.Lines(), shop.products, VariantMap(shop.variants));
                          r.Ok? && r.value.pid == pid && r.value.vid == vid && r.value.itemTotal == Price(shop.products[pid]) * q
                          && r.value.count == ShownUnits(v, items)
                          && r.value.totals == ChangedTotals(carrier, TokenStep(old(cache.token), old(cache.expiry), carrier.now, carrier.login).2, v, items, shop.settings)))
    ensures var step := TokenStep(old(cache.token), old(cache.expiry), carrier.now, carrier.login);
            if r.Ok? && AsksCarrier(carrier, UpdatePin(WithCart(v, cart)), r.value.totals.subtotal, shop.settings)
            then cache.token == step.0 && cache.expiry == step.1
            else cache.token == old(cache.token) && cache.expiry == old(cache.expiry)
    ensures session.coupon == old(session.coupon) && session.buyNow == old(session.buyNow)
    ensures session.selected == old(session.selected) && session.lastVariant == old(session.lastVariant)
  {
    cart := CartOf(v);
    var qp := IntParam(form, "quantity", 1);
    if qp.None? {
      return Err("ValueError"), cart;
    }
    var q := Max(1, qp.value);
    var pid: int, vid: Option<int>, itemTotal: int;
    var row := OwnRow(v, itemId);
    if row.Some? {
      var c := v.cart.value;
      var i := row.value;
      cart := Some(DbCart(c.id, SetQuantity(c.items, i, q)));
      pid, vid, itemTotal := c.items[i].product.id, VariantId(c.items[i].variant), Price(c.items[i].product) * q;
    } else {
      var line := UpdateSessionLine(session, shop, form, q);
      if line.Err? {
        return Err(line.error), cart;
      }
      pid, vid, itemTotal := line.value.0, line.value.1, line.value.2;
    }
    var totals, count := ChangedReply(session, cache, shop, carrier, WithCart(v, cart));
    r := Ok(CartReply(pid, vid, itemTotal, totals, count));
  }

  /** `a or b` on two optional texts: the empty text is falsy. */
  function OrText(a: Option<string>, b: Option<string>): (r: Option<string>)
    ensures a.Some? && a.value != "" ==> r == a
    ensures a.None? || a.value == "" ==> r == b
  {
    if a.Some? && a.value != "" then a else b
  }

  /** The product and variant `remove_cart_item` reads from the request:
      the query's product id, or the form's when the query's is absent or
      zero, for GET and POST requests (0 for any other method), and the
      query's variant id, or else the form's. */
  function RemoveTarget(verb: string, query: map<string, string>, form: map<string, string>): (r: Result<(int, Option<int>), string>)
    ensures verb != "GET" && verb != "POST" ==> r.Err? || r.value.0 == 0
    ensures r.Ok? ==> VariantParam(OrText(Param(query, "variant_id"), Param(form, "variant_id"))) == Ok(r.value.1)
    ensures r.Ok? && (verb == "GET" || verb == "POST") && IntParam(query, "product_id", 0) != Some(0) ==>
              IntParam(query, "product_id", 0) == Some(r.value.0)
    ensures r.Ok? && (verb == "GET" || verb == "POST") && IntParam(query, "product_id", 0) == Some(0) ==>
              IntParam(form, "product_id", 0) == Some(r.value.0)
  {
    var pid :=
      if verb == "POST" || verb == "GET" then
        match IntParam(query, "product_id", 0)
        case None => None
        case Some(a) => if a != 0 then Some(a) else IntParam(form, "product_id", 0)
      else Some(0);
    match pid
    case None => Err("ValueError")
    case Some(p) =>
      match VariantParam(OrText(Param(query, "variant_id"), Param(form, "variant_id")))
      case Err(e) => Err(e)
      case Ok(vid) => Ok((p, vid))
  }

  /** The totals `remove_cart_item` reports: never a carrier rate. */
  function RemovedTotals(v: Visitor, sessionItems: seq<SessionItem>, s: Settings): (r: Totals)
    ensures r.subtotal == ShownSubtotal(v, sessionItems) && r.discount == 0
    ensures r.total == r.subtotal + r.gst + r.shipping
    ensures r.shipping == (if r.subtotal >= s.freeThresholdRupees * 100 then 0 else s.flatRupees * 100)
  {
    PlainTotals(ShownSubtotal(v, sessionItems), None, s)
  }

  /** Removing reports what updating would report for the same cart
      whenever updating would not ask the carrier. */
  lemma RemovedIsChangedWithoutCarrier(carrier: Carrier, token: Option<Json>, v: Visitor, items: seq<SessionItem>, s: Settings)
    requires !AsksCarrier(carrier, UpdatePin(v), ShownSubtotal(v, items), s)
    ensures RemovedTotals(v, items, s) == ChangedTotals(carrier, token, v, items, s)
  {
  }

  /** `remove_cart_item`: deletes the user's own row when the id names one,
      otherwise the session line the request names. */
  method RemoveCartItem(session: Session, shop: Shop, v: Visitor, verb: string, itemId: int, query: map<string, string>, form: map<string, string>)
    returns (r: Result<CartReply, string>, cart: Option<DbCart>)
    modifies session
    ensures RemoveTarget(verb, query, form).Err? ==>
              r == Err(RemoveTarget(verb, query, form).error) && cart == CartOf(v) && session.Lines() == old(session.Lines())
    ensures RemoveTarget(verb, query, form).Ok? && OwnRow(v, itemId).Some? ==>
              var c := v.cart.value;
              var i := OwnRow(v, itemId).value;
              cart == Some(DbCart(c.id, DeleteAt(c.items, i))) && session.Lines() == old(session.Lines())
              && r == Ok(CartReply(c.items[i].product.id, VariantId(c.items[i].variant), 0,
                                   RemovedTotals(WithCart(v, cart), [], shop.settings), Units(cart.value.items)))
    ensures RemoveTarget(verb, query, form).Ok? && OwnRow(v, itemId).None? ==>
              var (pid, vid) := RemoveTarget(verb, query, form).value;
              var items := if v.SignedIn? && v.cart.Some? then [] else ReadItems(session.Lines(), shop.products, VariantMap(shop.variants));
              cart == CartOf(v) && session.Lines() == RemoveLines(old(session.Lines()), pid, vid)
              && r == Ok(CartReply(pid, vid, 0, RemovedTotals(v, items, shop.settings), ShownUnits(v, items)))
    ensures session.coupon == old(session.coupon) && session.buyNow == old(session.buyNow)
    ensures session.selected == old(session.selected) && session.lastVariant == old(session.lastVariant)
  {
    cart := CartOf(v);
    var target := RemoveTarget(verb, query, form);
    if target.Err? {
      return Err(target.error), cart;
    }
    var (pid, vid) := target.value;
    var row := OwnRow(v, itemId);
    if row.Some? {
      var c := v.cart.value;
      var i := row.value;
      pid, vid := c.items[i].product.id, VariantId(c.items[i].variant);
      cart := Some(DbCart(c.id, DeleteAt(c.items, i)));
    } else {
      session.RemoveItem(pid, vid);
    }
    var after := WithCart(v, cart);
    var items: seq<SessionItem> := [];
    if !(after.SignedIn? && after.cart.Some?) {
      items := session.GetItems(shop.products, VariantMap(shop.variants));
    }
    r := Ok(CartReply(pid, vid, 0, RemovedTotals(after, items, shop.settings), ShownUnits(after, items)));
  }

  // ---------------------------------------------------------------------
  // Saved for later

  /** `int(request.GET.get("product_id"))`, with any failure read as 0. */
  function QueryPid(query: map<string, string>): (r: int)
    ensures "product_id" in query && ParseInt(query["product_id"]).Some? ==> r == ParseInt(query["product_id"]).value
    ensures "product_id" !in query || ParseInt(query["product_id"]).None? ==> r == 0
  {
    if "product_id" in query && ParseInt(query["product_id"]).Some? then ParseInt(query["product_id"]).value else 0
  }

  /** `save_for_later`: for a signed-in user, the line moves to the
      wishlist (a product that no longer exists is only dropped from the
      session cart) and its variant is remembered; anonymous visitors
      change nothing.  The results are the new wishlist and cart row. */
  method SaveForLater(session: Session, shop: Shop, v: Visitor, wishlist: seq<WishlistItem>, itemId: int, query: map<string, string>)
    returns (r: Result<string, string>, saved: seq<WishlistItem>, cart: Option<DbCart>)
    modifies session
    ensures v.Anonymous? ==> r == Ok("view_cart") && saved == wishlist && cart.None?
                             && session.Lines() == old(session.Lines()) && session.lastVariant == old(session.lastVariant)
    ensures OwnRow(v, itemId).Some? ==>
              var c := v.cart.value;
              var it := c.items[OwnRow(v, itemId).value];
              r == Ok("view_cart") && saved == WishlistAdd(wishlist, v.user.id, it.product.id)
              && cart == Some(DbCart(c.id, DeleteAt(c.items, OwnRow(v, itemId).value)))
              && session.Lines() == old(session.Lines())
              && session.lastVariant == old(session.lastVariant)[IntToString(it.product.id) := VariantId(it.variant)]
    ensures v.SignedIn? && OwnRow(v, itemId).None? ==>
              var pid := QueryPid(query);
              var vid := VariantParam(Param(query, "variant_id"));
              cart == v.cart
              && (vid.Err? ==>
                    r == Err(vid.error) && saved == wishlist
                    && session.Lines() == old(session.Lines()) && session.lastVariant == old(session.lastVariant))
              && (vid.Ok? && pid == 0 ==>
                    r == Ok("view_cart") && saved == wishlist
                    && session.Lines() == old(session.Lines()) && session.lastVariant == old(session.lastVariant))
              && (vid.Ok? && pid != 0 ==>
                    r == Ok("view_cart")
                    && saved == (if pid in shop.products then WishlistAdd(wishlist, v.user.id, pid) else wishlist)
                    && session.Lines() == RemoveLines(old(session.Lines()), pid, vid.value)
                    && session.lastVariant == old(session.lastVariant)[IntToString(pid) := vid.value])
    ensures session.coupon == old(session.coupon) && session.buyNow == old(session.buyNow) && session.selected == old(session.selected)
  {
    saved, cart := wishlist, CartOf(v);
    if v.Anonymous? {
      return Ok("view_cart"), saved, cart;
    }
    var row := OwnRow(v, itemId);
    if row.Some? {
      var c := v.cart.value;
      var it := c.items[row.value];
      saved := WishlistAdd(wishlist, v.user.id, it.product.id);
      session.RememberVariant(IntToString(it.product.id), VariantId(it.variant));
      cart := Some(DbCart(c.id, DeleteAt(c.items, row.value)));
      return Ok("view_cart"), saved, cart;
    }
    var pid := QueryPid(query);
    var vid := VariantParam(Param(query, "variant_id"));
    if vid.Err? {
      return Err(vid.error), saved, cart;
    }
    if pid != 0 {
      if pid in shop.products {
        saved := WishlistAdd(wishlist, v.user.id, pid);
      }
      session.RemoveItem(pid, vid.value);
      session.RememberVariant(IntToString(pid), vid.value);
    }
    r := Ok("view_cart");
  }

  /** The variant `move_saved_to_cart` restores from the remembered choice:
      the product's variant with the remembered id, or none when nothing,
      nothing useful (`None`, 0) or a foreign id was remembered. */
  function RememberedVariant(vs: seq<Variant>, lastVariant: map<string, Option<int>>, productId: int): (r: Option<Variant>)
    ensures r.Some? ==> r.value in vs && r.value.productId == productId
                        && IntToString(productId) in lastVariant && lastVariant[IntToString(productId)] == Some(r.value.id)
    ensures IntToString(productId) !in lastVariant || lastVariant[IntToString(productId)] in {None, Some(0)} ==> r.None?
  {
    var key := IntToString(productId);
    if key !in lastVariant || lastVariant[key].None? || lastVariant[key] == Some(0) then None
    else
      var hits := Filter(vs, (x: Variant) => x.id == lastVariant[key].value && x.productId == productId);
      if hits == [] then None else Some(hits[0])
  }

  /** `move_saved_to_cart`: takes the product off the wishlist and adds one
      unit of it, with the remembered variant when it has variants; with no
      usable remembered variant the visitor is sent to the product page
      instead, the wishlist entry already gone.  When two rows share the key
      (possible only without a variant) `get_or_create` raises, a server
      error, again after the wishlist entry is gone. */
  method MoveSavedToCart(session: Session, shop: Shop, v: Visitor, wishlist: seq<WishlistItem>, newCartId: int, newItemId: int, productId: int)
    returns (r: Result<string, string>, saved: seq<WishlistItem>, cart: Option<DbCart>)
    ensures v.Anonymous? ==> r == Ok("view_cart") && saved == wishlist && cart.None?
    ensures v.SignedIn? && ActiveProduct(shop, productId).None? ==> r == Err("Http404") && saved == wishlist && cart == v.cart
    ensures v.SignedIn? && ActiveProduct(shop, productId).Some? ==>
              var product := ActiveProduct(shop, productId).value;
              var hasVariants := VariantsOf(shop.variants, product.id) != [];
              var variant := RememberedVariant(shop.variants, session.lastVariant, product.id);
              saved == WishlistRemove(wishlist, v.user.id, product.id)
              && (hasVariants && variant.None? ==> r == Ok("product_detail") && cart == v.cart)
              && (!(hasVariants && variant.None?) ==>
                    var c := CartOrNew(v.cart, newCartId);
                    var chosen := if hasVariants then variant else None;
                    var (rows, ok) := AddToDbCart(c.items, c.id, newItemId, product, chosen, 1);
                    cart == Some(DbCart(c.id, rows))
                    && (ok ==> r == Ok("view_cart"))
                    && (!ok ==> r == Err("MultipleObjectsReturned")))
  {
    saved, cart := wishlist, CartOf(v);
    if v.Anonymous? {
      return Ok("view_cart"), saved, cart;
    }
    var found := ActiveProduct(shop, productId);
    if found.None? {
      return Err("Http404"), saved, cart;
    }
    var product := found.value;
    saved := WishlistRemove(wishlist, v.user.id, product.id);
    var variant: Option<Variant> := None;
    if VariantsOf(shop.variants, product.id) != [] {
      variant := RememberedVariant(shop.variants, session.lastVariant, product.id);
      if variant.None? {
        return Ok("product_detail"), saved, cart;
      }
    }
    var c := CartOrNew(v.cart, newCartId);
    var (rows, ok) := AddToDbCart(c.items, c.id, newItemId, product, variant, 1);
    AddOneSucceeds(c.items, c.id, newItemId, product, variant);
    cart := Some(DbCart(c.id, rows));
    r := if ok then Ok("view_cart") else Err("MultipleObjectsReturned");
  }

  /** Adding one unit never fails on quantities that are never negative,
      unless two rows share the key; with unique keys it always succeeds. */
  lemma AddOneSucceeds(items: seq<CartItem>, cartId: int, newId: int, product: Product, variant: Option<Variant>)
    ensures !LookupBy(items, (it: CartItem) => ItemKey(it) == KeyOf(cartId, product, variant)).Many? ==>
              AddToDbCart(items, cartId, newId, product, variant, 1).1
  {
  }

  // ---------------------------------------------------------------------
  // Choosing lines for checkout

  /** One `sel` value the cart form posts: `db:<row id>` for a database
      row, `sv:<product id>:<variant id>` for a session line. */
  datatype Pick = DbPick(id: int) | SvPick(pid: int, vid: Option<int>)

  /** The variant part of an `sv:` value: empty, `0` and `None` mean no
      variant; anything else must be an integer (`None` when it is not). */
  function VariantToken(t: string): (r: Option<Option<int>>)
    ensures t == "" || t == "0" || t == "None" ==> r == Some(None)
    ensures t != "" && t != "0" && t != "None" ==> (r.Some? <==> ParseInt(t).Some?) && (r.Some? ==> r.value == ParseInt(t))
  {
    if t == "" || t == "0" || t == "None" then Some(None)
    else match ParseInt(t)
      case None => None
      case Some(n) => Some(Some(n))
  }

  /** How `checkout_selected` reads one value; `None` when it is skipped
      (an unknown prefix, a missing second colon, or an id that does not
      parse). */
  function ParsePick(t: string): (r: Option<Pick>)
    ensures r.Some? && r.value.DbPick? ==> StartsWith(t, "db:") && ParseInt(t[3..]) == Some(r.value.id)
    ensures StartsWith(t, "db:") && ParseInt(t[3..]).Some? ==> r == Some(DbPick(ParseInt(t[3..]).value))
    ensures r.Some? && r.value.SvPick? ==>
              StartsWith(t, "sv:") && IndexOf(t[3..], ':').Some?
              && var k := IndexOf(t[3..], ':').value;
                 ParseInt(t[3..][..k]) == Some(r.value.pid) && VariantToken(t[3..][k + 1..]) == Some(r.value.vid)
    ensures !StartsWith(t, "db:") && !StartsWith(t, "sv:") ==> r.None?
  {
    if StartsWith(t, "db:") then
      match ParseInt(t[3..])
      case None => None
      case Some(id) => Some(DbPick(id))
    else if StartsWith(t, "sv:") then
      var rest := t[3..];
      match IndexOf(rest, ':')
      case None => None
      case Some(k) =>
        match ParseInt(rest[..k])
        case None => None
        case Some(pid) =>
          match VariantToken(rest[k + 1..])
          case None => None
          case Some(vid) => Some(SvPick(pid, vid))
    else None
  }

  /** Decimal text never holds a colon. */
  lemma IntToStringHasNoColon(n: int)
    ensures forall i :: 0 <= i < |IntToString(n)| ==> IntToString(n)[i] != ':'
  {
    var m: nat := if n < 0 then -n else n;
    assert forall i :: 0 <= i < |NatToString(m)| ==> IsDigit(NatToString(m)[i]);
  }

  /** A `db:` value the cart page renders is read back as its row id. */
  lemma DbPickRoundTrip(id: int)
    ensures ParsePick("db:" + IntToString(id)) == Some(DbPick(id))
  {
    ParseIntOfIntToString(id);
    var t := "db:" + IntToString(id);
    assert t[..3] == "db:" && t[3..] == IntToString(id);
  }

  /** An `sv:` value for a line without a variant is read back as that
      line. */
  lemma SvPickRoundTripNone(pid: int)
    ensures ParsePick("sv:" + IntToString(pid) + ":" + "None") == Some(SvPick(pid, None))
  {
    IntToStringHasNoColon(pid);
    ParsePickOfSv(IntToString(pid), "None");
    assert VariantToken("None") == Some(None);
    ParseIntOfIntToString(pid);
  }

  /** An `sv:` value for a line with a variant is read back as that line. */
  lemma SvPickRoundTripSome(pid: int, vid: int)
    requires vid != 0
    ensures ParsePick("sv:" + IntToString(pid) + ":" + IntToString(vid)) == Some(SvPick(pid, Some(vid)))
  {
    ParseIntOfIntToString(pid);
    IntToStringHasNoColon(pid);
    VariantTokenOfId(vid);
    ParsePickOfSv(IntToString(pid), IntToString(vid));
  }

  lemma VariantTokenOfId(vid: int)
    requires vid != 0
    ensures VariantToken(IntToString(vid)) == Some(Some(vid))
  {
    ParseIntOfIntToString(vid);
  }

  /** `sv:` followed by a colon-free product part and a variant part reads
      as those two parts. */
  lemma ParsePickOfSv(p: string, v: string)
    requires forall i :: 0 <= i < |p| ==> p[i] != ':'
    ensures ParsePick("sv:" + p + ":" + v) ==
              if ParseInt(p).Some? && VariantToken(v).Some? then Some(SvPick(ParseInt(p).value, VariantToken(v).value)) else None
  {
    SvRoundTrip(p, v);
  }

  /** `"sv:" + p + ":" + v` splits back into `p` and `v` when `p` holds no
      colon. */
  lemma SvRoundTrip(p: string, v: string)
    requires forall i :: 0 <= i < |p| ==> p[i] != ':'
    ensures var t := "sv:" + p + ":" + v;
            StartsWith(t, "sv:") && !StartsWith(t, "db:")
            && IndexOf(t[3..], ':') == Some(|p|) && t[3..][..|p|] == p && t[3..][|p| + 1..] == v
  {
    var t := "sv:" + p + ":" + v;
    assert t[..3] == "sv:" && t[0] == 's';
    assert t[3..] == p + ":" + v;
    var rest := t[3..];
    assert rest[|p|] == ':';
    assert forall i :: 0 <= i < |p| ==> rest[i] == p[i];
    IndexOfFirst(rest, ':', |p|);
    assert rest[..|p|] == p;
    assert rest[|p| + 1..] == v;
  }

  lemma IndexOfFirst(s: string, c: char, k: nat)
    requires k < |s| && s[k] == c && forall i :: 0 <= i < k ==> s[i] != c
    ensures IndexOf(s, c) == Some(k)
  {
    var r := IndexOf(s, c);
    assert r.Some?;
  }

  /** The quantity a selected session line is checked out with: that of the
      first session item with its product and variant, 1 when there is
      none. */
  function SessionQty(items: seq<SessionItem>, pid: int, vid: Option<int>): (q: int)
    ensures (forall i :: 0 <= i < |items| ==> items[i].product.id != pid || VariantId(items[i].variant) != vid) ==> q == 1
    ensures (forall it :: it in items ==> it.quantity >= 1) ==> q >= 1
  {
    if items == [] then 1
    else if items[0].product.id == pid && VariantId(items[0].variant) == vid then items[0].quantity
    else SessionQty(items[1..], pid, vid)
  }

  /** The first matching item's quantity, the loop `checkout_selected`
      runs. */
  method FindQty(items: seq<SessionItem>, pid: int, vid: Option<int>) returns (q: int)
    ensures q == SessionQty(items, pid, vid)
  {
    q := 1;
    var i := 0;
    while i < |items|
      invariant 0 <= i <= |items|
      invariant SessionQty(items, pid, vid) == SessionQty(items[i..], pid, vid)
    {
      if items[i].product.id == pid && VariantId(items[i].variant) == vid {
        q := items[i].quantity;
        return;
      }
      assert items[i..][1..] == items[i + 1..];
      i := i + 1;
    }
  }

  /** What one posted value adds to the ids and session lines picked so
      far. */
  function PickStep(acc: (seq<int>, seq<SelectedLine>), t: string, items: seq<SessionItem>): (r: (seq<int>, seq<SelectedLine>))
    ensures ParsePick(t).None? ==> r == acc
    ensures ParsePick(t).Some? && ParsePick(t).value.DbPick? ==> r == (acc.0 + [ParsePick(t).value.id], acc.1)
    ensures ParsePick(t).Some? && ParsePick(t).value.SvPick? ==>
              var k := ParsePick(t).value;
              r == (acc.0, acc.1 + [SelectedLine(k.pid, k.vid, SessionQty(items, k.pid, k.vid))])
  {
    match ParsePick(t)
    case None => acc
    case Some(DbPick(id)) => (acc.0 + [id], acc.1)
    case Some(SvPick(pid, vid)) => (acc.0, acc.1 + [SelectedLine(pid, vid, SessionQty(items, pid, vid))])
  }

  /** The database ids and session lines checked out from the posted
      values, in the order they were posted. */
  function Picks(sels: seq<string>, items: seq<SessionItem>): (r: (seq<int>, seq<SelectedLine>))
    ensures |r.0| + |r.1| <= |sels|
  {
    if sels == [] then ([], []) else PickStep(Picks(sels[..|sels| - 1], items), sels[|sels| - 1], items)
  }

  lemma PicksSnoc(sels: seq<string>, i: nat, items: seq<SessionItem>)
    requires i < |sels|
    ensures Picks(sels[..i + 1], items) == PickStep(Picks(sels[..i], items), sels[i], items)
  {
    assert sels[..i + 1][..i] == sels[..i];
  }

  /** One turn of `checkout_selected`'s loop: a session line's quantity is
      looked up in the session items read afresh. */
  method TakePick(session: Session, shop: Shop, acc: (seq<int>, seq<SelectedLine>), t: string) returns (r: (seq<int>, seq<SelectedLine>))
    modifies session
    ensures r == PickStep(acc, t, ReadItems(old(session.Lines()), shop.products, VariantMap(shop.variants)))
    ensures session.Lines() == old(session.Lines())
    ensures session.coupon == old(session.coupon) && session.lastVariant == old(session.lastVariant)
    ensures session.selected == old(session.selected) && session.buyNow == old(session.buyNow)
  {
    r := acc;
    match ParsePick(t) {
      case None =>
      case Some(DbPick(id)) =>
        r := (acc.0 + [id], acc.1);
      case Some(SvPick(pid, vid)) =>
        var current := session.GetItems(shop.products, VariantMap(shop.variants));
        var qty := FindQty(current, pid, vid);
        r := (acc.0, acc.1 + [SelectedLine(pid, vid, qty)]);
    }
  }

  /** Every id picked came from a `db:` value, every session line from an
      `sv:` value, and each session line's quantity is at least 1 when the
      session items' are. */
  lemma {:induction false} PicksFromValues(sels: seq<string>, items: seq<SessionItem>)
    ensures forall id :: id in Picks(sels, items).0 ==> exists t :: t in sels && ParsePick(t) == Some(DbPick(id))
    ensures forall l :: l in Picks(sels, items).1 ==> exists t :: t in sels && ParsePick(t) == Some(SvPick(l.pid, l.vid))
    ensures (forall it :: it in items ==> it.quantity >= 1) ==> forall l :: l in Picks(sels, items).1 ==> l.qty >= 1
    decreases |sels|
  {
    if sels != [] {
      var init := sels[..|sels| - 1];
      PicksFromValues(init, items);
      assert forall t :: t in init ==> t in sels;
      assert sels[|sels| - 1] in sels;
    }
  }

  /** `checkout_selected`: a POST naming at least one readable line stores
      the selection for checkout and drops any pending buy-now line. */
  method CheckoutSelected(session: Session, shop: Shop, v: Visitor, verb: string, sels: seq<string>) returns (r: string)
    modifies session
    ensures verb != "POST" || sels == [] ==> r == "view_cart" && session.selected == old(session.selected) && session.buyNow == old(session.buyNow)
    ensures verb == "POST" && sels != [] ==>
              var p := Picks(sels, ReadItems(old(session.Lines()), shop.products, VariantMap(shop.variants)));
              (p.0 == [] && p.1 == [] ==> r == "view_cart" && session.selected == old(session.selected) && session.buyNow == old(session.buyNow))
              && (p.0 != [] || p.1 != [] ==> r == "checkout" && session.selected == Some(Selection(v.SignedIn?, p.0, p.1)) && session.buyNow.None?)
    ensures session.Lines() == old(session.Lines())
    ensures session.coupon == old(session.coupon) && session.lastVariant == old(session.lastVariant)
  {
    if verb != "POST" || sels == [] {
      return "view_cart";
    }
    ghost var items := ReadItems(session.Lines(), shop.products, VariantMap(shop.variants));
    var picked: (seq<int>, seq<SelectedLine>) := ([], []);
    var i := 0;
    while i < |sels|
      invariant 0 <= i <= |sels|
      invariant picked == Picks(sels[..i], items)
      invariant session.Lines() == old(session.Lines())
      invariant session.coupon == old(session.coupon) && session.lastVariant == old(session.lastVariant)
      invariant session.selected == old(session.selected) && session.buyNow == old(session.buyNow)
    {
      PicksSnoc(sels, i, items);
      picked := TakePick(session, shop, picked, sels[i]);
      i := i + 1;
    }
    assert sels[..i] == sels;
    var (dbIds, sv) := picked;
    if dbIds == [] && sv == [] {
      return "view_cart";
    }
    session.SetSelected(Selection(v.SignedIn?, dbIds, sv));
    session.SetBuyNow(None);
    r := "checkout";
  }

  // ---------------------------------------------------------------------
  // Coupons

  /** `apply_coupon`: a non-empty code (POST's, else the query's, trimmed)
      naming a coupon that is valid today is stored in the session in the
      coupon's own spelling; every other code leaves the session alone.
      `Err` is two coupons matching the code. */
  method ApplyCoupon(session: Session, shop: Shop, form: map<string, string>, query: map<string, string>) returns (r: Result<string, string>)
    modifies session
    ensures var code := Trim(Python, OrOrEmpty(Param(form, "coupon"), Param(query, "coupon")));
            (code != "" && FindByCode(shop.coupons, code).Many? ==> r == Err("MultipleObjectsReturned"))
            && (code != "" && FindByCode(shop.coupons, code).One? && IsValid(FindByCode(shop.coupons, code).row, shop.today) ==>
                  r == Ok("view_cart") && session.coupon == CodeDict(FindByCode(shop.coupons, code).row.code))
            && (code == "" || FindByCode(shop.coupons, code).Missing?
                || (FindByCode(shop.coupons, code).One? && !IsValid(FindByCode(shop.coupons, code).row, shop.today)) ==>
                  r == Ok("view_cart") && session.coupon == old(session.coupon))
    ensures session.cart == old(session.cart) && session.buyNow == old(session.buyNow)
    ensures session.selected == old(session.selected) && session.lastVariant == old(session.lastVariant)
  {
    var code := Trim(Python, OrOrEmpty(Param(form, "coupon"), Param(query, "coupon")));
    if code == "" {
      return Ok("view_cart");
    }
    match FindByCode(shop.coupons, code) {
      case Many =>
        return Err("MultipleObjectsReturned");
      case Missing =>
      case One(c) =>
        if IsValid(c, shop.today) {
          session.SetCoupon(c.code);
        }
    }
    r := Ok("view_cart");
  }

  /** `request.POST.get(k, "") or request.GET.get(k, "")`. */
  function OrOrEmpty(a: Option<string>, b: Option<string>): (r: string)
    ensures a.Some? && a.value != "" ==> r == a.value
    ensures (a.None? || a.value == "") && b.Some? ==> r == b.value
    ensures (a.None? || a.value == "") && b.None? ==> r == ""
  {
    if a.Some? && a.value != "" then a.value else if b.Some? then b.value else ""
  }

  /** A coupon applied from the form is the one the cart page then
      resolves from the stored code. */
  lemma AppliedCouponResolves(coupons: seq<Coupon>, code: string, today: int)
    requires code != ""
    requires FindByCode(coupons, code).One? && IsValid(FindByCode(coupons, code).row, today)
    ensures ResolveCoupon(coupons, Some(FindByCode(coupons, code).row.code), today) == Ok(Some(FindByCode(coupons, code).row))
  {
    var c := FindByCode(coupons, code).row;
    FindByCodeFolds(coupons, c.code, code);
    assert |c.code| == |Lower(c.code)| == |Lower(code)| == |code|;
  }

  /** `remove_coupon`. */
  method RemoveCoupon(session: Session) returns (r: string)
    modifies session
    ensures r == "view_cart" && session.Coupon() == None
    ensures session.cart == old(session.cart) && session.buyNow == old(session.buyNow)
    ensures session.selected == old(session.selected) && session.lastVariant == old(session.lastVariant)
  {
    session.ClearCoupon();
    r := "view_cart";
  }
}
