/** The anonymous visitor's cart, coupon and checkout scratch values, kept in
    the request session.  The session is an object whose entries the helpers
    update in place. */
module SessionCart {
  import opened Basics
  import opened CatalogModels
  import CartModels

  /** One `{"product_id", "variant_id", "quantity"}` dictionary of the
      session cart's `items` list. */
  datatype Line = Line(productId: int, variantId: Option<int>, quantity: int)

  /** What `session["coupon"]` holds: nothing, the `{"code": ...}` dictionary
      that `set_session_coupon` writes, or some other value. */
  datatype CouponEntry = NoCoupon | CodeDict(code: string) | NotADict

  /** `session["buy_now"]`, written by the buy-now button. */
  datatype BuyNow = BuyNow(productId: int, variantId: Option<int>, quantity: int)

  /** One `{"pid", "vid", "qty"}` entry of a checkout selection. */
  datatype SelectedLine = SelectedLine(pid: int, vid: Option<int>, qty: int)

  /** `session["checkout_selected"]`. */
  datatype Selection = Selection(auth: bool, dbIds: seq<int>, sv: seq<SelectedLine>)

  /** A session cart line read back with its product and variant. */
  datatype SessionItem = SessionItem(product: Product, variant: Option<Variant>, quantity: int)

  predicate Matches(l: Line, pid: int, vid: Option<int>)
  {
    l.productId == pid && l.variantId == vid
  }

  /** No two lines share a `(product_id, variant_id)` key. */
  predicate NoDupKeys(lines: seq<Line>)
  {
    forall i, j :: 0 <= i < j < |lines| ==> !Matches(lines[j], lines[i].productId, lines[i].variantId)
  }

  /** The first line with the key, as the helpers' `for ... return` finds it. */
  function FindLine(lines: seq<Line>, pid: int, vid: Option<int>): (r: Option<nat>)
    ensures r.Some? ==> r.value < |lines| && Matches(lines[r.value], pid, vid)
    ensures r.Some? ==> forall j :: 0 <= j < r.value ==> !Matches(lines[j], pid, vid)
    ensures r.None? <==> forall j :: 0 <= j < |lines| ==> !Matches(lines[j], pid, vid)
  {
    if lines == [] then None
    else if Matches(lines[0], pid, vid) then Some(0)
    else match FindLine(lines[1..], pid, vid)
      case None => None
      case Some(k) => Some(k + 1)
  }

  /** The lines `_get_session_cart` yields: a missing or item-less cart is
      reset to an empty one. */
  function LinesOf(cart: Option<seq<Line>>): seq<Line>
  {
    if cart.Some? then cart.value else []
  }

  /** `add_session_item`: the first line with the key has `q` added to its
      quantity; otherwise a new line is appended. */
  function AddLines(lines: seq<Line>, pid: int, vid: Option<int>, q: int): (r: seq<Line>)
    ensures FindLine(r, pid, vid).Some?
    ensures |r| == |lines| || r == lines + [Line(pid, vid, q)]
    ensures forall j :: 0 <= j < |lines| && !Matches(lines[j], pid, vid) ==> r[j] == lines[j]
  {
    match FindLine(lines, pid, vid)
    case Some(i) =>
      var r := lines[i := lines[i].(quantity := lines[i].quantity + q)];
      assert Matches(r[i], pid, vid);
      r
    case None =>
      var r := lines + [Line(pid, vid, q)];
      assert Matches(r[|lines|], pid, vid);
      r
  }

  /** `update_session_item`: the first line with the key gets quantity
      `max(1, q)`; without one nothing changes. */
  function UpdateLines(lines: seq<Line>, pid: int, vid: Option<int>, q: int): (r: seq<Line>)
    ensures |r| == |lines|
    ensures forall j :: 0 <= j < |lines| ==>
              r[j] == lines[j] || (Matches(lines[j], pid, vid) && r[j] == lines[j].(quantity := Max(1, q)))
  {
    match FindLine(lines, pid, vid)
    case Some(i) => lines[i := lines[i].(quantity := Max(1, q))]
    case None => lines
  }

  /** `remove_session_item`: the list without any line with the key. */
  function RemoveLines(lines: seq<Line>, pid: int, vid: Option<int>): (r: seq<Line>)
    ensures |r| <= |lines|
    ensures forall j :: 0 <= j < |r| ==> !Matches(r[j], pid, vid)
  {
    if lines == [] then []
    else RemoveLines(lines[..|lines| - 1], pid, vid)
         + (if Matches(lines[|lines| - 1], pid, vid) then [] else [lines[|lines| - 1]])
  }

  /** `get_session_items`, line by line: a line whose product is gone is
      skipped, a falsy variant id (none or 0) or an unknown one gives no
      variant, and the quantity is raised to at least 1. */
  function ReadLine(l: Line, products: map<int, Product>, variants: map<int, Variant>): Option<SessionItem>
  {
    if l.productId !in products then None
    else
      var variant := if l.variantId.Some? && l.variantId.value != 0 && l.variantId.value in variants
                     then Some(variants[l.variantId.value]) else None;
      Some(SessionItem(products[l.productId], variant, Max(1, l.quantity)))
  }

  function ReadItems(lines: seq<Line>, products: map<int, Product>, variants: map<int, Variant>): seq<SessionItem>
  {
    if lines == [] then []
    else
      var rest := ReadItems(lines[..|lines| - 1], products, variants);
      match ReadLine(lines[|lines| - 1], products, variants)
      case None => rest
      case Some(it) => rest + [it]
  }

  /** `get_session_coupon`: the stored code when the entry is the dictionary
      `set_session_coupon` writes, and nothing otherwise. */
  function CodeOf(e: CouponEntry): (r: Option<string>)
    ensures r.Some? <==> e.CodeDict?
    ensures r.Some? ==> r.value == e.code
  {
    if e.CodeDict? then Some(e.code) else None
  }

  // ---------------------------------------------------------------------
  // Properties of the specification functions

  /** Adding a key that already has a line raises that line's quantity by `q`
      and changes neither the length nor any other line. */
  lemma AddExisting(lines: seq<Line>, pid: int, vid: Option<int>, q: int, i: nat)
    requires i < |lines| && Matches(lines[i], pid, vid) && NoDupKeys(lines)
    ensures |AddLines(lines, pid, vid, q)| == |lines|
    ensures AddLines(lines, pid, vid, q)[i] == Line(pid, vid, lines[i].quantity + q)
    ensures forall j :: 0 <= j < |lines| && j != i ==> AddLines(lines, pid, vid, q)[j] == lines[j]
  {
    FirstMatch(lines, pid, vid, i);
  }

  /** Under the invariant, a line with the key is the one `FindLine`
      finds. */
  lemma FirstMatch(lines: seq<Line>, pid: int, vid: Option<int>, i: nat)
    requires i < |lines| && Matches(lines[i], pid, vid) && NoDupKeys(lines)
    ensures FindLine(lines, pid, vid) == Some(i)
  {
  }

  /** Adding an absent key appends exactly `{p, v, q}` at the end. */
  lemma AddAbsent(lines: seq<Line>, pid: int, vid: Option<int>, q: int)
    requires forall j :: 0 <= j < |lines| ==> !Matches(lines[j], pid, vid)
    ensures AddLines(lines, pid, vid, q) == lines + [Line(pid, vid, q)]
  {
  }

  lemma AddKeepsNoDupKeys(lines: seq<Line>, pid: int, vid: Option<int>, q: int)
    requires NoDupKeys(lines)
    ensures NoDupKeys(AddLines(lines, pid, vid, q))
  {
    var r := AddLines(lines, pid, vid, q);
    match FindLine(lines, pid, vid)
    case Some(i) =>
      forall a, b | 0 <= a < b < |r| ensures !Matches(r[b], r[a].productId, r[a].variantId) {
        assert Matches(r[a], lines[a].productId, lines[a].variantId);
        assert Matches(r[b], lines[b].productId, lines[b].variantId);
      }
    case None =>
  }

  /** Update sets the first matching line to `max(1, q)` and leaves the
      others alone; a missing key leaves the cart unchanged. */
  lemma UpdateEffect(lines: seq<Line>, pid: int, vid: Option<int>, q: int)
    ensures |UpdateLines(lines, pid, vid, q)| == |lines|
    ensures (forall j :: 0 <= j < |lines| ==> !Matches(lines[j], pid, vid)) ==> UpdateLines(lines, pid, vid, q) == lines
    ensures forall i :: 0 <= i < |lines| && Matches(lines[i], pid, vid) && NoDupKeys(lines) ==>
              UpdateLines(lines, pid, vid, q)[i] == Line(pid, vid, Max(1, q))
              && (forall j :: 0 <= j < |lines| && j != i ==> UpdateLines(lines, pid, vid, q)[j] == lines[j])
  {
    forall i | 0 <= i < |lines| && Matches(lines[i], pid, vid) && NoDupKeys(lines)
      ensures FindLine(lines, pid, vid) == Some(i)
    {
      FirstMatch(lines, pid, vid, i);
    }
  }

  lemma UpdateKeepsNoDupKeys(lines: seq<Line>, pid: int, vid: Option<int>, q: int)
    requires NoDupKeys(lines)
    ensures NoDupKeys(UpdateLines(lines, pid, vid, q))
  {
    var r := UpdateLines(lines, pid, vid, q);
    forall a, b | 0 <= a < b < |r| ensures !Matches(r[b], r[a].productId, r[a].variantId) {
      assert Matches(r[a], lines[a].productId, lines[a].variantId);
      assert Matches(r[b], lines[b].productId, lines[b].variantId);
    }
  }

  /** Remove keeps exactly the lines without the key, in their original
      order: the result is a subsequence of the input. */
  lemma RemoveEffect(lines: seq<Line>, pid: int, vid: Option<int>)
    ensures forall l :: l in RemoveLines(lines, pid, vid) <==> l in lines && !Matches(l, pid, vid)
    ensures |RemoveLines(lines, pid, vid)| <= |lines|
    ensures (forall j :: 0 <= j < |lines| ==> !Matches(lines[j], pid, vid)) ==> RemoveLines(lines, pid, vid) == lines
  {
    RemoveIsSubsequence(lines, pid, vid);
    FilterComplete(lines, l => !Matches(l, pid, vid));
    if forall j :: 0 <= j < |lines| ==> !Matches(lines[j], pid, vid) {
      RemoveNothing(lines, pid, vid);
    }
  }

  lemma {:induction false} RemoveNothing(lines: seq<Line>, pid: int, vid: Option<int>)
    requires forall j :: 0 <= j < |lines| ==> !Matches(lines[j], pid, vid)
    ensures RemoveLines(lines, pid, vid) == lines
    decreases |lines|
  {
    if lines != [] {
      var init, last := lines[..|lines| - 1], lines[|lines| - 1];
      assert forall j :: 0 <= j < |init| ==> init[j] == lines[j];
      assert !Matches(last, pid, vid);
      assert RemoveLines(lines, pid, vid) == RemoveLines(init, pid, vid) + [last];
      RemoveNothing(init, pid, vid);
      assert lines == init + [last];
    }
  }

  /** The surviving lines appear in the same relative order: removal is the
      input with the matching lines deleted. */
  lemma {:induction false} RemoveIsSubsequence(lines: seq<Line>, pid: int, vid: Option<int>)
    ensures RemoveLines(lines, pid, vid) == Filter(lines, l => !Matches(l, pid, vid))
    decreases |lines|
  {
    if lines != [] {
      var init := lines[..|lines| - 1];
      RemoveIsSubsequence(init, pid, vid);
      FilterSnoc(init, lines[|lines| - 1], l => !Matches(l, pid, vid));
      assert lines == init + [lines[|lines| - 1]];
    }
  }

  lemma {:induction false} RemoveKeepsNoDupKeys(lines: seq<Line>, pid: int, vid: Option<int>)
    requires NoDupKeys(lines)
    ensures NoDupKeys(RemoveLines(lines, pid, vid))
    decreases |lines|
  {
    if lines != [] {
      var init := lines[..|lines| - 1];
      var last := lines[|lines| - 1];
      NoDupKeysSplit(lines);
      RemoveKeepsNoDupKeys(init, pid, vid);
      if !Matches(last, pid, vid) {
        RemoveEffect(init, pid, vid);
        NoDupKeysSnoc(RemoveLines(init, pid, vid), init, last);
      }
    }
  }

  /** Dropping the last line keeps the invariant, and the last line's key
      occurs nowhere before it. */
  lemma NoDupKeysSplit(lines: seq<Line>)
    requires NoDupKeys(lines) && lines != []
    ensures NoDupKeys(lines[..|lines| - 1])
    ensures forall l :: l in lines[..|lines| - 1] ==> !Matches(lines[|lines| - 1], l.productId, l.variantId)
  {
    var init := lines[..|lines| - 1];
    forall a, b | 0 <= a < b < |init| ensures !Matches(init[b], init[a].productId, init[a].variantId) {
      assert init[a] == lines[a] && init[b] == lines[b];
    }
    forall l | l in init ensures !Matches(lines[|lines| - 1], l.productId, l.variantId) {
      var k :| 0 <= k < |init| && init[k] == l;
      assert lines[k] == l;
    }
  }

  lemma NoDupKeysSnoc(rest: seq<Line>, init: seq<Line>, last: Line)
    requires NoDupKeys(rest)
    requires forall l :: l in rest ==> l in init
    requires forall l :: l in init ==> !Matches(last, l.productId, l.variantId)
    ensures NoDupKeys(rest + [last])
  {
    var r := rest + [last];
    forall a, b | 0 <= a < b < |r| ensures !Matches(r[b], r[a].productId, r[a].variantId) {
      if b < |rest| {
        assert r[a] == rest[a] && r[b] == rest[b];
      } else {
        assert r[a] == rest[a] && rest[a] in init;
      }
    }
  }

  /** Every item read back has a quantity of at least 1 and a product that
      exists; a line contributes at most one item. */
  lemma {:induction false} ReadItemsEffect(lines: seq<Line>, products: map<int, Product>, variants: map<int, Variant>)
    ensures |ReadItems(lines, products, variants)| <= |lines|
    ensures forall it :: it in ReadItems(lines, products, variants) ==>
              it.quantity >= 1 && it.product in products.Values
              && (it.variant.Some? ==> it.variant.value in variants.Values)
    ensures (forall j :: 0 <= j < |lines| ==> lines[j].productId in products) ==>
              |ReadItems(lines, products, variants)| == |lines|
    decreases |lines|
  {
    if lines != [] {
      var init := lines[..|lines| - 1];
      ReadItemsEffect(init, products, variants);
      if forall j :: 0 <= j < |lines| ==> lines[j].productId in products {
        assert forall j :: 0 <= j < |init| ==> init[j].productId in products by {
          forall j | 0 <= j < |init| ensures init[j].productId in products { assert init[j] == lines[j]; }
        }
      }
    }
  }

  /** A stored line is read back with its own product, its own quantity when
      that is at least 1, and no variant when its variant id is missing. */
  lemma ReadLineEffect(l: Line, products: map<int, Product>, variants: map<int, Variant>)
    ensures ReadLine(l, products, variants).None? <==> l.productId !in products
    ensures ReadLine(l, products, variants).Some? ==>
              ReadLine(l, products, variants).value.product == products[l.productId]
              && ReadLine(l, products, variants).value.quantity == Max(1, l.quantity)
              && (ReadLine(l, products, variants).value.variant.None? <==>
                  (l.variantId.None? || l.variantId.value == 0 || l.variantId.value !in variants))
  {
  }

  /** `SessionCartItem.unit_price()`: the variant branch needs a variant
      with a `sale_price` or `base_price` attribute, which `Variant` does not
      declare, so every item is priced at its product's price. */
  function SessionUnitPrice(it: SessionItem): int
  {
    Price(it.product)
  }

  /** `SessionCartItem.line_total()`. */
  function SessionLineTotal(it: SessionItem): int
  {
    SessionUnitPrice(it) * it.quantity
  }

  /** A session line costs what the same line costs in a database cart:
      whatever the variant, its unit price is the product's selling price,
      and its line total is linear in the quantity. */
  lemma SessionPriceMatchesCart(it: SessionItem, v: Option<Variant>, a: nat, b: nat)
    ensures SessionUnitPrice(it.(variant := v)) == SessionUnitPrice(it) == Price(it.product)
    ensures it.quantity >= 0 ==>
              SessionLineTotal(it) == CartModels.LineTotal(CartModels.CartItem(0, 0, it.product, it.variant, it.quantity))
    ensures SessionLineTotal(it.(quantity := a + b)) == SessionLineTotal(it.(quantity := a)) + SessionLineTotal(it.(quantity := b))
  {
    var p := SessionUnitPrice(it);
    assert p * (a + b) == p * a + p * b;
  }

  function SessionLineTotals(items: seq<SessionItem>): (r: seq<int>)
    ensures |r| == |items|
    ensures forall i :: 0 <= i < |items| ==> r[i] == SessionLineTotal(items[i])
  {
    if items == [] then [] else SessionLineTotals(items[..|items| - 1]) + [SessionLineTotal(items[|items| - 1])]
  }

  /** `sum(it.line_total() for it in items)`, from 0.00. */
  function SessionSubtotal(items: seq<SessionItem>): int
  {
    Sum(SessionLineTotals(items))
  }

  function Quantities(items: seq<SessionItem>): (r: seq<int>)
    ensures |r| == |items|
    ensures forall i :: 0 <= i < |items| ==> r[i] == items[i].quantity
  {
    if items == [] then [] else Quantities(items[..|items| - 1]) + [items[|items| - 1].quantity]
  }

  /** `sum(it.quantity for it in items)`. */
  function SessionUnits(items: seq<SessionItem>): int
  {
    Sum(Quantities(items))
  }

  /** Read-back items of a cart with non-negative prices have a
      non-negative subtotal and, unless none was read, at least one unit
      each. */
  lemma SessionTotalsOfReadItems(lines: seq<Line>, products: map<int, Product>, variants: map<int, Variant>)
    requires forall p :: p in products.Values ==> Price(p) >= 0
    ensures SessionSubtotal(ReadItems(lines, products, variants)) >= 0
    ensures SessionUnits(ReadItems(lines, products, variants)) >= |ReadItems(lines, products, variants)|
  {
    var items := ReadItems(lines, products, variants);
    ReadItemsEffect(lines, products, variants);
    var totals := SessionLineTotals(items);
    var qs := Quantities(items);
    forall i | 0 <= i < |items|
      ensures totals[i] >= 0 && qs[i] >= 1
    {
      assert items[i] in items;
      MulNonNegative(Price(items[i].product), items[i].quantity);
    }
    SumNonNegative(totals);
    SumAtLeastOnes(qs);
  }

  lemma MulNonNegative(a: int, b: int)
    requires a >= 0 && b >= 0
    ensures a * b >= 0
  {
  }

  lemma {:induction false} SumAtLeastOnes(s: seq<int>)
    requires forall i :: 0 <= i < |s| ==> s[i] >= 1
    ensures Sum(s) >= |s|
  {
    if s != [] {
      SumAtLeastOnes(s[..|s| - 1]);
    }
  }

  // ---------------------------------------------------------------------
  // The session object

  /** The values a session stores, as one value. */
  datatype SessionData = SessionData(cart: Option<seq<Line>>, coupon: CouponEntry, buyNow: Option<BuyNow>,
                                     selected: Option<Selection>, lastVariant: map<string, Option<int>>)

  class Session {
    /** `session["cart"]`; `None` stands for a missing, empty or item-less
        value, which `_get_session_cart` replaces by an empty cart. */
    var cart: Option<seq<Line>>
    var coupon: CouponEntry
    var buyNow: Option<BuyNow>
    var selected: Option<Selection>
    /** `session["last_variant"]`: product id (as a string) to the variant
        last picked for it. */
    var lastVariant: map<string, Option<int>>

    constructor ()
      ensures cart.None? && coupon.NoCoupon? && buyNow.None? && selected.None? && lastVariant == map[]
    {
      cart := None;
      coupon := NoCoupon;
      buyNow := None;
      selected := None;
      lastVariant := map[];
    }

    /** What the session holds now. */
    function State(): SessionData
      reads this
    {
      SessionData(cart, coupon, buyNow, selected, lastVariant)
    }

    /** A request that ends in a server error: Django's session middleware
        saves nothing for a 5xx response, so the next request sees the
        session as it was stored before, `saved`. */
    method Discard(saved: SessionData)
      modifies this
      ensures State() == saved
    {
      cart, coupon, buyNow, selected, lastVariant := saved.cart, saved.coupon, saved.buyNow, saved.selected, saved.lastVariant;
    }

    /** The cart lines as the helpers see them. */
    function Lines(): seq<Line>
      reads this
    {
      LinesOf(cart)
    }

    /** `add_session_item`. */
    method AddItem(pid: int, vid: Option<int>, q: int)
      modifies this
      ensures cart == Some(AddLines(old(Lines()), pid, vid, q))
      ensures coupon == old(coupon) && buyNow == old(buyNow) && selected == old(selected) && lastVariant == old(lastVariant)
    {
      var items := LinesOf(cart);
      var i := 0;
      while i < |items|
        invariant 0 <= i <= |items|
        invariant forall j :: 0 <= j < i ==> !Matches(items[j], pid, vid)
      {
        if Matches(items[i], pid, vid) {
          cart := Some(items[i := items[i].(quantity := items[i].quantity + q)]);
          return;
        }
        i := i + 1;
      }
      cart := Some(items + [Line(pid, vid, q)]);
    }

    /** `update_session_item`. */
    method UpdateItem(pid: int, vid: Option<int>, q: int)
      modifies this
      ensures cart == Some(UpdateLines(old(Lines()), pid, vid, q))
      ensures coupon == old(coupon) && buyNow == old(buyNow) && selected == old(selected) && lastVariant == old(lastVariant)
    {
      var items := LinesOf(cart);
      cart := Some(items);
      var i := 0;
      while i < |items|
        invariant 0 <= i <= |items|
        invariant forall j :: 0 <= j < i ==> !Matches(items[j], pid, vid)
      {
        if Matches(items[i], pid, vid) {
          cart := Some(items[i := items[i].(quantity := Max(1, q))]);
          return;
        }
        i := i + 1;
      }
    }

    /** `remove_session_item`. */
    method RemoveItem(pid: int, vid: Option<int>)
      modifies this
      ensures cart == Some(RemoveLines(old(Lines()), pid, vid))
      ensures coupon == old(coupon) && buyNow == old(buyNow) && selected == old(selected) && lastVariant == old(lastVariant)
    {
      cart := Some(RemoveLines(LinesOf(cart), pid, vid));
    }

    /** `clear_session_cart`. */
    method ClearCart()
      modifies this
      ensures cart.None? && Lines() == []
      ensures coupon == old(coupon) && buyNow == old(buyNow) && selected == old(selected) && lastVariant == old(lastVariant)
    {
      cart := None;
    }

    /** `get_session_items`: reads the lines back against the product and
        variant tables, resetting a missing cart first. */
    method GetItems(products: map<int, Product>, variants: map<int, Variant>) returns (items: seq<SessionItem>)
      modifies this
      ensures items == ReadItems(old(Lines()), products, variants)
      ensures cart == Some(old(Lines()))
      ensures coupon == old(coupon) && buyNow == old(buyNow) && selected == old(selected) && lastVariant == old(lastVariant)
    {
      var lines := LinesOf(cart);
      cart := Some(lines);
      items := [];
      var i := 0;
      while i < |lines|
        invariant 0 <= i <= |lines|
        invariant items == ReadItems(lines[..i], products, variants)
      {
        assert lines[..i + 1][..i] == lines[..i];
        if lines[i].productId in products {
          var vid := lines[i].variantId;
          var variant: Option<Variant> := None;
          if vid.Some? && vid.value != 0 {
            if vid.value in variants {
              variant := Some(variants[vid.value]);
            }
          }
          items := items + [SessionItem(products[lines[i].productId], variant, Max(1, lines[i].quantity))];
        }
        i := i + 1;
      }
      assert lines[..i] == lines;
    }

    /** `set_session_coupon`. */
    method SetCoupon(code: string)
      modifies this
      ensures coupon == CodeDict(code) && CodeOf(coupon) == Some(code)
      ensures cart == old(cart) && buyNow == old(buyNow) && selected == old(selected) && lastVariant == old(lastVariant)
    {
      coupon := CodeDict(code);
    }

    /** `get_session_coupon`. */
    function Coupon(): (r: Option<string>)
      reads this
    {
      CodeOf(coupon)
    }

    /** `clear_session_coupon`. */
    method ClearCoupon()
      modifies this
      ensures coupon == NoCoupon && Coupon() == None
      ensures cart == old(cart) && buyNow == old(buyNow) && selected == old(selected) && lastVariant == old(lastVariant)
    {
      coupon := NoCoupon;
    }

    /** Writes `session["buy_now"]`. */
    method SetBuyNow(b: Option<BuyNow>)
      modifies this
      ensures buyNow == b
      ensures cart == old(cart) && coupon == old(coupon) && selected == old(selected) && lastVariant == old(lastVariant)
    {
      buyNow := b;
    }

    /** Writes `session["checkout_selected"]`. */
    method SetSelected(s: Selection)
      modifies this
      ensures selected == Some(s)
      ensures cart == old(cart) && coupon == old(coupon) && buyNow == old(buyNow) && lastVariant == old(lastVariant)
    {
      selected := Some(s);
    }

    /** Records the variant last picked for a product. */
    method RememberVariant(key: string, vid: Option<int>)
      modifies this
      ensures lastVariant == old(lastVariant)[key := vid]
      ensures cart == old(cart) && coupon == old(coupon) && buyNow == old(buyNow) && selected == old(selected)
    {
      lastVariant := lastVariant[key := vid];
    }
  }

  /** The invariant the helpers keep together: from any cart without
      duplicate keys, a run of adds, updates and removes leaves none. */
  datatype CartOp = Add(pid: int, vid: Option<int>, q: int) | Update(pid: int, vid: Option<int>, q: int) | Remove(pid: int, vid: Option<int>) | Clear

  function Apply(lines: seq<Line>, op: CartOp): seq<Line>
  {
    match op
    case Add(p, v, q) => AddLines(lines, p, v, q)
    case Update(p, v, q) => UpdateLines(lines, p, v, q)
    case Remove(p, v) => RemoveLines(lines, p, v)
    case Clear => []
  }

  function ApplyAll(lines: seq<Line>, ops: seq<CartOp>): seq<Line>
    decreases |ops|
  {
    if ops == [] then lines else ApplyAll(Apply(lines, ops[0]), ops[1..])
  }

  lemma {:induction false} ApplyAllKeepsNoDupKeys(lines: seq<Line>, ops: seq<CartOp>)
    requires NoDupKeys(lines)
    ensures NoDupKeys(ApplyAll(lines, ops))
    decreases |ops|
  {
    if ops != [] {
      match ops[0] {
        case Add(p, v, q) => AddKeepsNoDupKeys(lines, p, v, q);
        case Update(p, v, q) => UpdateKeepsNoDupKeys(lines, p, v, q);
        case Remove(p, v) => RemoveKeepsNoDupKeys(lines, p, v);
        case Clear =>
      }
      ApplyAllKeepsNoDupKeys(Apply(lines, ops[0]), ops[1..]);
    }
  }
}
