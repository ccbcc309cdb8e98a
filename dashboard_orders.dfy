/** The staff dashboard's order and user tools: the thumbnails of the order
    list, the totals the staff order forms recompute, the status update, the
    staff and active toggles, and the colour suggestions of the product
    form.  Tables are sequences of rows; a row is found by its primary key,
    and the first row with that key stands for it. */
module DashboardOrders {
  import opened Basics
  import opened Text
  import opened CatalogModels
  import opened OrderModels
  import opened Pricing
  import opened Users
  import opened OrderViews
  import opened OrderSignals

  // ---------------------------------------------------------------------
  // Row lookup

  /** Index of the first order with primary key `pk`. */
  function OrderIndex(orders: seq<Order>, pk: int): (r: Option<nat>)
    ensures r.Some? ==> r.value < |orders| && orders[r.value].id == pk
    ensures r.Some? ==> forall j :: 0 <= j < r.value ==> orders[j].id != pk
    ensures r.None? ==> forall j :: 0 <= j < |orders| ==> orders[j].id != pk
  {
    if orders == [] then None
    else if orders[0].id == pk then Some(0)
    else
      var r := OrderIndex(orders[1..], pk);
      if r.Some? then Some(r.value + 1) else None
  }

  /** Index of the first user with primary key `pk`. */
  function UserIndex(users: seq<User>, pk: int): (r: Option<nat>)
    ensures r.Some? ==> r.value < |users| && users[r.value].id == pk
    ensures r.Some? ==> forall j :: 0 <= j < r.value ==> users[j].id != pk
    ensures r.None? ==> forall j :: 0 <= j < |users| ==> users[j].id != pk
  {
    if users == [] then None
    else if users[0].id == pk then Some(0)
    else
      var r := UserIndex(users[1..], pk);
      if r.Some? then Some(r.value + 1) else None
  }

  // ---------------------------------------------------------------------
  // Order-list thumbnails

  /** A `ProductImage` as the order list reads it: its colour tag (`""`
      when the record has none) and the URL of its file (`""` when no file
      is attached). */
  datatype Image = Image(color: string, url: string)

  /** `str(c).strip().lower()`. */
  function ColorKey(s: string): string
  {
    Lower(Trim(Python, s))
  }

  /** An image serves an item of colour key `low`: its own tag is
      non-blank and equal to `low`, and it has a file. */
  predicate Serves(im: Image, low: string)
  {
    ColorKey(im.color) != "" && ColorKey(im.color) == low && im.url != ""
  }

  /** The variant's colour, else the colour snapshot on the item, else
      nothing. */
  function ItemColor(it: OrderItem): string
  {
    if it.variant.Some? && it.variant.value.color != "" then it.variant.value.color else it.variantColor
  }

  /** The variant's size, else the size snapshot on the item, else
      nothing. */
  function ItemSize(it: OrderItem): string
  {
    if it.variant.Some? && it.variant.value.size != "" then it.variant.value.size else it.variantSize
  }

  /** The images of the item's product, in their stored order. */
  function ImagesOf(images: map<int, seq<Image>>, it: OrderItem): seq<Image>
  {
    if it.product.id in images then images[it.product.id] else []
  }

  /** Index of the first image serving colour key `low`. */
  function FirstServing(imgs: seq<Image>, low: string): (r: Option<nat>)
    ensures r.Some? ==> r.value < |imgs| && Serves(imgs[r.value], low)
    ensures r.Some? ==> forall j :: 0 <= j < r.value ==> !Serves(imgs[j], low)
    ensures r.None? ==> forall j :: 0 <= j < |imgs| ==> !Serves(imgs[j], low)
  {
    FirstWhere(imgs, (im: Image) => Serves(im, low))
  }

  /** The thumbnail of an item: the first image serving its colour when it
      has one, otherwise the URL of the first image, otherwise nothing. */
  function Thumb(imgs: seq<Image>, color: string): string
  {
    var hit := if color != "" then FirstServing(imgs, ColorKey(color)) else None;
    if hit.Some? then imgs[hit.value].url
    else if imgs != [] then imgs[0].url
    else ""
  }

  /** When an image serves the colour and none before it does, the
      thumbnail is that image's URL. */
  lemma ThumbOfMatch(imgs: seq<Image>, color: string, k: nat)
    requires k < |imgs| && color != "" && Serves(imgs[k], ColorKey(color))
    requires forall j :: 0 <= j < k ==> !Serves(imgs[j], ColorKey(color))
    ensures Thumb(imgs, color) == imgs[k].url
  {
    var hit := FirstServing(imgs, ColorKey(color));
    assert hit.Some?;
    assert !(hit.value < k) && !(k < hit.value);
  }

  /** When no image serves the colour, the thumbnail is the first image's
      URL. */
  lemma ThumbWithoutMatch(imgs: seq<Image>, color: string)
    requires imgs != []
    requires color == "" || forall j :: 0 <= j < |imgs| ==> !Serves(imgs[j], ColorKey(color))
    ensures Thumb(imgs, color) == imgs[0].url
  {
  }

  /** `ProductImage` declares no colour, so every tag reads as blank and
      the thumbnail is always the first image's URL. */
  lemma UntaggedImagesGiveFirst(imgs: seq<Image>, color: string)
    requires forall j :: 0 <= j < |imgs| ==> imgs[j].color == ""
    ensures Thumb(imgs, color) == if imgs == [] then "" else imgs[0].url
  {
    assert Trim(Python, "") == "";
    if imgs != [] {
      forall j | 0 <= j < |imgs| ensures !Serves(imgs[j], ColorKey(color))
      {
        assert imgs[j].color == "";
      }
      ThumbWithoutMatch(imgs, color);
    }
  }

  /** No image before index `i` serves colour key `low`. */
  predicate NoneServes(imgs: seq<Image>, low: string, i: nat)
    requires i <= |imgs|
  {
    forall j :: 0 <= j < i ==> !Serves(imgs[j], low)
  }

  lemma NoneServesStep(imgs: seq<Image>, low: string, i: nat)
    requires i < |imgs| && NoneServes(imgs, low, i) && !Serves(imgs[i], low)
    ensures NoneServes(imgs, low, i + 1)
  {
  }

  /** The colour-matching loop with its `break`, then the first-image
      fallback. */
  method ThumbFor(imgs: seq<Image>, color: string) returns (thumb: string)
    ensures thumb == Thumb(imgs, color)
  {
    thumb := "";
    if color != "" {
      var low := ColorKey(color);
      var i := 0;
      while i < |imgs|
        invariant 0 <= i <= |imgs| && thumb == ""
        invariant NoneServes(imgs, low, i)
      {
        if Serves(imgs[i], low) {
          thumb := imgs[i].url;
          ThumbOfMatch(imgs, color, i);
          return;
        }
        NoneServesStep(imgs, low, i);
        i := i + 1;
      }
    }
    if imgs != [] {
      ThumbWithoutMatch(imgs, color);
      if imgs[0].url != "" {
        thumb := imgs[0].url;
      }
    }
  }

  /** One step of the extra-thumbnail loop: a non-empty thumbnail that is
      not the main one and not yet listed is appended. */
  function AddThumb(acc: seq<string>, t: string, main: string): seq<string>
  {
    if t != "" && t != main && t !in acc then acc + [t] else acc
  }

  /** The extra thumbnails collected from the items' thumbnails `ts`: the
      loop stops once three are listed. */
  function Extras(ts: seq<string>, main: string): seq<string>
  {
    if ts == [] then []
    else
      var acc := Extras(ts[..|ts| - 1], main);
      if |acc| >= 3 then acc else AddThumb(acc, ts[|ts| - 1], main)
  }

  /** The extra thumbnails are at most three, distinct, non-empty, never
      the main thumbnail, and each is some item's thumbnail. */
  lemma {:induction false} ExtrasShape(ts: seq<string>, main: string)
    ensures |Extras(ts, main)| <= 3 && Distinct(Extras(ts, main))
    ensures forall x :: x in Extras(ts, main) ==> x != "" && x != main && x in ts
  {
    if ts != [] {
      var pre := ts[..|ts| - 1];
      ExtrasShape(pre, main);
      forall x | x in pre ensures x in ts { }
    }
  }

  /** While fewer than three are listed, every eligible thumbnail is
      listed. */
  lemma {:induction false} ExtrasComplete(ts: seq<string>, main: string)
    requires |Extras(ts, main)| < 3
    ensures forall i :: 0 <= i < |ts| && ts[i] != "" && ts[i] != main ==> ts[i] in Extras(ts, main)
  {
    if ts != [] {
      var pre := ts[..|ts| - 1];
      var acc := Extras(pre, main);
      assert |acc| <= |Extras(ts, main)|;
      ExtrasComplete(pre, main);
      forall i | 0 <= i < |ts| && ts[i] != "" && ts[i] != main ensures ts[i] in Extras(ts, main)
      {
        if i < |ts| - 1 {
          assert ts[i] == pre[i];
        }
      }
    }
  }

  /** One more item: unless three are listed already, its thumbnail is
      offered to the list. */
  lemma ExtrasStep(ts: seq<string>, main: string, i: nat)
    requires i < |ts|
    ensures Extras(ts[..i + 1], main) ==
              if |Extras(ts[..i], main)| >= 3 then Extras(ts[..i], main) else AddThumb(Extras(ts[..i], main), ts[i], main)
  {
    assert ts[..i + 1][..i] == ts[..i];
  }

  /** Once three are listed, later items change nothing: this is the
      loop's `break`. */
  lemma {:induction false} ExtrasSaturate(ts: seq<string>, main: string, i: nat)
    requires i <= |ts| && |Extras(ts[..i], main)| >= 3
    ensures Extras(ts, main) == Extras(ts[..i], main)
    decreases |ts| - i
  {
    if i < |ts| {
      assert ts[..i + 1][..i] == ts[..i];
      ExtrasSaturate(ts, main, i + 1);
    } else {
      assert ts[..i] == ts;
    }
  }

  /** What the order list shows for one order. */
  datatype Card = Card(thumb: string, size: string, color: string, name: string, thumbs: seq<string>, moreCount: int)

  /** The thumbnails of an order's items, one per item. */
  function ItemThumbs(items: seq<OrderItem>, images: map<int, seq<Image>>): (r: seq<string>)
    ensures |r| == |items|
    ensures forall k :: 0 <= k < |items| ==> r[k] == Thumb(ImagesOf(images, items[k]), ItemColor(items[k]))
  {
    seq(|items|, k requires 0 <= k < |items| => Thumb(ImagesOf(images, items[k]), ItemColor(items[k])))
  }

  /** `ts` lists the thumbnails of `items`, one per item. */
  predicate ThumbsOf(ts: seq<string>, items: seq<OrderItem>, images: map<int, seq<Image>>)
  {
    |ts| == |items|
    && forall k {:trigger Thumb(ImagesOf(images, items[k]), ItemColor(items[k]))} :: 0 <= k < |items| ==>
         ts[k] == Thumb(ImagesOf(images, items[k]), ItemColor(items[k]))
  }

  /** The body of the extra-thumbnail loop for item `i`: the colour match,
      then the first-image fallback. */
  method ItemThumb(items: seq<OrderItem>, images: map<int, seq<Image>>, i: nat, ghost ts: seq<string>) returns (t: string)
    requires i < |items| && ThumbsOf(ts, items, images)
    ensures t == ts[i]
  {
    t := ThumbFor(ImagesOf(images, items[i]), ItemColor(items[i]));
  }

  /** The loop over the order's items that collects the extra
      thumbnails, leaving it once three are listed. */
  method ExtraThumbs(items: seq<OrderItem>, images: map<int, seq<Image>>, main: string, ghost ts: seq<string>) returns (thumbs: seq<string>)
    requires ThumbsOf(ts, items, images)
    ensures thumbs == Extras(ts, main)
  {
    thumbs := [];
    var i := 0;
    while i < |items|
      invariant 0 <= i <= |items| == |ts|
      invariant Collected(ts, main, i, thumbs) && |thumbs| < 3
    {
      var t := ItemThumb(items, images, i, ts);
      ghost var acc := thumbs;
      if t != "" && t != main && t !in thumbs {
        thumbs := thumbs + [t];
      }
      CollectStep(ts, main, i, acc, thumbs);
      i := i + 1;
      if |thumbs| >= 3 {
        break;
      }
    }
    CollectDone(ts, main, i, thumbs);
  }

  /** The loop's view of `Extras`: `thumbs` is what the first `i`
      thumbnails give. */
  predicate Collected(ts: seq<string>, main: string, i: nat, thumbs: seq<string>)
    requires i <= |ts|
  {
    thumbs == Extras(ts[..i], main)
  }

  lemma CollectStep(ts: seq<string>, main: string, i: nat, acc: seq<string>, thumbs: seq<string>)
    requires i < |ts| && Collected(ts, main, i, acc) && |acc| < 3
    requires thumbs == AddThumb(acc, ts[i], main)
    ensures Collected(ts, main, i + 1, thumbs)
  {
    ExtrasStep(ts, main, i);
  }

  lemma CollectDone(ts: seq<string>, main: string, i: nat, thumbs: seq<string>)
    requires i <= |ts| && Collected(ts, main, i, thumbs)
    requires i == |ts| || |thumbs| >= 3
    ensures thumbs == Extras(ts, main)
  {
    if |thumbs| >= 3 {
      ExtrasSaturate(ts, main, i);
    } else {
      assert ts[..i] == ts;
    }
  }

  /** The card of an order with items `items` (in their stored order):
      the first item's thumbnail, size, colour and product name, up to
      three extra thumbnails, and how many items the extras leave out. */
  method OrderCard(items: seq<OrderItem>, images: map<int, seq<Image>>) returns (card: Card)
    ensures items == [] ==> card == Card("", "", "", "", [], 0)
    ensures items != [] ==>
              && card.thumb == Thumb(ImagesOf(images, items[0]), ItemColor(items[0]))
              && card.size == ItemSize(items[0]) && card.color == ItemColor(items[0])
              && card.name == items[0].product.name
              && card.thumbs == Extras(ItemThumbs(items, images), card.thumb)
              && card.moreCount == Max(0, |items| - 1 - |card.thumbs|)
  {
    if items == [] {
      return Card("", "", "", "", [], 0);
    }
    var first := items[0];
    var thumb := ThumbFor(ImagesOf(images, first), ItemColor(first));
    var thumbs := ExtraThumbs(items, images, thumb, ItemThumbs(items, images));
    card := Card(thumb, ItemSize(first), ItemColor(first), first.product.name, thumbs, Max(0, |items| - 1 - |thumbs|));
  }

  /** The card accounts for every item: with `ts` the items' thumbnails,
      the first one, its extras and the hidden count add up to the number
      of items, since the first item's own thumbnail is the main one and
      never counts as an extra. */
  lemma CardCounts(ts: seq<string>)
    requires ts != []
    ensures |Extras(ts, ts[0])| <= 3 && 1 + |Extras(ts, ts[0])| + Max(0, |ts| - 1 - |Extras(ts, ts[0])|) == |ts|
  {
    ExtrasShape(ts, ts[0]);
    ExtrasLength(ts, ts[0]);
  }

  /** Extras never outnumber the thumbnails after the first when the first
      is the main one. */
  lemma {:induction false} ExtrasLength(ts: seq<string>, main: string)
    requires ts != [] && ts[0] == main
    ensures |Extras(ts, main)| <= |ts| - 1
  {
    if |ts| > 1 {
      var pre := ts[..|ts| - 1];
      ExtrasLength(pre, main);
    } else {
      assert ts[..0] == [];
    }
  }

  // ---------------------------------------------------------------------
  // Staff order forms: totals recomputed from the items

  /** An item after the staff form's recomputation: line total from the
      unit price, unit cost from the variant's cost price (0 without one),
      line cost from the unit cost. */
  function Recosted(it: OrderItem): OrderItem
  {
    var cost := UnitCost(it.variant);
    it.(lineTotal := it.unitPrice * it.quantity, unitCost := cost, lineCost := cost * it.quantity)
  }

  /** The line totals of a list of items. */
  function ItemLineTotals(items: seq<OrderItem>): (r: seq<int>)
    ensures |r| == |items|
    ensures forall k :: 0 <= k < |items| ==> r[k] == items[k].lineTotal
  {
    if items == [] then [] else ItemLineTotals(items[..|items| - 1]) + [items[|items| - 1].lineTotal]
  }

  /** Recomputes every item in place and sums the new line totals. */
  method RecostItems(items: array<OrderItem>) returns (subtotal: int)
    modifies items
    ensures forall k :: 0 <= k < items.Length ==> items[k] == Recosted(old(items[k]))
    ensures subtotal == Sum(ItemLineTotals(items[..]))
  {
    subtotal := 0;
    var i := 0;
    while i < items.Length
      invariant 0 <= i <= items.Length
      invariant RecostedUpTo(items[..], old(items[..]), i)
      invariant subtotal == Sum(ItemLineTotals(items[..i]))
    {
      var it := Recosted(items[i]);
      ghost var before := items[..];
      items[i] := it;
      assert items[..] == before[i := it];
      RecostStep(before, old(items[..]), i);
      assert items[..i] == before[..i];
      LineTotalsStep(items[..], i);
      subtotal := subtotal + it.lineTotal;
      i := i + 1;
    }
    assert items[..i] == items[..];
  }

  /** The first `i` items of `now` are the recomputed originals and the
      rest are untouched. */
  predicate RecostedUpTo(now: seq<OrderItem>, orig: seq<OrderItem>, i: nat)
  {
    |now| == |orig| && i <= |now|
    && (forall k :: 0 <= k < i ==> now[k] == Recosted(orig[k]))
    && (forall k :: i <= k < |now| ==> now[k] == orig[k])
  }

  lemma RecostStep(now: seq<OrderItem>, orig: seq<OrderItem>, i: nat)
    requires i < |now| && RecostedUpTo(now, orig, i)
    ensures RecostedUpTo(now[i := Recosted(now[i])], orig, i + 1)
  {
  }

  lemma LineTotalsStep(s: seq<OrderItem>, i: nat)
    requires i < |s|
    ensures Sum(ItemLineTotals(s[..i + 1])) == Sum(ItemLineTotals(s[..i])) + s[i].lineTotal
  {
    assert s[..i + 1][..i] == s[..i];
    var t := ItemLineTotals(s[..i]) + [s[i].lineTotal];
    assert ItemLineTotals(s[..i + 1]) == t;
    assert t[..|t| - 1] == ItemLineTotals(s[..i]);
  }

  /** `create_order` and `edit_order`: the order's amounts after its items
      are recomputed, with no discount and no carrier estimate. */
  method StaffOrderTotals(order: Order, items: array<OrderItem>, s: Settings) returns (o: Order)
    modifies items
    ensures forall k :: 0 <= k < items.Length ==> items[k] == Recosted(old(items[k]))
    ensures o == order.(subtotal := Sum(ItemLineTotals(items[..])),
                        gst := PlainTotals(Sum(ItemLineTotals(items[..])), None, s).gst,
                        shipping := PlainTotals(Sum(ItemLineTotals(items[..])), None, s).shipping,
                        total := PlainTotals(Sum(ItemLineTotals(items[..])), None, s).total)
  {
    var subtotal := RecostItems(items);
    var t := PlainTotals(subtotal, None, s);
    o := order.(subtotal := subtotal, gst := t.gst, shipping := t.shipping, total := t.total);
  }

  /** The recomputed subtotal is the sum of unit price times quantity, and
      it is non-negative when no unit price is negative. */
  lemma {:induction false} RecostedSubtotal(items: seq<OrderItem>)
    ensures Sum(ItemLineTotals(seq(|items|, k requires 0 <= k < |items| => Recosted(items[k]))))
              == Sum(seq(|items|, k requires 0 <= k < |items| => items[k].unitPrice * items[k].quantity))
    ensures (forall k :: 0 <= k < |items| ==> items[k].unitPrice >= 0)
              ==> Sum(ItemLineTotals(seq(|items|, k requires 0 <= k < |items| => Recosted(items[k])))) >= 0
  {
    var r := seq(|items|, k requires 0 <= k < |items| => Recosted(items[k]));
    var amounts := seq(|items|, k requires 0 <= k < |items| => items[k].unitPrice * items[k].quantity);
    assert ItemLineTotals(r) == amounts;
    if forall k :: 0 <= k < |items| ==> items[k].unitPrice >= 0 {
      SumNonNegative(amounts);
    }
  }

  /** The staff forms ship free exactly from the threshold on when the
      flat rate is positive, and their total is the subtotal plus GST plus
      shipping. */
  lemma StaffShippingRule(subtotal: int, s: Settings)
    requires s.flatRupees > 0
    ensures PlainTotals(subtotal, None, s).shipping == 0 <==> subtotal >= s.freeThresholdRupees * 100
    ensures subtotal < s.freeThresholdRupees * 100 ==> PlainTotals(subtotal, None, s).shipping == s.flatRupees * 100
  {
  }

  // ---------------------------------------------------------------------
  // Order status

  datatype StatusReply = OrderNotFound | InvalidStatus | StatusSet(status: string)

  /** `update_order_status`: an unknown order is a 404; a missing or
      unknown status changes nothing; otherwise only that order changes: its
      status, and, once the `post_save` handler has run (`enabled` is
      `SHIPROCKET_ENABLED`, `awb` its shipment call's answer), its tracking
      number and provider when it is now paid and was untracked. */
  method UpdateOrderStatus(orders: seq<Order>, pk: int, newStatus: Option<string>, enabled: bool, awb: Option<string>)
    returns (reply: StatusReply, after: seq<Order>)
    ensures OrderIndex(orders, pk).None? ==> reply == OrderNotFound && after == orders
    ensures OrderIndex(orders, pk).Some? && (newStatus.None? || !IsStatus(newStatus.value)) ==> reply == InvalidStatus && after == orders
    ensures OrderIndex(orders, pk).Some? && newStatus.Some? && IsStatus(newStatus.value) ==>
              var i := OrderIndex(orders, pk).value;
              reply == StatusSet(newStatus.value) && after == orders[i := AfterSave(enabled, orders[i].(status := newStatus.value), awb)]
    ensures |after| == |orders| && (StatusesValid(orders) ==> StatusesValid(after))
    ensures OrderNumbersUnique(orders) ==> OrderNumbersUnique(after)
  {
    var idx := OrderIndex(orders, pk);
    if idx.None? {
      return OrderNotFound, orders;
    }
    var i := idx.value;
    if newStatus.None? || !IsStatus(newStatus.value) {
      return InvalidStatus, orders;
    }
    after := orders[i := AfterSave(enabled, orders[i].(status := newStatus.value), awb)];
    reply := StatusSet(newStatus.value);
  }

  // ---------------------------------------------------------------------
  // Staff and active toggles

  datatype ToggleReply = UserNotFound | CannotChangeSelf | Toggled(value: bool)

  /** `toggle_user_staff`: refused when the target is the requesting user
      and is staff; otherwise the target's staff flag is negated and
      nothing else changes. */
  method ToggleStaff(users: seq<User>, pk: int, me: User) returns (reply: ToggleReply, after: seq<User>)
    ensures UserIndex(users, pk).None? ==> reply == UserNotFound && after == users
    ensures UserIndex(users, pk).Some? && pk == me.id && users[UserIndex(users, pk).value].isStaff ==>
              reply == CannotChangeSelf && after == users
    ensures UserIndex(users, pk).Some? && !(pk == me.id && users[UserIndex(users, pk).value].isStaff) ==>
              var i := UserIndex(users, pk).value;
              reply == Toggled(!users[i].isStaff) && after == users[i := users[i].(isStaff := !users[i].isStaff)]
    ensures forall k :: 0 <= k < |users| && users[k].id == me.id && users[k].isStaff ==> after[k].isStaff
  {
    var idx := UserIndex(users, pk);
    if idx.None? {
      return UserNotFound, users;
    }
    var i := idx.value;
    if users[i].id == me.id && users[i].isStaff {
      return CannotChangeSelf, users;
    }
    after := users[i := users[i].(isStaff := !users[i].isStaff)];
    reply := Toggled(after[i].isStaff);
  }

  /** `toggle_user_active`: the same guard and negation, on the active
      flag. */
  method ToggleActive(users: seq<User>, pk: int, me: User) returns (reply: ToggleReply, after: seq<User>)
    ensures UserIndex(users, pk).None? ==> reply == UserNotFound && after == users
    ensures UserIndex(users, pk).Some? && pk == me.id && users[UserIndex(users, pk).value].isActive ==>
              reply == CannotChangeSelf && after == users
    ensures UserIndex(users, pk).Some? && !(pk == me.id && users[UserIndex(users, pk).value].isActive) ==>
              var i := UserIndex(users, pk).value;
              reply == Toggled(!users[i].isActive) && after == users[i := users[i].(isActive := !users[i].isActive)]
    ensures forall k :: 0 <= k < |users| && users[k].id == me.id && users[k].isActive ==> after[k].isActive
  {
    var idx := UserIndex(users, pk);
    if idx.None? {
      return UserNotFound, users;
    }
    var i := idx.value;
    if users[i].id == me.id && users[i].isActive {
      return CannotChangeSelf, users;
    }
    after := users[i := users[i].(isActive := !users[i].isActive)];
    reply := Toggled(after[i].isActive);
  }

  /** Toggling another user's flag twice restores the table. */
  lemma ToggleTwiceRestores(users: seq<User>, i: nat)
    requires i < |users|
    ensures var once := users[i := users[i].(isStaff := !users[i].isStaff)];
            once[i := once[i].(isStaff := !once[i].isStaff)] == users
    ensures var once := users[i := users[i].(isActive := !users[i].isActive)];
            once[i := once[i].(isActive := !once[i].isActive)] == users
  {
  }

  // ---------------------------------------------------------------------
  // Colour suggestions of the product form

  /** One submitted form field. */
  datatype Field = Field(key: string, value: string)

  /** A variant formset's colour field: `variants-<n>-color`. */
  predicate IsVariantColorKey(k: string)
  {
    StartsWith(k, "variants-") && EndsWith(k, "-color")
  }

  /** The field contributes a colour: a variant colour field whose value
      is not blank. */
  predicate Suggests(f: Field)
  {
    IsVariantColorKey(f.key) && Trim(Python, f.value) != ""
  }

  /** The colours collected from the submitted fields, in first-seen
      order; the raw value is kept. */
  function VariantColors(post: seq<Field>): seq<string>
  {
    if post == [] then []
    else
      var acc := VariantColors(post[..|post| - 1]);
      var f := post[|post| - 1];
      if Suggests(f) && f.value !in acc then acc + [f.value] else acc
  }

  /** The loop of `create_product` over the posted variant fields. */
  method CollectVariantColors(post: seq<Field>) returns (colors: seq<string>)
    ensures colors == VariantColors(post)
  {
    colors := [];
    var i := 0;
    while i < |post|
      invariant 0 <= i <= |post|
      invariant colors == VariantColors(post[..i])
    {
      assert post[..i + 1][..i] == post[..i];
      var f := post[i];
      if IsVariantColorKey(f.key) && Trim(Python, f.value) != "" {
        if f.value !in colors {
          colors := colors + [f.value];
        }
      }
      i := i + 1;
    }
    assert post[..i] == post;
  }

  /** The suggestions are distinct and each is the value of a non-blank
      variant colour field. */
  lemma {:induction false} VariantColorsSound(post: seq<Field>)
    ensures Distinct(VariantColors(post))
    ensures forall c :: c in VariantColors(post) ==> exists i :: 0 <= i < |post| && Suggests(post[i]) && post[i].value == c
  {
    if post != [] {
      var pre := post[..|post| - 1];
      VariantColorsSound(pre);
      forall c | c in VariantColors(post) ensures exists i :: 0 <= i < |post| && Suggests(post[i]) && post[i].value == c
      {
        if c in VariantColors(pre) {
          var i :| 0 <= i < |pre| && Suggests(pre[i]) && pre[i].value == c;
          assert post[i] == pre[i];
        } else {
          assert post[|post| - 1].value == c;
        }
      }
    }
  }

  /** Every non-blank variant colour field's value is among the
      suggestions. */
  lemma {:induction false} VariantColorsComplete(post: seq<Field>)
    ensures forall i :: 0 <= i < |post| && Suggests(post[i]) ==> post[i].value in VariantColors(post)
  {
    if post != [] {
      var pre := post[..|post| - 1];
      VariantColorsComplete(pre);
      forall i | 0 <= i < |post| && Suggests(post[i]) ensures post[i].value in VariantColors(post)
      {
        if i < |post| - 1 {
          assert post[i] == pre[i];
        }
      }
    }
  }
}
