/** The account pages: the profile form's username update, the saved
    address book, "buy again" on the account home page, signing out of
    every session and deleting the account.  Tables are values the views
    read and return; request parameters are maps from name to raw text;
    the request's instant is a parameter. */
module Accounts {
  import opened Basics
  import opened Text
  import opened Forms
  import opened Users
  import opened OrderModels

  // ---------------------------------------------------------------------
  // The profile form

  /** A `UserProfile` row; `avatar` is the stored file's name. */
  datatype Profile = Profile(
    avatar: Option<string>,
    phone: string,
    line1: string,
    line2: string,
    city: string,
    state: string,
    postalCode: string,
    country: string,
    interests: string)

  /** The row `get_or_create` makes: everything blank, country India. */
  const NewProfile := Profile(None, "", "", "", "", "", "", "India", "")

  datatype UsernameNote = UsernameKept | UsernameUpdated | UsernameRefused

  /** The user after asking for username `name`: renamed only when `name`
      is non-empty, differs from the current username and the database
      accepts it (`saveFails` is the database refusing it, the name being
      taken, say). */
  function Renamed(user: User, name: string, saveFails: bool): (u: User)
    ensures u.username != user.username <==> name != "" && name != user.username && !saveFails
    ensures u.username != user.username ==> u.username == name
    ensures u == user.(username := u.username)
  {
    if name != "" && name != user.username && !saveFails then user.(username := name) else user
  }

  /** The `update_profile` action of `profile` and `you`: the rename asked
      for by the stripped `username` field, then the profile row (created
      when the user has none) gets the stripped interests, and a new avatar
      when one was uploaded. */
  method UpdateProfile(user: User, profile: Option<Profile>, form: map<string, string>, avatar: Option<string>, saveFails: bool)
    returns (u: User, p: Profile, note: UsernameNote)
    ensures u == Renamed(user, RequestedName(form), saveFails)
    ensures note == (if RequestedName(form) == "" || RequestedName(form) == user.username then UsernameKept
                     else if saveFails then UsernameRefused else UsernameUpdated)
    ensures var base := if profile.Some? then profile.value else NewProfile;
            p == base.(interests := Trim(Python, GetOr(form, "interests", "")),
                       avatar := if avatar.Some? then avatar else base.avatar)
  {
    var base := if profile.Some? then profile.value else NewProfile;
    var interests := Trim(Python, GetOr(form, "interests", ""));
    p := base.(interests := interests, avatar := if avatar.Some? then avatar else base.avatar);
    var name := RequestedName(form);
    u, note := user, UsernameKept;
    if name != "" && name != user.username {
      if saveFails {
        note := UsernameRefused;
      } else {
        u, note := user.(username := name), UsernameUpdated;
      }
    }
  }

  /** The stripped username the form asks for. */
  function RequestedName(form: map<string, string>): string
  {
    Trim(Python, GetOr(form, "username", ""))
  }

  // ---------------------------------------------------------------------
  // The address book

  /** No user has two default addresses. */
  predicate OneDefaultEach(addrs: seq<Address>)
  {
    forall i, j :: 0 <= i < j < |addrs| && addrs[i].userId == addrs[j].userId && addrs[i].isDefault ==> !addrs[j].isDefault
  }

  /** Exactly the address at index `k` is its owner's default. */
  predicate OnlyDefault(addrs: seq<Address>, k: nat)
    requires k < |addrs|
  {
    forall j :: 0 <= j < |addrs| && addrs[j].userId == addrs[k].userId ==> (addrs[j].isDefault <==> j == k)
  }

  /** `Address.objects.filter(user=uid, is_default=True).update(is_default=False)`
      (a queryset update, so `updated_at` is left alone). */
  function ClearDefaults(addrs: seq<Address>, uid: int): (r: seq<Address>)
  {
    seq(|addrs|, k requires 0 <= k < |addrs| => if addrs[k].userId == uid then addrs[k].(isDefault := false) else addrs[k])
  }

  /** Clearing a user's defaults and then setting the one at `k` leaves
      that address the user's only default, and another user's defaults
      as they were. */
  lemma ClearThenSet(addrs: seq<Address>, uid: int, k: nat, a: Address)
    requires k < |addrs| && addrs[k].userId == uid && a.userId == uid && a.isDefault
    ensures var r := ClearDefaults(addrs, uid)[k := a];
            OnlyDefault(r, k) && (OneDefaultEach(addrs) ==> OneDefaultEach(r))
  {
    var r := ClearDefaults(addrs, uid)[k := a];
    if OneDefaultEach(addrs) {
      forall i, j | 0 <= i < j < |r| && r[i].userId == r[j].userId && r[i].isDefault
        ensures !r[j].isDefault
      {
        if r[i].userId != uid {
          assert r[i] == addrs[i] && r[j] == addrs[j];
        }
      }
    }
  }

  /** Replacing a row by one with the same owner and default flag keeps
      every user's defaults as they were. */
  lemma ReplaceKeepsDefaults(addrs: seq<Address>, k: nat, a: Address)
    requires k < |addrs| && a.userId == addrs[k].userId && a.isDefault == addrs[k].isDefault
    requires OneDefaultEach(addrs)
    ensures OneDefaultEach(addrs[k := a])
  {
    var r := addrs[k := a];
    forall i, j | 0 <= i < j < |r| && r[i].userId == r[j].userId && r[i].isDefault
      ensures !r[j].isDefault
    {
      assert r[i].userId == addrs[i].userId && r[i].isDefault == addrs[i].isDefault;
      assert r[j].userId == addrs[j].userId && r[j].isDefault == addrs[j].isDefault;
    }
  }

  /** Who the new address is for when the form names nobody: the user's
      full name, or their username when that is blank. */
  function DefaultName(user: User): string
  {
    if FullName(user) != "" then FullName(user) else user.username
  }

  /** The `create` action of `addresses`: a new row with the posted fields
      (defaults for the missing ones), made the user's only default when
      `is_default` is ticked.  `newId` is the id the database assigns. */
  method CreateAddress(addrs: seq<Address>, user: User, form: map<string, string>, newId: int, now: int)
    returns (after: seq<Address>)
    ensures |after| == |addrs| + 1
    ensures after[|addrs|]
            == Address(newId, user.id, GetOr(form, "full_name", DefaultName(user)), GetOr(form, "phone", ""),
                       GetOr(form, "address_line1", ""), GetOr(form, "address_line2", ""), GetOr(form, "city", ""),
                       GetOr(form, "state", ""), GetOr(form, "postal_code", ""), GetOr(form, "country", "India"),
                       Ticked(form, "is_default"), now)
    ensures forall k :: 0 <= k < |addrs| ==>
              after[k] == (if Ticked(form, "is_default") && addrs[k].userId == user.id then addrs[k].(isDefault := false) else addrs[k])
    ensures Ticked(form, "is_default") ==> OnlyDefault(after, |addrs|)
    ensures OneDefaultEach(addrs) ==> OneDefaultEach(after)
  {
    var addr := Address(newId, user.id, GetOr(form, "full_name", DefaultName(user)), GetOr(form, "phone", ""),
                        GetOr(form, "address_line1", ""), GetOr(form, "address_line2", ""), GetOr(form, "city", ""),
                        GetOr(form, "state", ""), GetOr(form, "postal_code", ""), GetOr(form, "country", "India"),
                        false, now);
    AppendNonDefault(addrs, addr);
    after := addrs + [addr];
    if Ticked(form, "is_default") {
      ClearThenSet(after, user.id, |addrs|, addr.(isDefault := true));
      after := ClearDefaults(after, user.id)[|addrs| := addr.(isDefault := true)];
    }
  }

  /** Appending an address that is not a default keeps one default per
      user. */
  lemma AppendNonDefault(addrs: seq<Address>, a: Address)
    requires !a.isDefault
    ensures OneDefaultEach(addrs) ==> OneDefaultEach(addrs + [a])
  {
  }

  /** The address row the form's `id` names among `uid`'s addresses, as
      `Address.objects.get(user=uid, id=int(id))` finds it.  The missing
      `id`, the unparsable one, no row and several rows all raise. */
  function PostedAddress(addrs: seq<Address>, uid: int, form: map<string, string>): (r: Option<nat>)
    ensures r.Some? <==> "id" in form && ParseInt(form["id"]).Some?
                         && FindOne(addrs, (a: Address) => a.userId == uid && a.id == ParseInt(form["id"]).value).One?
    ensures r.Some? ==> r.value < |addrs| && addrs[r.value].userId == uid && ParseInt(form["id"]) == Some(addrs[r.value].id)
  {
    if "id" !in form then None
    else match ParseInt(form["id"])
      case None => None
      case Some(pk) =>
        match FindOne(addrs, (a: Address) => a.userId == uid && a.id == pk)
        case One(k) => Some(k)
        case _ => None
  }

  /** An address after the `update` action copies the posted fields over
      it, each keeping its value when the form leaves it out. */
  function Edited(a: Address, form: map<string, string>, now: int): Address
  {
    a.(fullName := GetOr(form, "full_name", a.fullName),
       phone := GetOr(form, "phone", a.phone),
       line1 := GetOr(form, "address_line1", a.line1),
       line2 := GetOr(form, "address_line2", a.line2),
       city := GetOr(form, "city", a.city),
       state := GetOr(form, "state", a.state),
       postalCode := GetOr(form, "postal_code", a.postalCode),
       country := GetOr(form, "country", a.country),
       updatedAt := now)
  }

  /** The `update` action of `addresses`.  Every failure is caught and
      reported, and changes nothing; otherwise the row takes the posted
      fields and, when `is_default` is ticked, becomes the user's only
      default. */
  method UpdateAddress(addrs: seq<Address>, user: User, form: map<string, string>, now: int)
    returns (updated: bool, after: seq<Address>)
    ensures updated <==> PostedAddress(addrs, user.id, form).Some?
    ensures !updated ==> after == addrs
    ensures updated && !Ticked(form, "is_default") ==>
              var k := PostedAddress(addrs, user.id, form).value;
              after == addrs[k := Edited(addrs[k], form, now)]
    ensures updated && Ticked(form, "is_default") ==>
              var k := PostedAddress(addrs, user.id, form).value;
              after == ClearDefaults(addrs, user.id)[k := Edited(addrs[k], form, now).(isDefault := true)]
              && OnlyDefault(after, k)
    ensures OneDefaultEach(addrs) ==> OneDefaultEach(after)
    ensures |after| == |addrs| && forall j :: 0 <= j < |addrs| && addrs[j].userId != user.id ==> after[j] == addrs[j]
  {
    var found := PostedAddress(addrs, user.id, form);
    if found.None? {
      return false, addrs;
    }
    var k := found.value;
    var addr := Edited(addrs[k], form, now);
    if Ticked(form, "is_default") {
      ClearThenSet(addrs, user.id, k, addr.(isDefault := true));
      after := ClearDefaults(addrs, user.id)[k := addr.(isDefault := true)];
    } else {
      if OneDefaultEach(addrs) {
        ReplaceKeepsDefaults(addrs, k, addr);
      }
      after := addrs[k := addr];
    }
    updated := true;
  }

  /** True of the user's address `pk`. */
  function Targeted(uid: int, pk: int): Address -> bool
  {
    (a: Address) => a.userId == uid && a.id == pk
  }

  /** True of every address `address_delete(pk)` leaves. */
  function Untargeted(uid: int, pk: int): Address -> bool
  {
    (a: Address) => !(a.userId == uid && a.id == pk)
  }

  /** `address_delete`: removes the user's address `pk`, if any. */
  method DeleteAddress(addrs: seq<Address>, uid: int, pk: int) returns (after: seq<Address>)
    ensures after == Filter(addrs, Untargeted(uid, pk))
    ensures forall a :: a in after <==> a in addrs && !(a.userId == uid && a.id == pk)
    ensures OneDefaultEach(addrs) ==> OneDefaultEach(after)
  {
    after := Filter(addrs, Untargeted(uid, pk));
    FilterComplete(addrs, Untargeted(uid, pk));
    if OneDefaultEach(addrs) {
      FilterOneDefault(addrs, Untargeted(uid, pk));
    }
  }

  /** Removing rows cannot give anyone a second default. */
  lemma {:induction false} FilterOneDefault(addrs: seq<Address>, keep: Address -> bool)
    requires OneDefaultEach(addrs)
    ensures OneDefaultEach(Filter(addrs, keep))
  {
    if addrs != [] {
      var rest := Filter(addrs[1..], keep);
      assert OneDefaultEach(addrs[1..]) by {
        forall i, j | 0 <= i < j < |addrs[1..]| ensures addrs[1..][i] == addrs[i + 1] && addrs[1..][j] == addrs[j + 1] { }
      }
      FilterOneDefault(addrs[1..], keep);
      if keep(addrs[0]) {
        var r := [addrs[0]] + rest;
        assert Filter(addrs, keep) == r;
        forall j | 1 <= j < |r| && r[j].userId == addrs[0].userId && addrs[0].isDefault
          ensures !r[j].isDefault
        {
          assert r[j] in rest;
          var m :| 0 <= m < |addrs[1..]| && addrs[1..][m] == r[j];
          assert addrs[m + 1] == r[j];
        }
      }
    }
  }

  datatype DefaultReply = DefaultSet | AddressNotFound | ServerError

  /** `address_make_default`: 404 when the user has no address `pk` (500
      when several match); otherwise every other default of the user is
      cleared and that address is saved as the default. */
  method MakeDefault(addrs: seq<Address>, uid: int, pk: int, now: int)
    returns (reply: DefaultReply, after: seq<Address>)
    ensures var found := FindOne(addrs, Targeted(uid, pk));
            (found.Missing? ==> reply == AddressNotFound && after == addrs)
            && (found.Many? ==> reply == ServerError && after == addrs)
            && (found.One? ==> reply == DefaultSet && after == ClearDefaults(addrs, uid)[found.row := addrs[found.row].(isDefault := true, updatedAt := now)])
    ensures reply == DefaultSet ==>
              var k := FindOne(addrs, Targeted(uid, pk)).row;
              k < |after| && after[k].id == pk && after[k].userId == uid && OnlyDefault(after, k)
    ensures OneDefaultEach(addrs) ==> OneDefaultEach(after)
  {
    var found := FindOne(addrs, Targeted(uid, pk));
    match found {
      case Missing =>
        return AddressNotFound, addrs;
      case Many =>
        return ServerError, addrs;
      case One(k) =>
        var addr := addrs[k].(isDefault := true, updatedAt := now);
        ClearThenSet(addrs, uid, k, addr);
        after := ClearDefaults(addrs, uid)[k := addr];
        reply := DefaultSet;
    }
  }

  // ---------------------------------------------------------------------
  // Buy again

  /** One "buy again" tile: the product, its first image and its page. */
  datatype Tile = Tile(productId: int, img: Option<string>, link: string)

  function TileOf(it: OrderItem, images: map<int, seq<string>>): Tile
  {
    var imgs := if it.product.id in images then images[it.product.id] else [];
    Tile(it.product.id, if imgs == [] then None else Some(imgs[0]), "/product/" + it.product.slug + "/")
  }

  function Tiles(items: seq<OrderItem>, images: map<int, seq<string>>): (r: seq<Tile>)
  {
    seq(|items|, k requires 0 <= k < |items| => TileOf(items[k], images))
  }

  lemma TilesSnoc(items: seq<OrderItem>, it: OrderItem, images: map<int, seq<string>>)
    ensures Tiles(items + [it], images) == Tiles(items, images) + [TileOf(it, images)]
    ensures ProductIds(items + [it]) == ProductIds(items) + [it.product.id]
  {
  }

  /** The items of the orders, order by order. */
  function ItemsOf(orders: seq<seq<OrderItem>>): seq<OrderItem>
  {
    if orders == [] then [] else ItemsOf(orders[..|orders| - 1]) + orders[|orders| - 1]
  }

  function ProductIds(items: seq<OrderItem>): (r: seq<int>)
    ensures |r| == |items| && forall k :: 0 <= k < |items| ==> r[k] == items[k].product.id
  {
    seq(|items|, k requires 0 <= k < |items| => items[k].product.id)
  }

  /** The first item of each product, in the order the items come. */
  function FirstPerProduct(items: seq<OrderItem>): seq<OrderItem>
  {
    if items == [] then []
    else
      var acc := FirstPerProduct(items[..|items| - 1]);
      if items[|items| - 1].product.id in ProductIds(acc) then acc else acc + [items[|items| - 1]]
  }

  /** What the tiles show: the first item of each product in the ten most
      recent orders, newest order first, at most eight of them. */
  function BuyAgainItems(orders: seq<seq<OrderItem>>): (r: seq<OrderItem>)
  {
    var f := FirstPerProduct(ItemsOf(orders[..Min(10, |orders|)]));
    f[..Min(8, |f|)]
  }

  lemma FirstPerProductGrows(items: seq<OrderItem>, x: OrderItem)
    ensures FirstPerProduct(items + [x]) == (if x.product.id in ProductIds(FirstPerProduct(items)) then FirstPerProduct(items) else FirstPerProduct(items) + [x])
  {
    assert (items + [x])[..|items|] == items;
  }

  lemma {:induction false} FirstPerProductPrefix(a: seq<OrderItem>, b: seq<OrderItem>)
    requires a <= b
    ensures FirstPerProduct(a) <= FirstPerProduct(b)
    decreases |b|
  {
    if |a| < |b| {
      var b' := b[..|b| - 1];
      assert a <= b';
      FirstPerProductPrefix(a, b');
      assert b == b' + [b[|b| - 1]];
      FirstPerProductGrows(b', b[|b| - 1]);
    } else {
      assert a == b;
    }
  }

  lemma {:induction false} ItemsOfPrefix(orders: seq<seq<OrderItem>>, i: nat)
    requires i <= |orders|
    ensures ItemsOf(orders[..i]) <= ItemsOf(orders)
    decreases |orders|
  {
    if i < |orders| {
      var init := orders[..|orders| - 1];
      assert init[..i] == orders[..i];
      ItemsOfPrefix(init, i);
    } else {
      assert orders[..i] == orders;
    }
  }

  /** The items of the first `i` orders and the first `j` items of order
      `i`: what the loop has looked at. */
  function Scanned(orders: seq<seq<OrderItem>>, i: nat, j: nat): seq<OrderItem>
    requires i < |orders| && j <= |orders[i]|
  {
    if j == 0 then ItemsOf(orders[..i]) else Scanned(orders, i, j - 1) + [orders[i][j - 1]]
  }

  lemma {:induction false} ScannedIs(orders: seq<seq<OrderItem>>, i: nat, j: nat)
    requires i < |orders| && j <= |orders[i]|
    ensures Scanned(orders, i, j) == ItemsOf(orders[..i]) + orders[i][..j]
  {
    if j > 0 {
      ScannedIs(orders, i, j - 1);
      assert orders[i][..j] == orders[i][..j - 1] + [orders[i][j - 1]];
    }
  }

  lemma ScannedPrefix(orders: seq<seq<OrderItem>>, i: nat, j: nat)
    requires i < |orders| && j <= |orders[i]|
    ensures Scanned(orders, i, j) <= ItemsOf(orders)
  {
    ScannedIs(orders, i, j);
    assert orders[..i + 1][..i] == orders[..i];
    assert ItemsOf(orders[..i + 1]) == ItemsOf(orders[..i]) + orders[i];
    ItemsOfPrefix(orders, i + 1);
  }

  lemma ScannedEnds(orders: seq<seq<OrderItem>>, i: nat)
    requires i < |orders|
    ensures Scanned(orders, i, 0) == ItemsOf(orders[..i])
    ensures Scanned(orders, i, |orders[i]|) == ItemsOf(orders[..i + 1])
  {
    ScannedIs(orders, i, |orders[i]|);
    assert orders[..i + 1][..i] == orders[..i];
    assert orders[i][..|orders[i]|] == orders[i];
  }

  /** One step of the loop: an item whose product was seen adds nothing,
      any other item is picked. */
  lemma ScanStep(orders: seq<seq<OrderItem>>, i: nat, j: nat, picked: seq<OrderItem>, seen: set<int>)
    requires i < |orders| && j < |orders[i]|
    requires picked == FirstPerProduct(Scanned(orders, i, j))
    requires forall pid :: pid in seen <==> pid in ProductIds(picked)
    ensures FirstPerProduct(Scanned(orders, i, j + 1))
            == if orders[i][j].product.id in seen then picked else picked + [orders[i][j]]
  {
    FirstPerProductGrows(Scanned(orders, i, j), orders[i][j]);
  }

  /** The inner loop of `you`'s "buy again": walks order `i`'s items,
      skipping products already seen, until the eighth tile. */
  method ScanOrder(orders: seq<seq<OrderItem>>, i: nat, images: map<int, seq<string>>,
                   seen0: set<int>, ghost picked0: seq<OrderItem>, tiles0: seq<Tile>)
    returns (seen: set<int>, ghost picked: seq<OrderItem>, tiles: seq<Tile>, ghost j: nat)
    requires i < |orders|
    requires picked0 == FirstPerProduct(ItemsOf(orders[..i])) && |picked0| < 8
    requires forall pid :: pid in seen0 <==> pid in ProductIds(picked0)
    requires tiles0 == Tiles(picked0, images)
    ensures j <= |orders[i]| && picked == FirstPerProduct(Scanned(orders, i, j))
    ensures |tiles| < 8 ==> j == |orders[i]|
    ensures |tiles| <= 8
    ensures forall pid :: pid in seen <==> pid in ProductIds(picked)
    ensures tiles == Tiles(picked, images)
  {
    var items := orders[i];
    ScannedEnds(orders, i);
    seen, picked, tiles := seen0, picked0, tiles0;
    j := 0;
    for k := 0 to |items|
      invariant j == k
      invariant picked == FirstPerProduct(Scanned(orders, i, k))
      invariant |picked| < 8
      invariant forall pid :: pid in seen <==> pid in ProductIds(picked)
      invariant tiles == Tiles(picked, images)
    {
      var it := items[k];
      ScanStep(orders, i, k, picked, seen);
      j := k + 1;
      if it.product.id in seen {
        continue;
      }
      TilesSnoc(picked, it, images);
      seen := seen + {it.product.id};
      picked := picked + [it];
      tiles := tiles + [TileOf(it, images)];
      if |tiles| >= 8 {
        return;
      }
    }
  }

  /** `you`'s "buy again" loop: walks the items of the ten latest orders,
      skips products already shown and stops at eight tiles. */
  method BuyAgain(orders: seq<seq<OrderItem>>, images: map<int, seq<string>>) returns (tiles: seq<Tile>)
    ensures tiles == Tiles(BuyAgainItems(orders), images)
  {
    var recent := orders[..Min(10, |orders|)];
    var seen: set<int> := {};
    ghost var picked: seq<OrderItem> := [];
    tiles := [];
    var i := 0;
    while i < |recent|
      invariant 0 <= i <= |recent|
      invariant picked == FirstPerProduct(ItemsOf(recent[..i]))
      invariant |picked| < 8
      invariant forall pid :: pid in seen <==> pid in ProductIds(picked)
      invariant tiles == Tiles(picked, images)
    {
      ghost var j;
      seen, picked, tiles, j := ScanOrder(recent, i, images, seen, picked, tiles);
      if |tiles| >= 8 {
        ScannedPrefix(recent, i, j);
        FirstPerProductPrefix(Scanned(recent, i, j), ItemsOf(recent));
        ghost var f := FirstPerProduct(ItemsOf(recent));
        assert f[..8] == picked;
        assert BuyAgainItems(orders) == picked;
        return;
      }
      ScannedEnds(recent, i);
      i := i + 1;
    }
    assert recent[..i] == recent;
    assert BuyAgainItems(orders) == picked;
  }

  /** The tiles name distinct products, at most eight, each the first item
      of its product among the ten latest orders; and when fewer than eight
      products were ordered, every one of them is shown. */
  lemma BuyAgainMeaning(orders: seq<seq<OrderItem>>)
    ensures var r := BuyAgainItems(orders);
            var s := ItemsOf(orders[..Min(10, |orders|)]);
            |r| <= 8
            && Distinct(ProductIds(r))
            && (forall k :: 0 <= k < |r| ==> r[k] in s)
            && (|r| < 8 ==> forall it :: it in s ==> it.product.id in ProductIds(r))
  {
    var s := ItemsOf(orders[..Min(10, |orders|)]);
    var f := FirstPerProduct(s);
    FirstPerProductFacts(s);
    var r := f[..Min(8, |f|)];
    assert forall k :: 0 <= k < |r| ==> r[k] == f[k];
    if |r| < 8 {
      assert r == f;
    }
  }

  lemma {:induction false} FirstPerProductFacts(items: seq<OrderItem>)
    ensures var f := FirstPerProduct(items);
            Distinct(ProductIds(f))
            && (forall k :: 0 <= k < |f| ==> f[k] in items)
            && (forall it :: it in items ==> it.product.id in ProductIds(f))
  {
    if items != [] {
      var init := items[..|items| - 1];
      var x := items[|items| - 1];
      assert items == init + [x];
      FirstPerProductFacts(init);
      var acc := FirstPerProduct(init);
      if x.product.id !in ProductIds(acc) {
        assert ProductIds(acc + [x]) == ProductIds(acc) + [x.product.id];
        DistinctConcat(ProductIds(acc), [x.product.id]);
      }
    }
  }

  /** True of the items of product `pid`. */
  function OfProduct(pid: int): OrderItem -> bool
  {
    (it: OrderItem) => it.product.id == pid
  }

  lemma {:induction false} FirstWhereSnoc(s: seq<OrderItem>, x: OrderItem, p: OrderItem -> bool)
    ensures FirstWhere(s + [x], p) == (if FirstWhere(s, p).Some? then FirstWhere(s, p) else if p(x) then Some(|s|) else None)
  {
    if s != [] {
      assert (s + [x])[1..] == s[1..] + [x];
      FirstWhereSnoc(s[1..], x, p);
    } else {
      assert [x][1..] == [];
    }
  }

  /** Where the first item of product `pid` is. */
  function FirstOf(items: seq<OrderItem>, pid: int): Option<nat>
  {
    FirstWhere(items, OfProduct(pid))
  }

  /** The position of the first item of product `pid`; the length when
      there is none. */
  function FirstIndex(items: seq<OrderItem>, pid: int): nat
  {
    match FirstOf(items, pid)
    case Some(m) => m
    case None => |items|
  }

  lemma FirstOfSnoc(init: seq<OrderItem>, x: OrderItem, pid: int)
    ensures FirstOf(init + [x], pid)
            == if FirstOf(init, pid).Some? then FirstOf(init, pid) else if x.product.id == pid then Some(|init|) else None
  {
    FirstWhereSnoc(init, x, OfProduct(pid));
  }

  /** A product that was never picked does not occur at all. */
  lemma NoFirstOfUnpicked(items: seq<OrderItem>, pid: int)
    requires pid !in ProductIds(FirstPerProduct(items))
    ensures FirstOf(items, pid).None?
  {
    FirstPerProductFacts(items);
    forall m | 0 <= m < |items| ensures items[m].product.id != pid
    {
      assert items[m] in items;
    }
  }

  /** Each picked item is the first item of its product. */
  lemma {:induction false} PickedAreFirsts(items: seq<OrderItem>)
    ensures var f := FirstPerProduct(items);
            forall k :: 0 <= k < |f| ==>
              FirstIndex(items, f[k].product.id) < |items| && items[FirstIndex(items, f[k].product.id)] == f[k]
  {
    if items != [] {
      var init := items[..|items| - 1];
      var x := items[|items| - 1];
      assert items == init + [x];
      PickedAreFirsts(init);
      FirstPerProductFacts(init);
      var acc := FirstPerProduct(init);
      var f := FirstPerProduct(items);
      forall k | 0 <= k < |f|
        ensures FirstIndex(items, f[k].product.id) < |items| && items[FirstIndex(items, f[k].product.id)] == f[k]
      {
        FirstOfSnoc(init, x, f[k].product.id);
        if k < |acc| {
          assert f[k] == acc[k];
          assert items[FirstIndex(init, f[k].product.id)] == init[FirstIndex(init, f[k].product.id)];
        } else {
          assert f[k] == x && x.product.id !in ProductIds(acc);
          NoFirstOfUnpicked(init, x.product.id);
        }
      }
    }
  }

  lemma PickedIsFirst(items: seq<OrderItem>, k: nat)
    requires k < |FirstPerProduct(items)|
    ensures FirstOf(items, FirstPerProduct(items)[k].product.id).Some?
    ensures FirstIndex(items, FirstPerProduct(items)[k].product.id) < |items|
    ensures items[FirstIndex(items, FirstPerProduct(items)[k].product.id)] == FirstPerProduct(items)[k]
  {
    PickedAreFirsts(items);
  }

  /** Of two picked items, the earlier one's product first occurs earlier. */
  lemma {:induction false} PickedBefore(items: seq<OrderItem>, k: nat, l: nat)
    requires k < l < |FirstPerProduct(items)|
    ensures FirstIndex(items, FirstPerProduct(items)[k].product.id) < FirstIndex(items, FirstPerProduct(items)[l].product.id)
    decreases |items|
  {
    var init := items[..|items| - 1];
    var x := items[|items| - 1];
    assert items == init + [x];
    var acc := FirstPerProduct(init);
    var f := FirstPerProduct(items);
    FirstPerProductGrows(init, x);
    assert f[k] == acc[k];
    PickedIsFirst(init, k);
    FirstOfSnoc(init, x, acc[k].product.id);
    if l < |acc| {
      assert f[l] == acc[l];
      PickedBefore(init, k, l);
      PickedIsFirst(init, l);
      FirstOfSnoc(init, x, acc[l].product.id);
    } else {
      assert f == acc + [x] && x.product.id !in ProductIds(acc);
      NoFirstOfUnpicked(init, x.product.id);
      FirstOfSnoc(init, x, x.product.id);
    }
  }

  /** The picked items follow the order of their first occurrences: the
      newest order's products come first. */
  lemma PickedInOrder(items: seq<OrderItem>)
    ensures var f := FirstPerProduct(items);
            forall k, l :: 0 <= k < l < |f| ==> FirstIndex(items, f[k].product.id) < FirstIndex(items, f[l].product.id)
  {
    forall k, l | 0 <= k < l < |FirstPerProduct(items)|
      ensures FirstIndex(items, FirstPerProduct(items)[k].product.id) < FirstIndex(items, FirstPerProduct(items)[l].product.id)
    {
      PickedBefore(items, k, l);
    }
  }

  /** Each tile's item is the first item of its product among the ten
      latest orders' items, and the tiles come in the order of those first
      items, newest order first. */
  lemma BuyAgainOrder(orders: seq<seq<OrderItem>>)
    ensures var r := BuyAgainItems(orders);
            var s := ItemsOf(orders[..Min(10, |orders|)]);
            (forall k :: 0 <= k < |r| ==> FirstIndex(s, r[k].product.id) < |s| && s[FirstIndex(s, r[k].product.id)] == r[k])
            && (forall k, l :: 0 <= k < l < |r| ==> FirstIndex(s, r[k].product.id) < FirstIndex(s, r[l].product.id))
  {
    var s := ItemsOf(orders[..Min(10, |orders|)]);
    var f := FirstPerProduct(s);
    var r := BuyAgainItems(orders);
    assert r == f[..Min(8, |f|)];
    forall k | 0 <= k < |r|
      ensures FirstIndex(s, r[k].product.id) < |s| && s[FirstIndex(s, r[k].product.id)] == r[k]
    {
      assert r[k] == f[k];
      PickedIsFirst(s, k);
    }
    forall k, l | 0 <= k < l < |r|
      ensures FirstIndex(s, r[k].product.id) < FirstIndex(s, r[l].product.id)
    {
      assert r[k] == f[k] && r[l] == f[l];
      PickedBefore(s, k, l);
    }
  }

  // ---------------------------------------------------------------------
  // Sessions

  /** A stored session: its expiry and its decoded payload (`None` when
      the payload cannot be decoded). */
  datatype StoredSession = StoredSession(key: string, expireDate: int, data: Option<map<string, string>>)

  /** `str(data.get("_auth_user_id"))`. */
  function AuthUserId(data: map<string, string>): string
  {
    if "_auth_user_id" in data then data["_auth_user_id"] else "None"
  }

  /** A live session signed in as user `uid` at instant `now`. */
  predicate SignedInAs(s: StoredSession, uid: int, now: int)
  {
    s.expireDate >= now && s.data.Some? && AuthUserId(s.data.value) == IntToString(uid)
  }

  function Survives(uid: int, now: int): StoredSession -> bool
  {
    (s: StoredSession) => !SignedInAs(s, uid, now)
  }

  lemma SurvivesWhen(s: StoredSession, uid: int, now: int)
    ensures Survives(uid, now)(s) <==> s.expireDate < now || s.data.None? || AuthUserId(s.data.value) != IntToString(uid)
  {
  }

  /** The loop of `signout_all_sessions` and `delete_account`: deletes
      every live session of user `uid`, skipping the undecodable ones. */
  method EndSessions(sessions: seq<StoredSession>, uid: int, now: int) returns (kept: seq<StoredSession>)
    ensures kept == Filter(sessions, Survives(uid, now))
  {
    kept := [];
    for i := 0 to |sessions|
      invariant kept == Filter(sessions[..i], Survives(uid, now))
    {
      var s := sessions[i];
      FilterPrefixSnoc(sessions, i, Survives(uid, now));
      SurvivesWhen(s, uid, now);
      if s.expireDate < now || s.data.None? {
        kept := kept + [s];
        continue;
      }
      if AuthUserId(s.data.value) != IntToString(uid) {
        kept := kept + [s];
      }
    }
    assert sessions[..|sessions|] == sessions;
  }

  /** What survives is exactly what was not a live session of the user:
      expired sessions, undecodable ones and other users' stay. */
  lemma EndSessionsMeaning(sessions: seq<StoredSession>, uid: int, now: int)
    ensures var kept := Filter(sessions, Survives(uid, now));
            (forall s :: s in kept <==> s in sessions && !SignedInAs(s, uid, now))
            && (forall k :: 0 <= k < |kept| ==> !SignedInAs(kept[k], uid, now))
  {
    FilterComplete(sessions, Survives(uid, now));
  }

  /** A session records its user id as `str(pk)`, so a user's sessions
      name no other user. */
  lemma SessionNamesOneUser(s: StoredSession, uid: int, other: int, now: int)
    requires SignedInAs(s, uid, now) && other != uid
    ensures !SignedInAs(s, other, now)
  {
    ParseIntOfIntToString(uid);
    ParseIntOfIntToString(other);
  }

  /** `signout_all_sessions`: only a POST signs out, and then every live
      session of the user goes. */
  method SignOutAll(isPost: bool, sessions: seq<StoredSession>, uid: int, now: int)
    returns (signedOut: bool, kept: seq<StoredSession>)
    ensures signedOut == isPost
    ensures !isPost ==> kept == sessions
    ensures isPost ==> kept == Filter(sessions, Survives(uid, now))
  {
    if !isPost {
      return false, sessions;
    }
    kept := EndSessions(sessions, uid, now);
    signedOut := true;
  }

  // ---------------------------------------------------------------------
  // Deleting the account

  /** The account's rows: the user, their profile if they have one, and
      the address and session tables. */
  datatype Account = Account(user: User, profile: Option<Profile>, addresses: seq<Address>, sessions: seq<StoredSession>)

  /** A profile holding no personal data. */
  predicate Blank(p: Profile)
  {
    p.avatar.None? && p.phone == "" && p.line1 == "" && p.line2 == "" && p.city == ""
    && p.state == "" && p.postalCode == "" && p.interests == ""
  }

  function OwnedBy(uid: int): Address -> bool
  {
    (a: Address) => a.userId != uid
  }

  /** `delete_account`.  Only a POST deletes.  The user's live sessions and
      addresses go and the profile is blanked (the country stays); the user
      row is then deactivated and anonymised, unless that final save fails
      (`saveFails`, the new username being taken), which leaves the user
      row as it was after the other tables have changed and is a server
      error: the logout and the redirect home are never reached.  A GET
      goes back to the profile page. */
  method DeleteAccount(isPost: bool, acct: Account, now: int, saveFails: bool)
    returns (reply: Result<string, string>, after: Account)
    ensures reply == (if !isPost then Ok("profile") else if saveFails then Err("IntegrityError") else Ok("/"))
    ensures !isPost ==> after == acct
    ensures isPost ==> after.sessions == Filter(acct.sessions, Survives(acct.user.id, now))
    ensures isPost ==> after.addresses == Filter(acct.addresses, OwnedBy(acct.user.id))
    ensures isPost ==> (after.profile.Some? <==> acct.profile.Some?)
    ensures isPost && acct.profile.Some? ==> Blank(after.profile.value) && after.profile.value.country == acct.profile.value.country
    ensures isPost && saveFails ==> after.user == acct.user
    ensures isPost && !saveFails ==>
              after.user == acct.user.(isActive := false, username := "deleted_" + IntToString(acct.user.id), email := "",
                                       hasUsablePassword := false, firstName := "", lastName := "")
  {
    if !isPost {
      return Ok("profile"), acct;
    }
    var uid := acct.user.id;
    var sessions := EndSessions(acct.sessions, uid, now);
    var profile := acct.profile;
    if profile.Some? {
      var p := profile.value;
      profile := Some(p.(avatar := None, phone := "", line1 := "", line2 := "", city := "", state := "",
                         postalCode := "", country := if p.country != "" then p.country else "", interests := ""));
    }
    var addresses := Filter(acct.addresses, OwnedBy(uid));
    var user := acct.user;
    reply := Err("IntegrityError");
    if !saveFails {
      user := user.(isActive := false, username := "deleted_" + IntToString(uid), email := "",
                    hasUsablePassword := false, firstName := "", lastName := "");
      reply := Ok("/");
    }
    after := Account(user, profile, addresses, sessions);
  }

  /** After a deletion no address of the user is left and every other
      user's addresses are all still there. */
  lemma DeletionRemovesEverything(acct: Account)
    ensures var left := Filter(acct.addresses, OwnedBy(acct.user.id));
            (forall a :: a in left ==> a.userId != acct.user.id)
            && (forall a :: a in acct.addresses && a.userId != acct.user.id ==> a in left)
  {
    FilterComplete(acct.addresses, OwnedBy(acct.user.id));
  }
}
