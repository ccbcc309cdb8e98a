/** Catalogue records: categories and products with their slug-defaulting
    save, variants with their size and colour choices, and wishlist entries.
    Prices are in paise, weights in grams (the database keeps three decimal
    places of a kilogram), package dimensions in whole centimetres. */
module CatalogModels {
  import opened Basics

  /** Shipping attributes shared by products and variants; a `None` is a
      NULL column. */
  datatype ShipAttrs = ShipAttrs(weightG: Option<int>, lengthCm: Option<nat>, breadthCm: Option<nat>, heightCm: Option<nat>)

  datatype Product = Product(
    id: int,
    name: string,
    slug: string,
    categoryId: int,
    description: string,
    basePrice: int,
    salePrice: Option<int>,
    isActive: bool,
    ship: ShipAttrs)

  /** `Variant` declares no price columns of its own, so a variant never
      carries a price; it has a stock count, an optional cost and its own
      optional shipping attributes. */
  datatype Variant = Variant(
    id: int,
    productId: int,
    size: string,
    color: string,
    sku: string,
    stock: nat,
    costPrice: Option<int>,
    ship: ShipAttrs)

  datatype WishlistItem = WishlistItem(userId: int, productId: int)

  /** The selling price: the sale price when one is set, the base price
      otherwise. */
  function Price(p: Product): (r: int)
    ensures p.salePrice.Some? ==> r == p.salePrice.value
    ensures p.salePrice.None? ==> r == p.basePrice
  {
    if p.salePrice.Some? then p.salePrice.value else p.basePrice
  }

  /** The selling price is below the base price exactly when a sale price
      below it is set; without a sale price a product sells at its base
      price. */
  lemma PriceBelowBase(p: Product)
    ensures Price(p) < p.basePrice <==> p.salePrice.Some? && p.salePrice.value < p.basePrice
    ensures p.salePrice.None? ==> Price(p) == p.basePrice
  {
  }

  // ---------------------------------------------------------------------
  // Slugs

  /** The slug `save()` writes: the existing one if it is non-empty,
      otherwise `slugify(name)`.  `slugify` is Django's and is a parameter. */
  function SlugOnSave(slug: string, name: string, slugify: string -> string): (r: string)
    ensures slug != "" ==> r == slug
    ensures slug == "" ==> r == slugify(name)
  {
    if slug == "" then slugify(name) else slug
  }

  /** Saving twice writes the same slug as saving once. */
  lemma SlugOnSaveIdempotent(slug: string, name: string, slugify: string -> string)
    ensures SlugOnSave(SlugOnSave(slug, name, slugify), name, slugify) == SlugOnSave(slug, name, slugify)
  {
  }

  /** A record whose `save()` fills in a missing slug before persisting;
      `Category` and `Product` share this behaviour. */
  class SluggedRecord {
    var name: string
    var slug: string

    constructor (name: string, slug: string)
      ensures this.name == name && this.slug == slug
    {
      this.name := name;
      this.slug := slug;
    }

    method Save(slugify: string -> string)
      modifies this
      ensures slug == SlugOnSave(old(slug), old(name), slugify)
      ensures name == old(name)
    {
      if slug == "" {
        slug := slugify(name);
      }
    }
  }

  // ---------------------------------------------------------------------
  // Uniqueness constraints as table invariants

  predicate SameVariantKey(a: Variant, b: Variant)
  {
    a.productId == b.productId && a.size == b.size && a.color == b.color
  }

  /** `unique_together = ("product", "size", "color")`. */
  predicate VariantsUnique(vs: seq<Variant>)
  {
    forall i, j :: 0 <= i < j < |vs| ==> !SameVariantKey(vs[i], vs[j])
  }

  /** Inserting a variant: the database refuses a second row with the same
      product, size and colour. */
  function InsertVariant(vs: seq<Variant>, v: Variant): (r: Result<seq<Variant>, string>)
    ensures r.Ok? <==> (forall i :: 0 <= i < |vs| ==> !SameVariantKey(vs[i], v))
    ensures r.Ok? ==> r.value == vs + [v]
  {
    if exists i :: 0 <= i < |vs| && SameVariantKey(vs[i], v) then Err("IntegrityError") else Ok(vs + [v])
  }

  lemma InsertVariantKeepsUnique(vs: seq<Variant>, v: Variant)
    requires VariantsUnique(vs)
    ensures InsertVariant(vs, v).Ok? ==> VariantsUnique(InsertVariant(vs, v).value)
  {
  }

  /** `unique_together = ("user", "product")`. */
  predicate WishlistUnique(w: seq<WishlistItem>)
  {
    Distinct(w)
  }

  /** `WishlistItem.objects.get_or_create(user=..., product=...)`. */
  function WishlistAdd(w: seq<WishlistItem>, userId: int, productId: int): (r: seq<WishlistItem>)
    ensures WishlistItem(userId, productId) in r
    ensures forall x :: x in w ==> x in r
    ensures forall x :: x in r ==> x in w || x == WishlistItem(userId, productId)
  {
    if WishlistItem(userId, productId) in w then w else w + [WishlistItem(userId, productId)]
  }

  /** `WishlistItem.objects.filter(user=..., product_id=...).delete()`. */
  function WishlistRemove(w: seq<WishlistItem>, userId: int, productId: int): (r: seq<WishlistItem>)
    ensures WishlistItem(userId, productId) !in r
    ensures forall x :: x in r <==> x in w && x != WishlistItem(userId, productId)
  {
    if w == [] then []
    else (if w[0] == WishlistItem(userId, productId) then [] else [w[0]]) + WishlistRemove(w[1..], userId, productId)
  }

  lemma {:induction false} WishlistRemoveKeepsUnique(w: seq<WishlistItem>, userId: int, productId: int)
    requires WishlistUnique(w)
    ensures WishlistUnique(WishlistRemove(w, userId, productId))
    decreases |w|
  {
    if w != [] {
      WishlistRemoveKeepsUnique(w[1..], userId, productId);
      var rest := WishlistRemove(w[1..], userId, productId);
      assert w[0] !in w[1..];
      assert w[0] !in rest;
    }
  }

  /** Adding keeps at most one entry per user and product, and adding again
      changes nothing. */
  lemma WishlistAddKeepsUnique(w: seq<WishlistItem>, userId: int, productId: int)
    requires WishlistUnique(w)
    ensures WishlistUnique(WishlistAdd(w, userId, productId))
    ensures WishlistAdd(WishlistAdd(w, userId, productId), userId, productId) == WishlistAdd(w, userId, productId)
  {
  }
}
