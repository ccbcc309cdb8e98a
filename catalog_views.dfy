/** The storefront's catalogue pages: the colour an uploaded photo is
    matched to, the ordering of a product's size and colour selectors, the
    search page's choice of products, and the home page's top deals. */
module CatalogViews {
  import opened Basics
  import opened Text
  import opened CatalogModels
  import opened Sorting

  // ---------------------------------------------------------------------
  // Nearest palette colour

  datatype Rgb = Rgb(r: int, g: int, b: int)

  datatype Swatch = Swatch(name: string, rgb: Rgb)

  /** The palette of `_nearest_color`, in its declared order. */
  const Palette: seq<Swatch> := [
    Swatch("Red", Rgb(239, 68, 68)),
    Swatch("Black", Rgb(17, 24, 39)),
    Swatch("Navy Blue", Rgb(30, 58, 138)),
    Swatch("White", Rgb(250, 250, 250)),
    Swatch("Grey", Rgb(107, 114, 128))]

  /** `n * n` times the squared distance between the average `total / n`
      and `p`: comparing these compares the distances to the average
      exactly. */
  function Dist2(total: Rgb, n: nat, p: Rgb): int
  {
    Sq(total.r - n * p.r) + Sq(total.g - n * p.g) + Sq(total.b - n * p.b)
  }

  function Sq(x: int): int { x * x }

  /** The index `min(..., key=...)` picks: a closest swatch, the first one
      on ties. */
  function ClosestIndex(ps: seq<Swatch>, total: Rgb, n: nat): (k: nat)
    requires ps != []
    ensures k < |ps|
    ensures forall j :: 0 <= j < |ps| ==> Dist2(total, n, ps[k].rgb) <= Dist2(total, n, ps[j].rgb)
    ensures forall j :: 0 <= j < k ==> Dist2(total, n, ps[j].rgb) > Dist2(total, n, ps[k].rgb)
  {
    if |ps| == 1 then 0
    else
      var k := ClosestIndex(ps[..|ps| - 1], total, n);
      assert forall j :: 0 <= j < |ps| - 1 ==> ps[..|ps| - 1][j] == ps[j];
      if Dist2(total, n, ps[|ps| - 1].rgb) < Dist2(total, n, ps[k].rgb) then |ps| - 1 else k
  }

  /** `_nearest_color` for the average colour `total / n`: the name of a
      palette swatch no other swatch is closer to. */
  function NearestColor(total: Rgb, n: nat): (r: string)
    ensures exists k :: 0 <= k < |Palette| && r == Palette[k].name
                        && forall j :: 0 <= j < |Palette| ==> Dist2(total, n, Palette[k].rgb) <= Dist2(total, n, Palette[j].rgb)
  {
    var k := ClosestIndex(Palette, total, n);
    Palette[k].name
  }

  /** The answer is always one of the five palette names. */
  lemma NearestIsPaletteName(total: Rgb, n: nat)
    ensures NearestColor(total, n) in ["Red", "Black", "Navy Blue", "White", "Grey"]
  {
    var k := ClosestIndex(Palette, total, n);
    assert Palette[k].name == ["Red", "Black", "Navy Blue", "White", "Grey"][k];
  }

  /** The palette's colours are pairwise different. */
  lemma PaletteDistinct()
    ensures forall i, j :: 0 <= i < j < |Palette| ==> Palette[i].rgb != Palette[j].rgb
  {
  }

  /** An average equal to a palette colour is matched to that colour's
      name. */
  lemma ExactColorMatches(k: nat, n: nat)
    requires k < |Palette| && n > 0
    ensures NearestColor(Rgb(n * Palette[k].rgb.r, n * Palette[k].rgb.g, n * Palette[k].rgb.b), n) == Palette[k].name
  {
    var p := Palette[k].rgb;
    var total := Rgb(n * p.r, n * p.g, n * p.b);
    assert Dist2(total, n, p) == 0;
    PaletteDistinct();
    forall j | 0 <= j < |Palette| && j != k ensures Dist2(total, n, Palette[j].rgb) > 0
    {
      PositiveDistance(p, Palette[j].rgb, n);
    }
  }

  /** A palette colour other than the average is at positive distance. */
  lemma PositiveDistance(p: Rgb, q: Rgb, n: nat)
    requires p != q && n > 0
    ensures Dist2(Rgb(n * p.r, n * p.g, n * p.b), n, q) > 0
  {
    var t := Rgb(n * p.r, n * p.g, n * p.b);
    ScaledDifference(n, p.r, q.r);
    ScaledDifference(n, p.g, q.g);
    ScaledDifference(n, p.b, q.b);
    assert Sq(t.r - n * q.r) >= 0 && Sq(t.g - n * q.g) >= 0 && Sq(t.b - n * q.b) >= 0;
  }

  /** `n * a - n * b` is zero exactly when `a == b`, and its square is
      positive otherwise. */
  lemma ScaledDifference(n: nat, a: int, b: int)
    requires n > 0
    ensures Sq(n * a - n * b) >= 0
    ensures a != b ==> Sq(n * a - n * b) > 0
  {
    var d := n * a - n * b;
    assert d == n * (a - b);
    if a > b {
      MulPositive(n, a - b);
    } else if a < b {
      MulPositive(n, b - a);
      assert d == -(n * (b - a));
    }
    SquareSign(d);
  }

  lemma MulPositive(n: int, x: int)
    requires n > 0 && x > 0
    ensures n * x > 0
  {
  }

  lemma SquareSign(x: int)
    ensures Sq(x) >= 0
    ensures x != 0 ==> Sq(x) > 0
  {
    if x > 0 {
      MulPositive(x, x);
    } else if x < 0 {
      MulPositive(-x, -x);
    }
  }

  // ---------------------------------------------------------------------
  // Size and colour selectors

  /** `size_order` and `color_order`. */
  const SizeOrder: seq<string> := ["M", "L", "XL", "XXL"]
  const ColorOrder: seq<string> := ["Red", "Black", "Navy Blue", "White", "Grey"]

  /** The first part of the sort key: the position in the fixed order, or
      999 for a value outside it. */
  function Rank(order: seq<string>, s: string): (r: int)
    ensures s !in order ==> r == 999
    ensures s in order ==> 0 <= r < |order| && order[r] == s && forall j :: 0 <= j < r ==> order[j] != s
  {
    var i := FirstWhere(order, (x: string) => x == s);
    if i.Some? then i.value else 999
  }

  /** The key `(rank, s)` of `a` is at most that of `b`. */
  predicate KeyLe(order: seq<string>, a: string, b: string)
  {
    Rank(order, a) < Rank(order, b) || (Rank(order, a) == Rank(order, b) && !StrLess(b, a))
  }

  function ChoiceLe(order: seq<string>): (string, string) -> bool
  {
    (a: string, b: string) => KeyLe(order, a, b)
  }

  /** The key order is a total order on strings. */
  lemma KeyLeIsOrder(order: seq<string>)
    ensures Total(ChoiceLe(order)) && Transitive(ChoiceLe(order))
    ensures forall a, b :: KeyLe(order, a, b) && KeyLe(order, b, a) ==> a == b
  {
    var le := ChoiceLe(order);
    forall a, b ensures le(a, b) || le(b, a)
    {
      StrLessTrichotomy(a, b);
    }
    forall a, b, c | le(a, b) && le(b, c) ensures le(a, c)
    {
      if Rank(order, a) == Rank(order, b) == Rank(order, c) {
        StrLessTrichotomy(a, b);
        StrLessTrichotomy(b, c);
        StrLessTrichotomy(a, c);
        if a != b && b != c {
          StrLessTransitive(a, b, c);
        }
      }
    }
    forall a, b | KeyLe(order, a, b) && KeyLe(order, b, a) ensures a == b
    {
      StrLessTrichotomy(a, b);
    }
  }

  /** `sorted(set(raw), key=lambda s: (order.index(s) if s in order else
      999, s))`. */
  function OrderedChoices(raw: seq<string>, order: seq<string>): seq<string>
  {
    Sort(Dedupe(raw), ChoiceLe(order))
  }

  /** The selector lists every distinct value once, values of the fixed
      order come first and in that order, and the others follow in code
      point order. */
  lemma OrderedChoicesMeaning(raw: seq<string>, order: seq<string>)
    ensures var r := OrderedChoices(raw, order);
            && Distinct(r)
            && (forall x :: x in r <==> x in raw)
            && (forall i, j :: 0 <= i < j < |r| ==> Rank(order, r[i]) <= Rank(order, r[j]))
            && (forall i, j :: 0 <= i < j < |r| && Rank(order, r[i]) == Rank(order, r[j]) ==> StrLess(r[i], r[j]))
  {
    var d := Dedupe(raw);
    var r := OrderedChoices(raw, order);
    KeyLeIsOrder(order);
    SortSorted(d, ChoiceLe(order));
    SortDistinct(d, ChoiceLe(order));
    assert forall x :: x in r <==> x in multiset(d);
    forall i, j | 0 <= i < j < |r| && Rank(order, r[i]) == Rank(order, r[j]) ensures StrLess(r[i], r[j])
    {
      assert ChoiceLe(order)(r[i], r[j]);
      StrLessTrichotomy(r[i], r[j]);
    }
  }

  /** The product page's selectors: sizes by the fixed size order and
      colours by the fixed colour order. */
  function Sizes(variants: seq<Variant>): seq<string>
  {
    OrderedChoices(seq(|variants|, k requires 0 <= k < |variants| => variants[k].size), SizeOrder)
  }

  function Colors(variants: seq<Variant>): seq<string>
  {
    OrderedChoices(seq(|variants|, k requires 0 <= k < |variants| => variants[k].color), ColorOrder)
  }

  /** Sizes of the fixed order appear as M, L, XL, XXL, ahead of any unknown
      size. */
  lemma SizesFollowFixedOrder(variants: seq<Variant>)
    ensures var r := Sizes(variants);
            Distinct(r)
            && (forall x :: x in r <==> exists k :: 0 <= k < |variants| && variants[k].size == x)
            && (forall i, j :: 0 <= i < j < |r| && r[j] in SizeOrder ==> r[i] in SizeOrder)
            && (forall i, j :: 0 <= i < j < |r| && r[j] in SizeOrder ==> Rank(SizeOrder, r[i]) < Rank(SizeOrder, r[j]))
  {
    var raw := seq(|variants|, k requires 0 <= k < |variants| => variants[k].size);
    OrderedChoicesMeaning(raw, SizeOrder);
    var r := Sizes(variants);
    forall x ensures x in r <==> exists k :: 0 <= k < |variants| && variants[k].size == x
    {
      if x in raw {
        var k :| 0 <= k < |raw| && raw[k] == x;
        assert variants[k].size == x;
      }
      if exists k :: 0 <= k < |variants| && variants[k].size == x {
        var k :| 0 <= k < |variants| && variants[k].size == x;
        assert raw[k] == x;
      }
    }
    forall i, j | 0 <= i < j < |r| && r[j] in SizeOrder
      ensures r[i] in SizeOrder && Rank(SizeOrder, r[i]) < Rank(SizeOrder, r[j])
    {
      assert Rank(SizeOrder, r[i]) <= Rank(SizeOrder, r[j]) < |SizeOrder|;
      assert r[i] != r[j];
    }
  }

  /** Colours appear in the fixed order Red, Black, Navy Blue, White, Grey,
      ahead of any unknown colour. */
  lemma ColorsFollowFixedOrder(variants: seq<Variant>)
    ensures var r := Colors(variants);
            Distinct(r)
            && (forall x :: x in r <==> exists k :: 0 <= k < |variants| && variants[k].color == x)
            && (forall i, j :: 0 <= i < j < |r| && r[j] in ColorOrder ==> r[i] in ColorOrder)
            && (forall i, j :: 0 <= i < j < |r| && r[j] in ColorOrder ==> Rank(ColorOrder, r[i]) < Rank(ColorOrder, r[j]))
  {
    var raw := seq(|variants|, k requires 0 <= k < |variants| => variants[k].color);
    OrderedChoicesMeaning(raw, ColorOrder);
    var r := Colors(variants);
    forall x ensures x in r <==> exists k :: 0 <= k < |variants| && variants[k].color == x
    {
      if x in raw {
        var k :| 0 <= k < |raw| && raw[k] == x;
        assert variants[k].color == x;
      }
      if exists k :: 0 <= k < |variants| && variants[k].color == x {
        var k :| 0 <= k < |variants| && variants[k].color == x;
        assert raw[k] == x;
      }
    }
    forall i, j | 0 <= i < j < |r| && r[j] in ColorOrder
      ensures r[i] in ColorOrder && Rank(ColorOrder, r[i]) < Rank(ColorOrder, r[j])
    {
      assert Rank(ColorOrder, r[i]) <= Rank(ColorOrder, r[j]) < |ColorOrder|;
      assert r[i] != r[j];
    }
  }

  // ---------------------------------------------------------------------
  // Search

  /** `name__icontains=q`: containment after ASCII lower-casing. */
  predicate IContains(s: string, q: string)
  {
    Contains(Lower(s), Lower(q))
  }

  /** What a search request brings: a POSTed image, read and averaged,
      one that cannot be analysed, or no image at all. */
  datatype Upload = NoImage | Unreadable | Averaged(total: Rgb)

  datatype SearchPage = SearchPage(products: seq<Product>, title: string, hint: Option<string>, q: string)

  /** A 64 x 64 thumbnail of the upload is averaged. */
  const PixelCount: nat := 4096

  function Active(products: seq<Product>): seq<Product>
  {
    Filter(products, (p: Product) => p.isActive)
  }

  /** Products with a variant of colour `color`. */
  function WithColor(products: seq<Product>, variants: seq<Variant>, color: string): seq<Product>
  {
    Filter(products, (p: Product) => HasColorVariant(variants, color, p))
  }

  predicate HasColorVariant(variants: seq<Variant>, color: string, p: Product)
  {
    exists k :: 0 <= k < |variants| && variants[k].productId == p.id && variants[k].color == color
  }

  lemma ActiveWithColor(products: seq<Product>, variants: seq<Variant>, color: string)
    ensures forall p :: p in WithColor(Active(products), variants, color) <==> p in products && p.isActive && HasColorVariant(variants, color, p)
  {
    FilterComplete(products, (p: Product) => p.isActive);
    FilterComplete(Active(products), (p: Product) => HasColorVariant(variants, color, p));
  }

  function TextMatches(products: seq<Product>, q: string): seq<Product>
  {
    Filter(products, (p: Product) => IContains(p.name, q) || IContains(p.description, q))
  }

  /** `search`: a POSTed image filters active products by the nearest
      palette colour (or, when it cannot be read, shows them all);
      otherwise a blank query shows nothing and a query matches names and
      descriptions. */
  function Search(products: seq<Product>, variants: seq<Variant>, query: map<string, string>, isPost: bool, upload: Upload): (page: SearchPage)
    ensures page.q == Trim(Python, if "q" in query then query["q"] else "")
    ensures forall p :: p in page.products ==> p in products && p.isActive
    ensures isPost && upload.Unreadable? ==> forall p :: p in products && p.isActive ==> p in page.products
  {
    FilterComplete(products, (p: Product) => p.isActive);
    var q := Trim(Python, if "q" in query then query["q"] else "");
    if isPost && upload.Averaged? then
      var color := NearestColor(upload.total, PixelCount);
      SearchPage(WithColor(Active(products), variants, color), "Results by image color: " + color, Some("Filtered using detected color: " + color), q)
    else if isPost && upload.Unreadable? then
      SearchPage(Active(products), "Search", None, q)
    else if q != "" then
      SearchPage(TextMatches(Active(products), q), "Results for '" + q + "'", None, q)
    else
      SearchPage([], "Type to search products", None, q)
  }

  /** A text search shows exactly the active products whose name or
      description contains the trimmed query, ignoring case; a blank query
      shows none. */
  lemma TextSearchMeaning(products: seq<Product>, variants: seq<Variant>, query: map<string, string>, isPost: bool, upload: Upload)
    requires !isPost || upload.NoImage?
    ensures var q := Trim(Python, if "q" in query then query["q"] else "");
            var page := Search(products, variants, query, isPost, upload);
            (q == "" ==> page.products == [])
            && (q != "" ==> forall p :: p in page.products <==> p in products && p.isActive && (IContains(p.name, q) || IContains(p.description, q)))
  {
    var act := Active(products);
    FilterComplete(products, (p: Product) => p.isActive);
    var q := Trim(Python, if "q" in query then query["q"] else "");
    FilterComplete(act, (p: Product) => IContains(p.name, q) || IContains(p.description, q));
  }

  /** An image search shows exactly the active products having a variant
      in the detected colour, which is a palette name. */
  lemma ImageSearchMeaning(products: seq<Product>, variants: seq<Variant>, query: map<string, string>, total: Rgb)
    ensures var page := Search(products, variants, query, true, Averaged(total));
            var color := NearestColor(total, PixelCount);
            color in ["Red", "Black", "Navy Blue", "White", "Grey"]
            && forall p :: p in page.products <==>
                 p in products && p.isActive && exists k :: 0 <= k < |variants| && variants[k].productId == p.id && variants[k].color == color
  {
    NearestIsPaletteName(total, PixelCount);
    var color := NearestColor(total, PixelCount);
    var page := Search(products, variants, query, true, Averaged(total));
    assert page.products == WithColor(Active(products), variants, color);
    ActiveWithColor(products, variants, color);
  }

  // ---------------------------------------------------------------------
  // Top deals

  /** `(base_price - sale_price) * 100.0 / base_price`, computed exactly;
      a product without a sale price, or with a zero base price (where SQL
      gives NULL), has none. */
  function DealDiscount(p: Product): real
  {
    if p.salePrice.Some? && p.basePrice != 0 then ((p.basePrice - p.salePrice.value) * 100) as real / p.basePrice as real else 0.0
  }

  predicate IsDeal(p: Product)
  {
    p.isActive && p.salePrice.Some? && p.basePrice != 0 && 0.0 < DealDiscount(p) <= 30.0
  }

  /** For a positive base price, a deal is a sale price below the base
      price by at most 30 percent of it. */
  lemma DealInIntegers(p: Product)
    requires p.basePrice > 0
    ensures IsDeal(p) <==> p.isActive && p.salePrice.Some? && p.salePrice.value < p.basePrice
                           && (p.basePrice - p.salePrice.value) * 100 <= 30 * p.basePrice
  {
    if p.salePrice.Some? {
      var x := ((p.basePrice - p.salePrice.value) * 100) as real;
      var b := p.basePrice as real;
      QuotientSign(x, b, 0.0);
      QuotientSign(x, b, 30.0);
    }
  }

  /** A top deal sells below its base price, and at most 30 percent below
      it. */
  lemma DealPriceBelowBase(p: Product)
    requires IsDeal(p) && p.basePrice > 0
    ensures Price(p) < p.basePrice && (p.basePrice - Price(p)) * 100 <= 30 * p.basePrice
  {
    DealInIntegers(p);
  }

  /** For a positive divisor, `x / b` compares with `c` as `x` does with
      `c * b`. */
  lemma QuotientSign(x: real, b: real, c: real)
    requires b > 0.0
    ensures x / b <= c <==> x <= c * b
  {
    var d := x / b;
    assert d * b == x;
    assert (d - c) * b == x - c * b;
    ProductSign(d - c, b);
  }

  lemma ProductSign(u: real, b: real)
    requires b > 0.0
    ensures u > 0.0 ==> u * b > 0.0
    ensures u <= 0.0 ==> u * b <= 0.0
  {
  }

  /** Higher discount first. */
  function DealLe(): (Product, Product) -> bool
  {
    (p: Product, q: Product) => DealDiscount(p) >= DealDiscount(q)
  }

  /** The home page's deals: the first eight deals of the catalogue by
      decreasing discount, or all of them when there are fewer.  Each shown
      deal is a catalogue row that is a deal, and none is shown more often
      than the catalogue lists it. */
  function TopDeals(products: seq<Product>): (r: seq<Product>)
    ensures |r| == Min(8, |Filter(products, IsDeal)|)
    ensures multiset(r) <= multiset(Filter(products, IsDeal))
    ensures forall i :: 0 <= i < |r| ==> r[i] in products && IsDeal(r[i])
    ensures forall i, j :: 0 <= i < j < |r| ==> DealDiscount(r[i]) >= DealDiscount(r[j])
  {
    var f := Filter(products, IsDeal);
    var s := Sort(f, DealLe());
    assert Total(DealLe()) && Transitive(DealLe());
    SortSorted(f, DealLe());
    SortedPrefix(f, s, Min(8, |s|));
    assert |s| == |f| by {
      assert |multiset(s)| == |multiset(f)|;
    }
    var r := s[..Min(8, |s|)];
    assert forall i :: 0 <= i < |r| ==> r[i] in products && IsDeal(r[i]) by {
      forall i | 0 <= i < |r| ensures r[i] in products && IsDeal(r[i])
      {
        assert r[i] in f;
      }
    }
    r
  }

  /** A prefix of the deals sorted by discount keeps the order and takes no
      deal more often than the deals list it. */
  lemma SortedPrefix(f: seq<Product>, s: seq<Product>, n: nat)
    requires multiset(s) == multiset(f) && SortedBy(s, DealLe()) && n <= |s|
    ensures multiset(s[..n]) <= multiset(f)
    ensures forall i :: 0 <= i < n ==> s[..n][i] in f
    ensures forall i, j :: 0 <= i < j < n ==> DealDiscount(s[..n][i]) >= DealDiscount(s[..n][j])
  {
    PrefixMultiset(s, n);
    forall i | 0 <= i < n ensures s[..n][i] in f
    {
      assert s[..n][i] == s[i] && s[i] in multiset(s);
    }
    forall i, j | 0 <= i < j < n ensures DealDiscount(s[..n][i]) >= DealDiscount(s[..n][j])
    {
      assert DealLe()(s[i], s[j]);
    }
  }

  /** No deal left out has a larger discount than one shown. */
  lemma TopDealsBest(products: seq<Product>)
    ensures var r := TopDeals(products);
            forall p :: p in products && IsDeal(p) && p !in r ==> forall i :: 0 <= i < |r| ==> DealDiscount(r[i]) >= DealDiscount(p)
  {
    var f := Filter(products, IsDeal);
    var s := Sort(f, DealLe());
    var r := TopDeals(products);
    assert Total(DealLe()) && Transitive(DealLe());
    SortSorted(f, DealLe());
    FilterComplete(products, IsDeal);
    forall p | p in products && IsDeal(p) && p !in r ensures forall i :: 0 <= i < |r| ==> DealDiscount(r[i]) >= DealDiscount(p)
    {
      assert p in multiset(s);
      var k :| 0 <= k < |s| && s[k] == p;
      assert k >= |r|;
    }
  }
}
