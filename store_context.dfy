/** `store_context`, the template context every page gets: the cart badge
    count, the category menu, and store settings with their defaults. */
module StoreContext {
  import opened Basics
  import opened Text
  import opened Money
  import opened CatalogModels
  import opened CartModels
  import opened SessionCart

  /** Who is asking: a visitor without an account, or a signed-in user
      with or without a `Cart` row. */
  datatype Shopper = Guest | Member(cart: Option<seq<CartItem>>)

  /** `cart_count`.  `fails` is an exception raised while reading either
      cart, which the processor turns into 0.  A signed-in user without a
      cart row is counted from the session, like a guest. */
  function CartCount(shopper: Shopper, lines: seq<Line>, products: map<int, Product>, variants: map<int, Variant>, fails: bool): (n: int)
    ensures fails ==> n == 0
    ensures !fails && shopper.Member? && shopper.cart.Some? ==> n == Units(shopper.cart.value)
    ensures !fails && !(shopper.Member? && shopper.cart.Some?) ==> n == SessionUnits(ReadItems(lines, products, variants))
  {
    if fails then 0
    else if shopper.Member? && shopper.cart.Some? then Units(shopper.cart.value)
    else SessionUnits(ReadItems(lines, products, variants))
  }

  /** The badge never shows a negative count, and a session cart shows at
      least one unit per line it can still read. */
  lemma CartCountBounds(shopper: Shopper, lines: seq<Line>, products: map<int, Product>, variants: map<int, Variant>, fails: bool)
    requires forall p :: p in products.Values ==> Price(p) >= 0
    ensures CartCount(shopper, lines, products, variants, fails) >= 0
    ensures !fails && !shopper.Member? ==> CartCount(shopper, lines, products, variants, fails) >= |ReadItems(lines, products, variants)|
  {
    SessionTotalsOfReadItems(lines, products, variants);
    if shopper.Member? && shopper.cart.Some? {
      UnitsNonNegative(shopper.cart.value);
    }
  }

  /** A menu entry: `Category.objects.all().only("name", "slug")`. */
  datatype MenuCategory = MenuCategory(name: string, slug: string)

  /** The settings the processor reads with `getattr`; `None` is an
      attribute the settings module does not define. */
  datatype StoreSettings = StoreSettings(
    storeName: Option<string>,
    currencySymbol: Option<string>,
    gstRate: Option<string>,
    gstin: Option<string>,
    freeShippingThreshold: Option<int>,
    brandTagline: Option<string>,
    brandLogo: Option<string>,
    brandGold: Option<string>,
    brandGoldDark: Option<string>)

  datatype Context = Context(
    storeName: string,
    currencySymbol: string,
    gstRate: Dec,
    gstin: string,
    freeShippingThreshold: int,
    brandTagline: string,
    brandLogo: string,
    brandGold: string,
    brandGoldDark: string,
    cartCount: int,
    allCategories: seq<MenuCategory>)

  /** The default currency symbol exactly as the source spells it: the
      UTF-8 bytes of the rupee sign read back as Windows-1252 text. */
  const DefaultCurrency: string := "\U{00E2}\U{201A}\U{00B9}"

  function Or<T>(x: Option<T>, default: T): T
  {
    if x.Some? then x.value else default
  }

  /** `store_context(request)`.  `categories` is `None` when the category
      query raises.  `Decimal(str(GST_RATE))` on text that is not a number
      raises out of the processor (`None`). */
  function Build(s: StoreSettings, shopper: Shopper, lines: seq<Line>, products: map<int, Product>, variants: map<int, Variant>,
                 cartFails: bool, categories: Option<seq<MenuCategory>>): (r: Option<Context>)
    ensures r.None? <==> ParseDecimal(Or(s.gstRate, "0.18")).None?
    ensures r.Some? ==>
              r.value.gstRate == ParseDecimal(Or(s.gstRate, "0.18")).value
              && r.value.storeName == Or(s.storeName, "Store")
              && r.value.currencySymbol == Or(s.currencySymbol, DefaultCurrency)
              && r.value.gstin == Or(s.gstin, "")
              && r.value.freeShippingThreshold == Or(s.freeShippingThreshold, 399)
              && r.value.brandTagline == Or(s.brandTagline, "")
              && r.value.brandLogo == Or(s.brandLogo, "img/logo.svg")
              && r.value.brandGold == Or(s.brandGold, "") && r.value.brandGoldDark == Or(s.brandGoldDark, "")
              && r.value.cartCount == CartCount(shopper, lines, products, variants, cartFails)
              && r.value.allCategories == Or(categories, [])
  {
    match ParseDecimal(Or(s.gstRate, "0.18"))
    case None => None
    case Some(rate) =>
      Some(Context(Or(s.storeName, "Store"), Or(s.currencySymbol, DefaultCurrency), rate, Or(s.gstin, ""),
                   Or(s.freeShippingThreshold, 399), Or(s.brandTagline, ""), Or(s.brandLogo, "img/logo.svg"),
                   Or(s.brandGold, ""), Or(s.brandGoldDark, ""),
                   CartCount(shopper, lines, products, variants, cartFails), Or(categories, [])))
  }

  /** Without a `GST_RATE` setting the rate is 18%, as `Decimal("0.18")`
      with two places. */
  lemma DefaultGstRate(s: StoreSettings, shopper: Shopper, lines: seq<Line>, products: map<int, Product>, variants: map<int, Variant>,
                       cartFails: bool, categories: Option<seq<MenuCategory>>)
    requires s.gstRate.None?
    ensures var r := Build(s, shopper, lines, products, variants, cartFails, categories);
            r.Some? && r.value.gstRate == Dec(18, 2)
  {
    ParseDefaultRate();
  }

  /** `Decimal("0.18")` has 18 units at two places. */
  lemma ParseDefaultRate()
    ensures ParseDecimal("0.18") == Some(Dec(18, 2)) && Value(Dec(18, 2)) == 0.18
  {
    assert Pow10(2) == 100;
    var t := "0.18";
    assert TrimLeft(Python, t) == t by { assert !IsSpace(Python, t[0]); }
    assert TrimRight(Python, t) == t by { assert !IsSpace(Python, t[3]); }
    assert t[0] == '0';
    UnsignedDefaultRate();
  }

  lemma UnsignedDefaultRate()
    ensures ParseUnsigned("0.18") == Some((18, 2))
  {
    var t := "0.18";
    assert IndexOf(t, '.') == Some(1) by {
      assert t[0] != '.' && t[1] == '.';
    }
    assert t[..1] == "0" && t[2..] == "18";
    assert DigitsValue("18") == 18 by {
      assert "18"[..1] == "1";
    }
    assert Pow10(2) == 100;
  }
}
