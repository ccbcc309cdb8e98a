/** The database cart: one cart per user, holding items keyed by product and
    optional variant.  Amounts are in paise. */
module CartModels {
  import opened Basics
  import opened CatalogModels

  /** A `CartItem` row with its product and variant already fetched.
      `quantity` is a `PositiveIntegerField`, so it is never negative. */
  datatype CartItem = CartItem(id: int, cartId: int, product: Product, variant: Option<Variant>, quantity: nat)

  /** The key a row is unique on, `("cart", "product", "variant")`. */
  function ItemKey(it: CartItem): (int, int, Option<int>)
  {
    (it.cartId, it.product.id, if it.variant.Some? then Some(it.variant.value.id) else None)
  }

  /** `CartItem.unit_price()`: the variant branch applies only when the
      variant has a `sale_price` or `base_price` attribute, and `Variant`
      declares neither, so the product's price is used for every item. */
  function UnitPrice(it: CartItem): int
  {
    Price(it.product)
  }

  /** `CartItem.line_total()`. */
  function LineTotal(it: CartItem): int
  {
    UnitPrice(it) * it.quantity
  }

  /** The variant never changes what an item costs: every variant of a
      product is sold at the product's selling price. */
  lemma UnitPriceIgnoresVariant(it: CartItem, v: Option<Variant>)
    ensures UnitPrice(it.(variant := v)) == UnitPrice(it) == Price(it.product)
  {
  }

  /** A line total is linear in the quantity: no units cost nothing, one
      unit costs the unit price, and splitting a quantity splits the line
      total, so adding units to an existing row adds their cost. */
  lemma LineTotalLinear(it: CartItem, a: nat, b: nat)
    ensures LineTotal(it.(quantity := 0)) == 0
    ensures LineTotal(it.(quantity := 1)) == UnitPrice(it)
    ensures LineTotal(it.(quantity := a + b)) == LineTotal(it.(quantity := a)) + LineTotal(it.(quantity := b))
  {
    var p := UnitPrice(it);
    assert p * (a + b) == p * a + p * b;
  }

  function LineTotals(items: seq<CartItem>): (r: seq<int>)
    ensures |r| == |items|
    ensures forall i :: 0 <= i < |items| ==> r[i] == LineTotal(items[i])
  {
    if items == [] then [] else LineTotals(items[..|items| - 1]) + [LineTotal(items[|items| - 1])]
  }

  /** `Cart.subtotal()`: the sum of the line totals, starting from 0.00. */
  function Subtotal(items: seq<CartItem>): (r: int)
  {
    Sum(LineTotals(items))
  }

  /** The subtotal of an empty cart is zero, and adding an item adds its
      line total. */
  lemma SubtotalSteps(items: seq<CartItem>, it: CartItem)
    ensures Subtotal([]) == 0
    ensures Subtotal(items + [it]) == Subtotal(items) + Price(it.product) * it.quantity
  {
    assert (items + [it])[..|items + [it]| - 1] == items;
  }

  /** Concatenating two item lists adds their subtotals. */
  lemma SubtotalAppend(a: seq<CartItem>, b: seq<CartItem>)
    ensures Subtotal(a + b) == Subtotal(a) + Subtotal(b)
  {
    assert LineTotals(a + b) == LineTotals(a) + LineTotals(b);
    SumAppend(LineTotals(a), LineTotals(b));
  }

  /** With non-negative prices, the subtotal is non-negative. */
  lemma SubtotalNonNegative(items: seq<CartItem>)
    requires forall i :: 0 <= i < |items| ==> Price(items[i].product) >= 0
    ensures Subtotal(items) >= 0
  {
    var t := LineTotals(items);
    assert forall i :: 0 <= i < |t| ==> t[i] >= 0 by {
      forall i | 0 <= i < |t| ensures t[i] >= 0 {
        assert t[i] == Price(items[i].product) * items[i].quantity;
      }
    }
    SumNonNegative(t);
  }

  /** Total number of units, as the header's cart badge counts them. */
  function Units(items: seq<CartItem>): (r: int)
  {
    if items == [] then 0 else Units(items[..|items| - 1]) + items[|items| - 1].quantity
  }

  lemma UnitsNonNegative(items: seq<CartItem>)
    ensures Units(items) >= 0
  {
    if items != [] { UnitsNonNegative(items[..|items| - 1]); }
  }

  /** Appending a row adds its quantity to the units. */
  lemma UnitsSnoc(items: seq<CartItem>, it: CartItem)
    ensures Units(items + [it]) == Units(items) + it.quantity
  {
    assert (items + [it])[..|items|] == items;
  }

  /** Changing one row's quantity in place changes the units by the
      difference. */
  lemma {:induction false} UnitsUpdate(items: seq<CartItem>, i: nat, q: nat)
    requires i < |items|
    ensures Units(items[i := items[i].(quantity := q)]) == Units(items) - items[i].quantity + q
    decreases |items|
  {
    var u := items[i := items[i].(quantity := q)];
    var n := |items| - 1;
    if i < n {
      assert u[..n] == items[..n][i := items[i].(quantity := q)];
      UnitsUpdate(items[..n], i, q);
    } else {
      assert u[..n] == items[..n];
    }
  }

  /** At most one row per key, as the database treats it for rows with a
      variant; the views' `get_or_create` keeps this for variant-less rows
      too. */
  predicate ItemsUnique(items: seq<CartItem>)
  {
    forall i, j :: 0 <= i < j < |items| ==> ItemKey(items[i]) != ItemKey(items[j])
  }

  /** An SQL unique constraint never compares NULLs equal, so the database
      itself refuses a duplicate only when the variant is set. */
  function InsertItem(items: seq<CartItem>, it: CartItem): (r: Result<seq<CartItem>, string>)
    ensures r.Err? <==> it.variant.Some? && exists i :: 0 <= i < |items| && ItemKey(items[i]) == ItemKey(it)
    ensures r.Ok? ==> r.value == items + [it]
  {
    if it.variant.Some? && exists i :: 0 <= i < |items| && ItemKey(items[i]) == ItemKey(it) then Err("IntegrityError")
    else Ok(items + [it])
  }

  function FindItem(items: seq<CartItem>, key: (int, int, Option<int>)): (r: Option<nat>)
    ensures r.Some? ==> r.value < |items| && ItemKey(items[r.value]) == key
    ensures r.Some? ==> forall j :: 0 <= j < r.value ==> ItemKey(items[j]) != key
    ensures r.None? ==> forall j :: 0 <= j < |items| ==> ItemKey(items[j]) != key
  {
    if items == [] then None
    else if ItemKey(items[0]) == key then Some(0)
    else match FindItem(items[1..], key)
      case None => None
      case Some(k) => Some(k + 1)
  }
}
