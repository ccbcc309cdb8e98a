/** The parcel a set of order lines makes: total weight and the largest
    length, breadth and height.  The storefront computes it in five places
    with the same loop; `Measure` is that loop and `ParcelOf` its meaning. */
module Parcel {
  import opened Basics
  import opened CatalogModels

  /** One `(product, variant, quantity)` source line. */
  datatype ParcelLine = ParcelLine(product: ShipAttrs, variant: Option<ShipAttrs>, qty: int)

  /** Weight in grams, dimensions in centimetres. */
  datatype Box = Box(weightG: int, lengthCm: int, breadthCm: int, heightCm: int)

  /** The `SHIPROCKET_DEFAULT_*` settings: a unit weight in grams (0.5 kg by
      default) and the three default dimensions (20, 15 and 2 cm). */
  datatype Defaults = Defaults(unitWeightG: int, lengthCm: int, breadthCm: int, heightCm: int)

  const StandardDefaults := Defaults(500, 20, 15, 2)

  /** A nullable number is truthy when it is set and not zero. */
  predicate IsTruthy(x: Option<int>) { x.Some? && x.value != 0 }

  /** Per-unit weight: the variant's when truthy, else the product's when
      truthy, else the default. */
  function UnitWeight(l: ParcelLine, d: Defaults): (w: int)
    ensures l.variant.Some? && IsTruthy(l.variant.value.weightG) ==> w == l.variant.value.weightG.value
    ensures !(l.variant.Some? && IsTruthy(l.variant.value.weightG)) && IsTruthy(l.product.weightG) ==> w == l.product.weightG.value
    ensures !(l.variant.Some? && IsTruthy(l.variant.value.weightG)) && !IsTruthy(l.product.weightG) ==> w == d.unitWeightG
  {
    if l.variant.Some? && IsTruthy(l.variant.value.weightG) then l.variant.value.weightG.value
    else if IsTruthy(l.product.weightG) then l.product.weightG.value
    else d.unitWeightG
  }

  function AsInt(x: Option<nat>): Option<int>
  {
    if x.Some? then Some(x.value as int) else None
  }

  /** `(variant.dim if variant else None) or product.dim`. */
  function PickDim(v: Option<int>, p: Option<int>): Option<int>
  {
    if IsTruthy(v) then v else p
  }

  function LengthOf(l: ParcelLine): Option<int>
  {
    PickDim(if l.variant.Some? then AsInt(l.variant.value.lengthCm) else None, AsInt(l.product.lengthCm))
  }

  function BreadthOf(l: ParcelLine): Option<int>
  {
    PickDim(if l.variant.Some? then AsInt(l.variant.value.breadthCm) else None, AsInt(l.product.breadthCm))
  }

  function HeightOf(l: ParcelLine): Option<int>
  {
    PickDim(if l.variant.Some? then AsInt(l.variant.value.heightCm) else None, AsInt(l.product.heightCm))
  }

  /** `if dim: m = max(m, int(dim))`. */
  function RaiseTo(m: int, dim: Option<int>): int
  {
    if IsTruthy(dim) then Max(m, dim.value) else m
  }

  /** The parcel the loop arrives at after all the lines: never smaller
      than the default box, and of no negative weight when no line has a
      negative weight or quantity. */
  function ParcelOf(lines: seq<ParcelLine>, d: Defaults): (r: Box)
    ensures r.lengthCm >= d.lengthCm && r.breadthCm >= d.breadthCm && r.heightCm >= d.heightCm
    ensures (forall i :: 0 <= i < |lines| ==> lines[i].qty >= 0 && UnitWeight(lines[i], d) >= 0) ==> r.weightG >= 0
  {
    if lines == [] then Box(0, d.lengthCm, d.breadthCm, d.heightCm)
    else
      var b := ParcelOf(lines[..|lines| - 1], d);
      var l := lines[|lines| - 1];
      Box(b.weightG + UnitWeight(l, d) * l.qty,
          RaiseTo(b.lengthCm, LengthOf(l)),
          RaiseTo(b.breadthCm, BreadthOf(l)),
          RaiseTo(b.heightCm, HeightOf(l)))
  }

  /** The accumulation loop itself. */
  method Measure(lines: seq<ParcelLine>, d: Defaults) returns (b: Box)
    ensures b == ParcelOf(lines, d)
  {
    var totalW := 0;
    var maxL, maxB, maxH := d.lengthCm, d.breadthCm, d.heightCm;
    var i := 0;
    while i < |lines|
      invariant 0 <= i <= |lines|
      invariant Box(totalW, maxL, maxB, maxH) == ParcelOf(lines[..i], d)
    {
      assert lines[..i + 1][..i] == lines[..i];
      var l := lines[i];
      var w := UnitWeight(l, d);
      totalW := totalW + w * l.qty;
      var lv, bv, hv := LengthOf(l), BreadthOf(l), HeightOf(l);
      if IsTruthy(lv) { maxL := Max(maxL, lv.value); }
      if IsTruthy(bv) { maxB := Max(maxB, bv.value); }
      if IsTruthy(hv) { maxH := Max(maxH, hv.value); }
      i := i + 1;
    }
    assert lines[..i] == lines;
    b := Box(totalW, maxL, maxB, maxH);
  }

  function Weights(lines: seq<ParcelLine>, d: Defaults): (r: seq<int>)
    ensures |r| == |lines|
    ensures forall i :: 0 <= i < |lines| ==> r[i] == UnitWeight(lines[i], d) * lines[i].qty
  {
    if lines == [] then [] else Weights(lines[..|lines| - 1], d) + [UnitWeight(lines[|lines| - 1], d) * lines[|lines| - 1].qty]
  }

  /** The total weight is the sum of unit weight times quantity. */
  lemma {:induction false} WeightIsSum(lines: seq<ParcelLine>, d: Defaults)
    ensures ParcelOf(lines, d).weightG == Sum(Weights(lines, d))
    decreases |lines|
  {
    if lines != [] {
      WeightIsSum(lines[..|lines| - 1], d);
      assert Weights(lines, d)[..|lines| - 1] == Weights(lines[..|lines| - 1], d);
    }
  }

  /** Each dimension is at least its default and at least every truthy line
      dimension, and it is one of those values. */
  lemma {:induction false} DimensionsAreMaxima(lines: seq<ParcelLine>, d: Defaults)
    ensures ParcelOf(lines, d).lengthCm >= d.lengthCm
    ensures ParcelOf(lines, d).breadthCm >= d.breadthCm
    ensures ParcelOf(lines, d).heightCm >= d.heightCm
    ensures forall i :: 0 <= i < |lines| && IsTruthy(LengthOf(lines[i])) ==> ParcelOf(lines, d).lengthCm >= LengthOf(lines[i]).value
    ensures forall i :: 0 <= i < |lines| && IsTruthy(BreadthOf(lines[i])) ==> ParcelOf(lines, d).breadthCm >= BreadthOf(lines[i]).value
    ensures forall i :: 0 <= i < |lines| && IsTruthy(HeightOf(lines[i])) ==> ParcelOf(lines, d).heightCm >= HeightOf(lines[i]).value
    ensures ParcelOf(lines, d).lengthCm == d.lengthCm
            || exists i :: 0 <= i < |lines| && IsTruthy(LengthOf(lines[i])) && ParcelOf(lines, d).lengthCm == LengthOf(lines[i]).value
    decreases |lines|
  {
    if lines != [] {
      var init := lines[..|lines| - 1];
      DimensionsAreMaxima(init, d);
      forall i | 0 <= i < |init| ensures init[i] == lines[i] { }
      var b := ParcelOf(init, d);
      if b.lengthCm != d.lengthCm && ParcelOf(lines, d).lengthCm == b.lengthCm {
        var i :| 0 <= i < |init| && IsTruthy(LengthOf(init[i])) && b.lengthCm == LengthOf(init[i]).value;
        assert lines[i] == init[i];
      }
    }
  }

  /** Without any line the parcel is empty and of default size. */
  lemma EmptyParcel(d: Defaults)
    ensures ParcelOf([], d) == Box(0, d.lengthCm, d.breadthCm, d.heightCm)
  {
  }

  /** A zero weight is falsy: a variant weighing 0 kg falls back to the
      product, and a product weighing 0 kg to the default. */
  lemma ZeroWeightFallsBack(p: ShipAttrs, v: ShipAttrs, q: int, d: Defaults)
    requires v.weightG == Some(0)
    ensures UnitWeight(ParcelLine(p, Some(v), q), d) == UnitWeight(ParcelLine(p, None, q), d)
  {
  }

  // ---------------------------------------------------------------------
  // The five call sites build their source lines from different records.

  /** The lines of a database cart (and of an order) as `(product, variant,
      quantity)`. */
  function LineOf(product: Product, variant: Option<Variant>, qty: int): ParcelLine
  {
    ParcelLine(product.ship, if variant.Some? then Some(variant.value.ship) else None, qty)
  }
}
