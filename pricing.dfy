/** The totals pipeline shared by the cart page, the checkout page and the
    order the checkout creates: coupon discount, a discounted subtotal that
    never goes below zero, GST, and shipping that is free from a threshold on
    and otherwise a carrier estimate or a flat rate.  Every amount is in
    paise. */
module Pricing {
  import opened Basics
  import opened Money

  /** `GST_RATE`, `FREE_SHIPPING_THRESHOLD` and `FLAT_SHIPPING_RATE`; the
      last two are whole rupees. */
  datatype Settings = Settings(gstRate: Dec, freeThresholdRupees: int, flatRupees: int)

  /** The defaults: GST "0.18", free shipping from 399 rupees, 49 rupees
      flat. */
  const DefaultSettings := Settings(Dec(18, 2), 399, 49)

  datatype Totals = Totals(subtotal: int, discount: int, discounted: int, gst: int, shipping: int, total: int)

  /** The coupon's percentage of the subtotal, rounded to the paisa. */
  function Discount(subtotal: int, pct: nat): (d: int)
    ensures -100 <= 2 * (subtotal * pct - d * 100) <= 100
  {
    PercentOf(subtotal, pct)
  }

  /** `subtotal - discount`, replaced by zero when negative. */
  function Discounted(subtotal: int, discount: int): (r: int)
    ensures r >= 0
    ensures subtotal - discount >= 0 ==> r == subtotal - discount
    ensures subtotal - discount < 0 ==> r == 0
  {
    if subtotal - discount < 0 then 0 else subtotal - discount
  }

  function Gst(amount: int, s: Settings): (g: int)
    ensures -(Pow10(s.gstRate.scale) as int) <= 2 * (amount * s.gstRate.units - g * Pow10(s.gstRate.scale)) <= Pow10(s.gstRate.scale)
  {
    ApplyRate(amount, s.gstRate)
  }

  /** Shipping for an amount: nothing from the threshold on; below it the
      carrier's estimate rounded to the paisa when there is one, else the
      flat rate. */
  function Shipping(amount: int, estimate: Option<Dec>, s: Settings): (r: int)
    ensures amount >= s.freeThresholdRupees * 100 ==> r == 0
    ensures amount < s.freeThresholdRupees * 100 && estimate.None? ==> r == s.flatRupees * 100
    ensures amount < s.freeThresholdRupees * 100 && estimate.Some? ==> r == QuantizeToPaise(estimate.value)
  {
    if amount >= s.freeThresholdRupees * 100 then 0
    else if estimate.Some? then QuantizeToPaise(estimate.value)
    else s.flatRupees * 100
  }

  /** The pipeline of the cart page and of the checkout. */
  function CartTotals(subtotal: int, pct: nat, estimate: Option<Dec>, s: Settings): (t: Totals)
    ensures t.subtotal == subtotal && t.discount == Discount(subtotal, pct)
    ensures t.discounted == Discounted(subtotal, t.discount) && t.discounted >= 0
    ensures t.gst == Gst(t.discounted, s)
    ensures t.shipping == Shipping(t.discounted, estimate, s)
    ensures t.total == t.discounted + t.gst + t.shipping
  {
    var discount := Discount(subtotal, pct);
    var discounted := Discounted(subtotal, discount);
    var gst := Gst(discounted, s);
    var shipping := Shipping(discounted, estimate, s);
    Totals(subtotal, discount, discounted, gst, shipping, discounted + gst + shipping)
  }

  /** The totals the cart's update and remove responses and the staff order
      forms report: no discount, GST on the subtotal, and shipping from the
      same rule (the staff forms and the remove response never have an
      estimate). */
  function PlainTotals(subtotal: int, estimate: Option<Dec>, s: Settings): (t: Totals)
    ensures t.subtotal == subtotal && t.discount == 0 && t.discounted == subtotal
    ensures t.gst == Gst(subtotal, s)
    ensures t.shipping == Shipping(subtotal, estimate, s)
    ensures t.total == subtotal + t.gst + t.shipping
  {
    var gst := Gst(subtotal, s);
    var shipping := Shipping(subtotal, estimate, s);
    Totals(subtotal, 0, subtotal, gst, shipping, subtotal + gst + shipping)
  }

  // ---------------------------------------------------------------------
  // Properties

  /** Without a coupon (percentage 0) the discount is zero and, for a
      non-negative subtotal, the pipeline is the plain one. */
  lemma NoCouponNoDiscount(subtotal: int, estimate: Option<Dec>, s: Settings)
    requires subtotal >= 0
    ensures Discount(subtotal, 0) == 0
    ensures CartTotals(subtotal, 0, estimate, s) == PlainTotals(subtotal, estimate, s)
  {
    RoundHalfEvenExact(0, 100);
  }

  /** Up to 100 percent, the discount lies between 0 and the subtotal and
      the discounted subtotal is exactly `subtotal - discount`. */
  lemma DiscountWithinSubtotal(subtotal: int, pct: nat)
    requires subtotal >= 0 && pct <= 100
    ensures 0 <= Discount(subtotal, pct) <= subtotal
    ensures Discounted(subtotal, Discount(subtotal, pct)) == subtotal - Discount(subtotal, pct)
  {
    assert 0 <= subtotal * pct <= subtotal * 100 by { MulMono(subtotal, pct, 100); }
    RoundHalfEvenMonotone(0, subtotal * pct, 100);
    RoundHalfEvenMonotone(subtotal * pct, subtotal * 100, 100);
    RoundHalfEvenExact(0, 100);
    RoundHalfEvenExact(subtotal, 100);
  }

  /** From 100 percent on, the discount swallows the subtotal and the
      discounted subtotal is zero. */
  lemma DiscountAtLeastWhole(subtotal: int, pct: nat)
    requires subtotal >= 0 && pct >= 100
    ensures Discount(subtotal, pct) >= subtotal
    ensures Discounted(subtotal, Discount(subtotal, pct)) == 0
  {
    assert subtotal * 100 <= subtotal * pct by { MulMono(subtotal, 100, pct); }
    RoundHalfEvenMonotone(subtotal * 100, subtotal * pct, 100);
    RoundHalfEvenExact(subtotal, 100);
  }

  lemma MulMono(a: int, b: int, c: int)
    requires a >= 0 && 0 <= b <= c
    ensures 0 <= a * b <= a * c
  {
  }

  /** GST on a non-negative amount is non-negative when the rate is, and it
      grows with the amount. */
  lemma GstMonotone(a: int, b: int, s: Settings)
    requires 0 <= a <= b && s.gstRate.units >= 0
    ensures 0 <= Gst(a, s) <= Gst(b, s)
  {
    assert 0 <= a * s.gstRate.units <= b * s.gstRate.units by { MulMono(s.gstRate.units, a, b); }
    RoundHalfEvenMonotone(0, a * s.gstRate.units, Pow10(s.gstRate.scale));
    RoundHalfEvenMonotone(a * s.gstRate.units, b * s.gstRate.units, Pow10(s.gstRate.scale));
    RoundHalfEvenExact(0, Pow10(s.gstRate.scale));
  }

  /** With the default settings, GST is 18 % rounded half to even. */
  lemma DefaultGst(amount: int)
    ensures Gst(amount, DefaultSettings) == RoundHalfEven(amount * 18, 100)
    ensures -100 <= 2 * (amount * 18 - Gst(amount, DefaultSettings) * 100) <= 100
  {
    assert Pow10(2) == 100;
  }

  /** With the default settings, an order of 399 rupees or more ships free,
      and one below it pays 49 rupees unless the carrier quoted a rate. */
  lemma DefaultShipping(amount: int, estimate: Option<Dec>)
    ensures amount >= 39900 ==> Shipping(amount, estimate, DefaultSettings) == 0
    ensures amount < 39900 && estimate.None? ==> Shipping(amount, estimate, DefaultSettings) == 4900
  {
  }

  /** The total is never below the discounted subtotal when GST and
      shipping are non-negative, and at or above the threshold it is just
      the discounted subtotal plus GST. */
  lemma TotalComposition(subtotal: int, pct: nat, estimate: Option<Dec>, s: Settings)
    requires s.gstRate.units >= 0 && s.flatRupees >= 0
    requires estimate.Some? ==> estimate.value.units >= 0
    ensures CartTotals(subtotal, pct, estimate, s).total >= CartTotals(subtotal, pct, estimate, s).discounted
    ensures CartTotals(subtotal, pct, estimate, s).discounted >= s.freeThresholdRupees * 100 ==>
              CartTotals(subtotal, pct, estimate, s).total == CartTotals(subtotal, pct, estimate, s).discounted + CartTotals(subtotal, pct, estimate, s).gst
  {
    var t := CartTotals(subtotal, pct, estimate, s);
    GstMonotone(0, t.discounted, s);
    if estimate.Some? {
      RoundHalfEvenMonotone(0, estimate.value.units * 100, Pow10(estimate.value.scale));
      RoundHalfEvenExact(0, Pow10(estimate.value.scale));
    }
  }
}
