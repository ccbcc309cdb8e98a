/** Percentage coupons with an optional validity window.  Instants are
    integers on one clock (the model does not fix the unit). */
module Coupons {
  import opened Basics
  import opened Text

  /** A `Coupon` row.  `discount_percent` is a `PositiveIntegerField`: a
      natural number with no upper bound. */
  datatype Coupon = Coupon(code: string, discountPercent: nat, active: bool, validFrom: Option<int>, validTo: Option<int>)

  /** `Coupon.is_valid()` at instant `now`: active, and `now` inside the
      closed window whose missing ends are unbounded. */
  function IsValid(c: Coupon, now: int): (r: bool)
    ensures r <==> c.active
                   && (c.validFrom.None? || c.validFrom.value <= now)
                   && (c.validTo.None? || now <= c.validTo.value)
  {
    if !c.active then false
    else if c.validFrom.Some? && now < c.validFrom.value then false
    else if c.validTo.Some? && now > c.validTo.value then false
    else true
  }

  /** Strictly before the start or strictly after the end the coupon is
      invalid; both boundary instants are valid for an active coupon. */
  lemma WindowBounds(c: Coupon, now: int)
    ensures c.validFrom.Some? && now < c.validFrom.value ==> !IsValid(c, now)
    ensures c.validTo.Some? && now > c.validTo.value ==> !IsValid(c, now)
    ensures c.active && c.validFrom.Some? && (c.validTo.None? || c.validFrom.value <= c.validTo.value)
            ==> IsValid(c, c.validFrom.value)
    ensures c.active && c.validTo.Some? && (c.validFrom.None? || c.validFrom.value <= c.validTo.value)
            ==> IsValid(c, c.validTo.value)
  {
  }

  /** An active coupon without bounds is valid at every instant. */
  lemma UnboundedAlwaysValid(c: Coupon, now: int)
    requires c.active && c.validFrom.None? && c.validTo.None?
    ensures IsValid(c, now)
  {
  }

  /** Validity is monotone in the window: once valid at `a` and `b`, valid in
      between. */
  lemma ValidInterval(c: Coupon, a: int, b: int, t: int)
    requires a <= t <= b && IsValid(c, a) && IsValid(c, b)
    ensures IsValid(c, t)
  {
  }

  predicate CodeMatches(c: Coupon, code: string)
  {
    Lower(c.code) == Lower(code)
  }

  /** `Coupon.objects.get(code__iexact=code)`.  `code` is unique only as
      typed, so two coupons differing in case make the lookup find `Many`. */
  function FindByCode(coupons: seq<Coupon>, code: string): (r: Lookup<Coupon>)
    ensures r.One? ==> r.row in coupons && Lower(r.row.code) == Lower(code)
    ensures r.Missing? <==> forall i :: 0 <= i < |coupons| ==> Lower(coupons[i].code) != Lower(code)
  {
    LookupBy(coupons, c => CodeMatches(c, code))
  }

  /** When no other coupon's code folds to the same lower case, a lookup in
      any letter case finds the coupon. */
  lemma FindByCodeUnique(coupons: seq<Coupon>, k: nat, code: string)
    requires k < |coupons| && Lower(coupons[k].code) == Lower(code)
    requires forall i :: 0 <= i < |coupons| && i != k ==> Lower(coupons[i].code) != Lower(code)
    ensures FindByCode(coupons, code) == One(coupons[k])
  {
    FilterSingle(coupons, c => CodeMatches(c, code), k);
  }

  /** Codes equal up to letter case find the same coupons. */
  lemma FindByCodeFolds(coupons: seq<Coupon>, a: string, b: string)
    requires Lower(a) == Lower(b)
    ensures FindByCode(coupons, a) == FindByCode(coupons, b)
  {
    FilterSame(coupons, c => CodeMatches(c, a), c => CodeMatches(c, b));
  }

  /** How the cart and the checkout resolve the session's code: no code (or
      an empty one) means no coupon; an unknown code or an invalid coupon is
      dropped; two coupons matching the code raise an uncaught
      `MultipleObjectsReturned`. */
  function ResolveCoupon(coupons: seq<Coupon>, code: Option<string>, now: int): (r: Result<Option<Coupon>, string>)
    ensures code.None? || code.value == "" ==> r == Ok(None)
    ensures r.Ok? && r.value.Some? ==> code.Some? && r.value.value in coupons
                                       && IsValid(r.value.value, now) && CodeMatches(r.value.value, code.value)
    ensures r.Err? ==> code.Some? && FindByCode(coupons, code.value).Many?
  {
    if code.None? || code.value == "" then Ok(None)
    else match FindByCode(coupons, code.value)
      case Missing => Ok(None)
      case Many => Err("MultipleObjectsReturned")
      case One(c) => if IsValid(c, now) then Ok(Some(c)) else Ok(None)
  }

  /** The discount percentage a resolved coupon contributes: 0 without one. */
  function DiscountPercent(c: Option<Coupon>): (pct: nat)
    ensures c.None? ==> pct == 0
    ensures c.Some? ==> pct == c.value.discountPercent
  {
    if c.Some? then c.value.discountPercent else 0
  }
}
