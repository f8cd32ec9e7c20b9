/**
 The money side of a ticket: discount, service charge, tax, tip and redemption.
 JavaScript division is exact division of reals; amounts that reach a column are whole cents.
 */
module Tender {
  import opened Money
  import opened Wrappers

  datatype DiscountKind = PercentOff | FixedOff

  datatype Discount = Discount(kind: DiscountKind, value: int)

  datatype Tender = Tender(
    subtotal: int, discount: int, serviceCharge: int, tax: int, tip: int, redeemed: int, total: int)

  /** Cents a discount takes off a subtotal. */
  function DiscountAmount(discount: Option<Discount>, subtotal: int): int {
    match discount
    case None => 0
    case Some(d) =>
      var raw := if d.kind == PercentOff then Percent(subtotal, d.value) else d.value;
      Min(subtotal, Max(0, raw))
  }

  /** The taxable part of a cart once the discount is spread over all of it. */
  function DiscountedTaxable(subtotal: int, taxable: int, discount: int): real {
    if subtotal > 0 then taxable as real - (discount * taxable) as real / subtotal as real else 0.0
  }

  /** What a register sale owes when it is rung in. `serviceBps` is 0 unless the charge applies. */
  function SaleTender(subtotal: int, taxable: int, discount: int, serviceBps: int, taxBps: int,
                      tip: int, points: int): Tender
  {
    var base := subtotal - discount;
    var service := BasisPoints(base as real, serviceBps);
    var tax := BasisPoints(DiscountedTaxable(subtotal, taxable, discount) + service as real, taxBps);
    var before := base + service + tax + tip;
    var redeemed := Min(points, before);
    Tender(subtotal, discount, service, tax, tip, redeemed, before - redeemed)
  }

  /** What a tab owes after its lines are replaced or added to. */
  function TabTender(subtotal: int, discount: int, taxBps: int, tip: int): Tender {
    var base := subtotal - discount;
    var tax := BasisPoints(base as real, taxBps);
    Tender(subtotal, discount, 0, tax, tip, 0, base + tax + tip)
  }

  /**
   The unrounded tax: the rate on the same share of the taxable lines as of the whole bill, plus the service charge.
   */
  function ExactTax(subtotal: int, taxable: int, discount: int, service: int, taxBps: int): real {
    var kept := if subtotal > 0 then (subtotal - discount) as real * taxable as real / subtotal as real else 0.0;
    (kept + service as real) * taxBps as real / 10000.0
  }

  /** A rate in basis points of whole cents, unrounded. */
  function ExactShare(amount: int, bps: int): real { amount as real * bps as real / 10000.0 }

  /** A discount stays between nothing and the whole subtotal exactly when the subtotal is not negative. */
  lemma DiscountWithinSubtotal(discount: Option<Discount>, subtotal: int)
    requires discount.Some?
    ensures 0 <= DiscountAmount(discount, subtotal) <= subtotal <==> 0 <= subtotal
  {
  }

  /**
   What a discount takes off: a fixed one its value and a percent one its share to the half cent, each held between
   nothing and the whole subtotal.
   */
  ghost predicate TakesOff(discount: Option<Discount>, subtotal: int, amount: int) {
    match discount
    case None => amount == 0
    case Some(Discount(FixedOff, value)) =>
      amount == if value < 0 then 0 else if subtotal < value then subtotal else value
    case Some(Discount(PercentOff, value)) =>
      && (value <= 0 ==> amount == 0) && (100 <= value ==> amount == subtotal)
      && (0 <= value <= 100 ==> NearExact(amount, (subtotal * value) as real / 100.0))
  }

  lemma DiscountTakes(discount: Option<Discount>, subtotal: int)
    requires 0 <= subtotal
    ensures TakesOff(discount, subtotal, DiscountAmount(discount, subtotal))
  {
    if discount.Some? && discount.value.kind == PercentOff { PercentTakes(discount.value, subtotal); }
  }

  lemma PercentTakes(d: Discount, subtotal: int)
    requires 0 <= subtotal && d.kind == PercentOff
    ensures TakesOff(Some(d), subtotal, DiscountAmount(Some(d), subtotal))
  {
    var exact := (subtotal * d.value) as real / 100.0;
    RoundIsNearest(exact);
    PercentOfBounds(subtotal, d.value);
    if 0 <= d.value { RoundMonotone(0.0, exact); } else { RoundMonotone(exact, 0.0); }
    if d.value <= 100 { RoundMonotone(exact, subtotal as real); } else { RoundMonotone(subtotal as real, exact); }
  }

  lemma PercentOfBounds(subtotal: int, percent: int)
    requires 0 <= subtotal
    ensures var exact := (subtotal * percent) as real / 100.0;
      && (0 <= percent ==> 0.0 <= exact) && (percent <= 0 ==> exact <= 0.0)
      && (percent <= 100 ==> exact <= subtotal as real) && (100 <= percent ==> subtotal as real <= exact)
  {
    if percent <= 100 {
      assert subtotal * percent <= subtotal * 100;
    } else {
      assert subtotal * 100 <= subtotal * percent;
    }
    if percent <= 0 { assert subtotal * percent <= 0; } else { assert 0 <= subtotal * percent; }
  }

  lemma DiscountBounds(discount: Option<Discount>, subtotal: int)
    requires 0 <= subtotal
    ensures 0 <= DiscountAmount(discount, subtotal) <= subtotal
  {
  }

  /** A percent discount never takes less off a larger bill. */
  lemma {:induction false} PercentDiscountGrows(value: int, small: int, large: int)
    requires 0 <= value && 0 <= small <= large
    ensures DiscountAmount(Some(Discount(PercentOff, value)), small)
         <= DiscountAmount(Some(Discount(PercentOff, value)), large)
  {
    assert small * value <= large * value;
    RoundMonotone((small * value) as real / 100.0, (large * value) as real / 100.0);
  }

  lemma QuotientMonotone(x: real, y: real, s: real)
    requires x <= y && 0.0 < s
    ensures x / s <= y / s
  {
  }

  lemma QuotientCancels(x: real, s: real)
    requires 0.0 < s
    ensures x * s / s == x
  {
  }

  lemma QuotientSplits(x: real, y: real, s: real)
    requires 0.0 < s
    ensures x / s - y / s == (x - y) / s
  {
  }

  /** The taxable part of `t` after a discount of `d` on `s`: `t` scaled down by `(s - d) / s`. */
  lemma DiscountScales(s: real, t: real, d: real)
    requires 0.0 < s
    ensures t - d * t / s == (s - d) * t / s
  {
    QuotientCancels(t, s);
    QuotientSplits(t * s, d * t, s);
  }

  lemma ScaledPartBounds(s: real, t: real, d: real)
    requires 0.0 < s && 0.0 <= t <= s && 0.0 <= d <= s
    ensures 0.0 <= t - d * t / s <= s - d
    ensures t == s ==> t - d * t / s == s - d
  {
    DiscountScales(s, t, d);
    QuotientCancels(s - d, s);
    ProductMonotone(s - d, 0.0, t);
    ProductMonotone(s - d, t, s);
    QuotientMonotone(0.0, (s - d) * t, s);
    QuotientMonotone((s - d) * t, (s - d) * s, s);
  }

  lemma ProductMonotone(k: real, x: real, y: real)
    requires 0.0 <= k && x <= y
    ensures k * x <= k * y
  {
  }

  /** Spreading a discount leaves between nothing and the discounted subtotal taxable. */
  lemma DiscountedTaxableBounds(subtotal: int, taxable: int, discount: int)
    requires 0 <= taxable <= subtotal && 0 <= discount <= subtotal
    ensures 0.0 <= DiscountedTaxable(subtotal, taxable, discount) <= (subtotal - discount) as real
    ensures taxable == subtotal ==> DiscountedTaxable(subtotal, taxable, discount) == (subtotal - discount) as real
  {
    if subtotal > 0 {
      ScaledPartBounds(subtotal as real, taxable as real, discount as real);
      assert (discount * taxable) as real == discount as real * taxable as real;
    }
  }

  lemma DiscountedTaxableFalls(subtotal: int, taxable: int, less: int, more: int)
    requires 0 <= taxable <= subtotal && 0 <= less <= more <= subtotal
    ensures DiscountedTaxable(subtotal, taxable, more) <= DiscountedTaxable(subtotal, taxable, less)
  {
    if subtotal > 0 {
      assert less * taxable <= more * taxable;
      QuotientMonotone((less * taxable) as real, (more * taxable) as real, subtotal as real);
    }
  }

  ghost predicate SaleInputs(subtotal: int, taxable: int, discount: int, serviceBps: int, taxBps: int, tip: int,
      points: int) {
    0 <= taxable <= subtotal && 0 <= discount <= subtotal && 0 <= serviceBps && 0 <= taxBps && 0 <= tip && 0 <= points
  }

  /** The proportional exemption of the code and the kept share of the definition are the same number. */
  lemma ExactTaxIsUnrounded(subtotal: int, taxable: int, discount: int, service: int, taxBps: int)
    ensures ExactTax(subtotal, taxable, discount, service, taxBps)
         == (DiscountedTaxable(subtotal, taxable, discount) + service as real) * taxBps as real / 10000.0
  {
    if subtotal > 0 {
      DiscountScales(subtotal as real, taxable as real, discount as real);
      assert (discount * taxable) as real == discount as real * taxable as real;
    }
  }

  lemma SaleTaxBounds(subtotal: int, taxable: int, discount: int, service: int, taxBps: int)
    requires 0 <= taxable <= subtotal && 0 <= discount <= subtotal && 0 <= service && 0 <= taxBps
    ensures var tax := BasisPoints(DiscountedTaxable(subtotal, taxable, discount) + service as real, taxBps);
      && 0 <= tax <= BasisPoints(DiscountedTaxable(subtotal, subtotal, discount) + service as real, taxBps)
      && NearExact(tax, ExactTax(subtotal, taxable, discount, service, taxBps))
  {
    DiscountedTaxableBounds(subtotal, taxable, discount);
    DiscountedTaxableBounds(subtotal, subtotal, discount);
    var part := DiscountedTaxable(subtotal, taxable, discount) + service as real;
    var whole := DiscountedTaxable(subtotal, subtotal, discount) + service as real;
    BasisPointsNonNegative(part, taxBps);
    BasisPointsMonotone(part, whole, taxBps);
    RoundIsNearest(part * taxBps as real / 10000.0);
    ExactTaxIsUnrounded(subtotal, taxable, discount, service, taxBps);
  }

  /**
   A sale's service charge is its rate on the discounted bill, to the half cent; its tax is the exact tax to the half
   cent, never above what an all-taxable cart owes; and nothing is negative.
   */
  lemma {:induction false} SaleTenderBounds(subtotal: int, taxable: int, discount: int, serviceBps: int,
      taxBps: int, tip: int, points: int)
    requires SaleInputs(subtotal, taxable, discount, serviceBps, taxBps, tip, points)
    ensures var t := SaleTender(subtotal, taxable, discount, serviceBps, taxBps, tip, points);
      && 0 <= t.serviceCharge && 0 <= t.tax && 0 <= t.redeemed <= points && 0 <= t.total
      && NearExact(t.serviceCharge, ExactShare(subtotal - discount, serviceBps))
      && NearExact(t.tax, ExactTax(subtotal, taxable, discount, t.serviceCharge, taxBps))
      && t.tax <= SaleTender(subtotal, subtotal, discount, serviceBps, taxBps, tip, points).tax
      && t.total == subtotal - discount + t.serviceCharge + t.tax + tip - t.redeemed
      && (t.redeemed == points || t.total == 0)
  {
    BasisPointsNonNegative((subtotal - discount) as real, serviceBps);
    RoundIsNearest((subtotal - discount) as real * serviceBps as real / 10000.0);
    SaleTaxBounds(subtotal, taxable, discount, BasisPoints((subtotal - discount) as real, serviceBps), taxBps);
  }

  /** A bigger discount never makes the guest pay more, in any of the amounts derived from it. */
  lemma {:induction false} TotalFallsWithDiscount(subtotal: int, taxable: int, less: int, more: int,
      serviceBps: int, taxBps: int, tip: int, points: int)
    requires SaleInputs(subtotal, taxable, more, serviceBps, taxBps, tip, points) && 0 <= less <= more
    ensures var a := SaleTender(subtotal, taxable, less, serviceBps, taxBps, tip, points);
      var b := SaleTender(subtotal, taxable, more, serviceBps, taxBps, tip, points);
      b.serviceCharge <= a.serviceCharge && b.tax <= a.tax && b.total <= a.total
  {
    var a := SaleTender(subtotal, taxable, less, serviceBps, taxBps, tip, points);
    var b := SaleTender(subtotal, taxable, more, serviceBps, taxBps, tip, points);
    BasisPointsMonotone((subtotal - more) as real, (subtotal - less) as real, serviceBps);
    DiscountedTaxableFalls(subtotal, taxable, less, more);
    BasisPointsMonotone(DiscountedTaxable(subtotal, taxable, more) + b.serviceCharge as real,
                        DiscountedTaxable(subtotal, taxable, less) + a.serviceCharge as real, taxBps);
  }

  /** With no exempt line, no service charge and no points, a sale and a re-priced tab owe the same. */
  lemma AllTaxableSaleIsTab(subtotal: int, discount: int, taxBps: int, tip: int)
    requires SaleInputs(subtotal, subtotal, discount, 0, taxBps, tip, 0)
    ensures SaleTender(subtotal, subtotal, discount, 0, taxBps, tip, 0) == TabTender(subtotal, discount, taxBps, tip)
  {
    DiscountedTaxableBounds(subtotal, subtotal, discount);
    BasisPointsNonNegative((subtotal - discount) as real, taxBps);
  }

  // ----- re-pricing a mixed cart drops the exemption

  /** The tax the exempt lines were spared: the rate on their share of the discounted bill. */
  function SparedTax(subtotal: int, taxable: int, discount: int, taxBps: int): real {
    ExactTax(subtotal, subtotal, discount, 0, taxBps) - ExactTax(subtotal, taxable, discount, 0, taxBps)
  }

  lemma ProductIsZeroIff(x: real, y: real)
    ensures x * y == 0.0 <==> x == 0.0 || y == 0.0
  {
  }

  lemma SparedTaxIs(subtotal: int, taxable: int, discount: int, taxBps: int)
    requires 0 < subtotal
    ensures SparedTax(subtotal, taxable, discount, taxBps)
         == (subtotal - discount) as real * (subtotal - taxable) as real / subtotal as real * taxBps as real / 10000.0
  {
    var kept, s, t := (subtotal - discount) as real, subtotal as real, taxable as real;
    QuotientSplits(kept * s, kept * t, s);
    assert kept * s - kept * t == kept * (s - t);
    Distributes(kept * s / s, kept * t / s, taxBps as real);
  }

  lemma Distributes(x: real, y: real, k: real)
    ensures x * k / 10000.0 - y * k / 10000.0 == (x - y) * k / 10000.0
  {
  }

  /**
   Billing every line as taxable charges the exact tax of the mixed cart only if nothing is exempt, nothing is left to
   pay, or the rate is zero.
   */
  lemma ExemptionIsLostIff(subtotal: int, taxable: int, discount: int, taxBps: int)
    requires 0 < subtotal
    ensures ExactTax(subtotal, subtotal, discount, 0, taxBps) == ExactTax(subtotal, taxable, discount, 0, taxBps)
      <==> taxable == subtotal || discount == subtotal || taxBps == 0
  {
    var kept, spared, s := (subtotal - discount) as real, (subtotal - taxable) as real, subtotal as real;
    SparedTaxIs(subtotal, taxable, discount, taxBps);
    ProductIsZeroIff(kept, spared);
    QuotientIsZeroIff(kept * spared, s);
    ProductIsZeroIff(kept * spared / s, taxBps as real);
  }

  lemma QuotientIsZeroIff(x: real, s: real)
    requires 0.0 < s
    ensures x / s == 0.0 <==> x == 0.0
  {
    QuotientCancels(x, s);
  }

  /**
   Re-pricing a mixed cart as a tab charges the exempt lines too: the tax rises by what they were spared, to within a
   cent, and never falls.
   */
  lemma {:induction false} TabIgnoresExemption(subtotal: int, taxable: int, discount: int, taxBps: int, tip: int)
    requires SaleInputs(subtotal, taxable, discount, 0, taxBps, tip, 0)
    ensures var sale := SaleTender(subtotal, taxable, discount, 0, taxBps, tip, 0).tax;
      var tab := TabTender(subtotal, discount, taxBps, tip).tax;
      && sale <= tab
      && -1.0 < (tab - sale) as real - SparedTax(subtotal, taxable, discount, taxBps) < 1.0
  {
    AllTaxableSaleIsTab(subtotal, discount, taxBps, tip);
    SaleTenderBounds(subtotal, taxable, discount, 0, taxBps, tip, 0);
    SaleTenderBounds(subtotal, subtotal, discount, 0, taxBps, tip, 0);
    NoChargeWithoutRate(subtotal - discount);
  }

  lemma NoChargeWithoutRate(base: int)
    ensures BasisPoints(base as real, 0) == 0
  {
    assert base as real * 0 as real / 10000.0 == 0.0;
  }

  /** Half of twenty dollars exempt, at ten percent: a dollar of tax as a sale, two as a tab. */
  lemma ExemptionLostOnMixedCart()
    ensures SaleTender(2000, 1000, 0, 0, 1000, 0, 0).tax == 100 && TabTender(2000, 0, 1000, 0).tax == 200
  {
    assert DiscountedTaxable(2000, 1000, 0) == 1000.0;
    NoChargeWithoutRate(2000);
    assert BasisPoints(1000.0, 1000) == 100 && BasisPoints(2000.0, 1000) == 200;
  }

  lemma TabTenderBounds(subtotal: int, discount: int, taxBps: int, tip: int)
    requires 0 <= discount <= subtotal && 0 <= taxBps && 0 <= tip
    ensures var t := TabTender(subtotal, discount, taxBps, tip);
      0 <= t.tax && 0 <= t.total && t.total == subtotal - discount + t.tax + tip
  {
    BasisPointsNonNegative((subtotal - discount) as real, taxBps);
  }
}
