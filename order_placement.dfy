/**
 * `placeOrder` (system/server/src/services/cms.service.ts:439-565): clean the
 * priced cart, count one more use of every applied coupon, and assemble the
 * order record that the repository stores.
 */
module OrderPlacement {
  import opened Wrappers
  import opened Entities
  import opened CartCleanup
  import opened OrderTotals

  /** A coupon row as the coupon repository loads it; `usedTimes` is updated in place. */
  class Coupon {
    const code: string
    var usedTimes: Option<int>

    constructor (code: string, usedTimes: Option<int>)
      ensures this.code == code && this.usedTimes == usedTimes
    {
      this.code := code;
      this.usedTimes := usedTimes;
    }

    /** One more use; an absent or zero counter becomes 1. */
    method RecordUse()
      modifies this
      ensures usedTimes == Some(old(usedTimes).GetOr(0) + 1)
    {
      if usedTimes.None? || usedTimes.value == 0 {
        usedTimes := Some(1);
      } else {
        usedTimes := Some(usedTimes.value + 1);
      }
    }
  }

  /** A `usedTimes` counter after `n` increments. */
  function UsedAfter(usedTimes: Option<int>, n: nat): Option<int> {
    if n == 0 then usedTimes else Some(usedTimes.GetOr(0) + n)
  }

  /** The loop over the coupons found for the applied codes (cms.service.ts:492-496). */
  method IncrementCouponUsage(coupons: seq<Coupon>)
    modifies set c | c in coupons
    ensures forall c :: c in coupons ==> c.usedTimes == UsedAfter(old(c.usedTimes), multiset(coupons)[c])
  {
    var i := 0;
    while i < |coupons|
      invariant 0 <= i <= |coupons|
      invariant forall c :: c in coupons ==> c.usedTimes == UsedAfter(old(c.usedTimes), multiset(coupons[..i])[c])
    {
      assert coupons[..i + 1] == coupons[..i] + [coupons[i]];
      coupons[i].RecordUse();
      i := i + 1;
    }
    assert coupons[..i] == coupons;
  }

  /** The repository returns every coupon row once, so each is counted exactly once. */
  lemma {:induction false} DistinctCouponsCountedOnce(coupons: seq<Coupon>)
    requires forall i, j :: 0 <= i < j < |coupons| ==> coupons[i] != coupons[j]
    ensures forall c :: c in coupons ==> multiset(coupons)[c] == 1
  {
    if coupons != [] {
      var rest := coupons[1..];
      assert coupons == [coupons[0]] + rest;
      DistinctCouponsCountedOnce(rest);
      assert forall j :: 0 <= j < |rest| ==> rest[j] == coupons[j + 1];
      assert coupons[0] !in rest;
    }
  }

  /** `TOrderInput`: the order record handed to the repository. */
  datatype Order = Order(
    cartOldTotalPrice: Option<int>,
    cartTotalPrice: Option<int>,
    totalQnt: Option<int>,
    shippingPrice: Option<int>,
    orderTotalPrice: Option<int>,
    couponCodes: Option<seq<string>>,
    cart: Option<seq<CartItem>>,
    status: string,
    customer: Customer,
    shippingMethod: Option<string>,
    paymentMethod: Option<string>,
    fromUrl: Option<string>,
    currency: Option<string>)

  const PendingStatus := "Pending"

  /** The object literal `createOrder` of cms.service.ts:502-521. */
  function CreateOrder(total: OrderTotal, input: OrderRequest): (o: Order)
    ensures o.status == PendingStatus
    ensures o.couponCodes == total.appliedCoupons && o.cart == total.cart
    ensures o.cartOldTotalPrice == total.cartOldTotalPrice && o.cartTotalPrice == total.cartTotalPrice
    ensures o.totalQnt == total.totalQnt && o.shippingPrice == total.shippingPrice
    ensures o.orderTotalPrice == total.orderTotalPrice
    ensures o.customer == input.customer && o.fromUrl == input.fromUrl && o.currency == input.currency
    ensures o.shippingMethod == input.shippingMethod && o.paymentMethod == input.paymentMethod
  {
    Order(
      total.cartOldTotalPrice, total.cartTotalPrice, total.totalQnt, total.shippingPrice,
      total.orderTotalPrice, total.appliedCoupons, total.cart, PendingStatus,
      input.customer, input.shippingMethod, input.paymentMethod, input.fromUrl, input.currency)
  }

  /** The stored order total is the cart total plus shipping. */
  predicate OrderPricesAdd(o: Order) {
    o.orderTotalPrice.Some? ==>
      && o.cartTotalPrice.Some? && o.shippingPrice.Some?
      && o.orderTotalPrice.value == o.cartTotalPrice.value + o.shippingPrice.value
  }

  predicate HasAppliedCoupons(total: OrderTotal) {
    total.appliedCoupons.Some? && |total.appliedCoupons.value| > 0
  }

  /**
   * `placeOrder` up to the repository write. `found` stands for what
   * `getCouponsByCodes(appliedCoupons)` returns (empty when that lookup throws).
   * A clean-up failure rejects before any coupon is touched.
   */
  method PlaceOrder(input: OrderRequest, settings: Option<CmsSettings>, engine: Engine, found: seq<Coupon>)
    returns (r: Result<Order, ScriptError>)
    modifies set c | c in found
    ensures
      var total := CalcOrderTotal(input, settings, engine);
      var cleaned := CleanOrderCart(total.cart);
      && (r.Failure? <==> cleaned.Failure?)
      && (r.Success? ==> r.value == CreateOrder(total.(cart := cleaned.value), input))
      && (r.Success? ==> r.value.status == PendingStatus && r.value.couponCodes == total.appliedCoupons)
      && (r.Success? ==> OrderPricesAdd(r.value))
      && (r.Success? && HasAppliedCoupons(total) ==>
            forall c :: c in found ==> c.usedTimes == UsedAfter(old(c.usedTimes), multiset(found)[c]))
      && (r.Failure? || !HasAppliedCoupons(total) ==>
            forall c :: c in found ==> c.usedTimes == old(c.usedTimes))
  {
    var total := CalcOrderTotal(input, settings, engine);
    var cleaned := CleanOrderCart(total.cart);
    if cleaned.Failure? {
      return Failure(cleaned.error);
    }
    if HasAppliedCoupons(total) {
      IncrementCouponUsage(found);
    }
    r := Success(CreateOrder(total.(cart := cleaned.value), input));
  }
}
