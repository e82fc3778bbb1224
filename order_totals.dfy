/**
 * The data handling around the store engine in `calcOrderTotal` and
 * `createPaymentSession` (system/server/src/services/cms.service.ts:567-629).
 * The engine itself (attribute variants, coupon rules, currency, cart totals) is
 * a parameter: what it reports after `saveCart`, `applyCouponCodes` and
 * `updateCart` is given by an `Engine` function.
 */
module OrderTotals {
  import opened Wrappers
  import opened Entities

  /** A coupon the engine applied; only its code is used here. */
  datatype EngineCoupon = EngineCoupon(code: string, value: Option<int>)

  /** `getCartTotal()`: money in minor units. */
  datatype CartTotal = CartTotal(
    totalOld: Option<int>,
    total: Option<int>,
    amount: Option<int>,
    coupons: seq<EngineCoupon>)

  /** What the engine reports for one priced cart: `getCart()` and `getCartTotal()`. */
  datatype Pricing = Pricing(cart: seq<CartItem>, total: CartTotal)

  /** The store engine, as a function of the cart, the coupon codes and the currency. */
  type Engine = (seq<CartItem>, Option<seq<string>>, Option<string>) -> Pricing

  datatype Customer = Customer(
    userId: Option<string>,
    name: Option<string>,
    phone: Option<string>,
    email: Option<string>,
    address: Option<string>,
    comment: Option<string>)

  /**
   * `CreateOrderDto`. `cart` is the submitted cart after JSON parsing: `None`
   * when it was neither a parseable string nor an object.
   */
  datatype OrderRequest = OrderRequest(
    cart: Option<seq<CartItem>>,
    couponCodes: Option<seq<string>>,
    currency: Option<string>,
    successUrl: Option<string>,
    cancelUrl: Option<string>,
    fromUrl: Option<string>,
    customer: Customer,
    shippingMethod: Option<string>,
    paymentMethod: Option<string>)

  /** The part of the CMS settings the totals read. */
  datatype CmsSettings = CmsSettings(defaultShippingPrice: Option<int>)

  /** A payment option a plugin offers through the `create_payment` action. */
  datatype PaymentOption = PaymentOption(name: Option<string>, link: Option<string>)

  /** `OrderTotalDto`. */
  datatype OrderTotal = OrderTotal(
    successUrl: Option<string>,
    cancelUrl: Option<string>,
    fromUrl: Option<string>,
    currency: Option<string>,
    cart: Option<seq<CartItem>>,
    cartOldTotalPrice: Option<int>,
    cartTotalPrice: Option<int>,
    totalQnt: Option<int>,
    appliedCoupons: Option<seq<string>>,
    shippingPrice: Option<int>,
    orderTotalPrice: Option<int>,
    paymentOptions: Option<seq<PaymentOption>>)

  /** `createPaymentSession` rejects with HTTP 400 "Cart is invalid or empty". */
  datatype PaymentError = CartInvalidOrEmpty

  /** The codes of the engine's applied coupons, in the engine's order. */
  function CouponCodes(coupons: seq<EngineCoupon>): (codes: seq<string>)
    ensures |codes| == |coupons|
    ensures forall i :: 0 <= i < |coupons| ==> codes[i] == coupons[i].code
  {
    if coupons == [] then [] else [coupons[0].code] + CouponCodes(coupons[1..])
  }

  /** The configured default shipping price; a missing or zero price is 0. */
  function ShippingPrice(settings: Option<CmsSettings>): int {
    match settings
    case None => 0
    case Some(s) => s.defaultShippingPrice.GetOr(0)
  }

  /** The totals object with only the URL and currency fields set. */
  function BareTotal(input: OrderRequest): OrderTotal {
    OrderTotal(input.successUrl, input.cancelUrl, input.fromUrl, input.currency,
               None, None, None, None, None, None, None, None)
  }

  /** The order total is the cart total plus shipping, whenever it is set. */
  predicate PricesAdd(t: OrderTotal) {
    t.orderTotalPrice.Some? ==>
      && t.cartTotalPrice.Some? && t.shippingPrice.Some?
      && t.orderTotalPrice.value == t.cartTotalPrice.value + t.shippingPrice.value
  }

  /** `calcOrderTotal`, with the engine's outputs as inputs. */
  function CalcOrderTotal(input: OrderRequest, settings: Option<CmsSettings>, engine: Engine): (r: OrderTotal)
    ensures PricesAdd(r)
    ensures r.successUrl == input.successUrl && r.cancelUrl == input.cancelUrl
    ensures r.fromUrl == input.fromUrl && r.currency == input.currency
    ensures r.paymentOptions.None?
    ensures input.cart.None? ==> r == BareTotal(input)
    ensures input.cart.Some? ==>
      var pricing := engine(input.cart.value, input.couponCodes, input.currency);
      && r.cart == Some(pricing.cart)
      && r.cartOldTotalPrice == pricing.total.totalOld
      && r.cartTotalPrice == Some(pricing.total.total.GetOr(0))
      && r.totalQnt == pricing.total.amount
      && r.appliedCoupons.Some? && |r.appliedCoupons.value| == |pricing.total.coupons|
      && (forall i :: 0 <= i < |pricing.total.coupons| ==> r.appliedCoupons.value[i] == pricing.total.coupons[i].code)
      && r.shippingPrice == Some(if settings.Some? then settings.value.defaultShippingPrice.GetOr(0) else 0)
      && r.orderTotalPrice == Some(pricing.total.total.GetOr(0) + r.shippingPrice.value)
  {
    match input.cart
    case None => BareTotal(input)
    case Some(cart) =>
      var pricing := engine(cart, input.couponCodes, input.currency);
      var cartTotalPrice := pricing.total.total.GetOr(0);
      var shippingPrice := ShippingPrice(settings);
      OrderTotal(
        input.successUrl, input.cancelUrl, input.fromUrl, input.currency,
        Some(pricing.cart),
        pricing.total.totalOld,
        Some(cartTotalPrice),
        pricing.total.amount,
        Some(CouponCodes(pricing.total.coupons)),
        Some(shippingPrice),
        Some(cartTotalPrice + shippingPrice),
        None)
  }

  /** `cart.filter(item => item?.product)`. */
  function WithProduct(items: seq<CartItem>): (r: seq<CartItem>)
    ensures |r| <= |items|
    ensures forall x :: x in r <==> x in items && x.product.Some?
  {
    if items == [] then []
    else if items[0].product.Some? then [items[0]] + WithProduct(items[1..])
    else WithProduct(items[1..])
  }

  /** The filter keeps the relative order of the lines: it distributes over concatenation. */
  lemma {:induction false} WithProductAppend(a: seq<CartItem>, b: seq<CartItem>)
    ensures WithProduct(a + b) == WithProduct(a) + WithProduct(b)
    decreases |a|
  {
    if a == [] {
      assert a + b == b;
    } else {
      assert (a + b)[1..] == a[1..] + b;
      WithProductAppend(a[1..], b);
    }
  }

  /** `createPaymentSession` before the payment plugins are asked: `payments` is what they answer. */
  function CreatePaymentSession(
    input: OrderRequest, settings: Option<CmsSettings>, engine: Engine, payments: Option<seq<PaymentOption>>
  ): (r: Result<OrderTotal, PaymentError>)
    ensures r.Failure? <==>
      input.cart.None? || forall x :: x in engine(input.cart.value, input.couponCodes, input.currency).cart ==> x.product.None?
    ensures r.Success? ==>
      var total := CalcOrderTotal(input, settings, engine);
      && r.value == total.(cart := Some(WithProduct(total.cart.value)), paymentOptions := Some(payments.GetOr([])))
      && PricesAdd(r.value)
      && forall x :: x in r.value.cart.value ==> x.product.Some?
  {
    var total := CalcOrderTotal(input, settings, engine);
    match total.cart
    case None => Failure(CartInvalidOrEmpty)
    case Some(cart) =>
      var kept := WithProduct(cart);
      if |kept| == 0 then
        Failure(CartInvalidOrEmpty)
      else
        assert kept[0] in kept;
        Success(total.(cart := Some(kept), paymentOptions := Some(payments.GetOr([]))))
  }
}
