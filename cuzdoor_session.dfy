/**
 * The component state of cuzdoor.jsx around the plate: the `cart` that `App`
 * owns and hands to `RestaurantDetail` and `CartSidebar`, and the sidebar's own
 * coupon, discount, message and delivery-form fields. Each handler becomes a
 * method that updates these fields; the list transforms are the functions of
 * module Cuzdoor.
 */
module CuzdoorSession {
  import C = Cuzdoor
  import opened JsText
  import opened Options

  class CartSidebar {
    var cart: seq<C.Line>
    var coupon: string
    /** The active discount as a percent: 0, or 20 once the coupon is accepted. */
    var discount: int
    var message: string
    var deliveryName: string
    var deliveryAddress: string
    var deliveryPhone: string
    var paymentType: string

    ghost predicate Valid()
      reads this
    {
      C.WellFormed(cart) && (discount == 0 || discount == C.CouponPercent)
    }

    /** The state when the app starts: an empty plate, no coupon, payment on delivery. */
    constructor ()
      ensures Valid()
      ensures cart == [] && coupon == "" && discount == 0 && message == ""
      ensures deliveryName == "" && deliveryAddress == "" && deliveryPhone == ""
      ensures paymentType == "COD"
    {
      cart := [];
      coupon := "";
      discount := 0;
      message := "";
      deliveryName := "";
      deliveryAddress := "";
      deliveryPhone := "";
      paymentType := "COD";
    }

    /** The badge count `App` shows on the plate icon. */
    function CartItemCount(): (n: int)
      reads this
      requires Valid()
      ensures n >= |cart|
      ensures n == 0 <==> cart == []
    {
      C.ItemCountAtLeastLines(cart);
      C.ItemCount(cart)
    }

    /** The total the sidebar displays: the subtotal less the discount. */
    function Total(): (t: real)
      reads this
      requires Valid()
      ensures 0.0 <= t <= C.Subtotal(cart) as real
    {
      C.SubtotalNonNegative(cart);
      C.TotalBounds(C.Subtotal(cart), discount);
      C.Total(C.Subtotal(cart), discount)
    }

    /** Typing in the coupon box. */
    method SetCoupon(text: string)
      modifies this
      ensures coupon == text
      ensures cart == old(cart) && discount == old(discount) && message == old(message)
      ensures deliveryName == old(deliveryName) && deliveryAddress == old(deliveryAddress)
      ensures deliveryPhone == old(deliveryPhone) && paymentType == old(paymentType)
    {
      coupon := text;
    }

    method SetDeliveryName(text: string)
      modifies this
      ensures deliveryName == text
      ensures cart == old(cart) && coupon == old(coupon) && discount == old(discount) && message == old(message)
      ensures deliveryAddress == old(deliveryAddress)
      ensures deliveryPhone == old(deliveryPhone) && paymentType == old(paymentType)
    {
      deliveryName := text;
    }

    method SetDeliveryAddress(text: string)
      modifies this
      ensures deliveryAddress == text
      ensures cart == old(cart) && coupon == old(coupon) && discount == old(discount) && message == old(message)
      ensures deliveryName == old(deliveryName)
      ensures deliveryPhone == old(deliveryPhone) && paymentType == old(paymentType)
    {
      deliveryAddress := text;
    }

    /** `handlePhoneChange` stores the input's text as given (the formatted display after the edit); digits are extracted only when checking out. */
    method HandlePhoneChange(text: string)
      modifies this
      ensures deliveryPhone == text
      ensures cart == old(cart) && coupon == old(coupon) && discount == old(discount) && message == old(message)
      ensures deliveryName == old(deliveryName) && deliveryAddress == old(deliveryAddress)
      ensures paymentType == old(paymentType)
    {
      deliveryPhone := text;
    }

    /** The payment radio buttons ("COD" or "UPI"). */
    method SetPaymentType(payment: string)
      modifies this
      ensures paymentType == payment
      ensures cart == old(cart) && coupon == old(coupon) && discount == old(discount) && message == old(message)
      ensures deliveryName == old(deliveryName) && deliveryAddress == old(deliveryAddress)
      ensures deliveryPhone == old(deliveryPhone)
    {
      paymentType := payment;
    }

    /**
     * `applyCoupon`: 20% for the recognised code (in any letter case), otherwise
     * no discount, with the matching message. Only discount and message change,
     * and both depend on the unchanged coupon text alone, so a second call
     * leaves the state as the first one did.
     */
    method ApplyCoupon()
      requires Valid()
      modifies this
      ensures Valid()
      ensures discount == C.CouponDiscount(coupon)
      ensures message == if discount == C.CouponPercent then C.CouponAppliedMessage else C.CouponRejectedMessage
      ensures cart == old(cart) && coupon == old(coupon)
      ensures deliveryName == old(deliveryName) && deliveryAddress == old(deliveryAddress)
      ensures deliveryPhone == old(deliveryPhone) && paymentType == old(paymentType)
    {
      if ToUpper(coupon) == C.CouponCode {
        discount := C.CouponPercent;
        message := C.CouponAppliedMessage;
      } else {
        discount := 0;
        message := C.CouponRejectedMessage;
      }
    }

    /** The quantity stepper: `updateQuantity(id, change)`. */
    method UpdateQuantity(id: C.DishId, change: int)
      requires Valid()
      modifies this
      ensures Valid()
      ensures cart == C.UpdateQuantity(old(cart), id, change)
      ensures coupon == old(coupon) && discount == old(discount) && message == old(message)
      ensures deliveryName == old(deliveryName) && deliveryAddress == old(deliveryAddress)
      ensures deliveryPhone == old(deliveryPhone) && paymentType == old(paymentType)
    {
      C.UpdateQuantityWellFormed(cart, id, change);
      cart := C.UpdateQuantity(cart, id, change);
    }

    /** `RestaurantDetail.addToCart(dish)`, writing the shared plate. */
    method AddToCart(dish: C.Dish, restaurant: C.Restaurant)
      requires Valid()
      modifies this
      ensures Valid()
      ensures cart == C.AddToCart(old(cart), dish, restaurant)
      ensures coupon == old(coupon) && discount == old(discount) && message == old(message)
      ensures deliveryName == old(deliveryName) && deliveryAddress == old(deliveryAddress)
      ensures deliveryPhone == old(deliveryPhone) && paymentType == old(paymentType)
    {
      C.AddToCartWellFormed(cart, dish, restaurant);
      cart := C.AddToCart(cart, dish, restaurant);
    }

    /**
     * `handleCheckout`: decide on the current state; on a refusal report the
     * reason and change nothing; on success hand back the order summary and
     * clear the plate, the coupon, the discount, the message and the form,
     * with payment back on "COD".
     */
    method HandleCheckout(timestamp: string) returns (outcome: Result<C.OrderSummary, C.CheckoutError>)
      requires Valid()
      modifies this
      ensures Valid()
      ensures outcome == C.Checkout(old(cart), old(discount), old(deliveryName), old(deliveryAddress),
                                    old(deliveryPhone), old(paymentType), timestamp)
      ensures outcome.Failure? ==>
        && cart == old(cart) && coupon == old(coupon) && discount == old(discount) && message == old(message)
        && deliveryName == old(deliveryName) && deliveryAddress == old(deliveryAddress)
        && deliveryPhone == old(deliveryPhone) && paymentType == old(paymentType)
      ensures outcome.Success? ==>
        && cart == [] && coupon == "" && discount == 0 && message == ""
        && deliveryName == "" && deliveryAddress == "" && deliveryPhone == ""
        && paymentType == "COD"
    {
      outcome := C.Checkout(cart, discount, deliveryName, deliveryAddress, deliveryPhone, paymentType, timestamp);
      if outcome.Success? {
        Reset();
      }
    }

    /** The "Reset state" block run after an order is placed. */
    method Reset()
      modifies this
      ensures Valid()
      ensures cart == [] && coupon == "" && discount == 0 && message == ""
      ensures deliveryName == "" && deliveryAddress == "" && deliveryPhone == ""
      ensures paymentType == "COD"
    {
      cart := [];
      LeaveCart();
    }

    /**
     * Switching away from the cart tab unmounts the sidebar: its own state is
     * dropped, so the next time the plate is shown the coupon, discount,
     * message and form start over from their initial values. The plate itself
     * belongs to `App` and survives.
     */
    method LeaveCart()
      requires C.WellFormed(cart)
      modifies this
      ensures Valid()
      ensures cart == old(cart)
      ensures coupon == "" && discount == 0 && message == ""
      ensures deliveryName == "" && deliveryAddress == "" && deliveryPhone == ""
      ensures paymentType == "COD"
    {
      discount := 0;
      coupon := "";
      message := "";
      deliveryName := "";
      deliveryAddress := "";
      deliveryPhone := "";
      paymentType := "COD";
    }
  }
}
