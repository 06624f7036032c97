/**
 * The plate (cart) of the restaurant-browsing variant, cuzdoor.jsx: an
 * ordered list of lines, the pure transforms that `RestaurantDetail.addToCart`
 * and `CartSidebar.updateQuantity` apply to it, the derived subtotal, discount,
 * total and badge count, the phone formatter, and the checkout validation chain.
 *
 * Money is in integer cents; the coupon rate is an integer percent; totals are
 * exact rationals (`real`), where the source computes in floating point.
 */
module Cuzdoor {
  import opened JsText
  import opened Options

  type DishId = string

  /** A menu entry as `addToCart` receives it. */
  datatype Dish = Dish(id: DishId, name: string, price: nat)

  datatype Restaurant = Restaurant(id: string, name: string)

  /** One line of the plate: the dish's fields, its quantity and where it was ordered from. */
  datatype Line = Line(
    id: DishId,
    name: string,
    price: nat,
    quantity: int,
    restaurantId: string,
    restaurantName: string)

  // ---------------------------------------------------------------------------
  // Plate invariants
  // ---------------------------------------------------------------------------

  predicate AllPositive(cart: seq<Line>) {
    forall i :: 0 <= i < |cart| ==> cart[i].quantity > 0
  }

  predicate UniqueIds(cart: seq<Line>) {
    forall i, j :: 0 <= i < j < |cart| ==> cart[i].id != cart[j].id
  }

  /** No line with a non-positive quantity and no two lines for the same dish. */
  predicate WellFormed(cart: seq<Line>) {
    AllPositive(cart) && UniqueIds(cart)
  }

  /** No line other than the one at `k` is for the same dish. */
  predicate OnlyAt(cart: seq<Line>, k: nat)
    requires k < |cart|
  {
    forall j :: 0 <= j < |cart| && j != k ==> cart[j].id != cart[k].id
  }

  lemma UniqueOnlyAt(cart: seq<Line>, k: nat)
    requires UniqueIds(cart) && k < |cart|
    ensures OnlyAt(cart, k)
  {
  }

  predicate InCart(cart: seq<Line>, id: DishId) {
    exists i :: 0 <= i < |cart| && cart[i].id == id
  }

  /** Every line for `dish` carries the dish's catalog price. */
  predicate PriceAgrees(cart: seq<Line>, dish: Dish) {
    forall i :: 0 <= i < |cart| && cart[i].id == dish.id ==> cart[i].price == dish.price
  }

  // ---------------------------------------------------------------------------
  // updateQuantity: map the matching line, then filter out non-positive lines
  // ---------------------------------------------------------------------------

  function Bump(line: Line, id: DishId, change: int): Line {
    if line.id == id then line.(quantity := line.quantity + change) else line
  }

  /** `cart.map(item => item.id === id ? {...item, quantity: item.quantity + change} : item)` */
  function Bumped(cart: seq<Line>, id: DishId, change: int): (r: seq<Line>)
    ensures |r| == |cart|
  {
    seq(|cart|, i requires 0 <= i < |cart| => Bump(cart[i], id, change))
  }

  /** `.filter(item => item.quantity > 0)` */
  function KeepPositive(cart: seq<Line>): (r: seq<Line>)
    ensures AllPositive(r)
    ensures |r| <= |cart|
    ensures forall l :: l in r ==> l in cart
  {
    if cart == [] then []
    else if cart[0].quantity > 0 then [cart[0]] + KeepPositive(cart[1..])
    else KeepPositive(cart[1..])
  }

  /** The new plate `CartSidebar.updateQuantity(id, change)` installs. */
  function UpdateQuantity(cart: seq<Line>, id: DishId, change: int): (r: seq<Line>)
  {
    KeepPositive(Bumped(cart, id, change))
  }

  lemma {:induction false} KeepPositiveOfPositive(cart: seq<Line>)
    requires AllPositive(cart)
    ensures KeepPositive(cart) == cart
  {
    if cart != [] {
      KeepPositiveOfPositive(cart[1..]);
      assert [cart[0]] + cart[1..] == cart;
    }
  }

  lemma {:induction false} KeepPositiveAppend(a: seq<Line>, b: seq<Line>)
    ensures KeepPositive(a + b) == KeepPositive(a) + KeepPositive(b)
  {
    if a == [] {
      assert a + b == b;
    } else {
      assert (a + b)[0] == a[0];
      assert (a + b)[1..] == a[1..] + b;
      KeepPositiveAppend(a[1..], b);
    }
  }

  lemma {:induction false} KeepPositiveUnique(cart: seq<Line>)
    requires UniqueIds(cart)
    ensures UniqueIds(KeepPositive(cart))
  {
    if cart != [] {
      KeepPositiveUnique(cart[1..]);
      var rest := KeepPositive(cart[1..]);
      forall l | l in rest ensures l.id != cart[0].id {
        var j :| 0 <= j < |cart[1..]| && cart[1..][j] == l;
        assert cart[j + 1] == l;
      }
    }
  }

  /** An id that is not on the plate leaves the plate unchanged. */
  lemma UpdateQuantityAbsent(cart: seq<Line>, id: DishId, change: int)
    requires AllPositive(cart) && !InCart(cart, id)
    ensures UpdateQuantity(cart, id, change) == cart
  {
    assert Bumped(cart, id, change) == cart;
    KeepPositiveOfPositive(cart);
  }

  lemma UpdateQuantityOnlyAt(cart: seq<Line>, k: nat, change: int)
    requires AllPositive(cart) && k < |cart| && OnlyAt(cart, k)
    ensures var q := cart[k].quantity + change;
      UpdateQuantity(cart, cart[k].id, change)
      == cart[..k] + (if q > 0 then [cart[k].(quantity := q)] else []) + cart[k + 1..]
  {
    var b := Bumped(cart, cart[k].id, change);
    assert b == cart[..k] + [b[k]] + cart[k + 1..];
    KeepPositiveSplit(cart[..k], b[k], cart[k + 1..]);
  }

  lemma KeepPositiveSplit(a: seq<Line>, y: Line, c: seq<Line>)
    requires AllPositive(a) && AllPositive(c)
    ensures KeepPositive(a + [y] + c) == a + (if y.quantity > 0 then [y] else []) + c
  {
    KeepPositiveAppend(a + [y], c);
    KeepPositiveAppend(a, [y]);
    KeepPositiveOfPositive(a);
    KeepPositiveOfPositive(c);
    assert KeepPositive([y]) == if y.quantity > 0 then [y] else [] by {
      assert [y][1..] == [];
    }
  }

  /**
   * On a well-formed plate, only the line for `id` changes: it keeps its position
   * with the new quantity, or disappears when that quantity is 0 or below; every
   * other line keeps its quantity and position.
   */
  lemma UpdateQuantityAt(cart: seq<Line>, k: nat, change: int)
    requires WellFormed(cart) && k < |cart|
    ensures var q := cart[k].quantity + change;
      UpdateQuantity(cart, cart[k].id, change)
      == cart[..k] + (if q > 0 then [cart[k].(quantity := q)] else []) + cart[k + 1..]
  {
    UniqueOnlyAt(cart, k);
    UpdateQuantityOnlyAt(cart, k, change);
  }

  /** `updateQuantity` keeps the plate free of non-positive lines and duplicate ids. */
  lemma UpdateQuantityWellFormed(cart: seq<Line>, id: DishId, change: int)
    requires WellFormed(cart)
    ensures WellFormed(UpdateQuantity(cart, id, change))
  {
    KeepPositiveUnique(Bumped(cart, id, change));
  }

  // ---------------------------------------------------------------------------
  // RestaurantDetail.addToCart
  // ---------------------------------------------------------------------------

  function NewLine(dish: Dish, restaurant: Restaurant): Line {
    Line(dish.id, dish.name, dish.price, 1, restaurant.id, restaurant.name)
  }

  /**
   * `addToCart(dish)`: bump the existing line for the dish by one, or append a
   * new line with quantity 1 carrying the restaurant it was ordered from.
   */
  function AddToCart(cart: seq<Line>, dish: Dish, restaurant: Restaurant): (r: seq<Line>)
  {
    if InCart(cart, dish.id) then Bumped(cart, dish.id, 1)
    else cart + [NewLine(dish, restaurant)]
  }

  /**
   * Adding to a well-formed plate keeps it well formed; the dish is then on the
   * plate; the plate grows by one line exactly when the dish was not on it.
   */
  lemma AddToCartWellFormed(cart: seq<Line>, dish: Dish, restaurant: Restaurant)
    requires WellFormed(cart)
    ensures var r := AddToCart(cart, dish, restaurant);
      && WellFormed(r)
      && InCart(r, dish.id)
      && |r| == if InCart(cart, dish.id) then |cart| else |cart| + 1
  {
    var r := AddToCart(cart, dish, restaurant);
    if InCart(cart, dish.id) {
      var k :| 0 <= k < |cart| && cart[k].id == dish.id;
      assert r[k].id == dish.id;
    } else {
      assert r[|cart|].id == dish.id;
    }
  }

  /** When the dish is at position `k`, that line's quantity goes up by one and nothing else changes. */
  lemma AddToCartPresent(cart: seq<Line>, dish: Dish, restaurant: Restaurant, k: nat)
    requires k < |cart| && cart[k].id == dish.id && OnlyAt(cart, k)
    ensures AddToCart(cart, dish, restaurant)
      == cart[..k] + [cart[k].(quantity := cart[k].quantity + 1)] + cart[k + 1..]
  {
    assert InCart(cart, dish.id);
  }

  lemma AddThenDecrementAt(cart: seq<Line>, dish: Dish, restaurant: Restaurant, k: nat)
    requires AllPositive(cart) && k < |cart| && cart[k].id == dish.id && OnlyAt(cart, k)
    ensures UpdateQuantity(AddToCart(cart, dish, restaurant), dish.id, -1) == cart
  {
    var r := AddToCart(cart, dish, restaurant);
    AddToCartPresent(cart, dish, restaurant, k);
    assert r[k].id == dish.id;
    assert OnlyAt(r, k);
    UpdateQuantityOnlyAt(r, k, -1);
    assert r[..k] == cart[..k] && r[k + 1..] == cart[k + 1..];
    assert r[k].(quantity := r[k].quantity - 1) == cart[k];
    assert cart[..k] + [cart[k]] + cart[k + 1..] == cart;
  }

  /** Round trip: adding a dish and then stepping its quantity down by one restores the plate. */
  lemma AddThenDecrement(cart: seq<Line>, dish: Dish, restaurant: Restaurant)
    requires WellFormed(cart)
    ensures UpdateQuantity(AddToCart(cart, dish, restaurant), dish.id, -1) == cart
  {
    if InCart(cart, dish.id) {
      var k :| 0 <= k < |cart| && cart[k].id == dish.id;
      UniqueOnlyAt(cart, k);
      AddThenDecrementAt(cart, dish, restaurant, k);
    } else {
      var r := AddToCart(cart, dish, restaurant);
      assert r == cart + [NewLine(dish, restaurant)];
      assert OnlyAt(r, |cart|);
      UpdateQuantityOnlyAt(r, |cart|, -1);
      assert r[..|cart|] == cart;
    }
  }

  // ---------------------------------------------------------------------------
  // Derived values: subtotal, discount, total, badge count
  // ---------------------------------------------------------------------------

  /** `cart.reduce((sum, item) => sum + item.price * item.quantity, 0)` */
  function Subtotal(cart: seq<Line>): int {
    if cart == [] then 0
    else Subtotal(cart[..|cart| - 1]) + LineTotal(cart[|cart| - 1])
  }

  /** `item.price * item.quantity` */
  function LineTotal(line: Line): int {
    line.price * line.quantity
  }

  /** Changing a line's quantity by `n` changes its total by `n` times its price. */
  lemma LineTotalBump(line: Line, n: int)
    ensures LineTotal(line.(quantity := line.quantity + n)) == LineTotal(line) + line.price * n
  {
    assert line.price * (line.quantity + n) == line.price * line.quantity + line.price * n;
  }

  /** `cart.reduce((count, item) => count + item.quantity, 0)`: the badge on the plate icon. */
  function ItemCount(cart: seq<Line>): int {
    if cart == [] then 0
    else ItemCount(cart[..|cart| - 1]) + cart[|cart| - 1].quantity
  }

  lemma {:induction false} SubtotalAppend(a: seq<Line>, b: seq<Line>)
    ensures Subtotal(a + b) == Subtotal(a) + Subtotal(b)
    decreases |b|
  {
    if b == [] {
      assert a + b == a;
    } else {
      assert (a + b)[..|a + b| - 1] == a + b[..|b| - 1];
      SubtotalAppend(a, b[..|b| - 1]);
    }
  }

  lemma {:induction false} ItemCountAppend(a: seq<Line>, b: seq<Line>)
    ensures ItemCount(a + b) == ItemCount(a) + ItemCount(b)
    decreases |b|
  {
    if b == [] {
      assert a + b == a;
    } else {
      assert (a + b)[..|a + b| - 1] == a + b[..|b| - 1];
      ItemCountAppend(a, b[..|b| - 1]);
    }
  }

  /** With positive quantities the subtotal is never negative. */
  lemma {:induction false} SubtotalNonNegative(cart: seq<Line>)
    requires AllPositive(cart)
    ensures Subtotal(cart) >= 0
  {
    if cart != [] {
      SubtotalNonNegative(cart[..|cart| - 1]);
    }
  }

  /** With positive quantities the badge counts at least one per line, so it is 0 exactly on an empty plate. */
  lemma {:induction false} ItemCountAtLeastLines(cart: seq<Line>)
    requires AllPositive(cart)
    ensures ItemCount(cart) >= |cart|
    ensures ItemCount(cart) == 0 <==> cart == []
  {
    if cart != [] {
      ItemCountAtLeastLines(cart[..|cart| - 1]);
    }
  }

  lemma SubtotalSplit(a: seq<Line>, y: Line, c: seq<Line>)
    ensures Subtotal(a + [y] + c) == Subtotal(a) + LineTotal(y) + Subtotal(c)
  {
    SubtotalAppend(a + [y], c);
    SubtotalAppend(a, [y]);
    assert [y][..0] == [];
  }

  lemma ItemCountSplit(a: seq<Line>, y: Line, c: seq<Line>)
    ensures ItemCount(a + [y] + c) == ItemCount(a) + y.quantity + ItemCount(c)
  {
    ItemCountAppend(a + [y], c);
    ItemCountAppend(a, [y]);
    assert [y][..0] == [];
  }

  /** Replacing the line at `k` changes the sums by the difference of the two lines. */
  lemma SumsReplace(cart: seq<Line>, k: nat, x: Line)
    requires k < |cart|
    ensures Subtotal(cart[..k] + [x] + cart[k + 1..]) == Subtotal(cart) - LineTotal(cart[k]) + LineTotal(x)
    ensures ItemCount(cart[..k] + [x] + cart[k + 1..]) == ItemCount(cart) - cart[k].quantity + x.quantity
  {
    var a, c := cart[..k], cart[k + 1..];
    assert cart == a + [cart[k]] + c;
    SubtotalSplit(a, cart[k], c);
    SubtotalSplit(a, x, c);
    ItemCountSplit(a, cart[k], c);
    ItemCountSplit(a, x, c);
  }

  /** Raising the quantity of the line at `k` by one adds its price to the subtotal and one to the count. */
  lemma SumsBumpAt(cart: seq<Line>, k: nat)
    requires k < |cart|
    ensures var x := cart[..k] + [cart[k].(quantity := cart[k].quantity + 1)] + cart[k + 1..];
      Subtotal(x) == Subtotal(cart) + cart[k].price && ItemCount(x) == ItemCount(cart) + 1
  {
    SumsReplace(cart, k, cart[k].(quantity := cart[k].quantity + 1));
    LineTotalBump(cart[k], 1);
  }

  lemma AddToCartTotalsPresent(cart: seq<Line>, dish: Dish, restaurant: Restaurant, k: nat)
    requires k < |cart| && cart[k].id == dish.id && cart[k].price == dish.price && OnlyAt(cart, k)
    ensures Subtotal(AddToCart(cart, dish, restaurant)) == Subtotal(cart) + dish.price
    ensures ItemCount(AddToCart(cart, dish, restaurant)) == ItemCount(cart) + 1
  {
    AddToCartPresent(cart, dish, restaurant, k);
    SumsBumpAt(cart, k);
  }

  /** Adding a dish raises the subtotal by its price and the badge count by one. */
  lemma AddToCartTotals(cart: seq<Line>, dish: Dish, restaurant: Restaurant)
    requires WellFormed(cart) && PriceAgrees(cart, dish)
    ensures Subtotal(AddToCart(cart, dish, restaurant)) == Subtotal(cart) + dish.price
    ensures ItemCount(AddToCart(cart, dish, restaurant)) == ItemCount(cart) + 1
  {
    if InCart(cart, dish.id) {
      var k :| 0 <= k < |cart| && cart[k].id == dish.id;
      UniqueOnlyAt(cart, k);
      AddToCartTotalsPresent(cart, dish, restaurant, k);
    } else {
      var line := NewLine(dish, restaurant);
      SubtotalAppend(cart, [line]);
      ItemCountAppend(cart, [line]);
    }
  }

  /** `subtotal * discount` with the discount as a percent. */
  function DiscountAmount(subtotal: int, percent: int): real {
    (subtotal * percent) as real / 100.0
  }

  /** `subtotal - totalDiscount` */
  function Total(subtotal: int, percent: int): real {
    subtotal as real - DiscountAmount(subtotal, percent)
  }

  /**
   * With a rate between 0% and 100% the total is never negative, never exceeds
   * the subtotal, and is the subtotal scaled by the remaining percentage.
   */
  lemma TotalBounds(subtotal: int, percent: int)
    requires subtotal >= 0 && 0 <= percent <= 100
    ensures 0.0 <= Total(subtotal, percent) <= subtotal as real
    ensures Total(subtotal, percent) == (subtotal * (100 - percent)) as real / 100.0
  {
    assert 0 <= subtotal * percent <= subtotal * 100;
  }

  // ---------------------------------------------------------------------------
  // applyCoupon
  // ---------------------------------------------------------------------------

  const CouponCode: string := "CUZDOOR20"
  const CouponPercent: int := 20

  const CouponAppliedMessage: string := "Coupon Applied! 20% off your order."
  const CouponRejectedMessage: string := "Invalid or expired coupon."

  /** The discount `applyCoupon` installs for the text in the coupon box. */
  function CouponDiscount(code: string): (r: int)
  {
    if ToUpper(code) == CouponCode then CouponPercent else 0
  }

  /**
   * The code is recognised case-insensitively: the rate is 20% exactly when the
   * text lower-cases to "cuzdoor20", and 0 otherwise; re-casing the text does
   * not change the outcome.
   */
  lemma CouponDiscountCaseInsensitive(code: string)
    ensures CouponDiscount(code) == 20 <==> ToLower(code) == "cuzdoor20"
    ensures CouponDiscount(code) == 0 <==> ToLower(code) != "cuzdoor20"
    ensures CouponDiscount(ToUpper(code)) == CouponDiscount(code)
    ensures CouponDiscount(ToLower(code)) == CouponDiscount(code)
  {
    SameUpperIffSameLower(code, CouponCode);
    assert ToLower(CouponCode) == "cuzdoor20";
    UpperIdempotent(code);
    SameUpperIffSameLower(ToLower(code), code);
    LowerOfUpper(code);
    assert ToLower(ToLower(code)) == ToLower(code);
  }

  // ---------------------------------------------------------------------------
  // formatIndianPhoneNumber
  // ---------------------------------------------------------------------------

  function Min(a: int, b: int): int {
    if a <= b then a else b
  }

  /** `value.replace(/\D/g, '').substring(0, 10)` */
  function FirstTenDigits(value: string): (r: string)
    ensures AllDigits(r) && |r| <= 10
  {
    var digits := DigitsOnly(value);
    digits[..Min(10, |digits|)]
  }

  /** `formatIndianPhoneNumber`: up to ten digits, grouped five and five. */
  function FormatIndianPhoneNumber(value: string): (r: string)
  {
    var digits := FirstTenDigits(value);
    var head := if |digits| > 0 then digits[..Min(5, |digits|)] else "";
    if |digits| > 5 then head + " " + digits[5..] else head
  }

  /**
   * The formatted number is the first ten digits of the input with a single
   * space after the fifth when there are more than five; it is empty when the
   * input holds no digit; stripping the non-digits gives the ten digits back.
   */
  lemma FormatIndianPhoneNumberShape(value: string)
    ensures var d := FirstTenDigits(value);
      var r := FormatIndianPhoneNumber(value);
      && (|d| <= 5 ==> r == d)
      && (|d| > 5 ==> r == d[..5] + " " + d[5..])
      && |r| <= 11
      && (r == "" <==> DigitsOnly(value) == "")
      && DigitsOnly(r) == d
  {
    var d := FirstTenDigits(value);
    if |d| > 5 {
      DigitsOnlyAppend(d[..5] + " ", d[5..]);
      DigitsOnlyAppend(d[..5], " ");
      assert d[..5] + d[5..] == d;
    }
  }

  /** Formatting an already formatted number changes nothing. */
  lemma FormatIndianPhoneNumberIdempotent(value: string)
    ensures FormatIndianPhoneNumber(FormatIndianPhoneNumber(value)) == FormatIndianPhoneNumber(value)
  {
    var r := FormatIndianPhoneNumber(value);
    FormatIndianPhoneNumberShape(value);
    FormatIndianPhoneNumberShape(r);
    assert FirstTenDigits(r) == FirstTenDigits(value);
  }

  // ---------------------------------------------------------------------------
  // handleCheckout
  // ---------------------------------------------------------------------------

  /** The single reason `handleCheckout` reports when it refuses an order. */
  datatype CheckoutError = EmptyPlate | InvalidPhone | MissingName | MissingAddress | MissingFields

  const EmptyPlateMessage: string := "Your plate is empty! Add some dishes first."
  const InvalidPhoneMessage: string := "Please enter a valid 10-digit Indian mobile number."
  const MissingNameMessage: string := "Please enter your full name."
  const MissingAddressMessage: string := "Please enter your delivery address."
  const MissingFieldsMessage: string := "Please fill in all required fields."

  /** The text `handleCheckout` passes to `showMessage` for each refusal. */
  function ErrorMessage(e: CheckoutError): string {
    match e
    case EmptyPlate => EmptyPlateMessage
    case InvalidPhone => InvalidPhoneMessage
    case MissingName => MissingNameMessage
    case MissingAddress => MissingAddressMessage
    case MissingFields => MissingFieldsMessage
  }

  datatype SummaryItem = SummaryItem(name: string, qty: int, price: nat)

  /** The order record logged on a successful checkout. */
  datatype OrderSummary = OrderSummary(
    total: real,
    name: string,
    phone: string,
    address: string,
    payment: string,
    items: seq<SummaryItem>,
    timestamp: string)

  /** `cart.map(item => ({name: item.name, qty: item.quantity, price: item.price}))` */
  function SummaryItems(cart: seq<Line>): (r: seq<SummaryItem>)
    ensures |r| == |cart|
  {
    seq(|cart|, i requires 0 <= i < |cart| => SummaryItem(cart[i].name, cart[i].quantity, cart[i].price))
  }

  /**
   * The decision `handleCheckout` takes on the current plate, discount and form
   * fields: the empty plate first, then (if any field is bad) the phone, the
   * name, the address, else the generic message; otherwise the order summary.
   * The time stamp is passed in.
   */
  function Checkout(
    cart: seq<Line>, percent: int,
    name: string, address: string, phone: string, payment: string,
    timestamp: string): (r: Result<OrderSummary, CheckoutError>)
    ensures cart == [] ==> r == Failure(EmptyPlate)
  {
    var rawPhone := DigitsOnly(phone);
    if |cart| == 0 then Failure(EmptyPlate)
    else if Trim(name) == "" || Trim(address) == "" || payment == "" || |rawPhone| != 10 then
      Failure(
        if |rawPhone| != 10 then InvalidPhone
        else if Trim(name) == "" then MissingName
        else if Trim(address) == "" then MissingAddress
        else MissingFields)
    else
      Success(OrderSummary(
        Total(Subtotal(cart), percent), name, "+91 " + rawPhone, address, payment,
        SummaryItems(cart), timestamp))
  }

  /**
   * Checkout succeeds exactly when the plate is non-empty, the phone holds ten
   * digits once non-digits are stripped, name and address each have a
   * non-whitespace character and a payment type is set.
   */
  lemma CheckoutSucceedsIff(
    cart: seq<Line>, percent: int,
    name: string, address: string, phone: string, payment: string, timestamp: string)
    ensures Checkout(cart, percent, name, address, phone, payment, timestamp).Success?
      <==> (&& cart != []
            && |DigitsOnly(phone)| == 10
            && !IsBlank(name)
            && !IsBlank(address)
            && payment != "")
  {
    TrimEmptyIffBlank(name);
    TrimEmptyIffBlank(address);
  }

  /** On a non-empty plate the reported error follows the fixed order phone, name, address. */
  lemma CheckoutErrorOrder(
    cart: seq<Line>, percent: int,
    name: string, address: string, phone: string, payment: string, timestamp: string)
    requires cart != []
    ensures var r := Checkout(cart, percent, name, address, phone, payment, timestamp);
      && (|DigitsOnly(phone)| != 10 ==> r == Failure(InvalidPhone))
      && (|DigitsOnly(phone)| == 10 && IsBlank(name) ==> r == Failure(MissingName))
      && (|DigitsOnly(phone)| == 10 && !IsBlank(name) && IsBlank(address) ==> r == Failure(MissingAddress))
      && (|DigitsOnly(phone)| == 10 && !IsBlank(name) && !IsBlank(address) && payment == "" ==> r == Failure(MissingFields))
  {
    TrimEmptyIffBlank(name);
    TrimEmptyIffBlank(address);
  }

  /**
   * The text `showMessage` receives when checkout refuses: the empty-plate
   * text first, then the phone, name and address texts in the order of the
   * checks, and the generic text when only the payment type is missing.
   */
  lemma CheckoutRefusalMessage(
    cart: seq<Line>, percent: int,
    name: string, address: string, phone: string, payment: string, timestamp: string,
    e: CheckoutError)
    requires Checkout(cart, percent, name, address, phone, payment, timestamp) == Failure(e)
    ensures ErrorMessage(e) ==
      if cart == [] then EmptyPlateMessage
      else if |DigitsOnly(phone)| != 10 then InvalidPhoneMessage
      else if IsBlank(name) then MissingNameMessage
      else if IsBlank(address) then MissingAddressMessage
      else MissingFieldsMessage
  {
    CheckoutSucceedsIff(cart, percent, name, address, phone, payment, timestamp);
    if cart != [] {
      CheckoutErrorOrder(cart, percent, name, address, phone, payment, timestamp);
    }
  }

  /**
   * A placed order carries the plate's lines (name, quantity and price), the
   * discounted total the sidebar displays, the form's name, address and
   * payment, the phone as "+91 " followed by exactly the ten digits typed, and
   * the time stamp of the moment it was placed.
   */
  lemma CheckoutSummary(
    cart: seq<Line>, percent: int,
    name: string, address: string, phone: string, payment: string, timestamp: string)
    requires WellFormed(cart) && 0 <= percent <= 100
    requires Checkout(cart, percent, name, address, phone, payment, timestamp).Success?
    ensures var o := Checkout(cart, percent, name, address, phone, payment, timestamp).value;
      && o.phone[..4] == "+91 "
      && o.phone[4..] == DigitsOnly(phone)
      && |o.phone| == 14 && AllDigits(o.phone[4..])
      && o.total == Total(Subtotal(cart), percent)
      && 0.0 <= o.total <= Subtotal(cart) as real
      && |o.items| == |cart|
      && (forall i :: 0 <= i < |cart| ==>
            && o.items[i].name == cart[i].name
            && o.items[i].qty == cart[i].quantity && o.items[i].qty > 0
            && o.items[i].price == cart[i].price)
      && o.name == name && o.address == address && o.payment == payment
      && o.timestamp == timestamp
  {
    SubtotalNonNegative(cart);
    TotalBounds(Subtotal(cart), percent);
  }
}
