/**
 * The state of the `App` component of my-cuzdoor-app/src/App.jsx that the
 * cart, coupon, delivery form and food list read and write. Each handler is a
 * method updating these fields; the derived values are functions over them
 * defined in module AppCart.
 */
module AppSession {
  import opened AppCatalog
  import opened AppCart
  import opened JsText
  import opened Options

  class CuzdoorApp {
    var activeTab: string
    var cart: Cart
    var selectedCategory: string
    var location: string
    var searchQuery: string
    var appliedCoupon: Option<Coupon>
    var paymentMethod: string
    var orderPlaced: bool
    var userDetails: UserDetails
    var formErrors: map<FormField, string>

    /**
     * Counts in the cart are positive, the phone field holds digits only, and
     * an applied coupon is one of the offered coupons.
     */
    ghost predicate Valid()
      reads this
    {
      && AllPositive(cart)
      && AllDigits(userDetails.phone)
      && (appliedCoupon.Some? ==> appliedCoupon.value in Coupons)
    }

    /** The state on first render. */
    constructor ()
      ensures Valid()
      ensures activeTab == "home" && cart == map[] && selectedCategory == "All"
      ensures location == "Select Location" && searchQuery == "" && appliedCoupon == None
      ensures paymentMethod == "upi" && !orderPlaced
      ensures userDetails == UserDetails("", "", "") && formErrors == map[]
    {
      activeTab := "home";
      cart := map[];
      selectedCategory := "All";
      location := "Select Location";
      searchQuery := "";
      appliedCoupon := None;
      paymentMethod := "upi";
      orderPlaced := false;
      userDetails := UserDetails("", "", "");
      formErrors := map[];
    }

    /** `cartItems` */
    function Items(): (r: seq<CartItem>)
      reads this
      ensures forall x :: x in r ==> x.count > 0 && x.id in cart && cart[x.id] == x.count
    {
      CartItemsSpec(cart);
      CartItems(cart)
    }

    /** `cartTotal`: never negative, and zero for an empty cart. */
    function Subtotal(): (t: int)
      reads this
      ensures t >= 0
      ensures cart == map[] ==> t == 0
    {
      CartTotalNonNegative(Items());
      CartTotal(Items())
    }

    /** `finalTotal`: between zero and the item total. */
    function AmountDue(): (t: int)
      reads this
      ensures 0 <= t <= Subtotal()
      ensures appliedCoupon.None? ==> t == Subtotal()
    {
      FinalTotalBounds(Subtotal(), appliedCoupon);
      FinalTotal(Subtotal(), appliedCoupon)
    }

    /** `filteredFood` for the current category and search box. */
    function ShownFood(): (r: seq<FoodItem>)
      reads this
      ensures forall f :: f in r <==>
        f in FoodItems && MatchesCategory(f, selectedCategory) && MatchesSearch(f, searchQuery)
    {
      FilteredFood(selectedCategory, searchQuery)
    }

    /** The "+" buttons: `addToCart(id)`. */
    method AddToCart(id: int)
      requires Valid()
      modifies this
      ensures Valid()
      ensures cart == Added(old(cart), id)
      ensures activeTab == old(activeTab) && selectedCategory == old(selectedCategory)
      ensures location == old(location) && searchQuery == old(searchQuery)
      ensures appliedCoupon == old(appliedCoupon) && paymentMethod == old(paymentMethod)
      ensures orderPlaced == old(orderPlaced) && userDetails == old(userDetails) && formErrors == old(formErrors)
    {
      AddedSpec(cart, id);
      cart := Added(cart, id);
    }

    /** The "-" buttons: `removeFromCart(id)`. */
    method RemoveFromCart(id: int)
      requires Valid()
      modifies this
      ensures Valid()
      ensures cart == Removed(old(cart), id)
      ensures activeTab == old(activeTab) && selectedCategory == old(selectedCategory)
      ensures location == old(location) && searchQuery == old(searchQuery)
      ensures appliedCoupon == old(appliedCoupon) && paymentMethod == old(paymentMethod)
      ensures orderPlaced == old(orderPlaced) && userDetails == old(userDetails) && formErrors == old(formErrors)
    {
      RemovedSpec(cart, id);
      cart := Removed(cart, id);
    }

    /** Tapping an offered coupon replaces whichever one was applied before. */
    method ApplyCoupon(coupon: Coupon)
      requires Valid() && coupon in Coupons
      modifies this
      ensures Valid()
      ensures appliedCoupon == Some(coupon)
      ensures activeTab == old(activeTab) && cart == old(cart) && selectedCategory == old(selectedCategory)
      ensures location == old(location) && searchQuery == old(searchQuery) && paymentMethod == old(paymentMethod)
      ensures orderPlaced == old(orderPlaced) && userDetails == old(userDetails) && formErrors == old(formErrors)
    {
      appliedCoupon := Some(coupon);
    }

    /**
     * `handleInputChange`: a phone value with a non-digit is ignored; any other
     * value is stored in its field, and a non-empty error on that field is
     * cleared to the empty string.
     */
    method HandleInputChange(field: FormField, value: string)
      requires Valid()
      modifies this
      ensures Valid()
      ensures !AcceptsInput(field, value) ==> userDetails == old(userDetails) && formErrors == old(formErrors)
      ensures AcceptsInput(field, value) ==> userDetails == WithField(old(userDetails), field, value)
      ensures AcceptsInput(field, value) && field in old(formErrors) && old(formErrors)[field] != "" ==>
        formErrors == old(formErrors)[field := ""]
      ensures AcceptsInput(field, value) && (field !in old(formErrors) || old(formErrors)[field] == "") ==>
        formErrors == old(formErrors)
      ensures activeTab == old(activeTab) && cart == old(cart) && selectedCategory == old(selectedCategory)
      ensures location == old(location) && searchQuery == old(searchQuery)
      ensures appliedCoupon == old(appliedCoupon) && paymentMethod == old(paymentMethod)
      ensures orderPlaced == old(orderPlaced)
    {
      if !AcceptsInput(field, value) {
        return;
      }
      userDetails := WithField(userDetails, field, value);
      if field in formErrors && formErrors[field] != "" {
        formErrors := formErrors[field := ""];
      }
    }

    /**
     * `handleCheckout`: with any bad field the errors replace `formErrors` and
     * nothing else changes; otherwise the order is placed and the header
     * location becomes "<hostel>, <name>". The result says whether the order
     * was placed.
     */
    method HandleCheckout() returns (placed: bool)
      requires Valid()
      modifies this
      ensures Valid()
      ensures placed <==> CheckoutErrors(old(userDetails)) == map[]
      ensures !placed ==> (formErrors == CheckoutErrors(old(userDetails)) && orderPlaced == old(orderPlaced)
                           && location == old(location))
      ensures placed ==> (orderPlaced && formErrors == old(formErrors)
                          && location == old(userDetails.hostel) + ", " + old(userDetails.name))
      ensures activeTab == old(activeTab) && cart == old(cart) && selectedCategory == old(selectedCategory)
      ensures searchQuery == old(searchQuery) && appliedCoupon == old(appliedCoupon)
      ensures paymentMethod == old(paymentMethod) && userDetails == old(userDetails)
    {
      var errors := CheckoutErrors(userDetails);
      placed := errors == map[];
      if placed {
        PlaceOrder();
      } else {
        ShowErrors(errors);
      }
    }

    /** The accepted branch of `handleCheckout`. */
    method PlaceOrder()
      modifies this
      ensures orderPlaced && location == old(userDetails.hostel) + ", " + old(userDetails.name)
      ensures activeTab == old(activeTab) && cart == old(cart) && selectedCategory == old(selectedCategory)
      ensures searchQuery == old(searchQuery) && appliedCoupon == old(appliedCoupon)
      ensures paymentMethod == old(paymentMethod) && userDetails == old(userDetails) && formErrors == old(formErrors)
    {
      orderPlaced := true;
      location := userDetails.hostel + ", " + userDetails.name;
    }

    /** The refused branch of `handleCheckout`: `setFormErrors(errors)`. */
    method ShowErrors(errors: map<FormField, string>)
      modifies this
      ensures formErrors == errors
      ensures activeTab == old(activeTab) && cart == old(cart) && selectedCategory == old(selectedCategory)
      ensures location == old(location) && searchQuery == old(searchQuery)
      ensures appliedCoupon == old(appliedCoupon) && paymentMethod == old(paymentMethod)
      ensures orderPlaced == old(orderPlaced) && userDetails == old(userDetails)
    {
      formErrors := errors;
    }

    /** The timer `handleCheckout` starts: the confirmation closes and cart and coupon are cleared. */
    method OrderTimerFires()
      requires Valid()
      modifies this
      ensures Valid()
      ensures !orderPlaced && cart == map[] && activeTab == "home" && appliedCoupon == None
      ensures selectedCategory == old(selectedCategory) && location == old(location)
      ensures searchQuery == old(searchQuery) && paymentMethod == old(paymentMethod)
      ensures userDetails == old(userDetails) && formErrors == old(formErrors)
    {
      orderPlaced := false;
      cart := map[];
      activeTab := "home";
      appliedCoupon := None;
    }

    method SetActiveTab(tab: string)
      modifies this
      ensures activeTab == tab
      ensures cart == old(cart) && selectedCategory == old(selectedCategory)
      ensures location == old(location) && searchQuery == old(searchQuery)
      ensures appliedCoupon == old(appliedCoupon) && paymentMethod == old(paymentMethod)
      ensures orderPlaced == old(orderPlaced) && userDetails == old(userDetails) && formErrors == old(formErrors)
    {
      activeTab := tab;
    }

    method SetSelectedCategory(category: string)
      modifies this
      ensures selectedCategory == category
      ensures activeTab == old(activeTab) && cart == old(cart)
      ensures location == old(location) && searchQuery == old(searchQuery)
      ensures appliedCoupon == old(appliedCoupon) && paymentMethod == old(paymentMethod)
      ensures orderPlaced == old(orderPlaced) && userDetails == old(userDetails) && formErrors == old(formErrors)
    {
      selectedCategory := category;
    }

    method SetSearchQuery(query: string)
      modifies this
      ensures searchQuery == query
      ensures activeTab == old(activeTab) && cart == old(cart) && selectedCategory == old(selectedCategory)
      ensures location == old(location)
      ensures appliedCoupon == old(appliedCoupon) && paymentMethod == old(paymentMethod)
      ensures orderPlaced == old(orderPlaced) && userDetails == old(userDetails) && formErrors == old(formErrors)
    {
      searchQuery := query;
    }

    /** The payment buttons ("upi" or "cod"). */
    method SetPaymentMethod(choice: string)
      modifies this
      ensures paymentMethod == choice
      ensures activeTab == old(activeTab) && cart == old(cart) && selectedCategory == old(selectedCategory)
      ensures location == old(location) && searchQuery == old(searchQuery)
      ensures appliedCoupon == old(appliedCoupon)
      ensures orderPlaced == old(orderPlaced) && userDetails == old(userDetails) && formErrors == old(formErrors)
    {
      paymentMethod := choice;
    }
  }
}
