/**
 * The cart and checkout logic of my-cuzdoor-app/src/App.jsx as pure values:
 * the cart is a dictionary from item id to count; `addToCart`/`removeFromCart`
 * step one count; `cartItems`, `cartTotal`, `discount` and `finalTotal` are
 * derived from it; `handleCheckout` collects one error per bad field; and
 * `filteredFood` selects the food items shown on the home tab.
 */
module AppCart {
  import opened AppCatalog
  import opened JsText
  import opened Options

  /** The `cart` state object: item id to count. */
  type Cart = map<int, int>

  /** `prev[id] || 0` */
  function Count(cart: Cart, id: int): int {
    if id in cart then cart[id] else 0
  }

  /** Every stored count is positive. */
  predicate AllPositive(cart: Cart) {
    forall id :: id in cart ==> cart[id] > 0
  }

  // ---------------------------------------------------------------------------
  // addToCart / removeFromCart
  // ---------------------------------------------------------------------------

  /** `addToCart(id)`: `{...prev, [id]: (prev[id] || 0) + 1}` */
  function Added(cart: Cart, id: int): Cart {
    cart[id := Count(cart, id) + 1]
  }

  /** `removeFromCart(id)`: one less, and the key deleted when that reaches 0 or below. */
  function Removed(cart: Cart, id: int): Cart {
    var newCount := Count(cart, id) - 1;
    if newCount <= 0 then cart - {id} else cart[id := newCount]
  }

  /**
   * `addToCart` raises the count of `id` by one, an absent key counting as 0,
   * touches no other key, and keeps every stored count positive.
   */
  lemma AddedSpec(cart: Cart, id: int)
    ensures id in Added(cart, id) && Added(cart, id)[id] == Count(cart, id) + 1
    ensures Added(cart, id).Keys == cart.Keys + {id}
    ensures forall k :: k != id ==> Count(Added(cart, id), k) == Count(cart, k)
    ensures AllPositive(cart) ==> AllPositive(Added(cart, id))
  {
  }

  /**
   * `removeFromCart` lowers the count of `id` by one, deleting the key instead
   * of storing 0; it touches no other key, leaves a cart without `id`
   * unchanged, and keeps every stored count positive.
   */
  lemma RemovedSpec(cart: Cart, id: int)
    requires AllPositive(cart)
    ensures AllPositive(Removed(cart, id))
    ensures id !in cart ==> Removed(cart, id) == cart
    ensures id in cart && cart[id] > 1 ==> Removed(cart, id)[id] == cart[id] - 1
    ensures id in cart && cart[id] == 1 ==> id !in Removed(cart, id)
    ensures forall k :: k != id ==> Count(Removed(cart, id), k) == Count(cart, k)
    ensures Removed(cart, id).Keys <= cart.Keys
  {
    if id !in cart {
      assert cart - {id} == cart;
    }
  }

  /** Round trip: adding an item and then removing it restores the cart. */
  lemma AddThenRemove(cart: Cart, id: int)
    requires AllPositive(cart)
    ensures Removed(Added(cart, id), id) == cart
  {
    if id !in cart {
      assert Added(cart, id) - {id} == cart;
    } else {
      assert Added(cart, id)[id := cart[id]] == cart;
    }
  }

  /** The other direction: removing an item that is in the cart and adding it back restores the cart. */
  lemma RemoveThenAdd(cart: Cart, id: int)
    requires AllPositive(cart) && id in cart
    ensures Added(Removed(cart, id), id) == cart
  {
    if cart[id] == 1 {
      assert (cart - {id})[id := 1] == cart;
    } else {
      assert cart[id := cart[id] - 1][id := cart[id]] == cart;
    }
  }

  // ---------------------------------------------------------------------------
  // cartItems, cartTotal, discount, finalTotal
  // ---------------------------------------------------------------------------

  /** `{...item, count}` narrowed to what the cart view and the total read. */
  datatype CartItem = CartItem(id: int, name: string, price: nat, count: int)

  /**
   * The entries of `cart` that resolve to one of `products` and have a
   * positive count, in the order of `products`.
   */
  function CartItemsFrom(products: seq<Product>, cart: Cart): (r: seq<CartItem>)
    ensures forall x :: x in r ==> x.count > 0
  {
    if products == [] then []
    else
      var p := products[0];
      var rest := CartItemsFrom(products[1..], cart);
      if Count(cart, p.id) > 0 && p.name != "" then [CartItem(p.id, p.name, p.price, cart[p.id])] + rest
      else rest
  }

  /**
   * `cartItems`. `Object.entries` lists integer-like keys in ascending numeric
   * order, and only ids of the catalog survive the lookup, so walking the
   * catalog (itself in ascending id order) yields the same sequence.
   */
  function CartItems(cart: Cart): seq<CartItem> {
    CartItemsFrom(Catalog, cart)
  }

  predicate ItemsAscending(items: seq<CartItem>) {
    forall i, j :: 0 <= i < j < |items| ==> items[i].id < items[j].id
  }

  lemma {:induction false} CartItemsFromIff(products: seq<Product>, cart: Cart, x: CartItem)
    ensures x in CartItemsFrom(products, cart) <==>
      && Product(x.id, x.name, x.price) in products
      && x.name != ""
      && x.id in cart && x.count == cart[x.id] && x.count > 0
  {
    if products != [] {
      CartItemsFromIff(products[1..], cart, x);
      assert products == [products[0]] + products[1..];
    }
  }

  lemma {:induction false} CartItemsFromAscending(products: seq<Product>, cart: Cart)
    requires StrictlyAscending(products)
    ensures ItemsAscending(CartItemsFrom(products, cart))
    ensures forall x :: x in CartItemsFrom(products, cart) ==> exists p :: p in products && p.id == x.id
  {
    if products != [] {
      AscendingTail(products);
      CartItemsFromAscending(products[1..], cart);
      var rest := CartItemsFrom(products[1..], cart);
      assert forall x :: x in rest ==> products[0].id < x.id;
    }
  }

  /**
   * `cartItems` holds exactly the cart entries with a positive count whose id
   * belongs to a food item or combo, with that item's name and price and the
   * stored count, ordered by ascending id; unknown ids are dropped.
   */
  lemma CartItemsSpec(cart: Cart)
    ensures ItemsAscending(CartItems(cart))
    ensures forall x :: x in CartItems(cart) <==>
      && Lookup(x.id) == Some(Product(x.id, x.name, x.price))
      && x.id in cart && x.count == cart[x.id] && x.count > 0
  {
    CatalogAscending();
    CartItemsFromAscending(Catalog, cart);
    forall x ensures x in CartItems(cart) <==>
      && Lookup(x.id) == Some(Product(x.id, x.name, x.price))
      && x.id in cart && x.count == cart[x.id] && x.count > 0
    {
      CartItemsFromIff(Catalog, cart, x);
      LookupIff(x.id, Product(x.id, x.name, x.price));
    }
  }

  function ItemAmount(x: CartItem): int {
    x.price * x.count
  }

  /** `cartItems.reduce((acc, item) => acc + item.price * item.count, 0)` */
  function CartTotal(items: seq<CartItem>): int {
    if items == [] then 0
    else CartTotal(items[..|items| - 1]) + ItemAmount(items[|items| - 1])
  }

  lemma {:induction false} CartTotalAppend(a: seq<CartItem>, b: seq<CartItem>)
    ensures CartTotal(a + b) == CartTotal(a) + CartTotal(b)
    decreases |b|
  {
    if b == [] {
      assert a + b == a;
    } else {
      assert (a + b)[..|a + b| - 1] == a + b[..|b| - 1];
      CartTotalAppend(a, b[..|b| - 1]);
    }
  }

  /** Item totals with positive counts add up to a non-negative amount. */
  lemma {:induction false} CartTotalNonNegative(items: seq<CartItem>)
    requires forall x :: x in items ==> x.count > 0
    ensures CartTotal(items) >= 0
  {
    if items != [] {
      assert items[|items| - 1] in items;
      CartTotalNonNegative(items[..|items| - 1]);
    }
  }

  /** What the first of `products` contributes to the total. */
  function HeadAmount(p: Product, cart: Cart): int {
    if Count(cart, p.id) > 0 && p.name != "" then p.price * Count(cart, p.id) else 0
  }

  lemma TotalFromCons(products: seq<Product>, cart: Cart)
    requires products != []
    ensures CartTotal(CartItemsFrom(products, cart))
      == HeadAmount(products[0], cart) + CartTotal(CartItemsFrom(products[1..], cart))
  {
    var p := products[0];
    if Count(cart, p.id) > 0 && p.name != "" {
      var x := CartItem(p.id, p.name, p.price, cart[p.id]);
      CartTotalAppend([x], CartItemsFrom(products[1..], cart));
      assert CartTotal([x]) == ItemAmount(x) by {
        assert [x][..0] == [];
      }
    }
  }

  lemma HeadAmountAdded(p: Product, cart: Cart, id: int)
    requires AllPositive(cart)
    ensures HeadAmount(p, Added(cart, id)) == HeadAmount(p, cart) + (if p.id == id && p.name != "" then p.price else 0)
  {
    AddedSpec(cart, id);
  }

  lemma AscendingTail(products: seq<Product>)
    requires StrictlyAscending(products) && products != []
    ensures StrictlyAscending(products[1..])
    ensures forall q :: q in products[1..] ==> products[0].id < q.id
  {
    forall q | q in products[1..] ensures products[0].id < q.id {
      var j :| 0 <= j < |products[1..]| && products[1..][j] == q;
      assert products[j + 1] == q;
    }
  }

  lemma {:induction false} TotalFromAdded(products: seq<Product>, cart: Cart, id: int)
    requires StrictlyAscending(products) && AllPositive(cart)
    ensures var before := CartTotal(CartItemsFrom(products, cart));
      var after := CartTotal(CartItemsFrom(products, Added(cart, id)));
      && (forall p :: p in products && p.id == id && p.name != "" ==> after == before + p.price)
      && ((forall p :: p in products ==> p.id != id || p.name == "") ==> after == before)
  {
    if products != [] {
      AscendingTail(products);
      TotalFromAdded(products[1..], cart, id);
      TotalFromCons(products, cart);
      TotalFromCons(products, Added(cart, id));
      HeadAmountAdded(products[0], cart, id);
      assert forall p :: p in products ==> p == products[0] || p in products[1..];
    }
  }

  /** Adding a catalog item raises `cartTotal` by its price; adding an unknown id changes nothing. */
  lemma AddedCartTotal(cart: Cart, id: int)
    requires AllPositive(cart)
    ensures match Lookup(id)
      case Some(p) => CartTotal(CartItems(Added(cart, id))) == CartTotal(CartItems(cart)) + p.price
      case None => CartTotal(CartItems(Added(cart, id))) == CartTotal(CartItems(cart))
  {
    CatalogAscending();
    TotalFromAdded(Catalog, cart, id);
    match Lookup(id)
    case Some(p) =>
      LookupIff(id, p);
    case None =>
      LookupNone(id);
  }

  /** `appliedCoupon ? appliedCoupon.discount : 0` */
  function Discount(applied: Option<Coupon>): nat {
    if applied.Some? then applied.value.discount else 0
  }

  /** `Math.max(0, cartTotal - discount)` */
  function FinalTotal(cartTotal: int, applied: Option<Coupon>): int {
    if cartTotal - Discount(applied) > 0 then cartTotal - Discount(applied) else 0
  }

  /**
   * The amount to pay is never negative and never exceeds the item total; it
   * is the item total less the coupon's flat amount when that leaves something
   * to pay, and the item total itself when no coupon is applied.
   */
  lemma FinalTotalBounds(cartTotal: int, applied: Option<Coupon>)
    requires cartTotal >= 0
    ensures 0 <= FinalTotal(cartTotal, applied) <= cartTotal
    ensures applied.None? ==> FinalTotal(cartTotal, applied) == cartTotal
    ensures applied.Some? && applied.value.discount <= cartTotal ==>
      FinalTotal(cartTotal, applied) == cartTotal - applied.value.discount
    ensures applied.Some? && applied.value.discount >= cartTotal ==> FinalTotal(cartTotal, applied) == 0
  {
  }

  // ---------------------------------------------------------------------------
  // handleInputChange / handleCheckout
  // ---------------------------------------------------------------------------

  /** The `name` attributes of the three delivery inputs. */
  datatype FormField = NameField | HostelField | PhoneField

  datatype UserDetails = UserDetails(name: string, hostel: string, phone: string)

  function WithField(d: UserDetails, field: FormField, value: string): UserDetails {
    match field
    case NameField => d.(name := value)
    case HostelField => d.(hostel := value)
    case PhoneField => d.(phone := value)
  }

  /** The check `handleInputChange` applies before storing: a phone value must be all digits. */
  predicate AcceptsInput(field: FormField, value: string) {
    field != PhoneField || AllDigits(value)
  }

  const NameRequired: string := "Name is required"
  const HostelRequired: string := "Hostel No. is required"
  const PhoneRequired: string := "Phone Number is required"
  const PhoneInvalid: string := "Enter valid 10-digit number"

  /**
   * The `errors` object `handleCheckout` builds from the outcome of its checks:
   * `!name.trim()`, `!hostel.trim()`, `!phone.trim()` and `phone.length`.
   */
  function ErrorsFor(nameBlank: bool, hostelBlank: bool, phoneBlank: bool, phoneLength: nat): map<FormField, string> {
    var e1: map<FormField, string> := if nameBlank then map[NameField := NameRequired] else map[];
    var e2 := if hostelBlank then e1[HostelField := HostelRequired] else e1;
    if phoneBlank then e2[PhoneField := PhoneRequired]
    else if phoneLength != 10 then e2[PhoneField := PhoneInvalid]
    else e2
  }

  /** The `errors` object for the current form. */
  function CheckoutErrors(d: UserDetails): map<FormField, string> {
    ErrorsFor(Trim(d.name) == "", Trim(d.hostel) == "", Trim(d.phone) == "", |d.phone|)
  }

  lemma ErrorsForSpec(nameBlank: bool, hostelBlank: bool, phoneBlank: bool, phoneLength: nat)
    ensures var e := ErrorsFor(nameBlank, hostelBlank, phoneBlank, phoneLength);
      && (NameField in e <==> nameBlank)
      && (HostelField in e <==> hostelBlank)
      && (PhoneField in e <==> phoneBlank || phoneLength != 10)
      && (NameField in e ==> e[NameField] == NameRequired)
      && (HostelField in e ==> e[HostelField] == HostelRequired)
      && (PhoneField in e ==> e[PhoneField] == if phoneBlank then PhoneRequired else PhoneInvalid)
      && (e == map[] <==> !nameBlank && !hostelBlank && !phoneBlank && phoneLength == 10)
  {
    var e := ErrorsFor(nameBlank, hostelBlank, phoneBlank, phoneLength);
    if nameBlank {
      assert NameField in e;
    } else if hostelBlank {
      assert HostelField in e;
    } else if phoneBlank || phoneLength != 10 {
      assert PhoneField in e;
    }
  }

  /**
   * A field has an error exactly when it is bad: a blank name, a blank hostel,
   * or a phone that is blank or not 10 characters long; a blank phone reports
   * "required", a non-blank one of the wrong length reports "valid 10-digit".
   */
  lemma CheckoutErrorsSpec(d: UserDetails)
    ensures var e := CheckoutErrors(d);
      && (NameField in e <==> IsBlank(d.name))
      && (HostelField in e <==> IsBlank(d.hostel))
      && (PhoneField in e <==> IsBlank(d.phone) || |d.phone| != 10)
      && (NameField in e ==> e[NameField] == NameRequired)
      && (HostelField in e ==> e[HostelField] == HostelRequired)
      && (PhoneField in e ==> e[PhoneField] == if IsBlank(d.phone) then PhoneRequired else PhoneInvalid)
  {
    TrimEmptyIffBlank(d.name);
    TrimEmptyIffBlank(d.hostel);
    TrimEmptyIffBlank(d.phone);
    ErrorsForSpec(Trim(d.name) == "", Trim(d.hostel) == "", Trim(d.phone) == "", |d.phone|);
  }

  /**
   * With the digits-only phone `handleInputChange` guarantees, the order goes
   * through exactly when the name and hostel have a non-whitespace character
   * and the phone has exactly 10 digits.
   */
  lemma CheckoutAcceptedIff(d: UserDetails)
    requires AllDigits(d.phone)
    ensures CheckoutErrors(d) == map[] <==> !IsBlank(d.name) && !IsBlank(d.hostel) && |d.phone| == 10
  {
    CheckoutErrorsSpec(d);
    ErrorsForSpec(Trim(d.name) == "", Trim(d.hostel) == "", Trim(d.phone) == "", |d.phone|);
    if d.phone != [] {
      DigitsNotBlank(d.phone);
    }
  }

  lemma DigitsNotBlank(s: string)
    requires AllDigits(s) && s != []
    ensures !IsBlank(s)
  {
    assert IsDigit(s[0]);
  }

  // ---------------------------------------------------------------------------
  // filteredFood
  // ---------------------------------------------------------------------------

  /** The category test exactly as written, with its redundant middle cases. */
  predicate MatchesCategory(item: FoodItem, category: string) {
    || category == "All"
    || (category == "Meals" && item.category == "Meals")
    || (category == "Fast Food" && item.category == "Fast Food")
    || item.category == category
  }

  /** The case-insensitive search over name and restaurant. */
  predicate MatchesSearch(item: FoodItem, query: string) {
    Includes(ToLower(item.name), ToLower(query)) || Includes(ToLower(item.restaurant), ToLower(query))
  }

  function FilterFood(items: seq<FoodItem>, category: string, query: string): (r: seq<FoodItem>)
    ensures |r| <= |items|
    ensures forall f :: f in r <==> f in items && MatchesCategory(f, category) && MatchesSearch(f, query)
  {
    if items == [] then []
    else
      var rest := FilterFood(items[1..], category, query);
      assert items == [items[0]] + items[1..];
      if MatchesCategory(items[0], category) && MatchesSearch(items[0], query) then [items[0]] + rest
      else rest
  }

  /** `filteredFood` */
  function FilteredFood(category: string, query: string): seq<FoodItem> {
    FilterFood(FoodItems, category, query)
  }

  /**
   * A food item is listed exactly when the category is "All" or its own, and
   * the lower-cased query occurs somewhere in its lower-cased name or restaurant.
   */
  lemma FilteredFoodIff(category: string, query: string, f: FoodItem)
    ensures f in FilteredFood(category, query) <==>
      && f in FoodItems
      && (category == "All" || f.category == category)
      && ((exists i :: OccursAt(ToLower(f.name), ToLower(query), i))
          || (exists i :: OccursAt(ToLower(f.restaurant), ToLower(query), i)))
  {
    IncludesIff(ToLower(f.name), ToLower(query));
    IncludesIff(ToLower(f.restaurant), ToLower(query));
  }

  lemma {:induction false} FilterFoodAll(items: seq<FoodItem>, category: string, query: string)
    requires forall f :: f in items ==> MatchesCategory(f, category) && MatchesSearch(f, query)
    ensures FilterFood(items, category, query) == items
  {
    if items != [] {
      FilterFoodAll(items[1..], category, query);
      assert items == [items[0]] + items[1..];
    }
  }

  /** With category "All" and an empty search box every food item is listed, in catalog order. */
  lemma FilteredFoodShowsAll()
    ensures FilteredFood("All", "") == FoodItems
  {
    forall f | f in FoodItems ensures MatchesSearch(f, "") {
      IncludesEmpty(ToLower(f.name));
    }
    FilterFoodAll(FoodItems, "All", "");
  }

  lemma {:induction false} FilterFoodLowerQuery(items: seq<FoodItem>, category: string, query: string)
    ensures FilterFood(items, category, ToUpper(query)) == FilterFood(items, category, query)
  {
    LowerOfUpper(query);
    if items != [] {
      FilterFoodLowerQuery(items[1..], category, query);
    }
  }

  /** The search ignores letter case: upper-casing the query lists the same items. */
  lemma FilteredFoodCaseInsensitive(category: string, query: string)
    ensures FilteredFood(category, ToUpper(query)) == FilteredFood(category, query)
  {
    FilterFoodLowerQuery(FoodItems, category, query);
  }
}
