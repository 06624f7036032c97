/**
 * The static catalog of my-cuzdoor-app/src/App.jsx: the food items, the combos,
 * the category names and the flat-amount coupons. Prices are whole rupees.
 * Images, ratings, preparation times and descriptions are display-only and are
 * not modelled.
 */
module AppCatalog {
  import opened Options

  datatype FoodItem = FoodItem(id: int, name: string, restaurant: string, price: nat, category: string)

  datatype Combo = Combo(id: int, name: string, items: string, price: nat, originalPrice: nat)

  /** A coupon takes a flat amount off the item total. */
  datatype Coupon = Coupon(id: string, code: string, discount: nat)

  /** What a cart entry resolves to: an orderable thing with a name and a price. */
  datatype Product = Product(id: int, name: string, price: nat)

  const Categories: seq<string> := ["All", "Meals", "Fast Food", "Drinks", "Desserts"]

  const Combos: seq<Combo> := [
    Combo(101, "Burger & Coke Blast", "Spicy Chicken Burger + Cold Coffee", 160, 180),
    Combo(102, "Student Saver Thali", "Mini Thali + Sweet Lassi", 120, 150)
  ]

  const FoodItems: seq<FoodItem> := [
    FoodItem(1, "Spicy Chicken Burger", "Cafeteria Grill", 120, "Fast Food"),
    FoodItem(2, "Deluxe Veg Thali", "Mess Hall A", 150, "Meals"),
    FoodItem(3, "Cheesy Pepperoni Pizza", "Pizza Corner", 299, "Fast Food"),
    FoodItem(4, "Masala Dosa", "South Canteen", 80, "Meals"),
    FoodItem(5, "Cold Coffee", "Brew Station", 60, "Drinks"),
    FoodItem(6, "Chocolate Brownie", "Sweet Tooth", 90, "Desserts")
  ]

  const Coupons: seq<Coupon> := [
    Coupon("STUDENT50", "STUDENT50", 50),
    Coupon("HOSTELNIGHT", "HOSTELNIGHT", 100)
  ]

  function FoodProduct(f: FoodItem): Product {
    Product(f.id, f.name, f.price)
  }

  function ComboProduct(c: Combo): Product {
    Product(c.id, c.name, c.price)
  }

  /** `FOOD_ITEMS.find(f => f.id === id)` */
  function FindFood(items: seq<FoodItem>, id: int): (r: Option<FoodItem>)
    ensures r.Some? ==> r.value in items && r.value.id == id
    ensures r.None? ==> forall f :: f in items ==> f.id != id
  {
    if items == [] then None
    else if items[0].id == id then Some(items[0])
    else FindFood(items[1..], id)
  }

  /** `COMBOS.find(c => c.id === id)` */
  function FindCombo(combos: seq<Combo>, id: int): (r: Option<Combo>)
    ensures r.Some? ==> r.value in combos && r.value.id == id
    ensures r.None? ==> forall c :: c in combos ==> c.id != id
  {
    if combos == [] then None
    else if combos[0].id == id then Some(combos[0])
    else FindCombo(combos[1..], id)
  }

  /** `FOOD_ITEMS.find(...) || COMBOS.find(...)`: food items are searched first. */
  function Lookup(id: int): Option<Product> {
    match FindFood(FoodItems, id)
    case Some(f) => Some(FoodProduct(f))
    case None =>
      match FindCombo(Combos, id)
      case Some(c) => Some(ComboProduct(c))
      case None => None
  }

  /** Every food item and combo as a product, in ascending id order. */
  const Catalog: seq<Product> := [
    FoodProduct(FoodItems[0]), FoodProduct(FoodItems[1]), FoodProduct(FoodItems[2]),
    FoodProduct(FoodItems[3]), FoodProduct(FoodItems[4]), FoodProduct(FoodItems[5]),
    ComboProduct(Combos[0]), ComboProduct(Combos[1])
  ]

  predicate StrictlyAscending(ps: seq<Product>) {
    forall i, j :: 0 <= i < j < |ps| ==> ps[i].id < ps[j].id
  }

  /** The catalog is in strictly ascending id order, and every entry has a name. */
  lemma CatalogAscending()
    ensures StrictlyAscending(Catalog)
    ensures forall p :: p in Catalog ==> p.name != ""
  {
  }

  /** What `Lookup` finds is the catalog entry with the requested id. */
  lemma LookupSound(id: int)
    ensures Lookup(id).Some? ==> Lookup(id).value in Catalog && Lookup(id).value.id == id
  {
    var food := FindFood(FoodItems, id);
    if food.Some? {
      assert food.value in FoodItems;
    } else {
      var combo := FindCombo(Combos, id);
      if combo.Some? {
        assert combo.value in Combos;
      }
    }
  }

  lemma {:induction false} FindFoodFinds(items: seq<FoodItem>, f: FoodItem)
    requires forall i, j :: 0 <= i < j < |items| ==> items[i].id < items[j].id
    requires f in items
    ensures FindFood(items, f.id) == Some(f)
  {
    if items[0] != f {
      assert f in items[1..];
      var j :| 0 <= j < |items[1..]| && items[1..][j] == f;
      assert items[j + 1] == f;
      FindFoodFinds(items[1..], f);
    }
  }

  lemma {:induction false} FindComboFinds(combos: seq<Combo>, c: Combo)
    requires forall i, j :: 0 <= i < j < |combos| ==> combos[i].id < combos[j].id
    requires c in combos
    ensures FindCombo(combos, c.id) == Some(c)
  {
    if combos[0] != c {
      assert c in combos[1..];
      var j :| 0 <= j < |combos[1..]| && combos[1..][j] == c;
      assert combos[j + 1] == c;
      FindComboFinds(combos[1..], c);
    }
  }

  /** Every catalog entry is found under its own id. */
  lemma LookupComplete(p: Product)
    requires p in Catalog
    ensures Lookup(p.id) == Some(p)
  {
    var i :| 0 <= i < |Catalog| && Catalog[i] == p;
    if i < |FoodItems| {
      FindFoodFinds(FoodItems, FoodItems[i]);
    } else {
      FindComboFinds(Combos, Combos[i - |FoodItems|]);
      assert forall f :: f in FoodItems ==> f.id < 101;
    }
  }

  /**
   * The first category button shows everything, and every food item's
   * category has a button of its own.
   */
  lemma CategoriesCoverFood()
    ensures Categories[0] == "All"
    ensures forall f :: f in FoodItems ==> f.category in Categories[1..]
  {
  }

  /** Looking an id up yields exactly the catalog entry with that id, and nothing for other ids. */
  lemma LookupIff(id: int, p: Product)
    ensures Lookup(id) == Some(p) <==> p in Catalog && p.id == id
  {
    LookupSound(id);
    if p in Catalog && p.id == id {
      LookupComplete(p);
    }
  }

  /** Ids that are not in the catalog resolve to nothing. */
  lemma LookupNone(id: int)
    ensures Lookup(id).None? <==> forall p :: p in Catalog ==> p.id != id
  {
    if Lookup(id).Some? {
      LookupIff(id, Lookup(id).value);
    } else {
      forall p | p in Catalog ensures p.id != id {
        LookupIff(id, p);
      }
    }
  }
}
