/** The restaurant's fixed menu and what the cart does with items drawn from
    it. */
module Catalog {
  import opened Menu
  import opened CartManager
  import CartLaws
  import Order

  const Starters: seq<MenuItem> := [
    MenuItem("starter-1", "Salt & Pepper Squid",
      "Served with pickled cucumber roasted beetroot crème fraîche",
      "KSh 850", "Starter", Some(false), Some(false), None, 850),
    MenuItem("starter-2", "Thai Salmon and Shrimp",
      "Seasoned and grilled salmon, red mashed potatoes sautéed green beans and thai chili sauce",
      "KSh 1,200", "Starter", Some(true), Some(false), None, 1200),
    MenuItem("starter-3", "Shrimp Cocktail",
      "Chilled jumbo prawns served with classic tangy cocktail sauce de lemon",
      "KSh 950", "Starter", Some(false), Some(false), None, 950)
  ]

  const MainCourses: seq<MenuItem> := [
    MenuItem("main-1", "Ugali Served with Nyama Choma",
      "Maize porridge paired with grilled meat",
      "KSh 1,100", "Main Course", Some(false), Some(false), None, 1100),
    MenuItem("main-2", "Nyama Choma Served with Ugali & Kachumbari",
      "Grilled meat accompanied by maize porridge and a tomato-onion salad",
      "KSh 1,200", "Main Course", Some(false), Some(false), None, 1200),
    MenuItem("main-3", "Grilled Salmon",
      "Salmon fillet grilled with a honey-mustard glaze",
      "KSh 1,400", "Main Course", Some(false), Some(false), None, 1400),
    MenuItem("main-4", "Bulgogi",
      "Korean marinated grilled beef with a sweet-savory flavour",
      "KSh 1,300", "Main Course", Some(false), Some(false), None, 1300),
    MenuItem("main-5", "Oysters on the Half Shell",
      "Fresh oysters served with mignonette sauce",
      "KSh 1,500", "Main Course", Some(false), Some(false), None, 1500)
  ]

  const Desserts: seq<MenuItem> := [
    MenuItem("dessert-1", "Red Velvet Cake",
      "Fluffy cocoa layered cake with sweet cream cheese frosting",
      "KSh 450", "Dessert", Some(false), Some(true), None, 450),
    MenuItem("dessert-2", "Strawberry Shortcake",
      "Layers of fresh strawberries, light vanilla sponge cake and creamy custard",
      "KSh 500", "Dessert", Some(false), Some(true), None, 500),
    MenuItem("dessert-3", "Ice Cream",
      "Choice vanilla, strawberry or chocolate. No-sugar-added ice cream is also available",
      "KSh 300", "Dessert", Some(false), Some(true), None, 300)
  ]

  const Drinks: seq<MenuItem> := [
    MenuItem("drink-1", "Fresh Lemonade",
      "Freshly squeezed lemon juice with a hint of mint",
      "KSh 250", "Non-Alcoholic", None, None, None, 250),
    MenuItem("drink-2", "Mojito Mocktail",
      "Refreshing mint and lime mocktail",
      "KSh 350", "Non-Alcoholic", None, None, None, 350),
    MenuItem("drink-3", "Sparkling Rose",
      "Light and bubbly rosé wine",
      "KSh 650", "Alcoholic", None, None, None, 650),
    MenuItem("drink-4", "Mimosa",
      "Classic champagne and orange juice cocktail",
      "KSh 550", "Alcoholic", None, None, None, 550),
    MenuItem("drink-5", "Two Islands",
      "House special cocktail blend",
      "KSh 600", "Alcoholic", None, None, None, 600)
  ]

  /** Every orderable item, in the order the page lists the sections. */
  const Items: seq<MenuItem> := Starters + MainCourses + Desserts + Drinks

  /** No two catalog entries share an id. */
  lemma ItemIdsDistinct()
    ensures forall i, j :: 0 <= i < j < |Items| ==> Items[i].id != Items[j].id
  {
  }

  /** Every line wraps an entry of the catalog, as it does when every item
      was added from the menu cards. */
  predicate FromMenu(cart: Cart) {
    forall i :: 0 <= i < |cart| ==> cart[i].item in Items
  }

  /** Lines drawn from the catalog carry exactly the catalog's record for
      their id. */
  lemma FromMenuAgrees(cart: Cart, item: MenuItem)
    requires FromMenu(cart) && item in Items
    ensures CartLaws.Agrees(cart, item)
  {
    ItemIdsDistinct();
    forall i | 0 <= i < |cart| && cart[i].item.id == item.id
      ensures cart[i].item == item
    {
      var a :| 0 <= a < |Items| && Items[a] == cart[i].item;
      var b :| 0 <= b < |Items| && Items[b] == item;
      assert a == b;
    }
  }

  /** Adding a menu item to a cart of menu items raises the total by exactly
      the item's price and keeps every line a menu item. */
  lemma AddFromMenu(cart: Cart, item: MenuItem)
    requires IdsUnique(cart) && FromMenu(cart) && item in Items
    ensures Total(AddToCart(cart, item)) == Total(cart) + item.priceValue
    ensures FromMenu(AddToCart(cart, item))
  {
    FromMenuAgrees(cart, item);
    CartLaws.AddToCartTotals(cart, item);
    var r := AddToCart(cart, item);
    forall i | 0 <= i < |r|
      ensures r[i].item in Items
    {
      if i == |cart| {
        assert r == cart + [CartLine(item, 1)];
      }
    }
  }

  /** The squid starter (850) and the red velvet cake (450) of the worked
      order below. */
  lemma ScenarioItems()
    ensures Starters[0].priceValue == 850 && Desserts[0].priceValue == 450
    ensures Starters[0].id != Desserts[0].id
  {
  }

  /** Adding the 850 shilling squid twice gives one line of quantity 2
      totalling 1700. */
  lemma ScenarioAddTwice()
    ensures AddToCart(AddToCart([], Starters[0]), Starters[0]) == [CartLine(Starters[0], 2)]
    ensures Total([CartLine(Starters[0], 2)]) == 1700
  {
    var squid := Starters[0];
    var c0 := AddToCart([], squid);
    assert c0 == [CartLine(squid, 1)];
    CartLaws.AddToCartExisting(c0, squid, 0);
    ReduceSingle(CartLine(squid, 2), Subtotal);
  }

  /** Adding the 450 shilling cake next gives two lines totalling 2150. */
  lemma ScenarioAddOther()
    ensures AddToCart([CartLine(Starters[0], 2)], Desserts[0]) == [CartLine(Starters[0], 2), CartLine(Desserts[0], 1)]
    ensures Total([CartLine(Starters[0], 2), CartLine(Desserts[0], 1)]) == 2150
  {
    var squid, cake := Starters[0], Desserts[0];
    ScenarioItems();
    var c1 := [CartLine(squid, 2)];
    assert !HasId(c1, cake.id);
    assert c1 + [CartLine(cake, 1)] == [CartLine(squid, 2), CartLine(cake, 1)];
    ReduceSingle(CartLine(squid, 2), Subtotal);
    CartLaws.SumsAppendLine(c1, CartLine(cake, 1));
  }

  /** Removing the squid leaves the cake alone at 450, and checking out
      places an order for 450 and empties the cart. */
  lemma ScenarioRemoveAndCheckout()
    ensures RemoveFromCart([CartLine(Starters[0], 2), CartLine(Desserts[0], 1)], Starters[0].id) == [CartLine(Desserts[0], 1)]
    ensures Order.Checkout(Order.OrderState([CartLine(Desserts[0], 1)], true)) == (Order.OrderPlaced(450), Order.OrderState([], false))
  {
    var squid, cake := Starters[0], Desserts[0];
    ScenarioItems();
    var c2 := [CartLine(squid, 2), CartLine(cake, 1)];
    CartLaws.RemoveSplicesLine(c2, 0);
    assert c2[..0] + c2[1..] == [CartLine(cake, 1)];
    ReduceSingle(CartLine(cake, 1), Subtotal);
  }

  /** The worked order end to end: squid twice (1700), then cake (2150),
      then the squid removed (450), then checkout placing an order for 450
      with the cart emptied. */
  lemma OrderScenario()
    ensures
      var squid, cake := Starters[0], Desserts[0];
      var c1 := AddToCart(AddToCart([], squid), squid);
      var c2 := AddToCart(c1, cake);
      var c3 := RemoveFromCart(c2, squid.id);
      && c1 == [CartLine(squid, 2)] && Total(c1) == 1700
      && |c2| == 2 && Total(c2) == 2150
      && c3 == [CartLine(cake, 1)] && Total(c3) == 450
      && Order.Checkout(Order.OrderState(c3, true)) == (Order.OrderPlaced(450), Order.OrderState([], false))
  {
    ScenarioAddTwice();
    ScenarioAddOther();
    ScenarioRemoveAndCheckout();
    ReduceSingle(CartLine(Desserts[0], 1), Subtotal);
  }
}
