/** Checkout and whole sessions of cart actions on the menu page. */
module Order {
  import opened Menu
  import opened CartManager
  import CartLaws

  /** The page state the cart actions touch: the cart and whether the order
      sheet is open. */
  datatype OrderState = OrderState(cart: Cart, cartOpen: bool)

  /** What `handleCheckout` reports: the empty-order notice, or the order
      confirmation carrying the total. */
  datatype CheckoutOutcome = EmptyOrder | OrderPlaced(total: int)

  /** `handleCheckout`: refuse an empty cart and change nothing; otherwise
      report the total, then empty the cart and close the sheet. */
  function Checkout(s: OrderState): (r: (CheckoutOutcome, OrderState))
    ensures r.0.EmptyOrder? <==> |s.cart| == 0
    ensures r.0.EmptyOrder? ==> r.1 == s
    ensures r.0.OrderPlaced? ==> r.0.total == Total(s.cart) && r.1 == OrderState([], false)
    ensures r.0.OrderPlaced? && QuantitiesPositive(s.cart) ==> r.0.total >= 0
  {
    if |s.cart| == 0 then (EmptyOrder, s)
    else (OrderPlaced(Total(s.cart)), OrderState([], false))
  }

  /** Once an order is placed, checking out again reports an empty order and
      leaves everything as it is. */
  lemma CheckoutTwiceIsEmpty(s: OrderState)
    requires |s.cart| > 0
    ensures Checkout(Checkout(s).1).0 == EmptyOrder
    ensures Checkout(Checkout(s).1).1 == Checkout(s).1
  {
  }

  /** One user action on the order. */
  datatype Action =
    | Add(item: MenuItem)
    | SetQuantity(id: string, quantity: int)
    | Remove(id: string)
    | PlaceOrder

  function Step(s: OrderState, a: Action): OrderState {
    match a
    case Add(item) => s.(cart := AddToCart(s.cart, item))
    case SetQuantity(id, n) => s.(cart := UpdateQuantity(s.cart, id, n))
    case Remove(id) => s.(cart := RemoveFromCart(s.cart, id))
    case PlaceOrder => Checkout(s).1
  }

  /** The actions applied one after another, each as one atomic transition. */
  function Run(s: OrderState, actions: seq<Action>): OrderState
    decreases |actions|
  {
    if |actions| == 0 then s else Run(Step(s, actions[0]), actions[1..])
  }

  lemma StepPreservesValid(s: OrderState, a: Action)
    requires Valid(s.cart)
    ensures Valid(Step(s, a).cart)
  {
    match a
    case Add(item) => CartLaws.AddToCartPreservesValid(s.cart, item);
    case SetQuantity(id, n) => CartLaws.UpdateQuantityPreservesValid(s.cart, id, n);
    case Remove(id) => CartLaws.RemovePreservesValid(s.cart, id);
    case PlaceOrder =>
  }

  /** Whatever the user does, starting from a valid cart (the empty one, say),
      no two lines share an id and every quantity stays at least 1. */
  lemma {:induction false} RunPreservesValid(s: OrderState, actions: seq<Action>)
    requires Valid(s.cart)
    ensures Valid(Run(s, actions).cart)
    decreases |actions|
  {
    if |actions| > 0 {
      StepPreservesValid(s, actions[0]);
      RunPreservesValid(Step(s, actions[0]), actions[1..]);
    }
  }
}
