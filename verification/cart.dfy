/** The in-memory order cart of the menu page: an insertion-ordered list of
    lines, each a menu item with a quantity, and the pure updaters the page
    hands to its state setter. */
module CartManager {
  import opened Menu

  /** A menu item together with how many of it are ordered. */
  datatype CartLine = CartLine(item: MenuItem, quantity: int)

  type Cart = seq<CartLine>

  // ---------------------------------------------------------------------------
  // Invariants
  // ---------------------------------------------------------------------------

  predicate HasId(cart: Cart, id: string) {
    exists i :: 0 <= i < |cart| && cart[i].item.id == id
  }

  /** At most one line per item id: the order sheet keys its rows by id. */
  predicate IdsUnique(cart: Cart) {
    forall i, j :: 0 <= i < j < |cart| ==> cart[i].item.id != cart[j].item.id
  }

  predicate QuantitiesPositive(cart: Cart) {
    forall i :: 0 <= i < |cart| ==> cart[i].quantity >= 1
  }

  predicate Valid(cart: Cart) {
    IdsUnique(cart) && QuantitiesPositive(cart)
  }

  // ---------------------------------------------------------------------------
  // Lookup
  // ---------------------------------------------------------------------------

  /** `Array.prototype.find` on the id: the position of the first line with
      that id, if any. */
  function Find(cart: Cart, id: string): (r: Option<nat>)
    ensures r.None? <==> !HasId(cart, id)
    ensures r.Some? ==> r.value < |cart| && cart[r.value].item.id == id
    ensures r.Some? ==> forall j :: 0 <= j < r.value ==> cart[j].item.id != id
  {
    if |cart| == 0 then None
    else if cart[0].item.id == id then Some(0)
    else
      match Find(cart[1..], id)
      case None => None
      case Some(k) => Some(k + 1)
  }

  /** Under the invariant the line found is the only one with that id. */
  lemma FindUnique(cart: Cart, k: nat)
    requires IdsUnique(cart)
    requires k < |cart|
    ensures Find(cart, cart[k].item.id) == Some(k)
  {
  }

  // ---------------------------------------------------------------------------
  // Mapping over matching lines
  // ---------------------------------------------------------------------------

  /** `cart.map(line => line.id === id ? {...line, quantity: q(line.quantity)} : line)`:
      every line with the id gets a new quantity, every other line is kept. */
  function MapMatching(cart: Cart, id: string, q: int -> int): (r: Cart)
    ensures |r| == |cart|
    ensures forall i :: 0 <= i < |cart| ==> r[i].item == cart[i].item
    ensures forall i :: 0 <= i < |cart| && cart[i].item.id != id ==> r[i] == cart[i]
    ensures forall i :: 0 <= i < |cart| && cart[i].item.id == id ==> r[i] == cart[i].(quantity := q(cart[i].quantity))
  {
    if |cart| == 0 then []
    else
      var line := if cart[0].item.id == id then cart[0].(quantity := q(cart[0].quantity)) else cart[0];
      [line] + MapMatching(cart[1..], id, q)
  }

  // ---------------------------------------------------------------------------
  // The four cart updaters
  // ---------------------------------------------------------------------------

  /** `addToCart`: bump the quantity of the line holding the item's id, or
      append a fresh line with quantity 1. */
  function AddToCart(cart: Cart, item: MenuItem): (r: Cart)
    ensures HasId(r, item.id)
    ensures !HasId(cart, item.id) ==> r == cart + [CartLine(item, 1)]
    ensures HasId(cart, item.id) ==> |r| == |cart|
    ensures HasId(cart, item.id) ==> forall i :: 0 <= i < |cart| && cart[i].item.id == item.id ==> r[i] == cart[i].(quantity := cart[i].quantity + 1)
    ensures forall i :: 0 <= i < |cart| && cart[i].item.id != item.id ==> r[i] == cart[i]
  {
    match Find(cart, item.id)
    case Some(_) => MapMatching(cart, item.id, q => q + 1)
    case None =>
      var r := cart + [CartLine(item, 1)];
      assert r[|cart|].item.id == item.id;
      r
  }

  /** `removeFromCart`: keep exactly the lines whose id differs, in order. */
  function RemoveFromCart(cart: Cart, id: string): (r: Cart)
    ensures !HasId(r, id)
    ensures |r| <= |cart|
    ensures !HasId(cart, id) ==> r == cart
    ensures HasId(cart, id) ==> |r| < |cart|
  {
    if |cart| == 0 then []
    else
      var rest := RemoveFromCart(cart[1..], id);
      if cart[0].item.id == id then rest else [cart[0]] + rest
  }

  /** `updateQuantity`: a quantity below 1 removes the line; otherwise the
      matching line takes the new quantity. */
  function UpdateQuantity(cart: Cart, id: string, newQuantity: int): (r: Cart)
    ensures !HasId(cart, id) ==> r == cart
    ensures HasId(r, id) <==> HasId(cart, id) && newQuantity >= 1
    ensures newQuantity >= 1 ==> |r| == |cart|
    ensures newQuantity >= 1 ==> forall i :: 0 <= i < |cart| && cart[i].item.id == id ==> r[i] == cart[i].(quantity := newQuantity)
    ensures newQuantity >= 1 ==> forall i :: 0 <= i < |cart| && cart[i].item.id != id ==> r[i] == cart[i]
  {
    if newQuantity < 1 then RemoveFromCart(cart, id)
    else MapMatching(cart, id, _ => newQuantity)
  }

  // ---------------------------------------------------------------------------
  // Sums over the lines
  // ---------------------------------------------------------------------------

  /** `Array.prototype.reduce((acc, line) => acc + f(line), 0)`: a left fold,
      the last line added last. */
  function Reduce(cart: Cart, f: CartLine -> int): int
  {
    if |cart| == 0 then 0 else Reduce(cart[..|cart| - 1], f) + f(cart[|cart| - 1])
  }

  function Subtotal(line: CartLine): int {
    line.item.priceValue * line.quantity
  }

  function Quantity(line: CartLine): int {
    line.quantity
  }

  /** Order total in shillings. */
  function Total(cart: Cart): (r: int)
    ensures QuantitiesPositive(cart) ==> r >= 0
  {
    SubtotalsNonNegative(cart);
    Reduce(cart, Subtotal)
  }

  /** The number shown on the cart badge: the sum of the quantities. */
  function ItemCount(cart: Cart): (r: int)
    ensures QuantitiesPositive(cart) ==> r >= |cart|
  {
    QuantitiesAtLeastLength(cart);
    Reduce(cart, Quantity)
  }

  /** `calculateTotal`: the accumulating loop behind `reduce`. */
  method CalculateTotal(cart: Cart) returns (total: int)
    ensures total == Total(cart)
  {
    total := 0;
    for i := 0 to |cart|
      invariant total == Reduce(cart[..i], Subtotal)
    {
      assert cart[..i + 1][..i] == cart[..i];
      total := total + Subtotal(cart[i]);
    }
    assert cart[..|cart|] == cart;
  }

  // ---------------------------------------------------------------------------
  // Lemmas about sums
  // ---------------------------------------------------------------------------

  lemma {:induction false} SubtotalsNonNegative(cart: Cart)
    ensures QuantitiesPositive(cart) ==> Reduce(cart, Subtotal) >= 0
  {
    if |cart| > 0 && QuantitiesPositive(cart) {
      var init := cart[..|cart| - 1];
      assert forall i :: 0 <= i < |init| ==> init[i] == cart[i];
      SubtotalsNonNegative(init);
      assert cart[|cart| - 1].quantity >= 1;
    }
  }

  lemma {:induction false} QuantitiesAtLeastLength(cart: Cart)
    ensures QuantitiesPositive(cart) ==> Reduce(cart, Quantity) >= |cart|
  {
    if |cart| > 0 && QuantitiesPositive(cart) {
      var init := cart[..|cart| - 1];
      assert forall i :: 0 <= i < |init| ==> init[i] == cart[i];
      QuantitiesAtLeastLength(init);
    }
  }

  /** A sum over a concatenation is the sum of the sums. */
  lemma {:induction false} ReduceAppend(a: Cart, b: Cart, f: CartLine -> int)
    ensures Reduce(a + b, f) == Reduce(a, f) + Reduce(b, f)
    decreases |b|
  {
    if |b| == 0 {
      assert a + b == a;
    } else {
      var b' := b[..|b| - 1];
      assert (a + b)[..|a + b| - 1] == a + b';
      ReduceAppend(a, b', f);
    }
  }

  lemma ReduceSingle(line: CartLine, f: CartLine -> int)
    ensures Reduce([line], f) == f(line)
  {
    assert [line][..0] == [];
  }

  /** A sum over a line followed by more lines. */
  lemma ReduceCons(line: CartLine, rest: Cart, f: CartLine -> int)
    ensures Reduce([line] + rest, f) == f(line) + Reduce(rest, f)
  {
    ReduceAppend([line], rest, f);
    ReduceSingle(line, f);
  }

  /** A line spliced between two runs adds its term to their sum. */
  lemma ReduceSplice(a: Cart, x: CartLine, b: Cart, f: CartLine -> int)
    ensures Reduce(a + ([x] + b), f) == Reduce(a + b, f) + f(x)
  {
    ReduceAppend(a, [x] + b, f);
    ReduceCons(x, b, f);
    ReduceAppend(a, b, f);
  }

  /** Replacing one line changes the sum by the difference of its terms. */
  lemma ReduceUpdate(cart: Cart, k: nat, line: CartLine, f: CartLine -> int)
    requires k < |cart|
    ensures Reduce(cart[k := line], f) == Reduce(cart, f) - f(cart[k]) + f(line)
  {
    var a, b := cart[..k], cart[k + 1..];
    assert cart == a + ([cart[k]] + b);
    assert cart[k := line] == a + ([line] + b);
    ReduceSplice(a, cart[k], b, f);
    ReduceSplice(a, line, b, f);
  }
}
