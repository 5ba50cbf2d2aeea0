/** What each cart updater does to the list as a whole, to the invariants the
    order sheet relies on, and to the total and the badge count. */
module CartLaws {
  import opened Menu
  import opened CartManager

  // ---------------------------------------------------------------------------
  // Exactly how each updater changes the list
  // ---------------------------------------------------------------------------

  /** Adding an item already in the cart bumps that one line by 1; the length,
      the order and every other line stay as they were. */
  lemma AddToCartExisting(cart: Cart, item: MenuItem, k: nat)
    requires IdsUnique(cart)
    requires k < |cart| && cart[k].item.id == item.id
    ensures AddToCart(cart, item) == cart[k := cart[k].(quantity := cart[k].quantity + 1)]
  {
    var r := AddToCart(cart, item);
    var s := cart[k := cart[k].(quantity := cart[k].quantity + 1)];
    forall i | 0 <= i < |cart|
      ensures r[i] == s[i]
    {
      if i != k {
        assert cart[i].item.id != item.id;
      }
    }
  }

  /** Setting a quantity of at least 1 rewrites that one line; a missing id
      leaves the cart as it is. */
  lemma UpdateQuantitySetsLine(cart: Cart, k: nat, n: int)
    requires IdsUnique(cart)
    requires k < |cart| && n >= 1
    ensures UpdateQuantity(cart, cart[k].item.id, n) == cart[k := cart[k].(quantity := n)]
  {
    var id := cart[k].item.id;
    var r := UpdateQuantity(cart, id, n);
    var s := cart[k := cart[k].(quantity := n)];
    forall i | 0 <= i < |cart|
      ensures r[i] == s[i]
    {
      if i != k {
        assert cart[i].item.id != id;
      }
    }
  }

  /** A quantity below 1 is a removal. */
  lemma UpdateBelowOneRemoves(cart: Cart, id: string, n: int)
    requires n < 1
    ensures UpdateQuantity(cart, id, n) == RemoveFromCart(cart, id)
    ensures !HasId(UpdateQuantity(cart, id, n), id)
  {
  }

  /** A line survives removal exactly when it was in the cart under another
      id. */
  lemma {:induction false} RemoveKeepsOthers(cart: Cart, id: string)
    ensures forall l :: l in RemoveFromCart(cart, id) <==> l in cart && l.item.id != id
  {
    if |cart| > 0 {
      RemoveKeepsOthers(cart[1..], id);
      assert forall l :: l in cart <==> l == cart[0] || l in cart[1..] by {
        assert cart == [cart[0]] + cart[1..];
      }
    }
  }

  /** Removal keeps the surviving lines in their original relative order: it
      distributes over concatenation. */
  lemma {:induction false} RemoveDistributes(a: Cart, b: Cart, id: string)
    ensures RemoveFromCart(a + b, id) == RemoveFromCart(a, id) + RemoveFromCart(b, id)
    decreases |a|
  {
    if |a| == 0 {
      assert a + b == b;
    } else {
      assert (a + b)[1..] == a[1..] + b;
      assert (a + b)[0] == a[0];
      RemoveDistributes(a[1..], b, id);
    }
  }

  /** With unique ids, the id of line `k` occurs neither before nor after it. */
  lemma UniqueAround(cart: Cart, k: nat)
    requires IdsUnique(cart)
    requires k < |cart|
    ensures !HasId(cart[..k], cart[k].item.id)
    ensures !HasId(cart[k + 1..], cart[k].item.id)
  {
    var id, a, b := cart[k].item.id, cart[..k], cart[k + 1..];
    forall i | 0 <= i < |a|
      ensures a[i].item.id != id
    {
      assert a[i] == cart[i];
    }
    forall i | 0 <= i < |b|
      ensures b[i].item.id != id
    {
      assert b[i] == cart[k + 1 + i];
    }
  }

  /** A line whose id occurs nowhere else is cut out cleanly. */
  lemma RemoveSplice(cart: Cart, a: Cart, x: CartLine, b: Cart)
    requires cart == a + ([x] + b)
    requires !HasId(a, x.item.id) && !HasId(b, x.item.id)
    ensures RemoveFromCart(cart, x.item.id) == a + b
  {
    RemoveDistributes(a, [x] + b, x.item.id);
    RemoveDistributes([x], b, x.item.id);
    assert RemoveFromCart([x], x.item.id) == [];
  }

  /** Removing the id held by the line at `k` splices exactly that line out. */
  lemma RemoveSplicesLine(cart: Cart, k: nat)
    requires IdsUnique(cart)
    requires k < |cart|
    ensures RemoveFromCart(cart, cart[k].item.id) == cart[..k] + cart[k + 1..]
  {
    var a, x, b := cart[..k], cart[k], cart[k + 1..];
    assert !HasId(a, x.item.id) && !HasId(b, x.item.id) by {
      UniqueAround(cart, k);
    }
    assert cart == a + ([x] + b) by {
      assert cart == cart[..k] + cart[k..];
      assert cart[k..] == [cart[k]] + cart[k + 1..];
    }
    RemoveSplice(cart, a, x, b);
  }

  /** Removing twice is removing once. */
  lemma RemoveIdempotent(cart: Cart, id: string)
    ensures RemoveFromCart(RemoveFromCart(cart, id), id) == RemoveFromCart(cart, id)
  {
  }

  /** The minus button on a line of quantity 1 takes the line out. */
  lemma MinusOnLastUnitRemovesLine(cart: Cart, k: nat)
    requires IdsUnique(cart)
    requires k < |cart| && cart[k].quantity == 1
    ensures UpdateQuantity(cart, cart[k].item.id, cart[k].quantity - 1) == cart[..k] + cart[k + 1..]
  {
    RemoveSplicesLine(cart, k);
  }

  /** The plus button on a line does the same as adding its item again. */
  lemma PlusIsAddAgain(cart: Cart, k: nat)
    requires IdsUnique(cart)
    requires k < |cart| && cart[k].quantity >= 0
    ensures UpdateQuantity(cart, cart[k].item.id, cart[k].quantity + 1) == AddToCart(cart, cart[k].item)
  {
    UpdateQuantitySetsLine(cart, k, cart[k].quantity + 1);
    AddToCartExisting(cart, cart[k].item, k);
  }

  // ---------------------------------------------------------------------------
  // Invariants
  // ---------------------------------------------------------------------------

  lemma AddToCartPreservesValid(cart: Cart, item: MenuItem)
    requires Valid(cart)
    ensures Valid(AddToCart(cart, item))
  {
    if HasId(cart, item.id) {
      var k :| 0 <= k < |cart| && cart[k].item.id == item.id;
      AddToCartExisting(cart, item, k);
    } else {
      var r := AddToCart(cart, item);
      assert forall i :: 0 <= i < |cart| ==> r[i] == cart[i];
    }
  }

  lemma UpdateQuantityPreservesValid(cart: Cart, id: string, n: int)
    requires Valid(cart)
    ensures Valid(UpdateQuantity(cart, id, n))
  {
    if n < 1 {
      RemovePreservesValid(cart, id);
    }
  }

  lemma {:induction false} RemovePreservesValid(cart: Cart, id: string)
    requires Valid(cart)
    ensures Valid(RemoveFromCart(cart, id))
  {
    if |cart| > 0 {
      var tail := cart[1..];
      assert Valid(tail) by {
        forall i, j | 0 <= i < j < |tail|
          ensures tail[i].item.id != tail[j].item.id
        {
          assert tail[i] == cart[i + 1] && tail[j] == cart[j + 1];
        }
        forall i | 0 <= i < |tail|
          ensures tail[i].quantity >= 1
        {
          assert tail[i] == cart[i + 1];
        }
      }
      RemovePreservesValid(tail, id);
      var rest := RemoveFromCart(tail, id);
      if cart[0].item.id != id {
        var r := [cart[0]] + rest;
        forall j | 0 < j < |r|
          ensures r[0].item.id != r[j].item.id
        {
          assert r[j] == rest[j - 1];
          RemoveKeepsOthers(tail, id);
          assert rest[j - 1] in tail;
        }
      }
    }
  }

  // ---------------------------------------------------------------------------
  // Totals and the badge count
  // ---------------------------------------------------------------------------

  /** The total of an empty cart is 0 and the total of a concatenation is the
      sum of the totals. */
  lemma TotalAppend(a: Cart, b: Cart)
    ensures Total([]) == 0
    ensures Total(a + b) == Total(a) + Total(b)
  {
    ReduceAppend(a, b, Subtotal);
  }

  /** The sum over lines taken from the front, as an independent reference. */
  function LineSum(cart: Cart): int {
    if |cart| == 0 then 0 else cart[0].item.priceValue * cart[0].quantity + LineSum(cart[1..])
  }

  /** The left fold of `calculateTotal` equals the plain sum of price times
      quantity over the lines. */
  lemma {:induction false} TotalIsLineSum(cart: Cart)
    ensures Total(cart) == LineSum(cart)
  {
    if |cart| > 0 {
      assert cart == [cart[0]] + cart[1..];
      ReduceCons(cart[0], cart[1..], Subtotal);
      TotalIsLineSum(cart[1..]);
    }
  }

  /** The lines in the cart carrying `item`'s id are `item` itself, as they are
      when every line came from the one catalog. */
  predicate Agrees(cart: Cart, item: MenuItem) {
    forall i :: 0 <= i < |cart| && cart[i].item.id == item.id ==> cart[i].item == item
  }

  /** Dropping the line at `k` takes its terms off both sums. */
  lemma SumsDropAt(cart: Cart, k: nat)
    requires k < |cart|
    ensures Total(cart[..k] + cart[k + 1..]) == Total(cart) - Subtotal(cart[k])
    ensures ItemCount(cart[..k] + cart[k + 1..]) == ItemCount(cart) - cart[k].quantity
  {
    var a, b := cart[..k], cart[k + 1..];
    assert cart == a + ([cart[k]] + b);
    ReduceSplice(a, cart[k], b, Subtotal);
    ReduceSplice(a, cart[k], b, Quantity);
  }

  /** Replacing the line at `k` swaps its terms in both sums. */
  lemma SumsUpdateAt(cart: Cart, k: nat, line: CartLine)
    requires k < |cart|
    ensures Total(cart[k := line]) == Total(cart) - Subtotal(cart[k]) + Subtotal(line)
    ensures ItemCount(cart[k := line]) == ItemCount(cart) - cart[k].quantity + line.quantity
  {
    ReduceUpdate(cart, k, line, Subtotal);
    ReduceUpdate(cart, k, line, Quantity);
  }

  /** Appending a line adds its terms to both sums. */
  lemma SumsAppendLine(cart: Cart, line: CartLine)
    ensures Total(cart + [line]) == Total(cart) + Subtotal(line)
    ensures ItemCount(cart + [line]) == ItemCount(cart) + line.quantity
  {
    assert (cart + [line])[..|cart|] == cart;
  }

  /** Adding an item raises the total by its price and the badge by 1. */
  lemma AddToCartTotals(cart: Cart, item: MenuItem)
    requires IdsUnique(cart) && Agrees(cart, item)
    ensures Total(AddToCart(cart, item)) == Total(cart) + item.priceValue
    ensures ItemCount(AddToCart(cart, item)) == ItemCount(cart) + 1
  {
    if HasId(cart, item.id) {
      var k :| 0 <= k < |cart| && cart[k].item.id == item.id;
      BumpTotals(cart, item, k);
    } else {
      SumsAppendLine(cart, CartLine(item, 1));
    }
  }

  /** The "already present" half of `AddToCartTotals`. */
  lemma BumpTotals(cart: Cart, item: MenuItem, k: nat)
    requires IdsUnique(cart) && Agrees(cart, item)
    requires k < |cart| && cart[k].item.id == item.id
    ensures Total(AddToCart(cart, item)) == Total(cart) + item.priceValue
    ensures ItemCount(AddToCart(cart, item)) == ItemCount(cart) + 1
  {
    var line := cart[k].(quantity := cart[k].quantity + 1);
    assert AddToCart(cart, item) == cart[k := line] by {
      AddToCartExisting(cart, item, k);
    }
    assert Subtotal(line) == Subtotal(cart[k]) + item.priceValue by {
      assert cart[k].item == item;
    }
    SumsUpdateAt(cart, k, line);
  }

  /** Setting a line's quantity to `n` moves the total by price times the
      change and the badge by the change. */
  lemma UpdateQuantityTotals(cart: Cart, k: nat, n: int)
    requires IdsUnique(cart)
    requires k < |cart| && n >= 1
    ensures Total(UpdateQuantity(cart, cart[k].item.id, n)) == Total(cart) + cart[k].item.priceValue * (n - cart[k].quantity)
    ensures ItemCount(UpdateQuantity(cart, cart[k].item.id, n)) == ItemCount(cart) + (n - cart[k].quantity)
  {
    var p, q := cart[k].item.priceValue, cart[k].quantity;
    UpdateQuantitySetsLine(cart, k, n);
    SumsUpdateAt(cart, k, cart[k].(quantity := n));
    assert p * n - p * q == p * (n - q);
  }

  /** Removing a line takes its subtotal off the total and its quantity off
      the badge. */
  lemma RemoveTotals(cart: Cart, k: nat)
    requires IdsUnique(cart)
    requires k < |cart|
    ensures Total(RemoveFromCart(cart, cart[k].item.id)) == Total(cart) - cart[k].item.priceValue * cart[k].quantity
    ensures ItemCount(RemoveFromCart(cart, cart[k].item.id)) == ItemCount(cart) - cart[k].quantity
  {
    RemoveSplicesLine(cart, k);
    SumsDropAt(cart, k);
  }
}
