/** The shopping-cart line item shared by the checkout page and the navigation bar. */
module CartItems {

  /** One product entry of the cart. Prices are exact reals rather than
      floating-point numbers, so sums do not depend on rounding. */
  datatype CartItem = CartItem(
    id: string,
    name: string,
    price: real,
    quantity: int,
    image: string)

  /** What the component that owns the cart is expected to keep: prices are
      never negative and every present item has a quantity of at least one.
      None of the modelled pages establishes this; lemmas that need it say so
      in their preconditions. */
  predicate WellFormed(items: seq<CartItem>)
  {
    forall i :: 0 <= i < |items| ==> items[i].price >= 0.0 && items[i].quantity >= 1
  }

  /** An item of `b` can be picked out at some index `j`: `b` is what lies
      before it, the item, and what lies after it, and the rest of `b` holds
      every other item. The step shared by the order-independence proofs. */
  lemma PickOut(b: seq<CartItem>, x: CartItem) returns (j: nat)
    requires x in multiset(b)
    ensures j < |b| && b[j] == x
    ensures b == b[..j] + [x] + b[j + 1..]
    ensures multiset(b[..j] + b[j + 1..]) == multiset(b) - multiset{x}
  {
    assert x in b;
    j :| 0 <= j < |b| && b[j] == x;
    assert b == b[..j] + [x] + b[j + 1..];
    assert multiset(b[..j] + b[j + 1..]) == multiset(b[..j]) + multiset(b[j + 1..]);
    assert multiset(b) == multiset(b[..j]) + multiset{x} + multiset(b[j + 1..]);
  }
}
