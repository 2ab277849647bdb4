/** The navigation bar: the cart badge and the highlighting of the active link. */
module Navbar {
  import opened CartItems

  // ---------------------------------------------------------------------------
  // The cart badge

  /** The number of units in the cart, a left fold of the quantities starting
      from 0, in the order in which `reduce` visits the items. */
  function TotalItems(items: seq<CartItem>): (r: int)
    ensures items == [] ==> r == 0
    ensures (forall i :: 0 <= i < |items| ==> items[i].quantity >= 0) ==> r >= 0
  {
    if items == [] then 0
    else TotalItems(items[..|items| - 1]) + items[|items| - 1].quantity
  }

  /** The badge is rendered exactly when there is at least one unit, so never
      for an empty cart (BadgeShownIffNonEmpty gives the converse). */
  function ShowBadge(items: seq<CartItem>): (r: bool)
    ensures r ==> items != []
  {
    TotalItems(items) > 0
  }

  /** The unit count of a concatenation is the sum of the unit counts. */
  lemma {:induction false} TotalItemsAppend(a: seq<CartItem>, b: seq<CartItem>)
    ensures TotalItems(a + b) == TotalItems(a) + TotalItems(b)
    decreases |b|
  {
    if b == [] {
      assert a + b == a;
    } else {
      var n := |b| - 1;
      assert (a + b)[..|a + b| - 1] == a + b[..n];
      assert (a + b)[|a + b| - 1] == b[n];
      TotalItemsAppend(a, b[..n]);
    }
  }

  /** Adding an item anywhere in the cart raises the count by exactly its quantity. */
  lemma TotalItemsInsert(a: seq<CartItem>, x: CartItem, b: seq<CartItem>)
    ensures TotalItems(a + [x] + b) == TotalItems(a + b) + x.quantity
  {
    TotalItemsAppend(a + [x], b);
    TotalItemsAppend(a, [x]);
    TotalItemsAppend(a, b);
    assert [x][..0] == [];
  }

  /** Permuting the cart leaves the unit count unchanged. */
  lemma {:induction false} TotalItemsPermutation(a: seq<CartItem>, b: seq<CartItem>)
    requires multiset(a) == multiset(b)
    ensures TotalItems(a) == TotalItems(b)
    decreases |a|
  {
    if a == [] {
      assert |b| == |multiset(b)| == 0;
    } else {
      var n := |a| - 1;
      var x := a[n];
      assert a == a[..n] + [x];
      assert x in multiset(b) by { assert x in multiset(a); }
      var j := PickOut(b, x);
      var rest := b[..j] + b[j + 1..];
      assert multiset(a[..n]) == multiset(a) - multiset{x};
      TotalItemsPermutation(a[..n], rest);
      TotalItemsInsert(b[..j], x, b[j + 1..]);
    }
  }

  /** Every well-formed cart has at least as many units as line items. */
  lemma {:induction false} TotalItemsAtLeastLength(items: seq<CartItem>)
    requires WellFormed(items)
    ensures TotalItems(items) >= |items|
    decreases |items|
  {
    if items != [] {
      var n := |items| - 1;
      assert WellFormed(items[..n]);
      TotalItemsAtLeastLength(items[..n]);
    }
  }

  /** For a well-formed cart the badge shows exactly when the cart is not empty. */
  lemma BadgeShownIffNonEmpty(items: seq<CartItem>)
    requires WellFormed(items)
    ensures ShowBadge(items) <==> items != []
  {
    TotalItemsAtLeastLength(items);
  }

  // ---------------------------------------------------------------------------
  // Link highlighting

  datatype NavLink = NavLink(name: string, path: string)

  /** The four links, in display order. */
  const NavLinks: seq<NavLink> := [
    NavLink("Home", "/"),
    NavLink("Shop All", "/shop"),
    NavLink("Dogs", "/shop?category=Dog"),
    NavLink("Cats", "/shop?category=Cat")
  ]

  /** A desktop link is highlighted when the pathname is its path and the
      query string holds no '?'. */
  function DesktopActive(pathname: string, search: string, link: NavLink): (r: bool)
    ensures r ==> MobileActive(pathname, link)
  {
    pathname == link.path && '?' !in search
  }

  /** A mobile link is highlighted when the pathname is its path, whatever the
      query; so a link whose path holds '?' needs a pathname holding '?'. */
  function MobileActive(pathname: string, link: NavLink): (r: bool)
    ensures r ==> ('?' in pathname <==> '?' in link.path)
    ensures r ==> |pathname| == |link.path|
  {
    pathname == link.path
  }

  /** With a router-style query string (empty or starting with '?'), the
      desktop highlight requires an empty query. */
  lemma DesktopActiveRouterSearch(pathname: string, search: string, link: NavLink)
    requires search == [] || search[0] == '?'
    ensures DesktopActive(pathname, search, link) <==> pathname == link.path && search == []
  {
  }

  /** A pathname free of '?' never highlights the `Dogs` or `Cats` link,
      on desktop or on mobile, because both of their paths contain '?'. */
  lemma CategoryLinksNeverActive(pathname: string, search: string)
    requires '?' !in pathname
    ensures forall k :: 2 <= k < |NavLinks| ==>
      !MobileActive(pathname, NavLinks[k]) && !DesktopActive(pathname, search, NavLinks[k])
  {
  }

  /** The four paths are distinct, so at most one link is highlighted at a time. */
  lemma AtMostOneActive(pathname: string, i: nat, j: nat)
    requires i < |NavLinks| && j < |NavLinks| && i != j
    ensures !(MobileActive(pathname, NavLinks[i]) && MobileActive(pathname, NavLinks[j]))
  {
  }
}
