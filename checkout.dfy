/** The checkout page: the order totals, the nine-field form and the
    submit / settle lifecycle of one payment attempt. */
module Checkout {
  import opened CartItems
  import Navbar

  // ---------------------------------------------------------------------------
  // Totals

  /** Shipping is free: a flat zero. */
  const Shipping: real := 0.0

  /** The fixed sales-tax rate. */
  const TaxRate: real := 0.08

  /** The price of one line: unit price times quantity. */
  function LineTotal(item: CartItem): (r: real)
    ensures item.price >= 0.0 && item.quantity >= 0 ==> r >= 0.0
    ensures item.quantity == 1 ==> r == item.price
    ensures item.quantity == 0 || item.price == 0.0 ==> r == 0.0
  {
    item.price * item.quantity as real
  }

  /** The subtotal, a left fold of the line totals starting from 0, in the
      order in which `reduce` visits the items. */
  function Subtotal(items: seq<CartItem>): (r: real)
    ensures items == [] ==> r == 0.0
    ensures (forall i :: 0 <= i < |items| ==> items[i].price >= 0.0 && items[i].quantity >= 0) ==> r >= 0.0
  {
    if items == [] then 0.0
    else Subtotal(items[..|items| - 1]) + LineTotal(items[|items| - 1])
  }

  /** The tax: exactly the subtotal times the rate, never rounded. */
  function Tax(items: seq<CartItem>): (r: real)
    ensures Subtotal(items) >= 0.0 ==> 0.0 <= r <= Subtotal(items)
  {
    Subtotal(items) * TaxRate
  }

  /** The grand total: subtotal plus shipping plus tax. */
  function Total(items: seq<CartItem>): (r: real)
    ensures r == 1.08 * Subtotal(items)
    ensures r - Subtotal(items) == Tax(items) + Shipping
  {
    Subtotal(items) + Shipping + Tax(items)
  }

  /** An empty cart has all totals zero. */
  lemma EmptyCartTotals()
    ensures Subtotal([]) == 0.0 && Tax([]) == 0.0 && Total([]) == 0.0
  {
  }

  /** The subtotal of a concatenation is the sum of the subtotals. */
  lemma {:induction false} SubtotalAppend(a: seq<CartItem>, b: seq<CartItem>)
    ensures Subtotal(a + b) == Subtotal(a) + Subtotal(b)
    decreases |b|
  {
    if b == [] {
      assert a + b == a;
    } else {
      var n := |b| - 1;
      assert (a + b)[..|a + b| - 1] == a + b[..n];
      assert (a + b)[|a + b| - 1] == b[n];
      SubtotalAppend(a, b[..n]);
    }
  }

  /** A one-item cart's subtotal is that item's line total. */
  lemma SubtotalSingleton(x: CartItem)
    ensures Subtotal([x]) == LineTotal(x)
  {
  }

  /** Permuting the cart leaves the subtotal unchanged, since the fold only adds. */
  lemma {:induction false} SubtotalPermutation(a: seq<CartItem>, b: seq<CartItem>)
    requires multiset(a) == multiset(b)
    ensures Subtotal(a) == Subtotal(b)
    decreases |a|
  {
    if a == [] {
      assert |b| == |multiset(b)| == 0;
    } else {
      var n := |a| - 1;
      var x := a[n];
      assert a == a[..n] + [x];
      assert x in multiset(b) by { assert x in multiset(a); }
      var j := PickOut(b, x);
      var rest := b[..j] + b[j + 1..];
      assert multiset(a[..n]) == multiset(a) - multiset{x};
      SubtotalPermutation(a[..n], rest);
      SubtotalAppend(a[..n], [x]);
      SubtotalAppend(b[..j] + [x], b[j + 1..]);
      SubtotalAppend(b[..j], [x]);
      SubtotalAppend(b[..j], b[j + 1..]);
      SubtotalSingleton(x);
    }
  }

  /** Permuting the cart leaves every total unchanged. */
  lemma TotalsPermutation(a: seq<CartItem>, b: seq<CartItem>)
    requires multiset(a) == multiset(b)
    ensures Subtotal(a) == Subtotal(b) && Tax(a) == Tax(b) && Total(a) == Total(b)
  {
    SubtotalPermutation(a, b);
  }

  /** With non-negative prices and quantities, 0 <= subtotal <= total. */
  lemma TotalsBounds(items: seq<CartItem>)
    requires forall i :: 0 <= i < |items| ==> items[i].price >= 0.0 && items[i].quantity >= 0
    ensures 0.0 <= Subtotal(items) <= Total(items)
    decreases |items|
  {
  }

  /** The worked example: two lines, 10.00 x 2 and 5.00 x 1. */
  lemma WorkedExample()
    ensures var cart := [CartItem("a", "A", 10.0, 2, ""), CartItem("b", "B", 5.0, 1, "")];
      Subtotal(cart) == 25.0 && Tax(cart) == 2.0 && Total(cart) == 27.0
      && Navbar.TotalItems(cart) == 3 && SummaryCount(cart) == 2
  {
  }

  /** The order-summary heading counts line items, not units: it is zero
      exactly for the empty cart and is the size of the cart's multiset of
      items, so it does not depend on their order or their quantities. */
  function SummaryCount(items: seq<CartItem>): (r: nat)
    ensures r == 0 <==> items == []
    ensures r == |multiset(items)|
  {
    |items|
  }

  /** The summary count never exceeds the total number of units of a
      well-formed cart, and equals it exactly when every quantity is 1. */
  lemma {:induction false} SummaryCountVersusTotalItems(items: seq<CartItem>)
    requires WellFormed(items)
    ensures SummaryCount(items) <= Navbar.TotalItems(items)
    ensures SummaryCount(items) == Navbar.TotalItems(items)
            <==> forall i :: 0 <= i < |items| ==> items[i].quantity == 1
    decreases |items|
  {
    if items != [] {
      var n := |items| - 1;
      assert WellFormed(items[..n]);
      SummaryCountVersusTotalItems(items[..n]);
      if forall i :: 0 <= i < n ==> items[..n][i].quantity == 1 {
        assert forall i :: 0 <= i < n ==> items[i].quantity == 1 by {
          forall i | 0 <= i < n ensures items[i].quantity == 1 {
            assert items[..n][i] == items[i];
          }
        }
      } else {
        var k :| 0 <= k < n && items[..n][k].quantity != 1;
        assert items[k].quantity != 1;
      }
    }
  }

  // ---------------------------------------------------------------------------
  // The form

  /** The names of the nine form inputs. */
  datatype Field = Email | FirstName | LastName | Address | City | Zip | CardNumber | Expiry | Cvc

  /** The form's state: one string per input. */
  datatype FormData = FormData(
    email: string,
    firstName: string,
    lastName: string,
    address: string,
    city: string,
    zip: string,
    cardNumber: string,
    expiry: string,
    cvc: string)
  {
    /** The value of the named input. */
    function Get(f: Field): string
    {
      match f
      case Email => email
      case FirstName => firstName
      case LastName => lastName
      case Address => address
      case City => city
      case Zip => zip
      case CardNumber => cardNumber
      case Expiry => expiry
      case Cvc => cvc
    }

    /** The form with the named input set to `value` (the object spread
        `{ ...prev, [name]: value }`). */
    function Set(f: Field, value: string): (r: FormData)
      ensures r.Get(f) == value
      ensures forall g :: g != f ==> r.Get(g) == Get(g)
    {
      match f
      case Email => this.(email := value)
      case FirstName => this.(firstName := value)
      case LastName => this.(lastName := value)
      case Address => this.(address := value)
      case City => this.(city := value)
      case Zip => this.(zip := value)
      case CardNumber => this.(cardNumber := value)
      case Expiry => this.(expiry := value)
      case Cvc => this.(cvc := value)
    }

    /** Every input is non-empty: what the `required` attributes ask of the
        browser before it lets the form submit, input by input. */
    predicate AllFilled()
      ensures AllFilled() <==>
        && Get(Email) != "" && Get(FirstName) != "" && Get(LastName) != ""
        && Get(Address) != "" && Get(City) != "" && Get(Zip) != ""
        && Get(CardNumber) != "" && Get(Expiry) != "" && Get(Cvc) != ""
    {
      forall f :: Get(f) != ""
    }
  }

  /** The form as the page starts: every input empty. */
  const EmptyForm: FormData := FormData("", "", "", "", "", "", "", "", "")

  /** Two forms agreeing on every input are the same form. */
  lemma {:induction false} FormExtensionality(a: FormData, b: FormData)
    requires forall f :: a.Get(f) == b.Get(f)
    ensures a == b
  {
    assert a.Get(Email) == b.Get(Email) && a.Get(FirstName) == b.Get(FirstName);
    assert a.Get(LastName) == b.Get(LastName) && a.Get(Address) == b.Get(Address);
    assert a.Get(City) == b.Get(City) && a.Get(Zip) == b.Get(Zip);
    assert a.Get(CardNumber) == b.Get(CardNumber) && a.Get(Expiry) == b.Get(Expiry);
    assert a.Get(Cvc) == b.Get(Cvc);
  }

  /** Setting an input twice keeps the last value; setting two different
      inputs commutes. */
  lemma SetLastWins(form: FormData, f: Field, v: string, w: string)
    ensures form.Set(f, v).Set(f, w) == form.Set(f, w)
  {
  }

  lemma SetCommutes(form: FormData, f: Field, g: Field, v: string, w: string)
    requires f != g
    ensures form.Set(f, v).Set(g, w) == form.Set(g, w).Set(f, v)
  {
  }

  // ---------------------------------------------------------------------------
  // The lifecycle

  /** The route the payment timer navigates to. */
  const OrderSuccessPath: string := "/order-success"

  /** The simulated payment latency, in milliseconds. */
  const SettleDelayMs: nat := 2500

  /** The calls the submit handler and its timer callback make, in order. */
  datatype Effect =
    | PreventDefault
    | SetProcessing(value: bool)
    | ScheduleSettle(delayMs: nat)
    | ClearCart
    | Navigate(path: string)

  /** What `handleSubmit` does when the form is submitted. */
  const SubmitEffects: seq<Effect> := [PreventDefault, SetProcessing(true), ScheduleSettle(SettleDelayMs)]

  /** What the timer callback does when the delay has elapsed. */
  const SettleEffects: seq<Effect> := [SetProcessing(false), ClearCart, Navigate(OrderSuccessPath)]

  /** The checkout page with its state: the processing flag, the cart it was
      given, the form, the current route and whether the payment timer is
      still pending. `effects` records the handler's calls in the order made. */
  class CheckoutPage {
    const checkoutPath: string
    var isProcessing: bool
    var cart: seq<CartItem>
    var form: FormData
    var location: string
    var timerPending: bool
    var effects: seq<Effect>

    /** The page's invariant: the page is not mounted on the success route,
        and a settle timer is pending exactly while processing, so a pending
        payment always keeps the submit button disabled. */
    predicate Valid()
      reads this
      ensures Valid() && timerPending ==> SubmitDisabled() && !EmptyCartShown()
    {
      && checkoutPath != OrderSuccessPath
      && timerPending == isProcessing
    }

    /** The empty-cart guard: the "Your cart is empty" view is rendered. It
        never shows while a payment is processing, nor for a non-empty cart. */
    predicate EmptyCartShown()
      reads this
      ensures isProcessing ==> !EmptyCartShown()
      ensures cart != [] ==> !EmptyCartShown()
    {
      |cart| == 0 && !isProcessing
    }

    /** The checkout form is rendered: on the page's route and past the guard,
        which needs a non-empty cart or a payment in progress. */
    predicate FormShown()
      reads this
      ensures FormShown() ==> location == checkoutPath
      ensures FormShown() ==> cart != [] || isProcessing
      ensures location == checkoutPath && cart != [] ==> FormShown()
    {
      location == checkoutPath && !EmptyCartShown()
    }

    /** The submit button's `disabled` flag: whenever it is set, the
        empty-cart guard has not fired. */
    predicate SubmitDisabled()
      reads this
      ensures SubmitDisabled() ==> !EmptyCartShown()
    {
      isProcessing
    }

    /** The page as it mounts on `path` with the given cart. */
    constructor (items: seq<CartItem>, path: string)
      requires path != OrderSuccessPath
      ensures Valid()
      ensures checkoutPath == path && location == path
      ensures !isProcessing && !timerPending && cart == items && form == EmptyForm && effects == []
      ensures EmptyCartShown() <==> items == []
    {
      checkoutPath := path;
      isProcessing := false;
      cart := items;
      form := EmptyForm;
      location := path;
      timerPending := false;
      effects := [];
    }

    /** `handleInputChange`: the named input takes the typed value; the other
        eight inputs and the rest of the page are unchanged. */
    method Input(f: Field, value: string)
      requires Valid() && FormShown()
      modifies this
      ensures Valid() && FormShown()
      ensures form == old(form).Set(f, value)
      ensures form.Get(f) == value && forall g :: g != f ==> form.Get(g) == old(form).Get(g)
      ensures isProcessing == old(isProcessing) && cart == old(cart) && location == old(location)
      ensures timerPending == old(timerPending) && effects == old(effects)
    {
      form := form.Set(f, value);
    }

    /** The shopper leaves the page for another route (the Back button, a
        navigation-bar link, "Go to Shop"). Nothing cancels the settle timer,
        so a pending payment stays pending; only the route changes, and the
        form is no longer on screen. The page does not come back: a later
        visit to its route mounts a new page. */
    method Leave(path: string)
      requires Valid() && location == checkoutPath && path != checkoutPath
      modifies this
      ensures Valid() && location == path && !FormShown()
      ensures isProcessing == old(isProcessing) && cart == old(cart) && form == old(form)
      ensures timerPending == old(timerPending) && effects == old(effects)
    {
      location := path;
    }

    /** `handleSubmit`, reachable only through an enabled submit button on a
        filled-in form: it starts processing and schedules the settle step.
        Afterwards the button is disabled, so a second submit cannot happen
        until the timer has fired, and the empty-cart view cannot show. */
    method Submit()
      requires Valid() && FormShown() && !SubmitDisabled() && form.AllFilled()
      modifies this
      ensures Valid() && FormShown()
      ensures isProcessing && timerPending && SubmitDisabled() && !EmptyCartShown()
      ensures old(cart) != [] && cart == old(cart)
      ensures form == old(form) && location == old(location)
      ensures effects == old(effects) + SubmitEffects
    {
      effects := effects + [PreventDefault];
      isProcessing := true;
      effects := effects + [SetProcessing(true)];
      timerPending := true;
      effects := effects + [ScheduleSettle(SettleDelayMs)];
      assert effects == old(effects) + SubmitEffects;
    }

    /** The timer callback: clears processing, then clears the cart, then
        navigates to the order-success route, in that order. It runs whether
        or not the shopper is still on the page. */
    method Settle()
      requires Valid() && timerPending
      modifies this
      ensures Valid()
      ensures !isProcessing && !timerPending && cart == [] && location == OrderSuccessPath
      ensures !FormShown() && !SubmitDisabled()
      ensures form == old(form)
      ensures effects == old(effects) + SettleEffects
    {
      isProcessing := false;
      effects := effects + [SetProcessing(false)];
      timerPending := false;
      cart := [];
      effects := effects + [ClearCart];
      location := OrderSuccessPath;
      effects := effects + [Navigate(OrderSuccessPath)];
      assert effects == old(effects) + SettleEffects;
    }
  }

  /** While the payment timer is pending, the empty-cart guard never fires and
      the submit button is disabled; if the shopper is still on the page, the
      form (with its processing button) is what is on screen. */
  lemma NoEmptyViewWhilePending(page: CheckoutPage)
    requires page.Valid() && page.timerPending
    ensures !page.EmptyCartShown() && page.SubmitDisabled()
    ensures page.location == page.checkoutPath ==> page.FormShown()
  {
  }

  /** The shopper types each of the nine inputs in turn: the form ends up
      holding exactly `details`, whatever it held before. */
  method FillForm(page: CheckoutPage, details: FormData)
    requires page.Valid() && page.FormShown()
    modifies page
    ensures page.Valid() && page.FormShown() && page.form == details
    ensures page.isProcessing == old(page.isProcessing) && page.cart == old(page.cart)
    ensures page.location == old(page.location) && page.timerPending == old(page.timerPending)
    ensures page.effects == old(page.effects)
  {
    page.Input(Email, details.email);
    page.Input(FirstName, details.firstName);
    page.Input(LastName, details.lastName);
    page.Input(Address, details.address);
    page.Input(City, details.city);
    page.Input(Zip, details.zip);
    page.Input(CardNumber, details.cardNumber);
    page.Input(Expiry, details.expiry);
    page.Input(Cvc, details.cvc);
    FormExtensionality(page.form, details);
  }

  /** One complete purchase: the page mounts on `path` with a non-empty cart,
      the shopper types each of the nine inputs, submits, and the timer fires.
      The page ends on the success route with the cart cleared, the form
      holding what was typed, and exactly one submit and one settle made. */
  method PurchaseFlow(items: seq<CartItem>, path: string, details: FormData)
    returns (cartAfter: seq<CartItem>, locationAfter: string, formAfter: FormData, effects: seq<Effect>)
    requires items != [] && path != OrderSuccessPath && details.AllFilled()
    ensures cartAfter == [] && locationAfter == OrderSuccessPath && formAfter == details
    ensures effects == SubmitEffects + SettleEffects
  {
    var page := new CheckoutPage(items, path);
    FillForm(page, details);
    page.Submit();
    page.Settle();
    cartAfter, locationAfter, formAfter, effects := page.cart, page.location, page.form, page.effects;
  }

  /** The shopper submits and then leaves for `elsewhere` before the timer
      fires. The timer was never cleared, so it still fires: the cart is
      cleared and the shopper is taken to the success route anyway. */
  method LeaveDuringPayment(items: seq<CartItem>, path: string, elsewhere: string, details: FormData)
    returns (locationBefore: string, pendingBefore: bool, cartAfter: seq<CartItem>, locationAfter: string,
             effects: seq<Effect>)
    requires items != [] && path != OrderSuccessPath && elsewhere != path && details.AllFilled()
    ensures locationBefore == elsewhere && pendingBefore
    ensures cartAfter == [] && locationAfter == OrderSuccessPath
    ensures effects == SubmitEffects + SettleEffects
  {
    var page := new CheckoutPage(items, path);
    FillForm(page, details);
    page.Submit();
    page.Leave(elsewhere);
    locationBefore, pendingBefore := page.location, page.timerPending;
    page.Settle();
    cartAfter, locationAfter, effects := page.cart, page.location, page.effects;
  }
}
