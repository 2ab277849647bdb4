# Pawradise storefront checkout, modelled in Dafny

This project models the computational core of the Pawradise storefront in Dafny. It covers three parts of the program.

- **The checkout page** (`pages/Checkout.tsx`):
  - the order totals: a subtotal folded over the line items, free shipping, an 8 % tax with no rounding, and the grand total;
  - the nine-input form: e-mail, first and last name, address, city, zip, card number, expiry and CVC;
  - one payment attempt, end to end: submit, processing, and the timer callback that clears the cart and goes to `/order-success`;
  - the empty-cart guard, the submit button's `disabled` flag and the order-summary count.
- **The navigation bar** (`components/Navbar.tsx`): the cart badge's unit count and when the badge shows, plus the desktop and mobile tests that decide which link is highlighted.
- **The order-confirmation page** (`pages/OrderSuccess.tsx`): the `PWR-` order number built from the base-36 text of a random number, the one-time mount effect that sets it, and the fixed delivery estimate "2-4 Business Days" (the constant `OrderSuccess.DeliveryEstimate`, which takes no input).

The files are:

- `cart_items.dfy`: the `CartItem` record (id, name, price, quantity, image), the predicate `WellFormed` (prices at least 0, quantities at least 1, an assumption about the cart's owner), and the multiset step shared by the order-independence proofs.
- `checkout.dfy`: module `Checkout`. The totals and the form are functions and lemmas. The page state is the class `CheckoutPage`, with the route it is mounted on (`checkoutPath`) and the fields `isProcessing`, `cart`, `form`, `location`, `timerPending` and `effects` (the handler's calls in the order made), and methods `Input`, `Submit`, `Leave` and `Settle`.
- `navbar.dfy`: module `Navbar`, pure functions and lemmas.
- `order_success.dfy`: module `OrderSuccess`. The order number is a function; the page state is the class `OrderSuccessPage`, whose mount effect sets `orderId` once.

Modelling choices:

- Money is `real`, so sums are exact and do not depend on the order of the items.
- The folds are left folds in the order `Array.prototype.reduce` visits the items.
- The `setTimeout` callback is an explicit `Settle` step that may run only while its timer is pending. The timer is never cleared, so `Settle` may run after the shopper has left the page (`Leave`).
- `navigate` becomes an assignment to `location`.
- The calls made by the submit handler and by the timer callback are recorded, in order, in the field `effects`. These calls are `preventDefault`, `setIsProcessing`, the scheduling of the 2500 ms timer, `clearCart` and `navigate`.
- The random base-36 text is a parameter.

Points where the code may surprise a reader:

- Tax is `subtotal * 0.08` with no rounding. Only the display rounds, through `toFixed(2)`.
- The code has no validation errors, no re-entrancy error, no cancel and no failure state. The only guard against a second submission is the disabled button.
- The order-summary heading counts line items (`cartItems.length`), not units.
- The order number is not always 7 characters after the prefix. It is shorter when the base-36 text has fewer than 9 characters.

## Model

| member | source | states |
|---|---|---|
| `Checkout.LineTotal` | pages/Checkout.tsx:26 | a line's price `price * quantity` is non-negative for non-negative price and quantity, the unit price for quantity 1, and 0 when either factor is 0 |
| `Checkout.Subtotal` | pages/Checkout.tsx:26 | the left fold of line totals from 0: 0 for the empty cart, non-negative when every price and quantity is |
| `Checkout.Tax` | pages/Checkout.tsx:28 | the tax lies between 0 and the subtotal whenever the subtotal is non-negative |
| `Checkout.Total` | pages/Checkout.tsx:26-29 | the total is exactly 1.08 times the subtotal, and the total minus the subtotal is the tax plus the (zero) shipping |
| `Checkout.EmptyCartTotals` | pages/Checkout.tsx:26-29 | an empty cart has subtotal, tax and total all 0 |
| `Checkout.SubtotalAppend` | pages/Checkout.tsx:26 | the subtotal of two concatenated carts is the sum of their subtotals |
| `Checkout.SubtotalPermutation` | pages/Checkout.tsx:26 | two carts holding the same items in any order have the same subtotal |
| `Checkout.TotalsPermutation` | pages/Checkout.tsx:26-29 | permuting the cart leaves subtotal, tax and total unchanged |
| `Checkout.TotalsBounds` | pages/Checkout.tsx:26-29 | with non-negative prices and quantities, 0 <= subtotal <= total |
| `Checkout.WorkedExample` | pages/Checkout.tsx:26-29 | the cart 10.00 x 2 plus 5.00 x 1 gives subtotal 25, tax 2, total 27, 3 units and a summary count of 2 |
| `Checkout.SummaryCount` | pages/Checkout.tsx:247 | the heading's count is 0 exactly for the empty cart and equals the size of the cart's multiset of items, so neither order nor quantities affect it |
| `Checkout.SummaryCountVersusTotalItems` | pages/Checkout.tsx:247 | the summary count (number of line items) is at most the badge's unit count for a well-formed cart, and equal to it exactly when every quantity is 1 |
| `Checkout.FormData.Set` | pages/Checkout.tsx:31-34 | the named input takes the new value and each of the other eight inputs keeps its old value |
| `Checkout.FormData.AllFilled` | pages/Checkout.tsx:90-208 | the form counts as filled exactly when each of the nine inputs marked `required` (email, first and last name, address, city, ZIP, card number, expiry, CVC) is non-empty |
| `Checkout.SetLastWins` | pages/Checkout.tsx:33 | two updates of the same input leave only the last value |
| `Checkout.SetCommutes` | pages/Checkout.tsx:33 | updates of two different inputs can be made in either order |
| `Checkout.CheckoutPage.Valid` | pages/Checkout.tsx:36-46 | the page invariant: the page's route is not the success route, and a settle timer is pending exactly while processing, so a pending payment keeps the button disabled and the empty-cart view away |
| `Checkout.CheckoutPage.EmptyCartShown` | pages/Checkout.tsx:48 | the empty-cart view never shows while processing, nor for a non-empty cart |
| `Checkout.CheckoutPage.SubmitDisabled` | pages/Checkout.tsx:228 | whenever the button is disabled the empty-cart guard has not fired; the button is on screen only while the shopper is on the page (see `NoEmptyViewWhilePending`) |
| `Checkout.CheckoutPage.FormShown` | pages/Checkout.tsx:48-64 | the form is rendered only on the page's own route and only for a non-empty cart or a payment in progress; on that route a non-empty cart always gets the form |
| `Checkout.CheckoutPage.constructor` | pages/Checkout.tsx:13-24 | the page starts not processing, with every input empty, no timer, the given cart, and shows the empty-cart view exactly when that cart is empty |
| `Checkout.CheckoutPage.Input` | pages/Checkout.tsx:31-34 | the form becomes the old form with the named input set; processing flag, cart, route, timer and recorded calls are unchanged |
| `Checkout.CheckoutPage.Submit` | pages/Checkout.tsx:36-40 | from an enabled button on a filled form with a non-empty cart: processing starts, the settle timer is pending, the button is disabled and the empty-cart view cannot show; cart, form and route unchanged; the calls preventDefault, setIsProcessing(true), schedule 2500 ms are made in that order |
| `Checkout.CheckoutPage.Leave` | pages/Checkout.tsx:67-72 | leaving the page for another route changes only the route: a pending timer stays pending and the form is no longer on screen |
| `Checkout.CheckoutPage.Settle` | pages/Checkout.tsx:41-45 | whether or not the shopper is still on the page: processing ends, the cart is empty, the route is `/order-success` and the timer is no longer pending; the calls setIsProcessing(false), clearCart, navigate('/order-success') are made in that order; the form is unchanged |
| `Checkout.NoEmptyViewWhilePending` | pages/Checkout.tsx:48 | while a payment is pending the empty-cart guard does not fire and the submit button is disabled; if the shopper is still on the page, the form is on screen |
| `Checkout.FillForm` | pages/Checkout.tsx:31-34 | typing all nine inputs leaves the form equal to what was typed, whatever it held before, and changes nothing else |
| `Checkout.PurchaseFlow` | pages/Checkout.tsx:31-46 | typing the nine inputs, submitting and letting the timer fire ends on `/order-success` with an empty cart, the typed form, and exactly one submit's and one settle's calls |
| `Checkout.LeaveDuringPayment` | pages/Checkout.tsx:36-46 | submitting and then leaving before the timer fires leaves the timer pending; when it fires the cart is cleared and the route becomes `/order-success` anyway |
| `Navbar.TotalItems` | components/Navbar.tsx:15 | the left fold of quantities from 0: 0 for the empty cart, non-negative when every quantity is |
| `Navbar.ShowBadge` | components/Navbar.tsx:63 | the badge (`totalItems > 0`) is never rendered for an empty cart |
| `Navbar.TotalItemsAppend` | components/Navbar.tsx:15 | the unit count of two concatenated carts is the sum of their unit counts |
| `Navbar.TotalItemsInsert` | components/Navbar.tsx:15 | adding an item anywhere in the cart raises the unit count by exactly its quantity |
| `Navbar.TotalItemsPermutation` | components/Navbar.tsx:15 | two carts holding the same items in any order have the same unit count |
| `Navbar.TotalItemsAtLeastLength` | components/Navbar.tsx:15 | a well-formed cart has at least as many units as line items |
| `Navbar.BadgeShownIffNonEmpty` | components/Navbar.tsx:63 | for a well-formed cart the badge is rendered exactly when the cart has an item |
| `Navbar.DesktopActive` | components/Navbar.tsx:43 | a link highlighted on desktop is also highlighted on mobile |
| `Navbar.MobileActive` | components/Navbar.tsx:94 | a highlighted mobile link has a path of the pathname's length, holding '?' exactly when the pathname does |
| `Navbar.DesktopActiveRouterSearch` | components/Navbar.tsx:43 | for a query string that is empty or starts with '?', a desktop link is highlighted exactly when the pathname is its path and the query is empty |
| `Navbar.CategoryLinksNeverActive` | components/Navbar.tsx:17-22 | for a pathname with no '?', neither `Dogs` nor `Cats` is ever highlighted, on desktop or mobile, since both paths contain '?' |
| `Navbar.AtMostOneActive` | components/Navbar.tsx:94 | no pathname highlights two different links at once |
| `OrderSuccess.JsSubstring` | pages/OrderSuccess.tsx:10 | `substring` is never longer than the string, is the slice for in-range ordered indices, the swapped slice for in-range reversed ones, and empty when both indices are past the end |
| `OrderSuccess.JsSubstringSymmetric` | pages/OrderSuccess.tsx:10 | swapping the two indices of `substring` never changes the result |
| `OrderSuccess.SubstringTwoNine` | pages/OrderSuccess.tsx:10 | `substring(2, 9)` with JavaScript's clamping is `s[min(2,|s|)..min(9,|s|)]`, of length `min(9,|s|) - 2` or 0 |
| `OrderSuccess.UpperChar` | pages/OrderSuccess.tsx:10 | a lower-case ASCII letter moves 32 code points down to its capital; every other character is kept |
| `OrderSuccess.Upper` | pages/OrderSuccess.tsx:10 | upper-casing keeps the length and maps every character through the ASCII upper-case map |
| `OrderSuccess.UpperIdempotent` | pages/OrderSuccess.tsx:10 | upper-casing a second time changes nothing |
| `OrderSuccess.OrderId` | pages/OrderSuccess.tsx:10 | the order number starts with `PWR-`, continues with the upper-cased characters 2..8 of the base-36 text, is at most 11 characters long, exactly 11 when the text has at least 9 characters and shorter otherwise |
| `OrderSuccess.OrderIdAlphabet` | pages/OrderSuccess.tsx:10 | when the text is base-36 from index 2 on, every character after the prefix is in 0-9A-Z and the whole number is already upper case |
| `OrderSuccess.ConfirmationDetails` | pages/OrderSuccess.tsx:36-43 | the details show the order number as given and the fixed 17-character text "2-4 Business Days" |
| `OrderSuccess.DeliveryEstimateFixed` | pages/OrderSuccess.tsx:42 | any two orders show the same delivery estimate |
| `OrderSuccess.OrderSuccessPage.constructor` | pages/OrderSuccess.tsx:6 | the order number starts as the empty string and the mount effect has not run |
| `OrderSuccess.OrderSuccessPage.RunMountEffect` | pages/OrderSuccess.tsx:8-12 | the effect, run once, sets the order number to `OrderId` of the random text, which starts with `PWR-` and has at most 11 characters |
| `OrderSuccess.MountPage` | pages/OrderSuccess.tsx:6-12 | before the effect the number is empty; after its single run it is `OrderId` of the random text |

## Left out

- Markup, styling, icons, the `Sparkles` SVG and the mobile menu's open/closed state: these are presentation only.
- Floating point: JavaScript numbers are IEEE-754 doubles, while the model uses exact reals. `toFixed(2)` display rounding is not modelled. The order-independence lemmas `Checkout.SubtotalPermutation` and `Checkout.TotalsPermutation` hold only because the reals are exact: with doubles, line totals 0.1, 0.2 and 0.3 sum to 0.6000000000000001 in that order and to 0.6 in the reverse order. `Navbar.TotalItemsPermutation` is unaffected for integer quantities.
- The 2500 ms wait itself: only the scheduling is recorded, and the callback is the explicit `Settle` step.
- `react-router`: `navigate`, `Link` and `useLocation` are not modelled. The route is the `location` field, and `pathname` and `search` are parameters.
- `Math.random()` and `Number.prototype.toString(36)`: these are foreign calls, so their output string is a parameter.
- `OrderSuccess.Upper`, `OrderSuccess.UpperChar`: model `toUpperCase` for the ASCII letters a-z only. Other characters are left unchanged, whereas JavaScript also maps non-ASCII letters and can lengthen the text ('ß' becomes "SS"), so `|r| == |s|` in `Upper` holds only in the model. For base-36 text the two agree.
- `Checkout.CheckoutPage.Submit`: the browser enforces the HTML `required` attributes and the `disabled` flag. They appear only as the precondition "every input non-empty and not processing". The code performs no validation of its own.
- `Checkout.CheckoutPage.Input`: the input's `name` attribute is one of the nine fields of the datatype `Field`, because the form has no other input. A spread with any other key is not modelled.
- The cart belongs to the page's parent component and reaches the page as a property. Changes the parent makes to it while the page is shown, other than `clearCart`, are not modelled.
- `Checkout.CheckoutPage.Leave`: a page that has been left is never shown again. A later visit to the checkout route mounts a new `CheckoutPage` with `isProcessing` false, so a second submit and a second timer are possible then. The model does not share one cart between the old page's pending timer and the new page, and the guarantee "no second submit while processing" holds within one visit only.
- `WellFormed` (prices at least 0, quantities at least 1) is an assumption about the component that owns the cart. None of the three pages establishes it. `Navbar.BadgeShownIffNonEmpty`, `Navbar.TotalItemsAtLeastLength` and `Checkout.SummaryCountVersusTotalItems` take it as a precondition. Without it, an item of quantity 0 hides the badge even though the cart is not empty.
- The `alert` behind "Track Order" is a user-interface side effect.
- The `CartItem` type's own file is not part of this model. Its fields are taken from their uses in the three files.
