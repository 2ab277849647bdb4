/** The order-confirmation page: the display order number and the delivery estimate. */
module OrderSuccess {

  /** The fixed prefix of every order number. */
  const OrderIdPrefix: string := "PWR-"

  /** The delivery estimate shown on the page: a constant, not derived from
      the cart, the address or anything else. */
  const DeliveryEstimate: string := "2-4 Business Days"

  function Min(a: int, b: int): (r: int)
    ensures r <= a && r <= b && (r == a || r == b)
  {
    if a <= b then a else b
  }

  function Clamp(x: int, len: nat): (r: nat)
    ensures r <= len
  {
    if x < 0 then 0 else if x > len then len else x
  }

  /** `String.prototype.substring`: both indices are clamped into
      [0, length], and swapped when the start is past the end. */
  function JsSubstring(s: string, start: int, end: int): (r: string)
    ensures |r| <= |s|
    ensures 0 <= start <= end <= |s| ==> r == s[start..end]
    ensures 0 <= end <= start <= |s| ==> r == s[end..start]
    ensures start >= |s| && end >= |s| ==> r == []
  {
    var a, b := Clamp(start, |s|), Clamp(end, |s|);
    if a <= b then s[a..b] else s[b..a]
  }

  /** Swapping the two indices never changes the result. */
  lemma JsSubstringSymmetric(s: string, start: int, end: int)
    ensures JsSubstring(s, start, end) == JsSubstring(s, end, start)
  {
  }

  /** `substring(2, 9)` keeps the characters from index 2 up to, but not
      including, index 9, cut short at the end of the string. */
  lemma SubstringTwoNine(s: string)
    ensures JsSubstring(s, 2, 9) == s[Min(2, |s|)..Min(9, |s|)]
    ensures |JsSubstring(s, 2, 9)| == if |s| <= 2 then 0 else Min(9, |s|) - 2
  {
  }

  /** Upper-casing of one character, for the ASCII letters. */
  function UpperChar(c: char): (r: char)
    ensures 'a' <= c <= 'z' ==> r as int == c as int - 32
    ensures !('a' <= c <= 'z') ==> r == c
  {
    if 'a' <= c <= 'z' then (c as int - 32) as char else c
  }

  /** `toUpperCase`, character by character. */
  function Upper(s: string): (r: string)
    ensures |r| == |s|
    ensures forall i :: 0 <= i < |s| ==> r[i] == UpperChar(s[i])
  {
    if s == [] then [] else [UpperChar(s[0])] + Upper(s[1..])
  }

  /** Upper-casing a second time changes nothing. */
  lemma UpperIdempotent(s: string)
    ensures Upper(Upper(s)) == Upper(s)
  {
  }

  predicate IsBase36Lower(c: char)
  {
    '0' <= c <= '9' || 'a' <= c <= 'z'
  }

  predicate IsBase36Upper(c: char)
  {
    '0' <= c <= '9' || 'A' <= c <= 'Z'
  }

  /** The order number built from the base-36 text `s` of a random number:
      the prefix, then characters 2 to 8 of `s`, upper-cased. */
  function OrderId(s: string): (r: string)
    ensures |r| >= 4 && r[..4] == OrderIdPrefix
    ensures r[4..] == Upper(s[Min(2, |s|)..Min(9, |s|)])
    ensures |r| <= 11
    ensures |s| >= 9 ==> |r| == 11
    ensures |s| < 9 ==> |r| < 11
  {
    SubstringTwoNine(s);
    OrderIdPrefix + Upper(JsSubstring(s, 2, 9))
  }

  /** When `s` is base-36 text from index 2 on (the digits after "0."), every
      character after the prefix is a digit or an upper-case letter, and
      upper-casing the number again leaves it as it is. */
  lemma OrderIdAlphabet(s: string)
    requires forall i :: 2 <= i < |s| ==> IsBase36Lower(s[i])
    ensures var r := OrderId(s);
      (forall i :: 4 <= i < |r| ==> IsBase36Upper(r[i])) && Upper(r) == r
  {
  }

  /** The two details the page shows under the heading: the order number and
      the delivery estimate. */
  datatype Confirmation = Confirmation(orderNumber: string, deliveryEstimate: string)

  /** The details rendered for an order number: the number as given, and the
      fixed estimate, which no input affects. */
  function ConfirmationDetails(orderId: string): (r: Confirmation)
    ensures r.orderNumber == orderId
    ensures r.deliveryEstimate == DeliveryEstimate && |r.deliveryEstimate| == 17
  {
    Confirmation(orderId, DeliveryEstimate)
  }

  /** Any two orders show the same delivery estimate. */
  lemma DeliveryEstimateFixed(a: string, b: string)
    ensures ConfirmationDetails(a).deliveryEstimate == ConfirmationDetails(b).deliveryEstimate
  {
  }

  /** The page's state: the order number starts empty and the mount effect
      (with an empty dependency list) runs once. */
  class OrderSuccessPage {
    var orderId: string
    var effectRan: bool

    constructor ()
      ensures orderId == "" && !effectRan
    {
      orderId := "";
      effectRan := false;
    }

    /** The mount effect: sets the order number from the random base-36 text. */
    method RunMountEffect(random36: string)
      requires !effectRan
      modifies this
      ensures effectRan && orderId == OrderId(random36)
      ensures orderId[..4] == OrderIdPrefix && |orderId| <= 11
    {
      orderId := OrderId(random36);
      effectRan := true;
    }
  }

  /** Mounting the page: before the effect the number is empty; after it, the
      number is set once and is what `OrderId` gives for the random text. */
  method MountPage(random36: string) returns (before: string, after: string)
    ensures before == "" && after == OrderId(random36)
    ensures after[..4] == OrderIdPrefix && |after| <= 11
  {
    var page := new OrderSuccessPage();
    before := page.orderId;
    page.RunMountEffect(random36);
    after := page.orderId;
  }
}
