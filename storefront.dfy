/** The checkout page (index.js): the single selected offer, its lookup, the checkout
    guard that hands a payment request to the adapter, and the reset after payment. */
module Storefront {
  import opened Common
  import opened Catalog
  import Payment

  // ---------------------------------------------------------------------------
  // String.prototype.trim
  // ---------------------------------------------------------------------------

  /** The characters `trim()` removes: ECMAScript white space and line terminators. */
  predicate IsJsWhitespace(c: char) {
    || c == '\t' || c == '\n' || c == '\U{000B}' || c == '\U{000C}' || c == '\r' || c == ' '
    || c == '\U{00A0}' || c == '\U{1680}' || ('\U{2000}' <= c <= '\U{200A}')
    || c == '\U{2028}' || c == '\U{2029}' || c == '\U{202F}' || c == '\U{205F}'
    || c == '\U{3000}' || c == '\U{FEFF}'
  }

  ghost predicate AllWhitespace(s: string) {
    forall i :: 0 <= i < |s| ==> IsJsWhitespace(s[i])
  }

  lemma WhitespaceConcat(x: string, y: string)
    requires AllWhitespace(x) && AllWhitespace(y)
    ensures AllWhitespace(x + y)
  {
  }

  /** The number of white-space characters `s` starts with. */
  function LeadingSpace(s: string): (n: nat)
    ensures n <= |s|
    ensures AllWhitespace(s[..n])
    ensures n < |s| ==> !IsJsWhitespace(s[n])
  {
    if s != [] && IsJsWhitespace(s[0]) then 1 + LeadingSpace(s[1..]) else 0
  }

  /** The number of white-space characters `s` ends with. */
  function TrailingSpace(s: string): (n: nat)
    ensures n <= |s|
    ensures AllWhitespace(s[|s| - n..])
    ensures n < |s| ==> !IsJsWhitespace(s[|s| - n - 1])
  {
    if s != [] && IsJsWhitespace(s[|s| - 1]) then
      var n := 1 + TrailingSpace(s[..|s| - 1]);
      assert s[|s| - n..] == s[..|s| - 1][|s| - n..] + [s[|s| - 1]];
      n
    else 0
  }

  /** `s.trim()`: `s` with its leading and trailing white space removed. */
  function Trim(s: string): (t: string)
    ensures |t| <= |s| && LeadingSpace(s) + |t| <= |s|
    ensures t == s[LeadingSpace(s)..LeadingSpace(s) + |t|]
    ensures AllWhitespace(s[..LeadingSpace(s)]) && AllWhitespace(s[LeadingSpace(s) + |t|..])
    ensures t != [] ==> !IsJsWhitespace(t[0]) && !IsJsWhitespace(t[|t| - 1])
    ensures t == [] <==> AllWhitespace(s)
  {
    var a := LeadingSpace(s);
    var rest := s[a..];
    var b := TrailingSpace(rest);
    var t := rest[..|rest| - b];
    assert s[a + |t|..] == rest[|rest| - b..];
    assert t == [] ==> AllWhitespace(s) by {
      if t == [] {
        assert rest[|rest| - b..] == rest;
        assert s == s[..a] + rest;
        WhitespaceConcat(s[..a], rest);
      }
    }
    t
  }

  /** Trimming a trimmed string changes nothing. */
  lemma TrimIdempotent(s: string)
    ensures Trim(Trim(s)) == Trim(s)
  {
    var t := Trim(s);
    assert LeadingSpace(t) == 0;
    if t != [] {
      assert TrailingSpace(t) == 0;
      assert t[..|t|] == t;
    }
  }

  // ---------------------------------------------------------------------------
  // Page state
  // ---------------------------------------------------------------------------

  /** What `updateBundleDisplay` does: render the selection, or throw on reading a
      field of `null`; the model records the throw instead of raising it. */
  datatype DisplayOutcome = Rendered(bundle: Bundle) | NullDereference

  function UpdateBundleDisplay(selected: Option<Bundle>): (d: DisplayOutcome)
    ensures d.NullDereference? <==> selected.None?
    ensures selected.Some? ==> d == Rendered(selected.value)
  {
    match selected
    case None => NullDereference
    case Some(b) => Rendered(b)
  }

  /** How a checkout attempt ends: blocked with an alert, or handed to `processPayment`
      with the request built from the form and the gateway session that call opens. */
  datatype CheckoutOutcome =
    | NoBundleSelected
    | PhoneTooShort
    | Submitted(data: Payment.PaymentData, session: Option<Payment.GatewaySession>)

  /** The request `handleCheckout` builds: the trimmed phone, the offer's price, the offer. */
  function CheckoutData(phone: string, b: Bundle): (d: Payment.PaymentData)
    ensures d.phone == phone && d.amount == b.price && d.bundle == Some(b)
  {
    Payment.PaymentData(phone, b.price, Some(b))
  }

  /** Every request a checkout accepts passes the adapter's validation: the trimmed phone
      has at least ten characters, and every catalog offer has a non-zero id and a
      positive price. */
  lemma AcceptedCheckoutIsValid(phone: string, b: Bundle)
    requires b in Bundles && |Trim(phone)| >= 10
    ensures Payment.ValidatePaymentData(CheckoutData(Trim(phone), b))
  {
    CatalogEntriesPayable(b);
  }

  /** The phone examples of the checkout guard: five digits are blocked, ten pass. */
  lemma PhoneGuardExamples()
    ensures |Trim("12345")| < 10
    ensures |Trim("0551234567")| >= 10
  {
    var p := "0551234567";
    assert !IsJsWhitespace(p[0]) && !IsJsWhitespace(p[|p| - 1]);
    assert LeadingSpace(p) == 0;
    assert TrailingSpace(p) == 0;
  }

  /** The page's global state: `selectedBundle` (`null` and `undefined` both read as `None`). */
  class CheckoutPage {
    var selectedBundle: Option<Bundle>

    /** A selection is always one of the catalog's offers. */
    ghost predicate Valid()
      reads this
    {
      selectedBundle.Some? ==> selectedBundle.value in Bundles
    }

    constructor ()
      ensures Valid() && selectedBundle == None
    {
      selectedBundle := None;
    }

    /** `selectBundle(id)`: the lookup result is assigned before it is checked, so an
        unknown id clears any earlier selection; the display is updated only on a hit. */
    method SelectBundle(id: int) returns (display: Option<DisplayOutcome>)
      modifies this
      ensures Valid()
      ensures selectedBundle == FindBundle(id)
      ensures selectedBundle.Some? <==> 1 <= id <= 4
      ensures display == if selectedBundle.Some? then Some(Rendered(selectedBundle.value)) else None
    {
      FindBundleExactly(id);
      selectedBundle := FindBundle(id);
      if selectedBundle.None? {
        return None;
      }
      display := Some(UpdateBundleDisplay(selectedBundle));
    }

    /** `handleCheckout`: `phoneInput` is the phone field's raw value; `randomText` and
        `now` are what the adapter draws for the reference. The selection is read and
        never written. */
    method HandleCheckout(phoneInput: string, randomText: string, now: nat) returns (outcome: CheckoutOutcome)
      requires Valid()
      ensures outcome.NoBundleSelected? <==> selectedBundle.None?
      ensures outcome.PhoneTooShort? <==> selectedBundle.Some? && |Trim(phoneInput)| < 10
      ensures outcome.Submitted? ==>
        && selectedBundle.Some?
        && outcome.data == CheckoutData(Trim(phoneInput), selectedBundle.value)
        && Payment.ValidatePaymentData(outcome.data)
        && outcome.session == Payment.ProcessPayment(outcome.data, randomText, now)
        && outcome.session.Some?
    {
      if selectedBundle.None? {
        return NoBundleSelected;
      }
      var phone := Trim(phoneInput);
      if |phone| < 10 {
        return PhoneTooShort;
      }
      var b := selectedBundle.value;
      var data := Payment.PaymentData(phone, b.price, selectedBundle);
      AcceptedCheckoutIsValid(phoneInput, b);
      outcome := Submitted(data, Payment.ProcessPayment(data, randomText, now));
    }

    /** `handlePaymentSuccess` (the page's callback): the selection is reset to `null`, and
        the `updateBundleDisplay` call that follows reads a field of `null`. */
    method HandlePaymentSuccess() returns (display: DisplayOutcome)
      modifies this
      ensures Valid()
      ensures selectedBundle == None
      ensures display == NullDereference
    {
      selectedBundle := None;
      display := UpdateBundleDisplay(selectedBundle);
    }
  }
}
