/** The client-side payment adapter (`PaystackPayment` in payment.js): validation of a
    payment request, the guard before the gateway widget, reference generation, the
    transaction record built from the gateway's callback, the local history and the
    payload sent to the backend. */
module Payment {
  import opened Common
  import opened Catalog

  /** `this.currency`, fixed by the constructor. */
  const Currency: string := "GHS"

  /** The request index.js hands over: `{phone, amount, bundle}`. `amount` is in pesewas. */
  datatype PaymentData = PaymentData(phone: string, amount: int, bundle: Option<Bundle>)

  /** What the gateway widget is opened with: reference, amount in minor units, currency. */
  datatype GatewaySession = GatewaySession(reference: string, amount: int, currency: string)

  /** The gateway widget's success callback argument; only `reference` is read. */
  datatype GatewayCallback = GatewayCallback(reference: string)

  /** The record `handlePaymentSuccess` builds; `timestamp` is the ISO time, passed in. */
  datatype ClientTransaction = ClientTransaction(
    reference: string,
    customerPhone: string,
    bundle: BundleSnapshot,
    amount: int,
    currency: string,
    status: string,
    timestamp: string)

  // ---------------------------------------------------------------------------
  // Validation and the guard
  // ---------------------------------------------------------------------------

  /** `validatePaymentData`: the three checks in the order payment.js makes them. A
      number is truthy when it is not zero, so a bundle id only has to be non-zero. */
  function ValidatePaymentData(d: PaymentData): (ok: bool)
    ensures ok <==> |d.phone| >= 10 && d.amount > 0 && d.bundle.Some? && d.bundle.value.id != 0
    ensures |d.phone| < 10 ==> !ok
    ensures d.amount <= 0 ==> !ok
  {
    if d.phone == "" || |d.phone| < 10 then false
    else if d.amount == 0 || d.amount <= 0 then false
    else if d.bundle.None? || d.bundle.value.id == 0 then false
    else true
  }

  /** `processPayment` up to opening the widget: `None` is the early `return false`,
      taken before any reference is generated or any gateway session exists;
      otherwise the session the widget is set up with. `randomText` stands for
      `Math.random().toString(36)` and `now` for `Date.now()`. */
  function ProcessPayment(d: PaymentData, randomText: string, now: nat): (session: Option<GatewaySession>)
    ensures session.None? <==> !ValidatePaymentData(d)
    ensures session.Some? ==> session.value.reference == GenerateReference(randomText, now)
    ensures session.Some? ==> session.value.amount == d.amount > 0
    ensures session.Some? ==> session.value.currency == Currency
  {
    if !ValidatePaymentData(d) then None
    else Some(GatewaySession(GenerateReference(randomText, now), d.amount, Currency))
  }

  // ---------------------------------------------------------------------------
  // References
  // ---------------------------------------------------------------------------

  /** `randomText.substr(2, 9)`: up to nine characters starting at index 2. */
  function Fragment(randomText: string): (f: string)
    ensures |f| == if |randomText| <= 2 then 0 else if |randomText| >= 11 then 9 else |randomText| - 2
    ensures forall i :: 0 <= i < |f| ==> f[i] == randomText[i + 2]
  {
    var start := if |randomText| < 2 then |randomText| else 2;
    var end := if |randomText| < 11 then |randomText| else 11;
    randomText[start..end]
  }

  function DigitChar(d: nat): (c: char)
    requires d < 10
    ensures '0' <= c <= '9'
  {
    (48 + d) as char
  }

  /** The number a string of decimal digits denotes, read left to right. */
  function NumeralValue(s: string): (v: int)
    requires forall i :: 0 <= i < |s| ==> '0' <= s[i] <= '9'
    ensures v >= 0
  {
    if s == [] then 0 else NumeralValue(s[..|s| - 1]) * 10 + (s[|s| - 1] as int - 48)
  }

  /** The decimal numeral of `n`, as `String(n)` writes an integer: digits only, no
      leading zero, and denoting `n`. */
  function Decimal(n: nat): (s: string)
    ensures |s| >= 1
    ensures forall i :: 0 <= i < |s| ==> '0' <= s[i] <= '9'
    ensures n > 0 ==> s[0] != '0'
    ensures NumeralValue(s) == n
  {
    if n < 10 then
      var s := [DigitChar(n)];
      assert s[..0] == [];
      s
    else
      var p := Decimal(n / 10);
      var s := p + [DigitChar(n % 10)];
      assert s[..|s| - 1] == p;
      s
  }

  /** Different numbers have different numerals: each numeral denotes its number. */
  lemma DecimalInjective(a: nat, b: nat)
    requires Decimal(a) == Decimal(b)
    ensures a == b
  {
    assert a == NumeralValue(Decimal(a)) == NumeralValue(Decimal(b)) == b;
  }

  /** `generateReference`: "ref_", the random fragment, the timestamp. */
  function GenerateReference(randomText: string, now: nat): (r: string)
    ensures |r| == 4 + |Fragment(randomText)| + |Decimal(now)|
    ensures r[..4] == "ref_"
    ensures r[4..4 + |Fragment(randomText)|] == Fragment(randomText)
    ensures r[4 + |Fragment(randomText)|..] == Decimal(now)
  {
    "ref_" + Fragment(randomText) + Decimal(now)
  }

  /** When two calls draw fragments of the same length (nine characters, as almost
      every draw does), equal references mean equal fragments and equal timestamps:
      calls at different milliseconds never share a reference. */
  lemma ReferenceDeterminesParts(t1: string, n1: nat, t2: string, n2: nat)
    requires |Fragment(t1)| == |Fragment(t2)|
    requires GenerateReference(t1, n1) == GenerateReference(t2, n2)
    ensures Fragment(t1) == Fragment(t2)
    ensures n1 == n2
  {
    var r := GenerateReference(t1, n1);
    assert Decimal(n1) == r[4 + |Fragment(t1)|..] == Decimal(n2);
    DecimalInjective(n1, n2);
  }

  // ---------------------------------------------------------------------------
  // Records and payloads
  // ---------------------------------------------------------------------------

  /** The transaction record `handlePaymentSuccess` builds. The code dereferences
      `paymentData.bundle`, so the bundle must be present. */
  function BuildTransaction(response: GatewayCallback, d: PaymentData, timestamp: string): (t: ClientTransaction)
    requires d.bundle.Some?
    ensures t.reference == response.reference && t.customerPhone == d.phone
    ensures t.bundle == d.bundle.value.Snapshot() && t.amount == d.amount
    ensures t.status == "success" && t.currency == Currency
    ensures t.timestamp == timestamp
  {
    ClientTransaction(response.reference, d.phone, d.bundle.value.Snapshot(), d.amount, Currency, "success", timestamp)
  }

  /** `backendData` in `sendTransactionToBackend`: reference, the customer's phone, amount, bundle. */
  function BackendPayload(t: ClientTransaction): (p: TransactionPayload)
    ensures p.reference == Some(t.reference) && p.phone == t.customerPhone
    ensures p.amount == t.amount && p.bundle == Some(t.bundle)
  {
    TransactionPayload(Some(t.reference), t.customerPhone, t.amount, Some(t.bundle))
  }

  /** The value `sendTransactionToBackend` resolves to, given what `fetch` and
      `response.json()` produced (`None` when either threw): the body when its
      `success` is truthy, null otherwise. */
  function SendResult(reply: Option<CreateResponse>): (r: Option<CreateResponse>)
    ensures r.Some? <==> reply.Some? && reply.value.success
    ensures r.Some? ==> r == reply
  {
    match reply
    case Some(body) => if body.success then reply else None
    case None => None
  }

  /** `verifyPayment`: true exactly when the backend's body has `status` "success";
      false when the body has another status or none, or the request threw (`None`). */
  function VerifyPayment(reply: Option<VerifyResponse>): (verified: bool)
    ensures verified <==> reply.Some? && reply.value.status == Some("success")
  {
    match reply
    case None => false
    case Some(body) => body.status == Some("success")
  }

  // ---------------------------------------------------------------------------
  // Local history
  // ---------------------------------------------------------------------------

  /** The `bundleTransactions` entry of local storage: absent (or the empty string),
      text that does not parse as JSON, or a parsed list. */
  datatype Slot = Absent | Unparsable | Holds(entries: seq<ClientTransaction>)

  /** What `loadTransactionHistory` assigns to `this.transactions`. */
  function History(slot: Slot): (h: seq<ClientTransaction>)
    ensures slot.Holds? ==> h == slot.entries
    ensures !slot.Holds? ==> h == []
  {
    match slot
    case Holds(entries) => entries
    case _ => []
  }

  /** The entry after `saveTransaction(t)`: the parsed list (or `[]` when absent) with
      `t` pushed; unparsable text makes `JSON.parse` throw, which is caught and
      leaves the entry as it was. */
  function AfterSave(slot: Slot, t: ClientTransaction): (s: Slot)
    ensures slot.Unparsable? ==> s == slot
    ensures !slot.Unparsable? ==> s == Holds(History(slot) + [t])
  {
    match slot
    case Absent => assert [] + [t] == [t]; Holds([t])
    case Unparsable => Unparsable
    case Holds(entries) => Holds(entries + [t])
  }

  /** Saving then loading: one more entry, at the end, earlier ones kept in order. */
  lemma {:induction false} SaveAppendsOne(slot: Slot, t: ClientTransaction)
    requires !slot.Unparsable?
    ensures |History(AfterSave(slot, t))| == |History(slot)| + 1
    ensures History(AfterSave(slot, t))[..|History(slot)|] == History(slot)
    ensures History(AfterSave(slot, t))[|History(slot)|] == t
  {
  }

  /** The browser's local storage, reduced to the one key this module uses. */
  class BrowserStorage {
    var bundleTransactions: Slot

    constructor (initial: Slot)
      ensures bundleTransactions == initial
    {
      bundleTransactions := initial;
    }
  }

  /** The adapter object. `transactions` is its in-memory copy of the history. */
  class PaystackPayment {
    const storage: BrowserStorage
    var transactions: seq<ClientTransaction>

    /** The constructor calls `init`, which loads the history. */
    constructor (storage: BrowserStorage)
      ensures this.storage == storage
      ensures transactions == History(storage.bundleTransactions)
    {
      this.storage := storage;
      transactions := History(storage.bundleTransactions);
    }

    /** `loadTransactionHistory`: reassigns `transactions` from the stored entry. */
    method LoadTransactionHistory()
      modifies this`transactions
      ensures transactions == History(storage.bundleTransactions)
    {
      match storage.bundleTransactions
      case Holds(entries) =>
        transactions := entries;
      case Absent =>
        transactions := [];
      case Unparsable =>
        transactions := [];
    }

    /** `saveTransaction`: pushes onto the stored list (not onto `transactions`). */
    method SaveTransaction(t: ClientTransaction)
      modifies storage
      ensures storage.bundleTransactions == AfterSave(old(storage.bundleTransactions), t)
      ensures !old(storage.bundleTransactions).Unparsable? ==>
                History(storage.bundleTransactions) == History(old(storage.bundleTransactions)) + [t]
    {
      match storage.bundleTransactions
      case Absent =>
        storage.bundleTransactions := Holds([t]);
      case Holds(existing) =>
        storage.bundleTransactions := Holds(existing + [t]);
      case Unparsable =>
    }

    /** `handlePaymentSuccess`: build the record, save it locally, send it to the
        backend and, as written, return it; in the page the callback that follows the
        send throws first (see `Storefront.CheckoutPage.HandlePaymentSuccess`), so the
        returned promise rejects instead. `backend` stands for the backend's answer to a payload
        (`None` when the request or the JSON decoding threw). The success alert and the
        page callback are not modelled here. */
    method HandlePaymentSuccess(response: GatewayCallback, d: PaymentData, timestamp: string,
                                backend: TransactionPayload -> Option<CreateResponse>)
      returns (t: ClientTransaction, sent: Option<CreateResponse>)
      requires d.bundle.Some?
      modifies storage
      ensures t == BuildTransaction(response, d, timestamp)
      ensures storage.bundleTransactions == AfterSave(old(storage.bundleTransactions), t)
      ensures sent == SendResult(backend(BackendPayload(t)))
      ensures transactions == old(transactions)
    {
      t := BuildTransaction(response, d, timestamp);
      SaveTransaction(t);
      sent := SendResult(backend(BackendPayload(t)));
    }
  }
}
