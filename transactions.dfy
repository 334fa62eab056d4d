/** The backend's transaction document (`transactionSchema` in server.js) and the
    success update that the verify and webhook handlers both apply. */
module Transactions {
  import opened Common

  /** The schema's `status` field, narrowed to the three values its comment names. */
  datatype Status = Pending | Success | Failed

  /** The gateway's `data` object (a verify response or a webhook event's payload). Only
      the fields the handlers read are modelled; it is stored as the audit payload. */
  datatype GatewayData = GatewayData(reference: string, status: string)

  /** One stored document. Times are milliseconds, passed in by the caller. */
  datatype Record = Record(
    reference: string,
    phone: string,
    bundle: BundleSnapshot,
    amount: int,
    currency: string,
    status: Status,
    paymentVerified: bool,
    gatewayResponse: Option<GatewayData>,
    createdAt: int,
    updatedAt: int)

  /** The document store: documents keyed by their unique `reference`. */
  type Table = map<string, Record>

  /** What every stored document satisfies: it sits under its own reference, which is
      non-empty; the currency is the cedi; `failed` never occurs; and a document is
      verified exactly when it is successful, because only the success update writes
      either field. */
  ghost predicate Consistent(key: string, r: Record) {
    && r.reference == key
    && key != ""
    && r.currency == "GHS"
    && r.status != Failed
    && (r.paymentVerified <==> r.status == Success)
  }

  ghost predicate TableConsistent(m: Table) {
    forall k :: k in m ==> Consistent(k, m[k])
  }

  /** The fields a document is identified by and that no handler rewrites. */
  ghost predicate SameIdentity(r: Record, r': Record) {
    && r'.reference == r.reference
    && r'.phone == r.phone
    && r'.bundle == r.bundle
    && r'.amount == r.amount
    && r'.currency == r.currency
    && r'.createdAt == r.createdAt
  }

  /** The update both handlers send to `findOneAndUpdate`: status `success`,
      `paymentVerified` true, the gateway payload attached, `updatedAt` refreshed. */
  function ApplySuccess(r: Record, payload: GatewayData, now: int): (r': Record)
    ensures SameIdentity(r, r')
    ensures r'.status == Success && r'.paymentVerified
    ensures r'.gatewayResponse == Some(payload) && r'.updatedAt == now
  {
    r.(status := Success, paymentVerified := true, gatewayResponse := Some(payload), updatedAt := now)
  }

  /** `findOneAndUpdate({reference}, update)` without upsert: the matching document
      gets the success update; with no match nothing is written. */
  function MarkPaid(m: Table, reference: string, payload: GatewayData, now: int): (m': Table)
    ensures m'.Keys == m.Keys
    ensures forall k :: k in m && k != reference ==> m'[k] == m[k]
    ensures reference in m ==> m'[reference] == ApplySuccess(m[reference], payload, now)
  {
    if reference in m then m[reference := ApplySuccess(m[reference], payload, now)] else m
  }

  /** The success update keeps the store's invariant. */
  lemma MarkPaidConsistent(m: Table, reference: string, payload: GatewayData, now: int)
    requires TableConsistent(m)
    ensures TableConsistent(MarkPaid(m, reference, payload, now))
  {
  }

  /** Status only moves forward: a successful document stays successful, a pending
      one becomes successful or stays pending, and none becomes `failed`. */
  lemma MarkPaidMonotone(m: Table, reference: string, payload: GatewayData, now: int, k: string)
    requires k in m
    ensures var m' := MarkPaid(m, reference, payload, now);
      && k in m'
      && (m[k].status == Success ==> m'[k].status == Success)
      && (m'[k].status == Failed ==> m[k].status == Failed)
      && SameIdentity(m[k], m'[k])
  {
  }

  /** Applying the same success update twice equals applying it once at the later time:
      the second application changes nothing but `updatedAt`. */
  lemma MarkPaidIdempotent(m: Table, reference: string, payload: GatewayData, t1: int, t2: int)
    ensures MarkPaid(MarkPaid(m, reference, payload, t1), reference, payload, t2)
         == MarkPaid(m, reference, payload, t2)
    ensures reference in m ==>
      MarkPaid(MarkPaid(m, reference, payload, t1), reference, payload, t2)
        == MarkPaid(m, reference, payload, t1)[reference := MarkPaid(m, reference, payload, t1)[reference].(updatedAt := t2)]
  {
  }
}
