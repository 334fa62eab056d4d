/** The backend's write side over the document store: the create, verify and webhook
    route handlers of server.js, each a state transition of one store object. */
module Server {
  import opened Common
  import opened Transactions
  import Listing

  /** Why `transaction.save()` throws: the schema's `required` validator rejects a missing
      or empty reference, and the unique index rejects a reference already stored. */
  datatype SaveError = ReferenceRequired | DuplicateReference

  /** Answers of `POST /api/transactions`. */
  datatype CreateReply =
    | Created(reference: string)      // 201
    | MissingFields                   // 400, the store is not touched
    | SaveFailed(error: SaveError)    // 500
  {
    /** The status code: 201 exactly when the body reports success, 400 only for
        missing fields, 500 for every failed save. */
    function Code(): (c: int)
      ensures c == 201 <==> Json().success
      ensures c == 400 <==> MissingFields?
      ensures c == 500 <==> SaveFailed?
    {
      match this
      case Created(_) => 201
      case MissingFields => 400
      case SaveFailed(_) => 500
    }

    /** The JSON body; `success` is true only for 201. */
    function Json(): (body: CreateResponse)
      ensures body.success <==> Created?
    {
      match this
      case Created(_) => CreateResponse(true, "Transaction created successfully")
      case MissingFields => CreateResponse(false, "Missing required fields")
      case SaveFailed(_) => CreateResponse(false, "Error creating transaction")
    }
  }

  /** Answers of `GET /api/verify-payment/:reference`. */
  datatype VerifyReply =
    | Verified(transaction: Option<Record>)  // the gateway said success; null when no document matched
    | NotVerified(status: string)           // the gateway's status, verbatim
    | VerifyError                           // 500: the gateway request threw
  {
    /** The status code: a gateway that answered, whatever it said, gives 200; only a
        failed gateway request gives 500, and its body has no status. */
    function Code(): (c: int)
      ensures c == 500 <==> VerifyError?
      ensures c == 500 <==> Json().status.None?
      ensures c == 200 || c == 500
    {
      if VerifyError? then 500 else 200
    }

    function Json(): (body: VerifyResponse)
      ensures body.success <==> Verified?
    {
      match this
      case Verified(_) => VerifyResponse(true, Some("success"))
      case NotVerified(s) => VerifyResponse(false, Some(s))
      case VerifyError => VerifyResponse(false, None)
    }
  }

  /** A webhook delivery: `event.event` and `event.data` (absent when missing). */
  datatype WebhookEvent = WebhookEvent(event: string, data: Option<GatewayData>)

  /** Answers of `POST /api/webhooks/paystack`. */
  datatype WebhookReply =
    | Acknowledged   // 200
    | HandlerError   // 500: something in the handler threw
  {
    /** The status code: 200 for every delivery the handler finishes, 500 only when it throws. */
    function Code(): (c: int)
      ensures c == 200 <==> Acknowledged?
      ensures c == 500 <==> HandlerError?
    {
      if Acknowledged? then 200 else 500
    }
  }

  /** The create handler's decision: the three falsy-field checks first (the reference
      is not among them), then the two ways `save()` throws. */
  function Admit(m: Table, req: TransactionPayload): (reply: CreateReply)
    ensures reply.MissingFields? <==> req.phone == "" || req.amount == 0 || req.bundle.None?
    ensures reply.Created? <==>
      && req.phone != "" && req.amount != 0 && req.bundle.Some?
      && req.reference.Some? && req.reference.value != "" && req.reference.value !in m
    ensures reply.Created? ==> reply.reference == req.reference.value
    ensures reply == SaveFailed(ReferenceRequired) <==>
      && req.phone != "" && req.amount != 0 && req.bundle.Some?
      && (req.reference.None? || req.reference.value == "")
    ensures reply == SaveFailed(DuplicateReference) <==>
      && req.phone != "" && req.amount != 0 && req.bundle.Some?
      && req.reference.Some? && req.reference.value != "" && req.reference.value in m
  {
    if req.phone == "" || req.amount == 0 || req.bundle.None? then MissingFields
    else if req.reference.None? || req.reference.value == "" then SaveFailed(ReferenceRequired)
    else if req.reference.value in m then SaveFailed(DuplicateReference)
    else Created(req.reference.value)
  }

  /** The document `new Transaction({...})` builds: the given fields, currency `GHS`,
      status `pending`, the schema's defaults for the rest. */
  function NewRecord(req: TransactionPayload, now: int): (r: Record)
    requires req.reference.Some? && req.bundle.Some?
    ensures r.reference == req.reference.value && r.phone == req.phone
    ensures r.amount == req.amount && r.bundle == req.bundle.value
    ensures r.status == Pending && !r.paymentVerified && r.currency == "GHS"
    ensures r.gatewayResponse.None? && r.createdAt == now && r.updatedAt == now
  {
    Record(req.reference.value, req.phone, req.bundle.value, req.amount, "GHS", Pending, false, None, now, now)
  }

  /** A created document satisfies the store's invariant. */
  lemma NewRecordConsistent(m: Table, req: TransactionPayload, now: int)
    requires Admit(m, req).Created?
    ensures Consistent(req.reference.value, NewRecord(req, now))
  {
  }

  /** The document store behind the routes. */
  class TransactionStore {
    var table: Table

    ghost predicate Valid()
      reads this
    {
      TableConsistent(table)
    }

    constructor ()
      ensures Valid() && table == map[]
    {
      table := map[];
    }

    /** `POST /api/transactions`. On success exactly one document is added, under the
        given reference; on every failure the store is left as it was, so a reference
        already stored keeps its single document. Nothing stored is rewritten. */
    method Create(req: TransactionPayload, now: int) returns (reply: CreateReply)
      requires Valid()
      modifies this
      ensures Valid()
      ensures reply == Admit(old(table), req)
      ensures reply.Created? ==>
        && reply.reference !in old(table)
        && table == old(table)[reply.reference := NewRecord(req, now)]
        && |table| == |old(table)| + 1
      ensures !reply.Created? ==> table == old(table)
      ensures forall k :: k in old(table) ==> k in table && table[k] == old(table)[k]
    {
      if req.phone == "" || req.amount == 0 || req.bundle.None? {
        return MissingFields;
      }
      if req.reference.None? || req.reference.value == "" {
        return SaveFailed(ReferenceRequired);
      }
      var reference := req.reference.value;
      if reference in table {
        return SaveFailed(DuplicateReference);
      }
      var doc := Record(reference, req.phone, req.bundle.value, req.amount, "GHS", Pending, false, None, now, now);
      table := table[reference := doc];
      reply := Created(reference);
    }

    /** `GET /api/verify-payment/:reference`. `gateway` is the `data` of the gateway's
        verify answer, `None` when the request threw. Only a `success` status writes,
        and only the document with that reference. */
    method Verify(reference: string, gateway: Option<GatewayData>, now: int) returns (reply: VerifyReply)
      requires Valid()
      modifies this
      ensures Valid()
      ensures gateway.None? ==> reply == VerifyError && table == old(table)
      ensures gateway.Some? && gateway.value.status == "success" ==>
        && table == MarkPaid(old(table), reference, gateway.value, now)
        && reply == Verified(if reference in table then Some(table[reference]) else None)
      ensures gateway.Some? && gateway.value.status != "success" ==>
        && table == old(table)
        && reply == NotVerified(gateway.value.status)
      ensures reply.NotVerified? ==> reply.status != "success"
    {
      if gateway.None? {
        return VerifyError;
      }
      var data := gateway.value;
      if data.status == "success" {
        MarkPaidConsistent(table, reference, data, now);
        table := MarkPaid(table, reference, data, now);
        if reference in table {
          reply := Verified(Some(table[reference]));
        } else {
          reply := Verified(None);
        }
      } else {
        reply := NotVerified(data.status);
      }
    }

    /** `POST /api/webhooks/paystack`. Reading `event.data.reference` throws when `data` is
        missing. Only `charge.success` writes; for an unknown reference nothing is written
        and the null result is dereferenced, so the answer is 500, not an acknowledgement. */
    method Webhook(event: WebhookEvent, now: int) returns (reply: WebhookReply)
      requires Valid()
      modifies this
      ensures Valid()
      ensures event.data.None? ==> reply == HandlerError && table == old(table)
      ensures event.data.Some? && event.event != "charge.success" ==>
        reply == Acknowledged && table == old(table)
      ensures event.data.Some? && event.event == "charge.success" ==>
        && table == MarkPaid(old(table), event.data.value.reference, event.data.value, now)
        && (reply == Acknowledged <==> event.data.value.reference in old(table))
      ensures table.Keys == old(table).Keys
    {
      if event.data.None? {
        return HandlerError;
      }
      var data := event.data.value;
      if event.event == "charge.success" {
        MarkPaidConsistent(table, data.reference, data, now);
        table := MarkPaid(table, data.reference, data, now);
        if data.reference !in table {
          return HandlerError;
        }
      }
      reply := Acknowledged;
    }

    /** `GET /api/transactions`. */
    ghost function List(): (reply: Listing.ListReply)
      reads this
      requires Valid()
      ensures Listing.NewestFirst(reply.transactions)
      ensures reply.stats.total == |table| && reply.stats.failed == 0
    {
      Listing.ListStatsOfConsistentStore(table);
      Listing.ListTransactions(table)
    }

    /** `GET /api/transactions/phone/:phone`. */
    ghost function ByPhone(phone: string): (ts: seq<Record>)
      reads this
      ensures forall r :: r in ts <==> r in table.Values && r.phone == phone
      ensures forall r :: multiset(ts)[r] == if r.phone == phone then multiset(Listing.Documents(table))[r] else 0
      ensures Valid() ==> forall r :: r in table.Values && r.phone == phone ==> multiset(ts)[r] == 1
    {
      Listing.TransactionsByPhone(table, phone)
    }
  }
}
