/** Properties that connect the page, the payment adapter and the backend. */
module EndToEnd {
  import opened Common
  import Catalog
  import Payment
  import Storefront
  import opened Transactions
  import Server

  /** A purchase the page accepts and the gateway confirms reaches the backend with every
      required field: the create handler never answers 400 to it, and when the reference
      is new it stores a pending, unverified document holding exactly the reference the
      gateway reported, the trimmed phone, the offer's price and a copy of the offer. */
  lemma PaidCheckoutIsStored(m: Table, phoneInput: string, b: Catalog.Bundle,
                             response: Payment.GatewayCallback, timestamp: string, now: int)
    requires b in Catalog.Bundles && |Storefront.Trim(phoneInput)| >= 10
    ensures var d := Storefront.CheckoutData(Storefront.Trim(phoneInput), b);
      var req := Payment.BackendPayload(Payment.BuildTransaction(response, d, timestamp));
      && !Server.Admit(m, req).MissingFields?
      && (response.reference != "" && response.reference !in m ==>
            && Server.Admit(m, req) == Server.Created(response.reference)
            && Server.NewRecord(req, now) == Record(response.reference, Storefront.Trim(phoneInput),
                 b.Snapshot(), b.price, "GHS", Pending, false, None, now, now))
      && (response.reference != "" && response.reference in m ==>
            Server.Admit(m, req) == Server.SaveFailed(Server.DuplicateReference))
      && (response.reference == "" ==> Server.Admit(m, req) == Server.SaveFailed(Server.ReferenceRequired))
  {
    Catalog.CatalogEntriesPayable(b);
    Storefront.AcceptedCheckoutIsValid(phoneInput, b);
  }

  /** The adapter's `sendTransactionToBackend` resolves to the body exactly when the
      backend created the document. */
  lemma SendSucceedsExactlyWhenCreated(reply: Server.CreateReply)
    ensures Payment.SendResult(Some(reply.Json())).Some? <==> reply.Created?
    ensures Payment.SendResult(None).None?
  {
  }

  /** The adapter's `verifyPayment` is true exactly when the backend took its success
      branch; a non-success status is the gateway's and never reads as "success". */
  lemma ClientVerifyMatchesServer(reply: Server.VerifyReply)
    requires reply.NotVerified? ==> reply.status != "success"
    ensures Payment.VerifyPayment(Some(reply.Json())) <==> reply.Verified?
  {
  }
}
