/** Values that travel between the storefront, the payment adapter and the backend. */
module Common {

  /** A value that may be absent: JavaScript's `null`/`undefined` versus a present value. */
  datatype Option<+T> = None | Some(value: T)

  /** The copy of a catalog offer that a transaction keeps (id, name, data allowance,
      price in pesewas, validity). The client builds it in payment.js; the backend
      schema stores it as the `bundle` sub-document. */
  datatype BundleSnapshot = BundleSnapshot(id: int, name: string, data: string, price: int, validity: string)

  /** The JSON body of `POST /api/transactions`. A missing reference or bundle reads as
      `None`; a missing phone reads as the empty string and a missing amount as `0`,
      since each is falsy just as the value it stands for, so `!phone` and `!amount`
      (server.js:69) become `phone == ""` and `amount == 0`. */
  datatype TransactionPayload = TransactionPayload(
    reference: Option<string>,
    phone: string,
    amount: int,
    bundle: Option<BundleSnapshot>)

  /** The JSON body the backend answers `POST /api/transactions` with; the client reads `success`. */
  datatype CreateResponse = CreateResponse(success: bool, message: string)

  /** The JSON body of `GET /api/verify-payment/:reference`; the client reads `status`,
      which the error body leaves out. */
  datatype VerifyResponse = VerifyResponse(success: bool, status: Option<string>)
}
