/** The payment-gateway adapter: construction from the environment, the
    invoice payload with its defaults, the `{ success, data | error }` wrapper
    around every gateway call, the callback signature check and the
    normalisation of invoice callbacks into local donation statuses.  The
    adapter holds no state after construction, so it is a value here. */
module XenditService {
  import opened Common
  import opened Strings
  import opened DonationModel

  /** The adapter's configuration: the secret key and the optional callback token. */
  datatype Service = Service(apiKey: string, webhookToken: Option<string>)

  datatype Construction = Constructed(service: Service) | ConfigError(message: string)

  /** The constructor reads both settings and throws when the secret key is missing or empty. */
  function NewService(secretKey: Option<string>, webhookToken: Option<string>): (r: Construction)
    ensures r.Constructed? <==> Present(secretKey)
    ensures r.Constructed? ==> r.service.apiKey == secretKey.value && r.service.webhookToken == webhookToken
    ensures r.ConfigError? ==> r.message == "XENDIT_SECRET_KEY is required in environment variables"
  {
    if Present(secretKey) then Constructed(Service(secretKey.value, webhookToken))
    else ConfigError("XENDIT_SECRET_KEY is required in environment variables")
  }

  // ---------------------------------------------------------------- HTTP calls

  /** The body of a gateway error response. */
  datatype ErrorBody = ErrorBody(message: Option<string>)

  datatype ErrorResponse = ErrorResponse(status: int, data: Option<ErrorBody>)

  /** How an HTTP request to the gateway ends: a response body, or an error
      that may carry the gateway's response. */
  datatype HttpOutcome<+T> =
    | Delivered(data: T)
    | Errored(response: Option<ErrorResponse>, message: string)

  /** The error a wrapped call reports: the gateway's error body if it sent one, else the message. */
  datatype GatewayError = Body(body: ErrorBody) | Message(text: string)

  /** `{ success: true, data }` or `{ success: false, error }`. */
  datatype GatewayResult<+T> = Success(data: T) | Failure(error: GatewayError)

  /** What `createInvoice`, `getInvoice` and `createDisbursement` return: they
      catch every error, so a call never throws. */
  function Wrap<T>(h: HttpOutcome<T>): (r: GatewayResult<T>)
    ensures r.Success? <==> h.Delivered?
    ensures h.Delivered? ==> r.data == h.data
    ensures h.Errored? && h.response.Some? && h.response.value.data.Some? ==>
              r.error == Body(h.response.value.data.value)
    ensures h.Errored? && (h.response.None? || h.response.value.data.None?) ==>
              r.error == Message(h.message)
  {
    match h
    case Delivered(d) => Success(d)
    case Errored(resp, msg) =>
      if resp.Some? && resp.value.data.Some? then Failure(Body(resp.value.data.value))
      else Failure(Message(msg))
  }

  /** The part of a created invoice the donation handler reads. */
  datatype InvoiceData = InvoiceData(id: Option<string>, invoiceUrl: Option<string>, expiryDate: Option<string>)

  /** The part of a created disbursement the payout handler reads. */
  datatype DisbursementData = DisbursementData(id: Option<string>)

  /** The part of an expired invoice the cancellation handler reads. */
  datatype ExpireData = ExpireData(status: Option<string>)

  // ------------------------------------------------------------------ payloads

  /** The fields a caller hands to `createInvoice`; the two optional ones have defaults. */
  datatype InvoiceRequest = InvoiceRequest(
    externalId: string,
    amount: int,
    description: string,
    invoiceDuration: Option<int>,
    customerName: string,
    customerEmail: string,
    paymentMethods: Option<seq<string>>)

  datatype Customer = Customer(givenNames: string, email: string)

  datatype InvoiceItem = InvoiceItem(name: string, quantity: int, price: int)

  /** The JSON body posted to the invoice endpoint. */
  datatype InvoicePayload = InvoicePayload(
    externalId: string,
    amount: int,
    description: string,
    invoiceDuration: int,
    customer: Customer,
    paymentMethods: seq<string>,
    successRedirectUrl: string,
    failureRedirectUrl: string,
    currency: string,
    items: seq<InvoiceItem>)

  /** Invoices last 24 hours unless the caller says otherwise. */
  const DefaultInvoiceDuration: int := 86400

  /** The payload `createInvoice` builds; `frontendUrl` is the configured front-end address. */
  function InvoicePayloadFor(req: InvoiceRequest, frontendUrl: string): (p: InvoicePayload)
    ensures p.invoiceDuration == (if req.invoiceDuration.Some? then req.invoiceDuration.value else DefaultInvoiceDuration)
    ensures p.paymentMethods == (if req.paymentMethods.Some? then req.paymentMethods.value else ["QRIS"])
    ensures p.currency == "IDR"
    ensures p.items == [InvoiceItem(req.description, 1, req.amount)]
    ensures p.customer == Customer(req.customerName, req.customerEmail)
    ensures p.externalId == req.externalId && p.amount == req.amount && p.description == req.description
    ensures p.successRedirectUrl == frontendUrl + "/donation/success"
    ensures p.failureRedirectUrl == frontendUrl + "/donation/failed"
  {
    var duration := match req.invoiceDuration case Some(d) => d case None => DefaultInvoiceDuration;
    var methods := match req.paymentMethods case Some(m) => m case None => ["QRIS"];
    InvoicePayload(
      req.externalId, req.amount, req.description, duration,
      Customer(req.customerName, req.customerEmail), methods,
      frontendUrl + "/donation/success", frontendUrl + "/donation/failed",
      "IDR", [InvoiceItem(req.description, 1, req.amount)])
  }

  /** The six fields `createDisbursement` forwards, unchanged, as the request body. */
  datatype DisbursementRequest = DisbursementRequest(
    externalId: string,
    amount: Option<int>,
    bankCode: Option<string>,
    accountNumber: Option<string>,
    accountHolderName: Option<string>,
    description: string)

  // ------------------------------------------------------------------ callbacks

  /** `verifyWebhookSignature`: with no token configured every callback passes;
      otherwise the hex HMAC-SHA256 of the raw body under the token must equal
      the signature.  `hmacHex(key, text)` stands for the digest. */
  function VerifyWebhookSignature(svc: Service, rawBody: string, signature: Option<string>,
                                  hmacHex: (string, string) -> string): (ok: bool)
    ensures !Present(svc.webhookToken) ==> ok
    ensures Present(svc.webhookToken) ==> (ok <==> signature == Some(hmacHex(svc.webhookToken.value, rawBody)))
  {
    if !Present(svc.webhookToken) then true
    else signature == Some(hmacHex(svc.webhookToken.value, rawBody))
  }

  /** With a token configured, a callback without a signature is refused. */
  lemma UnsignedCallbackRefused(svc: Service, rawBody: string, hmacHex: (string, string) -> string)
    requires Present(svc.webhookToken)
    ensures !VerifyWebhookSignature(svc, rawBody, None, hmacHex)
  {
  }

  /** The gateway's invoice status text mapped to a local donation status. */
  function NormaliseStatus(status: Option<string>): (s: DonationStatus)
    ensures s == Paid <==> status == Some("PAID")
    ensures s == Expired <==> status == Some("EXPIRED")
    ensures s == Pending <==> status == Some("PENDING")
    ensures s == Failed <==> status !in {Some("PAID"), Some("EXPIRED"), Some("PENDING")}
  {
    match status
    case Some("PAID") => Paid
    case Some("EXPIRED") => Expired
    case Some("PENDING") => Pending
    case _ => Failed
  }

  /** No callback ever yields `cancelled`: only a client cancellation does. */
  lemma NormaliseNeverCancels(status: Option<string>)
    ensures NormaliseStatus(status) != Cancelled
  {
  }

  /** The normalised form of an invoice callback. */
  datatype InvoiceEvent = InvoiceEvent(
    paymentStatus: DonationStatus,
    externalId: Option<string>,
    invoiceId: Option<string>,
    paidAt: Option<string>,
    webhookData: InvoiceCallback)

  /** `processWebhookData`: status normalised, `external_id` passed through,
      `invoice_id` taken from `id`, `paid_at` kept only when truthy, and the
      payload itself kept unmodified. */
  function ProcessWebhookData(body: InvoiceCallback): (e: InvoiceEvent)
    ensures e.paymentStatus == NormaliseStatus(body.status)
    ensures e.externalId == body.externalId && e.invoiceId == body.id
    ensures e.paidAt.None? <==> !Present(body.paidAt)
    ensures e.paidAt.Some? ==> e.paidAt == body.paidAt
    ensures e.webhookData == body
  {
    InvoiceEvent(
      NormaliseStatus(body.status), body.externalId, body.id,
      if Present(body.paidAt) then body.paidAt else None,
      body)
  }
}
