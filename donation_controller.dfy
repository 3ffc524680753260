/** The donation handlers: creating a donation behind a gateway invoice, the
    invoice callback that overwrites a donation's status and credits its
    campaign, cancellation of a pending donation, and the two read-only
    views that hide anonymous donors. */
module DonationController {
  import opened Common
  import opened Strings
  import opened DonationModel
  import opened CampaignModel
  import opened UserModel
  import opened XenditService
  import opened Store

  // ================================================================ creation

  /** The body of a create request; every field may be missing. */
  datatype DonationRequest = DonationRequest(
    campaignId: Option<Id>,
    amount: Option<int>,
    message: Option<string>,
    paymentMethod: Option<string>,
    isAnonymous: Option<bool>)

  /** What creation did: the database after it, the reply, and the invoice
      payload posted to the gateway, if the handler got that far. */
  datatype CreateOutcome = CreateOutcome(db: Db, reply: Reply, invoice: Option<InvoicePayload>)

  /** The payer name the gateway shows for an anonymous donation. */
  const AnonymousName: string := "Anonymous Donatur"

  /** `is_anonymous = false`: the destructuring default. */
  function AnonymousFlag(req: DonationRequest): bool
  {
    match req.isAnonymous
    case Some(b) => b
    case None => false
  }

  /** The gateway correlation key: the donation id, an underscore, the campaign id. */
  function ExternalIdFor(donationId: string, campaignId: Id): string
  {
    donationId + "_" + campaignId
  }

  /** The invoice fields the handler passes to `createInvoice`. */
  function InvoiceRequestFor(externalId: string, amount: int, campaign: Campaign, donor: User,
                             anonymous: bool, paymentMethod: string): InvoiceRequest
  {
    InvoiceRequest(
      externalId, amount, "Donation for: " + campaign.title, None,
      if anonymous then AnonymousName else donor.fullname,
      donor.email, Some([ToUpper(paymentMethod)]))
  }

  /** The fields `createDonation` passes to `Donation.create`:
      `message || ""`, the lower-cased method, and the gateway's invoice data.
      Only called once the handler's first check found the three fields present. */
  function DraftFor(req: DonationRequest, donor: Id, donationId: string, data: InvoiceData): Draft
    requires req.campaignId.Some? && req.amount.Some? && req.paymentMethod.Some?
  {
    Draft(
      req.campaignId.value, donor, req.amount.value,
      if Present(req.message) then req.message.value else "",
      donationId, ToLower(req.paymentMethod.value), data.id, data.invoiceUrl,
      ExternalIdFor(donationId, req.campaignId.value), data.expiryDate, AnonymousFlag(req))
  }

  /** `createDonation`: validation, campaign and donor lookups, the invoice
      call, then `Donation.create`.  `donationId` is the freshly generated id
      and `gateway` how the invoice request ended. */
  function CreateDonationStep(db: Db, donor: Id, req: DonationRequest, donationId: string,
                              frontendUrl: string, gateway: HttpOutcome<InvoiceData>): (r: CreateOutcome)
    // the only possible change is one donation appended, and only on success
    ensures r.db == db || (Succeeded(r.reply) && |r.db.donations| == |db.donations| + 1
                           && r.db == db.(donations := db.donations + [r.db.donations[|db.donations|]]))
    ensures Succeeded(r.reply) ==> r.db != db && r.invoice.Some? && gateway.Delivered?
  {
    if !Present(req.campaignId) || !Truthy(req.amount) || !Present(req.paymentMethod) then
      CreateOutcome(db, Raise(400, "Campaign ID, amount, and payment method are required"), None)
    else if req.amount.value < MinAmount then
      CreateOutcome(db, Raise(400, "Minimum donation amount is IDR 1,000"), None)
    else
      var campaignId, amount, pm := req.campaignId.value, req.amount.value, req.paymentMethod.value;
      match FindCampaign(db.campaigns, campaignId)
      case None => CreateOutcome(db, Raise(404, "Campaign not found"), None)
      case Some(c) =>
        if db.campaigns[c].status == Completed then
          CreateOutcome(db, Raise(400, "Campaign is already completed"), None)
        else
          match FindUser(db.users, donor)
          case None => CreateOutcome(db, Raise(404, "Donatur not found"), None)
          case Some(u) =>
            InvoiceStage(db, donor, req, donationId, frontendUrl, db.campaigns[c], db.users[u], gateway)
  }

  /** The invoice `createDonation` posts for a request that passed its checks. */
  function PayloadFor(req: DonationRequest, donationId: string, frontendUrl: string,
                      campaign: Campaign, donorDoc: User): InvoicePayload
    requires req.campaignId.Some? && req.amount.Some? && req.paymentMethod.Some?
  {
    InvoicePayloadFor(
      InvoiceRequestFor(ExternalIdFor(donationId, req.campaignId.value), req.amount.value, campaign,
                        donorDoc, AnonymousFlag(req), req.paymentMethod.value),
      frontendUrl)
  }

  /** `createDonation`'s `createInvoice` call, once every check has passed. */
  function InvoiceStage(db: Db, donor: Id, req: DonationRequest, donationId: string, frontendUrl: string,
                        campaign: Campaign, donorDoc: User, gateway: HttpOutcome<InvoiceData>): (r: CreateOutcome)
    requires req.campaignId.Some? && req.amount.Some? && req.paymentMethod.Some?
    ensures r.invoice == Some(PayloadFor(req, donationId, frontendUrl, campaign, donorDoc))
    ensures gateway.Errored? ==> r.db == db && r.reply == Raise(500, "Failed to create payment invoice")
    ensures gateway.Delivered? ==>
              SaveStage(db, DraftFor(req, donor, donationId, gateway.data), r.invoice.value) == r
  {
    var payload := PayloadFor(req, donationId, frontendUrl, campaign, donorDoc);
    match Wrap(gateway)
    case Failure(_) => CreateOutcome(db, Raise(500, "Failed to create payment invoice"), Some(payload))
    case Success(data) => SaveStage(db, DraftFor(req, donor, donationId, data), payload)
  }

  /** `createDonation`'s `Donation.create`, after the invoice was created. */
  function SaveStage(db: Db, draft: Draft, payload: InvoicePayload): (r: CreateOutcome)
    ensures r.invoice == Some(payload)
    ensures Succeeded(r.reply) <==> Create(draft, db.donations).Stored?
    ensures Succeeded(r.reply) ==> r.db == db.(donations := db.donations + [Create(draft, db.donations).doc])
    ensures !Succeeded(r.reply) ==> r.db == db && r.reply == Crash(Create(draft, db.donations).fault)
  {
    match Create(draft, db.donations)
    case Rejected(f) => CreateOutcome(db, Crash(f), Some(payload))
    case Stored(d) =>
      CreateOutcome(db.(donations := db.donations + [d]), Respond(200, "Donation created successfully"), Some(payload))
  }

  /** `createDonation` as the handler runs it, step by step against the live database. */
  method CreateDonation(ledger: Ledger, donor: Id, req: DonationRequest, donationId: string,
                        frontendUrl: string, gateway: HttpOutcome<InvoiceData>)
    returns (reply: Reply, invoice: Option<InvoicePayload>)
    modifies ledger
    ensures var r := CreateDonationStep(old(ledger.View()), donor, req, donationId, frontendUrl, gateway);
            ledger.View() == r.db && reply == r.reply && invoice == r.invoice
  {
    invoice := None;
    if !Present(req.campaignId) || !Truthy(req.amount) || !Present(req.paymentMethod) {
      reply := Raise(400, "Campaign ID, amount, and payment method are required");
      return;
    }
    if req.amount.value < MinAmount {
      reply := Raise(400, "Minimum donation amount is IDR 1,000");
      return;
    }
    var c := FindCampaign(ledger.campaigns, req.campaignId.value);
    if c.None? {
      reply := Raise(404, "Campaign not found");
      return;
    }
    var campaign := ledger.campaigns[c.value];
    if campaign.status == Completed {
      reply := Raise(400, "Campaign is already completed");
      return;
    }
    var u := FindUser(ledger.users, donor);
    if u.None? {
      reply := Raise(404, "Donatur not found");
      return;
    }
    var donorDoc := ledger.users[u.value];
    assert CreateDonationStep(ledger.View(), donor, req, donationId, frontendUrl, gateway)
        == InvoiceStage(ledger.View(), donor, req, donationId, frontendUrl, campaign, donorDoc, gateway);
    reply, invoice := InvoiceAndSave(ledger, donor, req, donationId, frontendUrl, campaign, donorDoc, gateway);
  }

  /** The end of `createDonation` as the handler runs it: the invoice call, then the save. */
  method InvoiceAndSave(ledger: Ledger, donor: Id, req: DonationRequest, donationId: string, frontendUrl: string,
                        campaign: Campaign, donorDoc: User, gateway: HttpOutcome<InvoiceData>)
    returns (reply: Reply, invoice: Option<InvoicePayload>)
    requires req.campaignId.Some? && req.amount.Some? && req.paymentMethod.Some?
    modifies ledger
    ensures var r := InvoiceStage(old(ledger.View()), donor, req, donationId, frontendUrl, campaign, donorDoc, gateway);
            ledger.View() == r.db && reply == r.reply && invoice == r.invoice
  {
    invoice := Some(PayloadFor(req, donationId, frontendUrl, campaign, donorDoc));
    var response := Wrap(gateway);
    if response.Failure? {
      reply := Raise(500, "Failed to create payment invoice");
      return;
    }
    var saved := Create(DraftFor(req, donor, donationId, response.data), ledger.donations);
    if saved.Rejected? {
      reply := Crash(saved.fault);
      return;
    }
    ledger.donations := ledger.donations + [saved.doc];
    reply := Respond(200, "Donation created successfully");
  }

  /** Every check of `createDonation` (fields, amount, campaign, donor)
      happens before the gateway is called and changes nothing; a failed invoice call creates nothing either. */
  lemma CreateRejections(db: Db, donor: Id, req: DonationRequest, donationId: string,
                         frontendUrl: string, gateway: HttpOutcome<InvoiceData>)
    ensures var r := CreateDonationStep(db, donor, req, donationId, frontendUrl, gateway);
            && (!Present(req.campaignId) || !Truthy(req.amount) || !Present(req.paymentMethod) ==>
                  r == CreateOutcome(db, Raise(400, "Campaign ID, amount, and payment method are required"), None))
            && (Truthy(req.amount) && req.amount.value < MinAmount ==> r.invoice.None? && r.db == db)
            && (req.campaignId.Some? && FindCampaign(db.campaigns, req.campaignId.value).None? ==>
                  r.invoice.None? && r.db == db)
            && (FindUser(db.users, donor).None? ==> r.invoice.None? && r.db == db)
            && (req.campaignId.Some? && FindCampaign(db.campaigns, req.campaignId.value).Some?
                && db.campaigns[FindCampaign(db.campaigns, req.campaignId.value).value].status == Completed ==>
                  r.invoice.None? && r.db == db)
            && (r.invoice.Some? && gateway.Errored? ==>
                  r == CreateOutcome(db, Raise(500, "Failed to create payment invoice"), r.invoice))
    // each later refusal, once the checks before it have passed, with its code and message
    ensures var r := CreateDonationStep(db, donor, req, donationId, frontendUrl, gateway);
            FieldsGiven(req) && req.amount.value < MinAmount ==>
              r == CreateOutcome(db, Raise(400, "Minimum donation amount is IDR 1,000"), None)
    ensures var r := CreateDonationStep(db, donor, req, donationId, frontendUrl, gateway);
            FieldsGiven(req) && req.amount.value >= MinAmount ==>
              var c := FindCampaign(db.campaigns, req.campaignId.value);
              && (c.None? ==> r == CreateOutcome(db, Raise(404, "Campaign not found"), None))
              && (c.Some? && db.campaigns[c.value].status == Completed ==>
                    r == CreateOutcome(db, Raise(400, "Campaign is already completed"), None))
              && (c.Some? && db.campaigns[c.value].status != Completed && FindUser(db.users, donor).None? ==>
                    r == CreateOutcome(db, Raise(404, "Donatur not found"), None))
  {
  }

  /** The first check of `createDonation` passes: campaign id, amount and
      payment method are all given and truthy. */
  predicate FieldsGiven(req: DonationRequest)
  {
    Present(req.campaignId) && Truthy(req.amount) && Present(req.paymentMethod)
  }

  /** A created donation is pending and unpaid, carries the external id
      `donation_id + "_" + campaign_id`, the gateway's invoice id, URL and
      expiry, the message (or ""), the lower-cased method and the anonymity
      flag, and satisfies the schema; the invoice posted for it carries the
      same external id and one item at the donation's amount. */
  lemma CreatedDonation(db: Db, donor: Id, req: DonationRequest, donationId: string,
                        frontendUrl: string, gateway: HttpOutcome<InvoiceData>)
    requires Succeeded(CreateDonationStep(db, donor, req, donationId, frontendUrl, gateway).reply)
    ensures var r := CreateDonationStep(db, donor, req, donationId, frontendUrl, gateway);
            var d := r.db.donations[|db.donations|];
            && gateway.Delivered? && req.campaignId.Some? && req.amount.Some? && req.paymentMethod.Some?
            && d.status == Pending && d.paidAt.None?
            && d.externalId == donationId + "_" + req.campaignId.value
            && d.donationId == donationId && d.campaignId == req.campaignId.value && d.donorId == donor
            && d.amount == req.amount.value && d.amount >= MinAmount
            && Some(d.invoiceId) == gateway.data.id && Some(d.invoiceUrl) == gateway.data.invoiceUrl
            && Some(d.expiresAt) == gateway.data.expiryDate
            && d.message == Trim(if Present(req.message) then req.message.value else "")
            && d.paymentMethod == ToLower(req.paymentMethod.value) == SupportedMethod
            && d.isAnonymous == AnonymousFlag(req)
            && Valid(d)
            && r.invoice.value.externalId == d.externalId
            && r.invoice.value.items == [InvoiceItem(r.invoice.value.description, 1, d.amount)]
            && r.invoice.value.currency == "IDR"
            && r.invoice.value.invoiceDuration == DefaultInvoiceDuration
  {
    CreateSuccessPath(db, donor, req, donationId, frontendUrl, gateway);
    var draft := DraftFor(req, donor, donationId, gateway.data);
    CreatedRecord(draft, db.donations);
    var r := CreateDonationStep(db, donor, req, donationId, frontendUrl, gateway);
    assert r.db.donations[|db.donations|] == Create(draft, db.donations).doc;
  }

  /** The document `Donation.create` stores for a draft it admits. */
  lemma CreatedRecord(draft: Draft, stored: seq<Donation>)
    requires Create(draft, stored).Stored?
    ensures var d := Create(draft, stored).doc;
            && d.status == Pending && d.paidAt.None?
            && d.externalId == draft.externalId && d.donationId == draft.donationId
            && d.campaignId == draft.campaignId && d.donorId == draft.donorId
            && d.amount == draft.amount && d.amount >= MinAmount
            && Some(d.invoiceId) == draft.invoiceId && Some(d.invoiceUrl) == draft.invoiceUrl
            && Some(d.expiresAt) == draft.expiresAt
            && d.message == Trim(draft.message)
            && d.paymentMethod == draft.paymentMethod == SupportedMethod
            && d.isAnonymous == draft.isAnonymous
            && Valid(d)
  {
  }

  /** A successful creation passed every check, got its invoice delivered,
      stored the draft built from the request and the gateway's data, and
      posted the payload for the request's campaign and donor. */
  lemma CreateSuccessPath(db: Db, donor: Id, req: DonationRequest, donationId: string,
                          frontendUrl: string, gateway: HttpOutcome<InvoiceData>)
    requires Succeeded(CreateDonationStep(db, donor, req, donationId, frontendUrl, gateway).reply)
    ensures req.campaignId.Some? && req.amount.Some? && req.paymentMethod.Some? && gateway.Delivered?
    ensures FindCampaign(db.campaigns, req.campaignId.value).Some? && FindUser(db.users, donor).Some?
    ensures var r := CreateDonationStep(db, donor, req, donationId, frontendUrl, gateway);
            var c := FindCampaign(db.campaigns, req.campaignId.value).value;
            var u := FindUser(db.users, donor).value;
            var draft := DraftFor(req, donor, donationId, gateway.data);
            && Create(draft, db.donations).Stored?
            && r.db.donations == db.donations + [Create(draft, db.donations).doc]
            && r.invoice == Some(PayloadFor(req, donationId, frontendUrl, db.campaigns[c], db.users[u]))
  {
    CreateReachesInvoice(db, donor, req, donationId, frontendUrl, gateway);
  }

  /** A successful creation passed the field, amount, campaign and donor
      checks and is decided by the invoice stage for that campaign and donor. */
  lemma CreateReachesInvoice(db: Db, donor: Id, req: DonationRequest, donationId: string,
                             frontendUrl: string, gateway: HttpOutcome<InvoiceData>)
    requires Succeeded(CreateDonationStep(db, donor, req, donationId, frontendUrl, gateway).reply)
    ensures req.campaignId.Some? && req.amount.Some? && req.paymentMethod.Some?
    ensures req.amount.value >= MinAmount
    ensures FindCampaign(db.campaigns, req.campaignId.value).Some? && FindUser(db.users, donor).Some?
    ensures var c := FindCampaign(db.campaigns, req.campaignId.value).value;
            var u := FindUser(db.users, donor).value;
            && db.campaigns[c].status != Completed
            && CreateDonationStep(db, donor, req, donationId, frontendUrl, gateway)
               == InvoiceStage(db, donor, req, donationId, frontendUrl, db.campaigns[c], db.users[u], gateway)
  {
  }

  /** The payer name sent to the gateway is the anonymous one for an anonymous
      donation and the donor's full name otherwise. */
  lemma PayerName(db: Db, donor: Id, req: DonationRequest, donationId: string,
                  frontendUrl: string, gateway: HttpOutcome<InvoiceData>)
    requires CreateDonationStep(db, donor, req, donationId, frontendUrl, gateway).invoice.Some?
    ensures var p := CreateDonationStep(db, donor, req, donationId, frontendUrl, gateway).invoice.value;
            var u := FindUser(db.users, donor);
            && u.Some?
            && (AnonymousFlag(req) ==> p.customer.givenNames == AnonymousName)
            && (!AnonymousFlag(req) ==> p.customer.givenNames == db.users[u.value].fullname)
            && p.customer.email == db.users[u.value].email
  {
  }

  /** A payment method other than `qris` passes every check of the handler and
      is refused only by `Donation.create`, after the invoice was created. */
  lemma UnsupportedMethodRefusedAfterInvoice(db: Db, donor: Id, req: DonationRequest, donationId: string,
                                             frontendUrl: string, data: InvoiceData)
    requires Present(req.campaignId) && Truthy(req.amount) && Present(req.paymentMethod)
    requires req.amount.value >= MinAmount
    requires FindCampaign(db.campaigns, req.campaignId.value).Some?
    requires db.campaigns[FindCampaign(db.campaigns, req.campaignId.value).value].status != Completed
    requires FindUser(db.users, donor).Some?
    requires ToLower(req.paymentMethod.value) != SupportedMethod
    ensures var r := CreateDonationStep(db, donor, req, donationId, frontendUrl, Delivered(data));
            r.invoice.Some? && r.reply == Crash(ValidationError) && r.db == db
  {
  }

  // ============================================================ invoice callback

  /** The `PAID` branch of `handleXenditWebhook`: credit the donation's
      amount and mark the campaign completed once the total reaches the goal.
      A completed campaign is never set back. */
  function Credit(c: Campaign, amount: int): (r: Campaign)
    ensures r.currentAmount == c.currentAmount + amount
    ensures r.status == (if c.currentAmount + amount >= c.goalAmount then Completed else c.status)
    ensures r.(currentAmount := c.currentAmount, status := c.status) == c
  {
    var credited := c.(currentAmount := c.currentAmount + amount);
    if credited.currentAmount >= credited.goalAmount then credited.(status := Completed) else credited
  }

  /** `handleXenditWebhook`.  `configuredToken` is the configured callback
      token and `callbackToken` the `x-callback-token` header.  There is no
      guard on the donation's current status. */
  function XenditWebhookStep(db: Db, configuredToken: Option<string>, callbackToken: Option<string>,
                             body: InvoiceCallback): (r: Step)
    ensures callbackToken != configuredToken ==> r == Step(db, Respond(400, "Invalid webhook token"))
    ensures callbackToken == configuredToken && FindDonationByExternalId(db.donations, body.externalId).None? ==>
              r == Step(db, Respond(404, "Donation not found"))
    ensures r.db.users == db.users && r.db.payouts == db.payouts && r.db.bankAccounts == db.bankAccounts
    ensures |r.db.donations| == |db.donations| && |r.db.campaigns| == |db.campaigns|
    // a completed campaign stays completed
    ensures forall i :: 0 <= i < |db.campaigns| && db.campaigns[i].status == Completed ==>
              r.db.campaigns[i].status == Completed
  {
    if callbackToken != configuredToken then Step(db, Respond(400, "Invalid webhook token"))
    else
      var event := ProcessWebhookData(body);
      match FindDonationByExternalId(db.donations, event.externalId)
      case None => Step(db, Respond(404, "Donation not found"))
      case Some(k) =>
        var d := db.donations[k].(status := event.paymentStatus, webhookData := Some(event.webhookData));
        if event.paymentStatus == Paid then
          var campaigns :=
            match FindCampaign(db.campaigns, d.campaignId)
            case None => db.campaigns
            case Some(c) => db.campaigns[c := Credit(db.campaigns[c], d.amount)];
          Step(db.(campaigns := campaigns, donations := db.donations[k := d.(paidAt := event.paidAt)]),
               Respond(200, "Webhook processed successfully"))
        else
          Step(db.(donations := db.donations[k := d]), Respond(200, "Webhook processed successfully"))
  }

  /** `handleXenditWebhook` as the handler runs it: the token check, the lookup,
      the field-by-field update of the donation, the campaign save, then the
      donation save. */
  method HandleXenditWebhook(ledger: Ledger, configuredToken: Option<string>, callbackToken: Option<string>,
                             body: InvoiceCallback) returns (reply: Reply)
    modifies ledger
    ensures var r := XenditWebhookStep(old(ledger.View()), configuredToken, callbackToken, body);
            ledger.View() == r.db && reply == r.reply
  {
    if callbackToken != configuredToken {
      return Respond(400, "Invalid webhook token");
    }
    var event := ProcessWebhookData(body);
    var k := FindDonationByExternalId(ledger.donations, event.externalId);
    if k.None? {
      return Respond(404, "Donation not found");
    }
    var donation := ledger.donations[k.value];
    donation := donation.(status := event.paymentStatus);
    donation := donation.(webhookData := Some(event.webhookData));
    if event.paymentStatus == Paid {
      donation := donation.(paidAt := event.paidAt);
      var c := FindCampaign(ledger.campaigns, donation.campaignId);
      if c.Some? {
        var campaign := ledger.campaigns[c.value];
        campaign := campaign.(currentAmount := campaign.currentAmount + donation.amount);
        if campaign.currentAmount >= campaign.goalAmount {
          campaign := campaign.(status := Completed);
        }
        ledger.campaigns := ledger.campaigns[c.value := campaign];
      }
    }
    ledger.donations := ledger.donations[k.value := donation];
    reply := Respond(200, "Webhook processed successfully");
  }

  /** An authenticated callback for a known donation overwrites its status
      with the normalised one whatever the status was before, stores the
      payload, and changes no other donation. */
  lemma WebhookOverwritesStatus(db: Db, token: Option<string>, body: InvoiceCallback)
    requires FindDonationByExternalId(db.donations, body.externalId).Some?
    ensures var k := FindDonationByExternalId(db.donations, body.externalId).value;
            var r := XenditWebhookStep(db, token, token, body);
            && r.reply == Respond(200, "Webhook processed successfully")
            && r.db.donations[k].status == NormaliseStatus(body.status)
            && r.db.donations[k].webhookData == Some(body)
            && r.db.donations[k].(status := db.donations[k].status, webhookData := db.donations[k].webhookData,
                                  paidAt := db.donations[k].paidAt) == db.donations[k]
            && (forall j :: 0 <= j < |db.donations| && j != k ==> r.db.donations[j] == db.donations[j])
  {
  }

  /** A `PAID` callback sets `paid_at` from the payload and credits the campaign;
      any other status leaves every campaign and the donation's `paid_at` alone. */
  lemma WebhookCredit(db: Db, token: Option<string>, body: InvoiceCallback)
    requires FindDonationByExternalId(db.donations, body.externalId).Some?
    ensures var k := FindDonationByExternalId(db.donations, body.externalId).value;
            var d := db.donations[k];
            var c := FindCampaign(db.campaigns, d.campaignId);
            var r := XenditWebhookStep(db, token, token, body);
            && (body.status == Some("PAID") ==>
                  && r.db.donations[k].paidAt == ProcessWebhookData(body).paidAt
                  && (c.None? ==> r.db.campaigns == db.campaigns)
                  && (c.Some? ==> r.db.campaigns == db.campaigns[c.value := Credit(db.campaigns[c.value], d.amount)]))
            && (body.status != Some("PAID") ==>
                  r.db.campaigns == db.campaigns && r.db.donations[k].paidAt == d.paidAt)
  {
  }

  /** The same `PAID` callback delivered twice credits the campaign twice:
      the handler has no replay guard. */
  lemma {:induction false} PaidReplayCreditsTwice(db: Db, token: Option<string>, body: InvoiceCallback)
    requires body.status == Some("PAID")
    requires FindDonationByExternalId(db.donations, body.externalId).Some?
    requires FindCampaign(db.campaigns, db.donations[FindDonationByExternalId(db.donations, body.externalId).value].campaignId).Some?
    ensures var k := FindDonationByExternalId(db.donations, body.externalId).value;
            var c := FindCampaign(db.campaigns, db.donations[k].campaignId).value;
            var twice := XenditWebhookStep(XenditWebhookStep(db, token, token, body).db, token, token, body).db;
            twice.campaigns[c].currentAmount == db.campaigns[c].currentAmount + 2 * db.donations[k].amount
  {
    var k := FindDonationByExternalId(db.donations, body.externalId).value;
    var d := db.donations[k];
    var c := FindCampaign(db.campaigns, d.campaignId).value;
    var once := XenditWebhookStep(db, token, token, body).db;
    WebhookCredit(db, token, body);
    assert once.donations[k].externalId == d.externalId;
    assert forall j :: 0 <= j < k ==> once.donations[j] == db.donations[j];
    assert FindDonationByExternalId(once.donations, body.externalId) == Some(k);
    assert once.donations[k].campaignId == d.campaignId && once.donations[k].amount == d.amount;
    assert forall j :: 0 <= j < |once.campaigns| ==> once.campaigns[j].id == db.campaigns[j].id;
    assert FindCampaign(once.campaigns, d.campaignId) == Some(c);
    WebhookCredit(once, token, body);
  }

  /** Scenario: invoice callbacks credit a campaign with goal 1 000 000:
      600 000 paid leaves it fundraising, a further 400 000 completes it. */
  lemma GoalReachedScenario()
    ensures var goal := NewCampaign("c1", "Well", 1000000, Some("m1"));
            var first := Credit(goal, 600000);
            var second := Credit(first, 400000);
            && first.currentAmount == 600000 && first.status == Fundraising
            && second.currentAmount == 1000000 && second.status == Completed
  {
  }

  /** A `PAID` callback without `paid_at` leaves a paid donation with no
      payment time, and a later `EXPIRED` callback leaves an expired donation
      that keeps its payment time: `paid_at` is not tied to the status. */
  lemma PaidAtNotTiedToStatus(db: Db, token: Option<string>, ext: string)
    requires FindDonationByExternalId(db.donations, Some(ext)).Some?
    ensures var k := FindDonationByExternalId(db.donations, Some(ext)).value;
            var paid := XenditWebhookStep(db, token, token, InvoiceCallback(None, Some(ext), Some("PAID"), None)).db;
            paid.donations[k].status == Paid && paid.donations[k].paidAt.None?
    ensures var k := FindDonationByExternalId(db.donations, Some(ext)).value;
            var paid := XenditWebhookStep(db, token, token, InvoiceCallback(None, Some(ext), Some("PAID"), Some("2024-01-01T00:00:00Z"))).db;
            var expired := XenditWebhookStep(paid, token, token, InvoiceCallback(None, Some(ext), Some("EXPIRED"), None)).db;
            expired.donations[k].status == Expired && expired.donations[k].paidAt == Some("2024-01-01T00:00:00Z")
  {
    var k := FindDonationByExternalId(db.donations, Some(ext)).value;
    var paid := XenditWebhookStep(db, token, token, InvoiceCallback(None, Some(ext), Some("PAID"), Some("2024-01-01T00:00:00Z"))).db;
    assert forall j :: 0 <= j < |db.donations| ==> paid.donations[j].externalId == db.donations[j].externalId;
    assert FindDonationByExternalId(paid.donations, Some(ext)) == Some(k);
  }

  // ============================================================== cancellation

  /** What cancellation did: the database, the reply, and the invoice id the
      gateway was asked to expire, if any. */
  datatype CancelOutcome = CancelOutcome(db: Db, reply: Reply, expired: Option<string>)

  /** The detail of a failed expiry call: the gateway's message if it sent one, else the error's. */
  function ErrorDetail(response: Option<ErrorResponse>, message: string): string
  {
    if response.Some? && response.value.data.Some? && Present(response.value.data.value.message)
    then response.value.data.value.message.value
    else message
  }

  /** `cancelDonation`: only the caller's own pending donation; a successful
      expiry call or a 404 from the gateway cancels it, any other error leaves
      it pending. */
  function CancelDonationStep(db: Db, donor: Id, donationId: string, gateway: HttpOutcome<ExpireData>): (r: CancelOutcome)
    ensures FindOwnDonation(db.donations, donationId, donor).None? ==>
              r == CancelOutcome(db, Raise(404, "Donation not found"), None)
    ensures r.db == db || (Succeeded(r.reply) && (
              var k := FindOwnDonation(db.donations, donationId, donor).value;
              && db.donations[k].status == Pending
              && r.db == db.(donations := db.donations[k := db.donations[k].(status := Cancelled)])))
    ensures Succeeded(r.reply) <==> r.db != db
    ensures Succeeded(r.reply) <==> (
              var k := FindOwnDonation(db.donations, donationId, donor);
              && k.Some? && db.donations[k.value].status == Pending
              && (gateway.Delivered? || (gateway.response.Some? && gateway.response.value.status == 404)))
    ensures r.expired.Some? ==> r.expired.value == db.donations[FindOwnDonation(db.donations, donationId, donor).value].invoiceId
    // a donation that is no longer pending is refused before the gateway is called
    ensures (FindOwnDonation(db.donations, donationId, donor).Some? &&
             db.donations[FindOwnDonation(db.donations, donationId, donor).value].status != Pending) ==>
              r == CancelOutcome(db, Raise(400, "Only pending donations can be cancelled"), None)
    // for a pending donation the expiry call is always made
    ensures (FindOwnDonation(db.donations, donationId, donor).Some? &&
             db.donations[FindOwnDonation(db.donations, donationId, donor).value].status == Pending) ==>
              r.expired.Some?
    // a gateway error other than 404 is the 500 with the gateway's detail, the donation left pending
    ensures (FindOwnDonation(db.donations, donationId, donor).Some? &&
             db.donations[FindOwnDonation(db.donations, donationId, donor).value].status == Pending &&
             gateway.Errored? && !(gateway.response.Some? && gateway.response.value.status == 404)) ==>
              r.db == db && r.reply == Raise(500, "Failed to cancel donation in Xendit: " +
                                                  ErrorDetail(gateway.response, gateway.message))
  {
    match FindOwnDonation(db.donations, donationId, donor)
    case None => CancelOutcome(db, Raise(404, "Donation not found"), None)
    case Some(k) =>
      var d := db.donations[k];
      if d.status != Pending then
        CancelOutcome(db, Raise(400, "Only pending donations can be cancelled"), None)
      else
        var cancelled := db.(donations := db.donations[k := d.(status := Cancelled)]);
        assert cancelled.donations[k] != db.donations[k];
        match gateway
        case Delivered(_) =>
          CancelOutcome(cancelled, Respond(200, "Donation cancelled successfully"), Some(d.invoiceId))
        case Errored(response, message) =>
          if response.Some? && response.value.status == 404 then
            CancelOutcome(cancelled, Respond(200, "Donation cancelled successfully (invoice already expired)"),
                          Some(d.invoiceId))
          else
            CancelOutcome(db, Raise(500, "Failed to cancel donation in Xendit: " + ErrorDetail(response, message)),
                          Some(d.invoiceId))
  }

  /** `cancelDonation` as the handler runs it. */
  method CancelDonation(ledger: Ledger, donor: Id, donationId: string, gateway: HttpOutcome<ExpireData>)
    returns (reply: Reply, expired: Option<string>)
    modifies ledger
    ensures var r := CancelDonationStep(old(ledger.View()), donor, donationId, gateway);
            ledger.View() == r.db && reply == r.reply && expired == r.expired
  {
    expired := None;
    var k := FindOwnDonation(ledger.donations, donationId, donor);
    if k.None? {
      reply := Raise(404, "Donation not found");
      return;
    }
    var donation := ledger.donations[k.value];
    if donation.status != Pending {
      reply := Raise(400, "Only pending donations can be cancelled");
      return;
    }
    expired := Some(donation.invoiceId);
    match gateway {
      case Delivered(_) =>
        donation := donation.(status := Cancelled);
        ledger.donations := ledger.donations[k.value := donation];
        reply := Respond(200, "Donation cancelled successfully");
      case Errored(response, message) =>
        if response.Some? && response.value.status == 404 {
          donation := donation.(status := Cancelled);
          ledger.donations := ledger.donations[k.value := donation];
          reply := Respond(200, "Donation cancelled successfully (invoice already expired)");
        } else {
          reply := Raise(500, "Failed to cancel donation in Xendit: " + ErrorDetail(response, message));
        }
    }
  }

  // ======================================================= read-only views

  /** The donor as a view shows it: `username` and `fullname` only. */
  datatype DonorInfo = DonorInfo(username: string, fullname: string)

  /** What an anonymous donation shows in place of its donor. */
  const AnonymousDonor: DonorInfo := DonorInfo("anonymous", "Anonymous Donatur")

  /** A donation as the read handlers return it; `donor` is the populated
      donor reference (`None` when the user no longer exists). */
  datatype DonationView = DonationView(donation: Donation, donor: Option<DonorInfo>)

  /** The populated and, for an anonymous donation, masked view of a donation. */
  function ViewOf(users: seq<User>, d: Donation): (v: DonationView)
    ensures v.donation == d
    ensures d.isAnonymous ==> v.donor == Some(AnonymousDonor)
    ensures !d.isAnonymous ==> (v.donor.Some? <==> FindUser(users, d.donorId).Some?)
    ensures !d.isAnonymous && v.donor.Some? ==>
              var u := users[FindUser(users, d.donorId).value];
              v.donor.value == DonorInfo(u.username, u.fullname)
  {
    if d.isAnonymous then DonationView(d, Some(AnonymousDonor))
    else
      match FindUser(users, d.donorId)
      case None => DonationView(d, None)
      case Some(u) => DonationView(d, Some(DonorInfo(users[u].username, users[u].fullname)))
  }

  datatype StatusAnswer = StatusAnswer(reply: Reply, view: Option<DonationView>)

  /** `getDonationStatus`. */
  function DonationStatusOf(db: Db, donationId: string): (a: StatusAnswer)
    ensures a.view.None? <==> FindDonation(db.donations, donationId).None?
    ensures a.view.None? ==> a.reply == Raise(404, "Donation not found")
    ensures a.view.Some? ==> a.view.value.donation.donationId == donationId
    ensures a.view.Some? && a.view.value.donation.isAnonymous ==> a.view.value.donor == Some(AnonymousDonor)
    // a found donation is answered with 200 and its populated, masked view
    ensures a.view.Some? ==>
              && a.reply == Respond(200, "Donation status retrieved successfully")
              && a.view.value == ViewOf(db.users, db.donations[FindDonation(db.donations, donationId).value])
  {
    match FindDonation(db.donations, donationId)
    case None => StatusAnswer(Raise(404, "Donation not found"), None)
    case Some(k) => StatusAnswer(Respond(200, "Donation status retrieved successfully"),
                                 Some(ViewOf(db.users, db.donations[k])))
  }

  /** The donations a campaign listing shows: the paid ones of that campaign. */
  function PaidDonationsOf(donations: seq<Donation>, campaignId: Id): (r: seq<Donation>)
    ensures forall d :: d in r <==> d in donations && d.campaignId == campaignId && d.status == Paid
  {
    Filter(donations, (d: Donation) => d.campaignId == campaignId && d.status == Paid)
  }

  datatype ListingAnswer = ListingAnswer(reply: Reply, views: seq<DonationView>)

  /** `getCampaignDonations`, without its sorting and paging: every paid
      donation of the campaign and nothing else, anonymous donors masked. */
  function CampaignDonations(db: Db, campaignId: Id): (a: ListingAnswer)
    ensures FindCampaign(db.campaigns, campaignId).None? ==> a == ListingAnswer(Raise(404, "Campaign not found"), [])
    ensures forall i :: 0 <= i < |a.views| ==>
              a.views[i].donation in db.donations
              && a.views[i].donation.campaignId == campaignId && a.views[i].donation.status == Paid
    ensures forall i :: 0 <= i < |a.views| && a.views[i].donation.isAnonymous ==>
              a.views[i].donor == Some(AnonymousDonor)
    ensures FindCampaign(db.campaigns, campaignId).Some? ==>
              forall d :: d in db.donations && d.campaignId == campaignId && d.status == Paid ==>
                exists i :: 0 <= i < |a.views| && a.views[i].donation == d
    // the 200 answer lists the campaign's paid donations in stored order, each
    // shown with its populated donor or masked
    ensures FindCampaign(db.campaigns, campaignId).Some? ==>
              var paid := PaidDonationsOf(db.donations, campaignId);
              && a.reply == Respond(200, "Campaign donations retrieved successfully")
              && |a.views| == |paid|
              && forall i :: 0 <= i < |paid| ==> a.views[i] == ViewOf(db.users, paid[i])
  {
    match FindCampaign(db.campaigns, campaignId)
    case None => ListingAnswer(Raise(404, "Campaign not found"), [])
    case Some(_) =>
      var paid := PaidDonationsOf(db.donations, campaignId);
      var views := seq(|paid|, i requires 0 <= i < |paid| => ViewOf(db.users, paid[i]));
      assert forall i :: 0 <= i < |views| ==> views[i].donation == paid[i];
      assert forall d :: d in paid ==> exists i :: 0 <= i < |paid| && paid[i] == d;
      ListingAnswer(Respond(200, "Campaign donations retrieved successfully"), views)
  }

  // ================================================================ invariant

  /** Every stored donation satisfies the schema. */
  predicate DonationsValid(db: Db)
  {
    forall i :: 0 <= i < |db.donations| ==> Valid(db.donations[i])
  }

  /** Creation keeps every stored donation valid. */
  lemma CreateKeepsValid(db: Db, donor: Id, req: DonationRequest, donationId: string, frontendUrl: string,
                         gateway: HttpOutcome<InvoiceData>)
    requires DonationsValid(db)
    ensures DonationsValid(CreateDonationStep(db, donor, req, donationId, frontendUrl, gateway).db)
  {
    var r := CreateDonationStep(db, donor, req, donationId, frontendUrl, gateway);
    if Succeeded(r.reply) {
      CreateSuccessPath(db, donor, req, donationId, frontendUrl, gateway);
      var draft := DraftFor(req, donor, donationId, gateway.data);
      CreatedRecord(draft, db.donations);
      AppendKeepsValid(db, Create(draft, db.donations).doc);
    }
  }

  /** Storing one more valid donation keeps every stored donation valid. */
  lemma AppendKeepsValid(db: Db, d: Donation)
    requires DonationsValid(db) && Valid(d)
    ensures DonationsValid(db.(donations := db.donations + [d]))
  {
  }

  /** An invoice callback keeps every stored donation valid. */
  lemma WebhookKeepsValid(db: Db, configuredToken: Option<string>, callbackToken: Option<string>,
                          body: InvoiceCallback)
    requires DonationsValid(db)
    ensures DonationsValid(XenditWebhookStep(db, configuredToken, callbackToken, body).db)
  {
    if callbackToken == configuredToken && FindDonationByExternalId(db.donations, body.externalId).Some? {
      WebhookOverwritesStatus(db, callbackToken, body);
    }
  }

  /** Cancellation keeps every stored donation valid. */
  lemma CancelKeepsValid(db: Db, donor: Id, donationId: string, gateway: HttpOutcome<ExpireData>)
    requires DonationsValid(db)
    ensures DonationsValid(CancelDonationStep(db, donor, donationId, gateway).db)
  {
  }

  /** With every stored donation valid, a campaign listing shows only donations
      that satisfy the schema: at least the minimum amount, the supported
      method and a trimmed message of at most 500 characters. */
  lemma ListedDonationsValid(db: Db, campaignId: Id)
    requires DonationsValid(db)
    ensures var views := CampaignDonations(db, campaignId).views;
            forall i :: 0 <= i < |views| ==>
              && views[i].donation.amount >= MinAmount
              && views[i].donation.paymentMethod == SupportedMethod
              && Utf16Length(views[i].donation.message) <= MaxMessageLength
  {
    var views := CampaignDonations(db, campaignId).views;
    forall i | 0 <= i < |views|
      ensures Valid(views[i].donation)
    {
      var j :| 0 <= j < |db.donations| && db.donations[j] == views[i].donation;
    }
  }

  /** With every stored donation valid, a `PAID` callback for a stored
      donation whose campaign exists raises that campaign's current total by
      at least the minimum donation. */
  lemma PaidCreditsAtLeastMinimum(db: Db, token: Option<string>, body: InvoiceCallback)
    requires DonationsValid(db)
    requires body.status == Some("PAID")
    requires FindDonationByExternalId(db.donations, body.externalId).Some?
    requires FindCampaign(db.campaigns, db.donations[FindDonationByExternalId(db.donations, body.externalId).value].campaignId).Some?
    ensures var k := FindDonationByExternalId(db.donations, body.externalId).value;
            var c := FindCampaign(db.campaigns, db.donations[k].campaignId).value;
            XenditWebhookStep(db, token, token, body).db.campaigns[c].currentAmount
              >= db.campaigns[c].currentAmount + MinAmount
  {
    var k := FindDonationByExternalId(db.donations, body.externalId).value;
    assert Valid(db.donations[k]);
    WebhookCredit(db, token, body);
  }
}
