/** The payout handlers: a creator requests a disbursement of campaign funds
    to one of their bank entries, and the gateway's disbursement callback
    records the outcome and, on completion, moves the amount from the
    campaign's current total to its paid-out total. */
module PayoutController {
  import opened Common
  import opened Strings
  import opened CampaignModel
  import opened PayoutModel
  import opened BankAccountModel
  import opened UserModel
  import opened XenditService
  import opened Store

  // ================================================================== request

  /** The body of a payout request; every field may be missing. */
  datatype PayoutRequest = PayoutRequest(campaignId: Option<Id>, bankId: Option<Id>, amount: Option<int>)

  /** What a payout request did: the database, the reply, and the disbursement
      request sent to the gateway, if the handler got that far. */
  datatype PayoutOutcome = PayoutOutcome(db: Db, reply: Reply, disbursement: Option<DisbursementRequest>)

  /** `Campaign.findById(campaign_id)`; a missing id finds nothing. */
  function CampaignOf(db: Db, campaignId: Option<Id>): (r: Option<nat>)
    ensures r.Some? ==> campaignId.Some? && r == FindCampaign(db.campaigns, campaignId.value)
    ensures r.None? ==> campaignId.None? || FindCampaign(db.campaigns, campaignId.value).None?
  {
    match campaignId
    case None => None
    case Some(id) => FindCampaign(db.campaigns, id)
  }

  /** The disbursement `createPayout` asks for: the request's amount as given,
      the selected entry's bank details, and a reference made of the clock
      reading and the campaign id. */
  function DisbursementFor(campaign: Campaign, campaignId: Id, amount: Option<int>, entry: BankEntry, now: nat): DisbursementRequest
  {
    DisbursementRequest(
      "payout_" + NatToDecimal(now) + "_" + campaignId, amount,
      entry.bankCode, entry.accountNumber, entry.accountHolder,
      "Payout for " + campaign.title)
  }

  /** `createPayout`.  `now` is the one clock reading that stands for both
      `Date.now()` in the external id and `new Date()` in `requestTime`; `gateway` how the disbursement request ended.  Nothing
      compares the amount with what the campaign holds. */
  function CreatePayoutStep(db: Db, caller: Id, req: PayoutRequest, now: nat,
                            gateway: HttpOutcome<DisbursementData>): (r: PayoutOutcome)
    ensures r.db.users == db.users && r.db.campaigns == db.campaigns && r.db.donations == db.donations
            && r.db.bankAccounts == db.bankAccounts
    ensures !Succeeded(r.reply) ==> r.db == db
    ensures Succeeded(r.reply) ==> r.disbursement.Some? && gateway.Delivered?
    ensures Succeeded(r.reply) ==> |r.db.payouts| == |db.payouts| + 1 && r.db.payouts == db.payouts + [r.db.payouts[|db.payouts|]]
    // the refusals, in the handler's order, each before any gateway call
    ensures CampaignOf(db, req.campaignId).None? ==> r == PayoutOutcome(db, Raise(404, "Campaign not found"), None)
    ensures CampaignOf(db, req.campaignId).Some? ==>
              var campaign := db.campaigns[CampaignOf(db, req.campaignId).value];
              && (campaign.creator.None? ==> r == PayoutOutcome(db, Crash(TypeError), None))
              && (campaign.creator.Some? && campaign.creator.value != caller ==>
                    r == PayoutOutcome(db, Raise(404, "Not authorized"), None))
              && (campaign.creator == Some(caller) ==>
                    (r.disbursement.Some? <==> FindBankAccountWithEntry(db.bankAccounts, caller, req.bankId).Some?))
              && (campaign.creator == Some(caller) && FindBankAccountWithEntry(db.bankAccounts, caller, req.bankId).None? ==>
                    r == PayoutOutcome(db, Raise(404, "Bank account not found"), None))
    ensures r.disbursement.Some? && gateway.Errored? ==>
              r.db == db && r.reply == Raise(500, "Failed to create disbursement")
    ensures Succeeded(r.reply) ==> r.reply == Respond(200, "Payout request created successfully")
  {
    match CampaignOf(db, req.campaignId)
    case None => PayoutOutcome(db, Raise(404, "Campaign not found"), None)
    case Some(c) =>
      var campaign := db.campaigns[c];
      if campaign.creator.None? then PayoutOutcome(db, Crash(TypeError), None)
      else if campaign.creator.value != caller then PayoutOutcome(db, Raise(404, "Not authorized"), None)
      else
        match FindBankAccountWithEntry(db.bankAccounts, caller, req.bankId)
        case None => PayoutOutcome(db, Raise(404, "Bank account not found"), None)
        case Some(a) =>
          var banks := db.bankAccounts[a].banks;
          var entry := banks[FindEntry(banks, req.bankId).value];
          DisburseStage(db, req.campaignId.value, req.bankId.value, req.amount,
                        DisbursementFor(campaign, req.campaignId.value, req.amount, entry, now), now, gateway)
  }

  /** `createPayout`'s `createDisbursement` call and, when it succeeds, the pending payout record. */
  function DisburseStage(db: Db, campaignId: Id, bankId: Id, amount: Option<int>, request: DisbursementRequest,
                         now: nat, gateway: HttpOutcome<DisbursementData>): (r: PayoutOutcome)
    ensures r.disbursement == Some(request)
    ensures gateway.Errored? ==> r.db == db && r.reply == Raise(500, "Failed to create disbursement")
    ensures gateway.Delivered? ==>
              && r.db == db.(payouts := db.payouts + [NewPayout(campaignId, bankId, amount, gateway.data.id, now)])
              && r.reply == Respond(200, "Payout request created successfully")
  {
    match Wrap(gateway)
    case Failure(_) => PayoutOutcome(db, Raise(500, "Failed to create disbursement"), Some(request))
    case Success(data) =>
      PayoutOutcome(db.(payouts := db.payouts + [NewPayout(campaignId, bankId, amount, data.id, now)]),
                    Respond(200, "Payout request created successfully"), Some(request))
  }

  /** `createPayout` as the handler runs it against the live database. */
  method CreatePayout(ledger: Ledger, caller: Id, req: PayoutRequest, now: nat,
                      gateway: HttpOutcome<DisbursementData>) returns (reply: Reply, disbursement: Option<DisbursementRequest>)
    modifies ledger
    ensures var r := CreatePayoutStep(old(ledger.View()), caller, req, now, gateway);
            ledger.View() == r.db && reply == r.reply && disbursement == r.disbursement
  {
    disbursement := None;
    var c := CampaignOf(ledger.View(), req.campaignId);
    if c.None? {
      reply := Raise(404, "Campaign not found");
      return;
    }
    var campaign := ledger.campaigns[c.value];
    if campaign.creator.None? {
      reply := Crash(TypeError);
      return;
    }
    if campaign.creator.value != caller {
      reply := Raise(404, "Not authorized");
      return;
    }
    var a := FindBankAccountWithEntry(ledger.bankAccounts, caller, req.bankId);
    if a.None? {
      reply := Raise(404, "Bank account not found");
      return;
    }
    var banks := ledger.bankAccounts[a.value].banks;
    var selected := banks[FindEntry(banks, req.bankId).value];
    var request := DisbursementFor(campaign, req.campaignId.value, req.amount, selected, now);
    disbursement := Some(request);
    var response := Wrap(gateway);
    if response.Failure? {
      reply := Raise(500, "Failed to create disbursement");
      return;
    }
    ledger.payouts := ledger.payouts + [NewPayout(req.campaignId.value, req.bankId.value, req.amount, response.data.id, now)];
    reply := Respond(200, "Payout request created successfully");
  }

  /** A recorded payout is pending, for a campaign the caller created, to a
      bank entry of the caller's own account, for the amount requested, and
      carries the gateway's disbursement id. */
  lemma PayoutAuthorised(db: Db, caller: Id, req: PayoutRequest, now: nat, gateway: HttpOutcome<DisbursementData>)
    requires Succeeded(CreatePayoutStep(db, caller, req, now, gateway).reply)
    ensures var r := CreatePayoutStep(db, caller, req, now, gateway);
            var p := r.db.payouts[|db.payouts|];
            && req.campaignId.Some? && req.bankId.Some? && gateway.Delivered?
            && p == NewPayout(req.campaignId.value, req.bankId.value, req.amount, gateway.data.id, now)
            && p.status == PayoutModel.Pending
            && (exists i :: 0 <= i < |db.campaigns| && db.campaigns[i].id == p.campaignId
                            && db.campaigns[i].creator == Some(caller))
            && (exists j :: 0 <= j < |db.bankAccounts| && db.bankAccounts[j].owner == caller
                            && HoldsEntry(db.bankAccounts[j], Some(p.bankAccountId)))
  {
    var c := CampaignOf(db, req.campaignId).value;
    var a := FindBankAccountWithEntry(db.bankAccounts, caller, req.bankId).value;
    var k := FindEntry(db.bankAccounts[a].banks, req.bankId).value;
    assert db.campaigns[c].id == req.campaignId.value;
  }

  /** The entry the disbursement goes to is the first entry of the caller's
      account with the requested id, and the reference embeds the clock reading. */
  lemma DisbursementTarget(db: Db, caller: Id, req: PayoutRequest, now: nat, gateway: HttpOutcome<DisbursementData>)
    requires CreatePayoutStep(db, caller, req, now, gateway).disbursement.Some?
    ensures var d := CreatePayoutStep(db, caller, req, now, gateway).disbursement.value;
            var a := FindBankAccountWithEntry(db.bankAccounts, caller, req.bankId);
            && a.Some? && req.campaignId.Some?
            && FindEntry(db.bankAccounts[a.value].banks, req.bankId).Some?
            && var e := db.bankAccounts[a.value].banks[FindEntry(db.bankAccounts[a.value].banks, req.bankId).value];
               && d.bankCode == e.bankCode && d.accountNumber == e.accountNumber
               && d.accountHolderName == e.accountHolder
               && d.amount == req.amount
               && d.externalId == "payout_" + NatToDecimal(now) + "_" + req.campaignId.value
  {
  }

  /** The amount is never compared with the campaign's balance: a request for
      more than the campaign holds is accepted like any other. */
  lemma OverdrawAccepted(db: Db, caller: Id, req: PayoutRequest, now: nat, data: DisbursementData)
    requires CampaignOf(db, req.campaignId).Some?
    requires db.campaigns[CampaignOf(db, req.campaignId).value].creator == Some(caller)
    requires FindBankAccountWithEntry(db.bankAccounts, caller, req.bankId).Some?
    requires req.amount.Some? && req.amount.value > db.campaigns[CampaignOf(db, req.campaignId).value].currentAmount
    ensures Succeeded(CreatePayoutStep(db, caller, req, now, Delivered(data)).reply)
  {
    var a := FindBankAccountWithEntry(db.bankAccounts, caller, req.bankId).value;
    assert FindEntry(db.bankAccounts[a].banks, req.bankId).Some?;
  }

  /** `getPayouts`: every payout of the campaign and nothing else. */
  function PayoutsOf(db: Db, campaignId: Id): (r: seq<Payout>)
    ensures forall p :: p in r <==> p in db.payouts && p.campaignId == campaignId
  {
    Filter(db.payouts, (p: Payout) => p.campaignId == campaignId)
  }

  // ============================================================== callback

  /** The completion e-mail: recipient, amount and campaign title. */
  datatype PayoutMail = PayoutMail(to: string, amount: int, title: string)

  /** What the callback did: the database, the reply, and the e-mail it tried to send. */
  datatype CallbackOutcome = CallbackOutcome(db: Db, reply: Reply, mail: Option<PayoutMail>)

  /** The two field updates of `handleDisbursementWebhook`'s completed
      branch: the paid-out amount moves from the current total to the
      paid-out total; nothing stops the current total going below zero. */
  function Settle(c: Campaign, amount: int): (r: Campaign)
    ensures Raised(r) == Raised(c)
    ensures r.payoutAmount == c.payoutAmount + amount && r.currentAmount == c.currentAmount - amount
    ensures r.(payoutAmount := c.payoutAmount, currentAmount := c.currentAmount) == c
  {
    c.(payoutAmount := c.payoutAmount + amount, currentAmount := c.currentAmount - amount)
  }

  /** `handleDisbursementWebhook`.  The status is stored lower-cased; the
      completion time the handler assigns is not a schema field and is never
      stored.  `mailDelivered` says whether the completion e-mail went out. */
  function DisbursementWebhookStep(db: Db, configuredToken: Option<string>, callbackToken: Option<string>,
                                   body: DisbursementCallback, mailDelivered: bool): (r: CallbackOutcome)
    ensures callbackToken != configuredToken ==> r == CallbackOutcome(db, Respond(401, "Unauthorized webhook"), None)
    ensures callbackToken == configuredToken && FindPayoutByDisbursement(db.payouts, body.id).None? ==>
              r == CallbackOutcome(db, Respond(404, "Payout not found"), None)
    ensures r.db.users == db.users && r.db.donations == db.donations && r.db.bankAccounts == db.bankAccounts
    ensures |r.db.payouts| == |db.payouts| && |r.db.campaigns| == |db.campaigns|
    // the total ever raised by each campaign is preserved
    ensures forall i :: 0 <= i < |db.campaigns| ==> Raised(r.db.campaigns[i]) == Raised(db.campaigns[i])
    // funds move only on the exact status text `COMPLETED`
    ensures body.status != Some("COMPLETED") ==> r.db.campaigns == db.campaigns && r.mail.None?
    // completion times are never recorded
    ensures forall i :: 0 <= i < |db.payouts| ==> r.db.payouts[i].completedTime == db.payouts[i].completedTime
    // a missing status cannot be lower-cased; a status outside the enum fails the save; neither changes anything
    ensures (callbackToken == configuredToken && FindPayoutByDisbursement(db.payouts, body.id).Some? &&
             body.status.None?) ==> r == CallbackOutcome(db, Crash(TypeError), None)
    ensures (callbackToken == configuredToken && FindPayoutByDisbursement(db.payouts, body.id).Some? &&
             body.status.Some? && ParseStatus(ToLower(body.status.value)).None?) ==>
              r == CallbackOutcome(db, Crash(ValidationError), None)
    // otherwise the found payout takes the lower-cased status, whatever it was, and no other payout changes
    ensures (callbackToken == configuredToken && FindPayoutByDisbursement(db.payouts, body.id).Some? &&
             body.status.Some? && ParseStatus(ToLower(body.status.value)).Some?) ==>
              var k := FindPayoutByDisbursement(db.payouts, body.id).value;
              r.db.payouts == db.payouts[k := db.payouts[k].(status := ParseStatus(ToLower(body.status.value)).value)]
    // an accepted status other than `COMPLETED` answers 200 and leaves the campaigns alone
    ensures (callbackToken == configuredToken && FindPayoutByDisbursement(db.payouts, body.id).Some? &&
             body.status.Some? && ParseStatus(ToLower(body.status.value)).Some? && body.status != Some("COMPLETED")) ==>
              r.reply == Respond(200, "Webhook processed")
  {
    if callbackToken != configuredToken then CallbackOutcome(db, Respond(401, "Unauthorized webhook"), None)
    else
      match FindPayoutByDisbursement(db.payouts, body.id)
      case None => CallbackOutcome(db, Respond(404, "Payout not found"), None)
      case Some(k) =>
        if body.status.None? then CallbackOutcome(db, Crash(TypeError), None)
        else
          match ParseStatus(ToLower(body.status.value))
          case None => CallbackOutcome(db, Crash(ValidationError), None)
          case Some(status) =>
            var saved := db.(payouts := db.payouts[k := db.payouts[k].(status := status)]);
            if body.status.value != "COMPLETED" then CallbackOutcome(saved, Respond(200, "Webhook processed"), None)
            else SettleStage(saved, db.payouts[k].campaignId, body.amount, mailDelivered)
  }

  /** `handleDisbursementWebhook`'s completed branch: the e-mail to the
      campaign's creator (when the creator still exists) and the move of
      funds. */
  function SettleStage(db: Db, campaignId: Id, amount: int, mailDelivered: bool): (r: CallbackOutcome)
    ensures FindCampaign(db.campaigns, campaignId).None? ==> r == CallbackOutcome(db, Crash(TypeError), None)
    ensures r.db == db || (r.reply == Respond(200, "Webhook processed") && (
              var c := FindCampaign(db.campaigns, campaignId).value;
              r.db == db.(campaigns := db.campaigns[c := Settle(db.campaigns[c], amount)])))
    ensures r.mail.Some? && !mailDelivered ==> r == CallbackOutcome(db, Crash(MailFailure), r.mail)
    // the e-mail is due exactly when the campaign's creator resolves to a user, and goes to that user
    ensures r.mail.Some? <==>
              var c := FindCampaign(db.campaigns, campaignId);
              c.Some? && db.campaigns[c.value].creator.Some? &&
              FindUser(db.users, db.campaigns[c.value].creator.value).Some?
    ensures r.mail.Some? ==>
              var campaign := db.campaigns[FindCampaign(db.campaigns, campaignId).value];
              r.mail.value == PayoutMail(db.users[FindUser(db.users, campaign.creator.value).value].email,
                                         amount, campaign.title)
    // with the campaign present and no undelivered e-mail, the campaign is settled
    ensures FindCampaign(db.campaigns, campaignId).Some? && (r.mail.None? || mailDelivered) ==>
              var c := FindCampaign(db.campaigns, campaignId).value;
              && r.reply == Respond(200, "Webhook processed")
              && r.db == db.(campaigns := db.campaigns[c := Settle(db.campaigns[c], amount)])
  {
    match FindCampaign(db.campaigns, campaignId)
    case None => CallbackOutcome(db, Crash(TypeError), None)
    case Some(c) =>
      var campaign := db.campaigns[c];
      var creator := if campaign.creator.Some? then FindUser(db.users, campaign.creator.value) else None;
      var mail := if creator.Some? then Some(PayoutMail(db.users[creator.value].email, amount, campaign.title)) else None;
      if mail.Some? && !mailDelivered then CallbackOutcome(db, Crash(MailFailure), mail)
      else CallbackOutcome(db.(campaigns := db.campaigns[c := Settle(campaign, amount)]),
                           Respond(200, "Webhook processed"), mail)
  }

  /** `handleDisbursementWebhook` as the handler runs it: the payout is saved
      before the campaign is looked up, so a later failure leaves the new
      status stored. */
  method HandleDisbursementWebhook(ledger: Ledger, configuredToken: Option<string>, callbackToken: Option<string>,
                                   body: DisbursementCallback, mailDelivered: bool) returns (reply: Reply, mail: Option<PayoutMail>)
    modifies ledger
    ensures var r := DisbursementWebhookStep(old(ledger.View()), configuredToken, callbackToken, body, mailDelivered);
            ledger.View() == r.db && reply == r.reply && mail == r.mail
  {
    mail := None;
    if callbackToken != configuredToken {
      reply := Respond(401, "Unauthorized webhook");
      return;
    }
    var k := FindPayoutByDisbursement(ledger.payouts, body.id);
    if k.None? {
      reply := Respond(404, "Payout not found");
      return;
    }
    if body.status.None? {
      reply := Crash(TypeError);
      return;
    }
    var status := ParseStatus(ToLower(body.status.value));
    if status.None? {
      reply := Crash(ValidationError);
      return;
    }
    var payout := ledger.payouts[k.value];
    ledger.payouts := ledger.payouts[k.value := payout.(status := status.value)];
    if body.status.value != "COMPLETED" {
      reply := Respond(200, "Webhook processed");
      return;
    }
    reply, mail := SettleCampaign(ledger, payout.campaignId, body.amount, mailDelivered);
  }

  /** `handleDisbursementWebhook`'s completed branch as the handler runs it:
      the campaign lookup, the e-mail, then the two field updates and the
      save. */
  method SettleCampaign(ledger: Ledger, campaignId: Id, amount: int, mailDelivered: bool)
    returns (reply: Reply, mail: Option<PayoutMail>)
    modifies ledger
    ensures var r := SettleStage(old(ledger.View()), campaignId, amount, mailDelivered);
            ledger.View() == r.db && reply == r.reply && mail == r.mail
  {
    mail := None;
    var c := FindCampaign(ledger.campaigns, campaignId);
    if c.None? {
      reply := Crash(TypeError);
      return;
    }
    var campaign := ledger.campaigns[c.value];
    if campaign.creator.Some? {
      var creator := FindUser(ledger.users, campaign.creator.value);
      if creator.Some? {
        mail := Some(PayoutMail(ledger.users[creator.value].email, amount, campaign.title));
        if !mailDelivered {
          reply := Crash(MailFailure);
          return;
        }
      }
    }
    campaign := campaign.(payoutAmount := campaign.payoutAmount + amount);
    campaign := campaign.(currentAmount := campaign.currentAmount - amount);
    ledger.campaigns := ledger.campaigns[c.value := campaign];
    reply := Respond(200, "Webhook processed");
  }

  /** An authenticated `COMPLETED` callback for a known payout with its
      campaign present marks the payout completed and settles the amount. */
  lemma CompletedSettles(db: Db, token: Option<string>, body: DisbursementCallback)
    requires body.status == Some("COMPLETED")
    requires FindPayoutByDisbursement(db.payouts, body.id).Some?
    requires FindCampaign(db.campaigns, db.payouts[FindPayoutByDisbursement(db.payouts, body.id).value].campaignId).Some?
    ensures var k := FindPayoutByDisbursement(db.payouts, body.id).value;
            var c := FindCampaign(db.campaigns, db.payouts[k].campaignId).value;
            var r := DisbursementWebhookStep(db, token, token, body, true);
            && r.reply == Respond(200, "Webhook processed")
            && r.db.payouts == db.payouts[k := db.payouts[k].(status := PayoutModel.Completed)]
            && r.db.campaigns == db.campaigns[c := Settle(db.campaigns[c], body.amount)]
  {
    var k := FindPayoutByDisbursement(db.payouts, body.id).value;
    assert ToLower("COMPLETED") == "completed";
  }

  /** The same `COMPLETED` callback delivered twice settles the amount twice:
      the handler has no replay guard. */
  lemma {:induction false} CompletedReplayDebitsTwice(db: Db, token: Option<string>, body: DisbursementCallback)
    requires body.status == Some("COMPLETED")
    requires FindPayoutByDisbursement(db.payouts, body.id).Some?
    requires FindCampaign(db.campaigns, db.payouts[FindPayoutByDisbursement(db.payouts, body.id).value].campaignId).Some?
    ensures var k := FindPayoutByDisbursement(db.payouts, body.id).value;
            var c := FindCampaign(db.campaigns, db.payouts[k].campaignId).value;
            var twice := DisbursementWebhookStep(DisbursementWebhookStep(db, token, token, body, true).db,
                                                 token, token, body, true).db;
            && twice.campaigns[c].payoutAmount == db.campaigns[c].payoutAmount + 2 * body.amount
            && twice.campaigns[c].currentAmount == db.campaigns[c].currentAmount - 2 * body.amount
  {
    var k := FindPayoutByDisbursement(db.payouts, body.id).value;
    var p := db.payouts[k];
    var c := FindCampaign(db.campaigns, p.campaignId).value;
    var once := DisbursementWebhookStep(db, token, token, body, true).db;
    CompletedSettles(db, token, body);
    assert once.payouts[k].disbursementId == p.disbursementId && once.payouts[k].campaignId == p.campaignId;
    assert forall j :: 0 <= j < |once.payouts| ==> once.payouts[j].disbursementId == db.payouts[j].disbursementId;
    assert FindPayoutByDisbursement(once.payouts, body.id) == Some(k);
    assert forall j :: 0 <= j < |once.campaigns| ==> once.campaigns[j].id == db.campaigns[j].id;
    assert FindCampaign(once.campaigns, p.campaignId) == Some(c);
    CompletedSettles(once, token, body);
  }

  /** A callback whose status is `Completed` in another letter case stores the
      payout as completed but moves no funds and sends no e-mail. */
  lemma MixedCaseCompletionMovesNoFunds(db: Db, token: Option<string>, id: Option<string>, amount: int, mailDelivered: bool)
    requires FindPayoutByDisbursement(db.payouts, id).Some?
    ensures var k := FindPayoutByDisbursement(db.payouts, id).value;
            var r := DisbursementWebhookStep(db, token, token, DisbursementCallback(id, Some("Completed"), amount), mailDelivered);
            && r.reply == Respond(200, "Webhook processed")
            && r.db.payouts[k].status == PayoutModel.Completed
            && r.db.campaigns == db.campaigns && r.mail.None?
  {
    assert ToLower("Completed") == "completed";
  }

  /** A `FAILED` callback for a payout that is already completed overwrites
      its status: the handler has no terminal-state guard. */
  lemma FailedAfterCompletedOverwrites(db: Db, token: Option<string>, id: Option<string>, amount: int,
                                       mailDelivered: bool)
    requires FindPayoutByDisbursement(db.payouts, id).Some?
    requires db.payouts[FindPayoutByDisbursement(db.payouts, id).value].status == PayoutModel.Completed
    ensures var k := FindPayoutByDisbursement(db.payouts, id).value;
            var r := DisbursementWebhookStep(db, token, token, DisbursementCallback(id, Some("FAILED"), amount), mailDelivered);
            && r.reply == Respond(200, "Webhook processed")
            && r.db.payouts[k].status == PayoutModel.Failed
            && r.db.campaigns == db.campaigns
  {
    assert ToLower("FAILED") == "failed";
  }

  /** A `COMPLETED` callback for a campaign whose creator no longer exists
      sends no e-mail and still settles, whether or not mail could be sent. */
  lemma SettlesWithoutCreator(db: Db, token: Option<string>, body: DisbursementCallback, mailDelivered: bool)
    requires body.status == Some("COMPLETED")
    requires FindPayoutByDisbursement(db.payouts, body.id).Some?
    requires var p := db.payouts[FindPayoutByDisbursement(db.payouts, body.id).value];
             var c := FindCampaign(db.campaigns, p.campaignId);
             c.Some? && (db.campaigns[c.value].creator.None? ||
                         FindUser(db.users, db.campaigns[c.value].creator.value).None?)
    ensures var k := FindPayoutByDisbursement(db.payouts, body.id).value;
            var c := FindCampaign(db.campaigns, db.payouts[k].campaignId).value;
            var r := DisbursementWebhookStep(db, token, token, body, mailDelivered);
            && r.reply == Respond(200, "Webhook processed") && r.mail.None?
            && r.db.campaigns == db.campaigns[c := Settle(db.campaigns[c], body.amount)]
  {
    assert ToLower("COMPLETED") == "completed";
  }

  /** Settling more than a campaign holds leaves a negative current total. */
  lemma SettleCanOverdraw()
    ensures var c := NewCampaign("c1", "Well", 1000000, Some("m1")).(currentAmount := 500000);
            Settle(c, 700000).currentAmount == -200000 && Settle(c, 700000).payoutAmount == 700000
  {
  }
}
