/** The Donation schema: its status enum, minimum amount, message bound,
    required fields and defaults, and what `Donation.create` admits. */
module DonationModel {
  import opened Common
  import opened Strings

  /** `payment_status`: one of five values, `pending` by default. */
  datatype DonationStatus = Pending | Paid | Expired | Cancelled | Failed

  /** The smallest amount a donation may have (IDR). */
  const MinAmount: int := 1000

  /** The longest message a donation may carry after trimming, in UTF-16 code
      units (the `.length` Mongoose's `maxLength` compares). */
  const MaxMessageLength: int := 500

  /** The only payment method the schema admits. */
  const SupportedMethod: string := "qris"

  /** A stored donation document.  `paidAt` and `expiresAt` keep the gateway's
      timestamp text; `webhookData` is the last callback payload, kept verbatim. */
  datatype Donation = Donation(
    campaignId: Id,
    donorId: Id,
    amount: int,
    message: string,
    donationId: string,
    paymentMethod: string,
    status: DonationStatus,
    invoiceId: string,
    invoiceUrl: string,
    externalId: string,
    paidAt: Option<string>,
    expiresAt: string,
    webhookData: Option<InvoiceCallback>,
    isAnonymous: bool)

  /** The schema's constraints on a stored donation. */
  predicate Valid(d: Donation)
  {
    && d.amount >= MinAmount
    && Trimmed(d.message) && Utf16Length(d.message) <= MaxMessageLength
    && d.donationId != ""
    && d.paymentMethod == SupportedMethod
    && d.invoiceId != "" && d.invoiceUrl != "" && d.externalId != ""
    && d.expiresAt != ""
  }

  /** The fields a handler passes to `Donation.create`; the gateway-supplied
      ones may be missing. */
  datatype Draft = Draft(
    campaignId: Id,
    donorId: Id,
    amount: int,
    message: string,
    donationId: string,
    paymentMethod: string,
    invoiceId: Option<string>,
    invoiceUrl: Option<string>,
    externalId: string,
    expiresAt: Option<string>,
    isAnonymous: bool)

  /** The schema validators, run after the `trim` setter on `message`
      (a required string must be present and non-empty). */
  predicate Admissible(d: Draft)
  {
    && d.amount >= MinAmount
    && Utf16Length(Trim(d.message)) <= MaxMessageLength
    && d.donationId != ""
    && d.paymentMethod == SupportedMethod
    && Present(d.invoiceId) && Present(d.invoiceUrl) && d.externalId != ""
    && Present(d.expiresAt)
  }

  /** Whether a document with this `donation_id` is already stored (the unique index). */
  predicate DonationIdTaken(stored: seq<Donation>, donationId: string)
  {
    exists i :: 0 <= i < |stored| && stored[i].donationId == donationId
  }

  /** `Donation.create(draft)`: validation first, then the unique index on
      `donation_id`; a stored document gets the defaults `pending`, no
      `paid_at` and no webhook data. */
  function Create(draft: Draft, stored: seq<Donation>): (r: Saved<Donation>)
    ensures r.Stored? <==> Admissible(draft) && !DonationIdTaken(stored, draft.donationId)
    ensures r.Rejected? ==> r.fault == (if Admissible(draft) then DuplicateKey else ValidationError)
    ensures r.Stored? ==> Valid(r.doc) && !DonationIdTaken(stored, r.doc.donationId)
    ensures r.Stored? ==> r.doc.status == Pending && r.doc.paidAt.None? && r.doc.webhookData.None?
    ensures r.Stored? ==> r.doc.message == Trim(draft.message)
  {
    if !Admissible(draft) then Rejected(ValidationError)
    else if DonationIdTaken(stored, draft.donationId) then Rejected(DuplicateKey)
    else
      Stored(Donation(
        draft.campaignId, draft.donorId, draft.amount, Trim(draft.message),
        draft.donationId, draft.paymentMethod, Pending,
        draft.invoiceId.value, draft.invoiceUrl.value, draft.externalId,
        None, draft.expiresAt.value, None, draft.isAnonymous))
  }

  /** A message of 300 emoji is 600 UTF-16 code units long, so a draft carrying
      it fails validation although it has only 300 characters. */
  lemma AstralMessageRefused(draft: Draft, stored: seq<Donation>)
    requires draft.message == seq(300, _ => '\U{1F600}')
    ensures Create(draft, stored) == Rejected(ValidationError)
  {
    Utf16LengthAstralRun('\U{1F600}', 300);
    assert Trimmed(draft.message);
    TrimFixesTrimmed(draft.message);
  }
}
