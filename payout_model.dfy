/** The Payout schema: its status enum, defaults and field names. */
module PayoutModel {
  import opened Common

  /** `status`: one of four values, `pending` by default. */
  datatype PayoutStatus = Pending | Processing | Completed | Failed

  /** The text form of a status, as stored. */
  function StatusName(s: PayoutStatus): string
  {
    match s
    case Pending => "pending"
    case Processing => "processing"
    case Completed => "completed"
    case Failed => "failed"
  }

  /** The enum validator: which texts `save` accepts as a status. */
  function ParseStatus(name: string): (r: Option<PayoutStatus>)
    ensures r.Some? <==> name in {"pending", "processing", "completed", "failed"}
    ensures r.Some? ==> StatusName(r.value) == name
  {
    if name == "pending" then Some(Pending)
    else if name == "processing" then Some(Processing)
    else if name == "completed" then Some(Completed)
    else if name == "failed" then Some(Failed)
    else None
  }

  /** Every status survives being written out and read back. */
  lemma StatusRoundTrip(s: PayoutStatus)
    ensures ParseStatus(StatusName(s)) == Some(s)
  {
  }

  /** A stored payout.  `amount` is declared with the misspelt option
      `require`, so it is not enforced and may be missing.  The completion
      time field is `completedTime`; the schema has no `completed_at`. */
  datatype Payout = Payout(
    campaignId: Id,
    bankAccountId: Id,
    amount: Option<int>,
    status: PayoutStatus,
    disbursementId: Option<string>,
    requestTime: Time,
    completedTime: Option<Time>)

  /** A payout as `Payout.create` stores it when `status` and `requestTime`
      are left to their defaults (`pending`, the creation time). */
  function NewPayout(campaignId: Id, bankAccountId: Id, amount: Option<int>,
                     disbursementId: Option<string>, now: Time): (p: Payout)
    ensures p.status == Pending && p.requestTime == now && p.completedTime.None?
    ensures p.campaignId == campaignId && p.bankAccountId == bankAccountId
    ensures p.amount == amount && p.disbursementId == disbursementId
  {
    Payout(campaignId, bankAccountId, amount, Pending, disbursementId, now, None)
  }
}
