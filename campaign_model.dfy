/** The Campaign schema: its status enum and the defaults of its amount fields. */
module CampaignModel {
  import opened Common

  /** `status`: one of three values, `fundraising` by default. */
  datatype CampaignStatus = Fundraising | Ongoing | Completed

  /** A stored campaign.  `creator` is not a required field.  No amount field
      has a lower bound. */
  datatype Campaign = Campaign(
    id: Id,
    title: string,
    goalAmount: int,
    creator: Option<Id>,
    currentAmount: int,
    status: CampaignStatus,
    payoutAmount: int)

  /** A campaign as `Campaign.create` stores it from its required fields. */
  function NewCampaign(id: Id, title: string, goalAmount: int, creator: Option<Id>): (c: Campaign)
    ensures c.currentAmount == 0 && c.payoutAmount == 0 && c.status == Fundraising
    ensures c.id == id && c.title == title && c.goalAmount == goalAmount && c.creator == creator
  {
    Campaign(id, title, goalAmount, creator, 0, Fundraising, 0)
  }

  /** Everything ever credited to the campaign: what it still holds plus what was paid out. */
  function Raised(c: Campaign): int
  {
    c.currentAmount + c.payoutAmount
  }
}
