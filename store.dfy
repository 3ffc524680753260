/** The database the handlers read and write: one collection per model, each
    a sequence of documents in MongoDB's natural (insertion) order, and the
    `findOne` queries the handlers issue.  A query on a field whose value is
    `undefined` is given MongoDB's null-match reading: it finds only documents
    that lack the field.  This is a modelling choice, not a guarantee of the
    driver. */
module Store {
  import opened Common
  import opened DonationModel
  import opened CampaignModel
  import opened PayoutModel
  import opened BankAccountModel
  import opened UserModel

  /** A snapshot of the whole database. */
  datatype Db = Db(
    users: seq<User>,
    campaigns: seq<Campaign>,
    donations: seq<Donation>,
    payouts: seq<Payout>,
    bankAccounts: seq<BankAccount>)

  /** A handler's effect: the database after it ran and its reply. */
  datatype Step = Step(db: Db, reply: Reply)

  /** The live database: each collection is a field that the handlers reassign. */
  class Ledger {
    var users: seq<User>
    var campaigns: seq<Campaign>
    var donations: seq<Donation>
    var payouts: seq<Payout>
    var bankAccounts: seq<BankAccount>

    constructor (db: Db)
      ensures View() == db
    {
      users := db.users;
      campaigns := db.campaigns;
      donations := db.donations;
      payouts := db.payouts;
      bankAccounts := db.bankAccounts;
    }

    /** The current contents of every collection. */
    function View(): Db
      reads this
    {
      Db(users, campaigns, donations, payouts, bankAccounts)
    }
  }

  // ------------------------------------------------------------------- queries

  /** `User.findById(id)`. */
  function FindUser(users: seq<User>, id: Id): (r: Option<nat>)
    ensures r.Some? ==> r.value < |users| && users[r.value].id == id
    ensures r.Some? ==> forall j :: 0 <= j < r.value ==> users[j].id != id
    ensures r.None? ==> forall j :: 0 <= j < |users| ==> users[j].id != id
  {
    FindFirst(users, (u: User) => u.id == id)
  }

  /** `User.findOne({ email })`. */
  function FindUserByEmail(users: seq<User>, email: Option<string>): (r: Option<nat>)
    ensures r.Some? ==> r.value < |users| && Some(users[r.value].email) == email
    ensures r.Some? ==> forall j :: 0 <= j < r.value ==> Some(users[j].email) != email
    ensures r.None? ==> forall j :: 0 <= j < |users| ==> Some(users[j].email) != email
  {
    FindFirst(users, (u: User) => Some(u.email) == email)
  }

  /** `Campaign.findById(id)`. */
  function FindCampaign(campaigns: seq<Campaign>, id: Id): (r: Option<nat>)
    ensures r.Some? ==> r.value < |campaigns| && campaigns[r.value].id == id
    ensures r.None? ==> forall j :: 0 <= j < |campaigns| ==> campaigns[j].id != id
  {
    FindFirst(campaigns, (c: Campaign) => c.id == id)
  }

  /** `Donation.findOne({ xendit_external_id })`. */
  function FindDonationByExternalId(donations: seq<Donation>, externalId: Option<string>): (r: Option<nat>)
    ensures r.Some? ==> r.value < |donations| && Some(donations[r.value].externalId) == externalId
    ensures r.Some? ==> forall j :: 0 <= j < r.value ==> Some(donations[j].externalId) != externalId
    ensures r.None? ==> forall j :: 0 <= j < |donations| ==> Some(donations[j].externalId) != externalId
  {
    FindFirst(donations, (d: Donation) => Some(d.externalId) == externalId)
  }

  /** `Donation.findOne({ donation_id })`. */
  function FindDonation(donations: seq<Donation>, donationId: string): (r: Option<nat>)
    ensures r.Some? ==> r.value < |donations| && donations[r.value].donationId == donationId
    ensures r.None? ==> forall j :: 0 <= j < |donations| ==> donations[j].donationId != donationId
  {
    FindFirst(donations, (d: Donation) => d.donationId == donationId)
  }

  /** `Donation.findOne({ donation_id, donatur_id })`. */
  function FindOwnDonation(donations: seq<Donation>, donationId: string, donor: Id): (r: Option<nat>)
    ensures r.Some? ==> r.value < |donations| && donations[r.value].donationId == donationId
                        && donations[r.value].donorId == donor
    ensures r.None? ==> forall j :: 0 <= j < |donations| ==>
                          donations[j].donationId != donationId || donations[j].donorId != donor
  {
    FindFirst(donations, (d: Donation) => d.donationId == donationId && d.donorId == donor)
  }

  /** `Payout.findOne({ xenditDisbursementID })`. */
  function FindPayoutByDisbursement(payouts: seq<Payout>, disbursementId: Option<string>): (r: Option<nat>)
    ensures r.Some? ==> r.value < |payouts| && payouts[r.value].disbursementId == disbursementId
    ensures r.None? ==> forall j :: 0 <= j < |payouts| ==> payouts[j].disbursementId != disbursementId
  {
    FindFirst(payouts, (p: Payout) => p.disbursementId == disbursementId)
  }

  /** `BankAccount.findOne({ owner })`. */
  function FindBankAccount(accounts: seq<BankAccount>, owner: Id): (r: Option<nat>)
    ensures r.Some? ==> r.value < |accounts| && accounts[r.value].owner == owner
    ensures r.Some? ==> forall j :: 0 <= j < r.value ==> accounts[j].owner != owner
    ensures r.None? ==> forall j :: 0 <= j < |accounts| ==> accounts[j].owner != owner
  {
    FindFirst(accounts, (a: BankAccount) => a.owner == owner)
  }

  /** The position of the entry with `_id` equal to `entryId`. */
  function FindEntry(banks: seq<BankEntry>, entryId: Option<Id>): (r: Option<nat>)
    ensures r.Some? ==> r.value < |banks| && Some(banks[r.value].id) == entryId
    ensures r.None? ==> forall j :: 0 <= j < |banks| ==> Some(banks[j].id) != entryId
  {
    FindFirst(banks, (e: BankEntry) => Some(e.id) == entryId)
  }

  /** Whether the account holds an entry with that `_id`. */
  predicate HoldsEntry(a: BankAccount, entryId: Option<Id>)
  {
    exists j :: 0 <= j < |a.banks| && Some(a.banks[j].id) == entryId
  }

  /** `BankAccount.findOne({ owner, "banks._id": entryId })`. */
  function FindBankAccountWithEntry(accounts: seq<BankAccount>, owner: Id, entryId: Option<Id>): (r: Option<nat>)
    ensures r.Some? ==> r.value < |accounts| && accounts[r.value].owner == owner
                        && HoldsEntry(accounts[r.value], entryId)
    ensures r.None? ==> forall j :: 0 <= j < |accounts| ==>
                          accounts[j].owner != owner || !HoldsEntry(accounts[j], entryId)
  {
    FindFirst(accounts, (a: BankAccount) => a.owner == owner && HoldsEntry(a, entryId))
  }
}
