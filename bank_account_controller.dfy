/** The bank-account handlers: one account document per owner, holding a list
    of bank entries; an entry is appended only if no existing entry has the
    same three (trimmed) details. */
module BankAccountController {
  import opened Common
  import opened Strings
  import opened BankAccountModel
  import opened Store

  /** The body of a create or add request; every field may be missing. */
  datatype BankRequest = BankRequest(bankCode: Option<string>, accountNumber: Option<string>,
                                     accountHolder: Option<string>)

  /** The three fields the blank check of `createBankAccount` and `addBankAccount` inspects. */
  function Fields(req: BankRequest): seq<Option<string>>
  {
    [req.bankCode, req.accountNumber, req.accountHolder]
  }

  /** Whether an entry has exactly these three details (a missing detail
      matches only a missing one). */
  predicate SameDetails(e: BankEntry, bankCode: Option<string>, accountNumber: Option<string>,
                        accountHolder: Option<string>)
  {
    e.bankCode == bankCode && e.accountNumber == accountNumber && e.accountHolder == accountHolder
  }

  /** Whether some entry of the list has these details. */
  predicate Listed(banks: seq<BankEntry>, bankCode: Option<string>, accountNumber: Option<string>,
                   accountHolder: Option<string>)
  {
    exists i :: 0 <= i < |banks| && SameDetails(banks[i], bankCode, accountNumber, accountHolder)
  }

  /** The invariant the handlers maintain: no two account documents share an owner. */
  predicate OnePerOwner(accounts: seq<BankAccount>)
  {
    forall i, j :: 0 <= i < j < |accounts| ==> accounts[i].owner != accounts[j].owner
  }

  // =================================================================== create

  /** `createBankAccount`.  `accountId` and `entryId` are the fresh `_id`s. */
  function CreateBankAccountStep(db: Db, caller: Id, req: BankRequest, accountId: Id, entryId: Id): (r: Step)
    ensures r.db.users == db.users && r.db.campaigns == db.campaigns && r.db.donations == db.donations
            && r.db.payouts == db.payouts
    ensures AnyBlank(Fields(req)) ==> r == Step(db, Raise(400, "All fields are required"))
    ensures FindBankAccount(db.bankAccounts, caller).Some? ==> r.db == db && !Succeeded(r.reply)
    ensures !AnyBlank(Fields(req)) && FindBankAccount(db.bankAccounts, caller).Some? ==>
              r == Step(db, Raise(400, "Bank account already exists"))
    ensures Succeeded(r.reply) ==> r.reply == Respond(200, "Bank account created successfully")
    ensures Succeeded(r.reply) <==> !AnyBlank(Fields(req)) && FindBankAccount(db.bankAccounts, caller).None?
    ensures !Succeeded(r.reply) ==> r.db == db
    // a new document holds one entry: code and number trimmed, holder as given
    ensures Succeeded(r.reply) ==>
              r.db.bankAccounts == db.bankAccounts + [BankAccount(accountId, caller,
                [BankEntry(entryId, TrimOpt(req.bankCode), TrimOpt(req.accountNumber), req.accountHolder)])]
  {
    if AnyBlank(Fields(req)) then Step(db, Raise(400, "All fields are required"))
    else if FindBankAccount(db.bankAccounts, caller).Some? then Step(db, Raise(400, "Bank account already exists"))
    else
      var entry := BankEntry(entryId, TrimOpt(req.bankCode), TrimOpt(req.accountNumber), req.accountHolder);
      Step(db.(bankAccounts := db.bankAccounts + [BankAccount(accountId, caller, [entry])]),
           Respond(200, "Bank account created successfully"))
  }

  /** `createBankAccount` as the handler runs it. */
  method CreateBankAccount(ledger: Ledger, caller: Id, req: BankRequest, accountId: Id, entryId: Id)
    returns (reply: Reply)
    modifies ledger
    ensures var r := CreateBankAccountStep(old(ledger.View()), caller, req, accountId, entryId);
            ledger.View() == r.db && reply == r.reply
  {
    if AnyBlank(Fields(req)) {
      return Raise(400, "All fields are required");
    }
    var existing := FindBankAccount(ledger.bankAccounts, caller);
    if existing.Some? {
      return Raise(400, "Bank account already exists");
    }
    var entry := BankEntry(entryId, TrimOpt(req.bankCode), TrimOpt(req.accountNumber), req.accountHolder);
    ledger.bankAccounts := ledger.bankAccounts + [BankAccount(accountId, caller, [entry])];
    reply := Respond(200, "Bank account created successfully");
  }

  // ====================================================================== add

  /** `addBankAccount`: the caller's document gets one more entry, all three
      details trimmed, unless an entry with those details is already listed. */
  function AddBankAccountStep(db: Db, caller: Id, req: BankRequest, entryId: Id): (r: Step)
    ensures r.db.users == db.users && r.db.campaigns == db.campaigns && r.db.donations == db.donations
            && r.db.payouts == db.payouts
    ensures AnyBlank(Fields(req)) ==> r == Step(db, Raise(400, "All fields are required"))
    ensures !AnyBlank(Fields(req)) && FindBankAccount(db.bankAccounts, caller).None? ==>
              r == Step(db, Raise(404, "Bank account not found"))
    ensures !AnyBlank(Fields(req)) && FindBankAccount(db.bankAccounts, caller).Some?
            && Listed(db.bankAccounts[FindBankAccount(db.bankAccounts, caller).value].banks,
                      TrimOpt(req.bankCode), TrimOpt(req.accountNumber), TrimOpt(req.accountHolder)) ==>
              r == Step(db, Raise(400, "Bank account already exists"))
    ensures Succeeded(r.reply) ==> r.reply == Respond(200, "Bank account added successfully")
    ensures !Succeeded(r.reply) ==> r.db == db
    ensures Succeeded(r.reply) <==>
              && !AnyBlank(Fields(req))
              && FindBankAccount(db.bankAccounts, caller).Some?
              && !Listed(db.bankAccounts[FindBankAccount(db.bankAccounts, caller).value].banks,
                         TrimOpt(req.bankCode), TrimOpt(req.accountNumber), TrimOpt(req.accountHolder))
    // exactly one trimmed entry appended to the caller's document, nothing else changed
    ensures Succeeded(r.reply) ==>
              var a := FindBankAccount(db.bankAccounts, caller).value;
              var acc := db.bankAccounts[a];
              r.db.bankAccounts == db.bankAccounts[a := acc.(banks := acc.banks +
                [BankEntry(entryId, TrimOpt(req.bankCode), TrimOpt(req.accountNumber), TrimOpt(req.accountHolder))])]
  {
    if AnyBlank(Fields(req)) then Step(db, Raise(400, "All fields are required"))
    else
      match FindBankAccount(db.bankAccounts, caller)
      case None => Step(db, Raise(404, "Bank account not found"))
      case Some(a) =>
        var acc := db.bankAccounts[a];
        var bankCode, accountNumber, accountHolder :=
          TrimOpt(req.bankCode), TrimOpt(req.accountNumber), TrimOpt(req.accountHolder);
        if Listed(acc.banks, bankCode, accountNumber, accountHolder) then
          Step(db, Raise(400, "Bank account already exists"))
        else
          var entry := BankEntry(entryId, bankCode, accountNumber, accountHolder);
          Step(db.(bankAccounts := db.bankAccounts[a := acc.(banks := acc.banks + [entry])]),
               Respond(200, "Bank account added successfully"))
  }

  /** `addBankAccount` as the handler runs it: the `for` loop over the
      document's entries, then the push and the save. */
  method AddBankAccount(ledger: Ledger, caller: Id, req: BankRequest, entryId: Id) returns (reply: Reply)
    modifies ledger
    ensures var r := AddBankAccountStep(old(ledger.View()), caller, req, entryId);
            ledger.View() == r.db && reply == r.reply
  {
    if AnyBlank(Fields(req)) {
      return Raise(400, "All fields are required");
    }
    var a := FindBankAccount(ledger.bankAccounts, caller);
    if a.None? {
      return Raise(404, "Bank account not found");
    }
    var account := ledger.bankAccounts[a.value];
    var bankCode, accountNumber, accountHolder :=
      TrimOpt(req.bankCode), TrimOpt(req.accountNumber), TrimOpt(req.accountHolder);
    var i := 0;
    while i < |account.banks|
      invariant 0 <= i <= |account.banks|
      invariant forall j :: 0 <= j < i ==> !SameDetails(account.banks[j], bankCode, accountNumber, accountHolder)
    {
      var bank := account.banks[i];
      if bank.bankCode == bankCode && bank.accountNumber == accountNumber && bank.accountHolder == accountHolder {
        return Raise(400, "Bank account already exists");
      }
      i := i + 1;
    }
    account := account.(banks := account.banks + [BankEntry(entryId, bankCode, accountNumber, accountHolder)]);
    ledger.bankAccounts := ledger.bankAccounts[a.value := account];
    reply := Respond(200, "Bank account added successfully");
  }

  // ==================================================================== reads

  /** `getBankAccounts`: the documents owned by the caller, and only those. */
  function BankAccountsOf(db: Db, caller: Id): (r: seq<BankAccount>)
    ensures forall a :: a in r <==> a in db.bankAccounts && a.owner == caller
  {
    Filter(db.bankAccounts, (a: BankAccount) => a.owner == caller)
  }

  // =============================================================== properties

  /** Creating and adding keep at most one document per owner. */
  lemma OnePerOwnerPreserved(db: Db, caller: Id, req: BankRequest, accountId: Id, entryId: Id)
    requires OnePerOwner(db.bankAccounts)
    ensures OnePerOwner(CreateBankAccountStep(db, caller, req, accountId, entryId).db.bankAccounts)
    ensures OnePerOwner(AddBankAccountStep(db, caller, req, entryId).db.bankAccounts)
  {
    var created := CreateBankAccountStep(db, caller, req, accountId, entryId).db.bankAccounts;
    if created != db.bankAccounts {
      assert forall i :: 0 <= i < |db.bankAccounts| ==> created[i] == db.bankAccounts[i];
      assert created[|db.bankAccounts|].owner == caller;
    }
    var added := AddBankAccountStep(db, caller, req, entryId).db.bankAccounts;
    assert forall i :: 0 <= i < |added| ==> added[i].owner == db.bankAccounts[i].owner;
  }

  /** With one document per owner, the caller's listing holds nothing or only
      their document. */
  lemma OwnListing(db: Db, caller: Id)
    requires OnePerOwner(db.bankAccounts)
    ensures FindBankAccount(db.bankAccounts, caller).None? ==> forall a :: a !in BankAccountsOf(db, caller)
    ensures FindBankAccount(db.bankAccounts, caller).Some? ==>
              forall a :: a in BankAccountsOf(db, caller) ==>
                a == db.bankAccounts[FindBankAccount(db.bankAccounts, caller).value]
  {
  }

  /** A holder name given with surrounding white space is stored as given by
      `createBankAccount` but compared trimmed by `addBankAccount`, so adding
      the very same details again is accepted as a second entry. */
  lemma UntrimmedHolderEscapesDuplicateCheck(db: Db, caller: Id, accountId: Id, entryId: Id, secondId: Id,
                                             bankCode: string, accountNumber: string, holder: string)
    requires FindBankAccount(db.bankAccounts, caller).None?
    requires Trim(bankCode) != "" && Trim(accountNumber) != "" && Trim(holder) != ""
    requires Trim(holder) != holder
    ensures var req := BankRequest(Some(bankCode), Some(accountNumber), Some(holder));
            var created := CreateBankAccountStep(db, caller, req, accountId, entryId);
            var added := AddBankAccountStep(created.db, caller, req, secondId);
            && created.reply == Respond(200, "Bank account created successfully")
            && added.reply == Respond(200, "Bank account added successfully")
            && added.db.bankAccounts[|db.bankAccounts|].banks ==
                 [BankEntry(entryId, Some(Trim(bankCode)), Some(Trim(accountNumber)), Some(holder)),
                  BankEntry(secondId, Some(Trim(bankCode)), Some(Trim(accountNumber)), Some(Trim(holder)))]
  {
    var req := BankRequest(Some(bankCode), Some(accountNumber), Some(holder));
    FilledNotBlank(bankCode, accountNumber, holder);
    var created := CreateBankAccountStep(db, caller, req, accountId, entryId);
    CreatedAccountFound(db, caller, req, accountId, entryId);
    var n := |db.bankAccounts|;
    var first := BankEntry(entryId, Some(Trim(bankCode)), Some(Trim(accountNumber)), Some(holder));
    assert created.db.bankAccounts[n].banks == [first];
    AddToSingleEntry(created.db, caller, req, secondId, n, first);
  }

  /** A request whose three details are present and not white space only passes the blank check. */
  lemma FilledNotBlank(bankCode: string, accountNumber: string, holder: string)
    requires Trim(bankCode) != "" && Trim(accountNumber) != "" && Trim(holder) != ""
    ensures !AnyBlank(Fields(BankRequest(Some(bankCode), Some(accountNumber), Some(holder))))
  {
    var fields := Fields(BankRequest(Some(bankCode), Some(accountNumber), Some(holder)));
    forall i | 0 <= i < |fields|
      ensures !Blank(fields[i])
    {
      if i == 0 {
        NotBlankWhenFilled(bankCode);
      } else if i == 1 {
        NotBlankWhenFilled(accountNumber);
      } else {
        NotBlankWhenFilled(holder);
      }
    }
    NoFieldBlank(fields);
  }

  /** Adding to an account whose one entry differs from the trimmed request
      succeeds and leaves exactly the two entries. */
  lemma AddToSingleEntry(db: Db, caller: Id, req: BankRequest, entryId: Id, a: nat, e: BankEntry)
    requires !AnyBlank(Fields(req))
    requires FindBankAccount(db.bankAccounts, caller) == Some(a)
    requires db.bankAccounts[a].banks == [e]
    requires !SameDetails(e, TrimOpt(req.bankCode), TrimOpt(req.accountNumber), TrimOpt(req.accountHolder))
    ensures var added := AddBankAccountStep(db, caller, req, entryId);
            && added.reply == Respond(200, "Bank account added successfully")
            && added.db.bankAccounts[a].banks ==
                 [e, BankEntry(entryId, TrimOpt(req.bankCode), TrimOpt(req.accountNumber), TrimOpt(req.accountHolder))]
  {
    assert !Listed(db.bankAccounts[a].banks, TrimOpt(req.bankCode), TrimOpt(req.accountNumber), TrimOpt(req.accountHolder));
  }

  /** The document a successful create appends is the one every later lookup
      of the caller's account finds. */
  lemma CreatedAccountFound(db: Db, caller: Id, req: BankRequest, accountId: Id, entryId: Id)
    requires Succeeded(CreateBankAccountStep(db, caller, req, accountId, entryId).reply)
    ensures var created := CreateBankAccountStep(db, caller, req, accountId, entryId);
            FindBankAccount(created.db.bankAccounts, caller) == Some(|db.bankAccounts|)
  {
    var created := CreateBankAccountStep(db, caller, req, accountId, entryId);
    var n := |db.bankAccounts|;
    assert created.db.bankAccounts[n].owner == caller;
    assert forall j :: 0 <= j < n ==> created.db.bankAccounts[j] == db.bankAccounts[j];
  }
}
