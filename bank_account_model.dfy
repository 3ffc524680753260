/** The BankAccount schema: an owner and a list of bank entries.  The entry
    fields use the misspelt option `require`, so none of them is enforced. */
module BankAccountModel {
  import opened Common

  /** One bank entry; `id` is the `_id` Mongoose gives every array element. */
  datatype BankEntry = BankEntry(
    id: Id,
    bankCode: Option<string>,
    accountNumber: Option<string>,
    accountHolder: Option<string>)

  datatype BankAccount = BankAccount(id: Id, owner: Id, banks: seq<BankEntry>)
}
