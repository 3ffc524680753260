# Crowdfunding donation and payout reconciliation, in Dafny

This project models the server of a crowdfunding service, an Express/Mongoose
application. Creators (`mitra`) run campaigns and donors (`donatur`) pay for
them through the Xendit payment gateway. The core is the reconciliation logic.
It covers:

- how a donation is created behind a gateway invoice;
- how the gateway's invoice callback overwrites the donation's status and
  credits the campaign;
- how a donor cancels a pending donation;
- how a creator requests a payout to one of their bank entries;
- how the disbursement callback moves the paid-out amount from the
  campaign's current total to its paid-out total.

The model also covers the smaller state machines of the same server:
bank-entry lists, one-time e-mail codes, the bearer-token middleware with its
role gates, and the refresh-token life cycle (issue at login, rotation on
refresh, removal at logout).

Structure:

- The database is `Store.Db`. It holds one sequence of documents per
  collection, in MongoDB's natural order. `findOne` is the first match in
  that order (`Common.FindFirst`). A query value that is `undefined` is
  given MongoDB's null-match reading, which is an assumption (see
  "## Left out").
- The live database is the class `Store.Ledger`, whose fields are the
  collections.
- Every handler that changes the database has two parts:
  - a pure function `XxxStep` on `Db`, which states what the handler does and
    which the lemmas are about;
  - a method on `Ledger` that performs the handler's steps in the source's
    order. Its `ensures` ties the new state and the reply to that function.
- A handler ends in a `Common.Reply`:
  - `Respond` for a response it sends;
  - `Raise` for a thrown `apiError`;
  - `Crash` for any other exception: a dereference of `undefined`, a schema
    validation failure, a unique-index violation or a failed e-mail.
- Effects outside the process are parameters:
  - gateway calls (`XenditService.HttpOutcome`);
  - JWT verification, bcrypt and HMAC (function-typed parameters);
  - the clock, `Math.random`, fresh ids and whether an e-mail was delivered.

The model follows the code as written. The following properties a reader
might expect of a payment ledger do not hold, and lemmas state what the code
does instead:

- The callbacks do not check whether a record is already in a final state,
  and nothing detects a repeated delivery.
  - A second `PAID` invoice callback credits the campaign again
    (`DonationController.PaidReplayCreditsTwice`).
  - `paid_at` is not tied to the status (`DonationController.PaidAtNotTiedToStatus`).
  - A second `COMPLETED` disbursement callback debits again
    (`PayoutController.CompletedReplayDebitsTwice`).
  - A `FAILED` disbursement callback overwrites a completed payout
    (`PayoutController.FailedAfterCompletedOverwrites`).
- `createPayout` does not compare the requested amount with the campaign's
  totals (`PayoutController.OverdrawAccepted`), and settlement can drive the
  current total below zero (`PayoutController.SettleCanOverdraw`).
- The disbursement callback assigns `completed_at`, which is not a field of
  the payout schema. The completion time is therefore never stored
  (`PayoutController.DisbursementWebhookStep`).
- The record update and the campaign update are not one atomic unit. The
  code saves them separately and in sequence:
  - the disbursement callback saves the payout before the e-mail and the
    campaign update;
  - the invoice callback saves the campaign before the donation.

  The model keeps that order and does not model interleavings.

## Model

| member | source | states |
|---|---|---|
| DonationModel.Create | src/models/donationModel.js:3-65 | a draft is stored iff it passes the schema validators (minimum amount, `qris` only, trimmed message of at most 500 UTF-16 code units, as JavaScript counts `length`, required gateway fields) and its `donation_id` is new; a rejection is a validation fault or a duplicate key; a stored document is valid, `pending`, has no `paid_at`, and holds the trimmed message |
| DonationModel.AstralMessageRefused | src/models/donationModel.js:19-23 | a message of 300 emoji (600 code units) is refused as a validation error, though it has only 300 characters |
| CampaignModel.NewCampaign | src/models/campaignModel.js:29-45 | a new campaign starts `fundraising` with both amounts zero |
| PayoutModel.ParseStatus | src/models/payoutModel.js:16-20 | the status validator accepts exactly the four enum texts, and names back what it accepted |
| PayoutModel.StatusRoundTrip | src/models/payoutModel.js:16-20 | every payout status survives being written and read back |
| PayoutModel.NewPayout | src/models/payoutModel.js:3-31 | a new payout is `pending`, has the creation time as `requestTime` and no completion time |
| UserModel.ParseRole | src/models/userModel.js:44-48 | the role validator accepts exactly `mitra` and `donatur` |
| Store.FindUser | src/controllers/userController.js:9 | `findById` on users returns the first user with that id, or nothing when none has it |
| Store.FindUserByEmail | src/controllers/userController.js:78 | `findOne({ email })` returns the first user with that e-mail, or nothing |
| Store.FindCampaign | src/controllers/donationController.js:38 | `findById` on campaigns returns a campaign with that id, or nothing when none has it |
| Store.FindDonationByExternalId | src/controllers/donationController.js:132-134 | the first donation with that external id, or nothing |
| Store.FindDonation | src/controllers/donationController.js:185 | a donation with that `donation_id`, or nothing |
| Store.FindOwnDonation | src/controllers/donationController.js:316-319 | a donation with that id belonging to the caller, or nothing |
| Store.FindPayoutByDisbursement | src/controllers/payoutController.js:95 | a payout with that disbursement id, or nothing |
| Store.FindBankAccount | src/controllers/bankAccountController.js:19 | the first account document of the owner, or nothing |
| Store.FindBankAccountWithEntry | src/controllers/payoutController.js:29-32 | an account of the owner that holds an entry with the requested `_id`, or nothing |
| Store.FindEntry | src/controllers/payoutController.js:31-38 | the position of the entry with the requested `_id` (the `banks.$` projection) |
| Strings.Trim | src/controllers/bankAccountController.js:15 | `trim` cuts only ECMAScript white space and line terminators (including every Unicode space separator), from both ends, and leaves neither end white |
| Strings.Utf16Length | src/models/donationModel.js:19-23 | JavaScript's `length` of a string: between its characters and twice its characters |
| Strings.Utf16LengthBmp | src/models/donationModel.js:19-23 | the `length` equals the number of characters iff no character lies outside the Basic Multilingual Plane |
| Strings.Utf16LengthConcat | src/models/donationModel.js:19-23 | the `length` of a concatenation is the sum of the lengths |
| Strings.NotBlankWhenFilled | src/controllers/bankAccountController.js:15 | a value that is not empty after `trim` is not blank |
| Strings.NoFieldBlank | src/controllers/bankAccountController.js:15 | a list of fields none of which is blank has no blank field |
| Strings.TrimIdempotent | src/controllers/bankAccountController.js:69-74 | trimming twice is trimming once |
| Strings.TrimFixesTrimmed | src/models/donationModel.js:19-23 | trim leaves a string unchanged iff neither end is white space |
| Strings.TrimEmptyIffAllSpace | src/controllers/bankAccountController.js:15 | a field is blank after trim iff it is all white space |
| Strings.TrimOpt | src/controllers/bankAccountController.js:26 | `field?.trim()` trims a present field and leaves an absent one absent |
| Strings.ToLower | src/controllers/donationController.js:82 | `toLowerCase` keeps the length and lower-cases each ASCII letter |
| Strings.ToUpper | src/controllers/donationController.js:64 | `toUpperCase` keeps the length and upper-cases each ASCII letter |
| Strings.Split | src/middlewares/authMiddleware.js:18 | `split(" ")` yields segments without the separator; a separator yields at least two |
| Strings.SplitJoin | src/middlewares/authMiddleware.js:18 | joining the segments again gives the header back |
| Strings.NatToDecimal | src/controllers/payoutController.js:42 | a number prints as a non-empty string of digits |
| Strings.DecimalRoundTrip | src/controllers/verificationController.js:18 | reading back a printed number gives the number |
| Strings.DecimalLength | src/controllers/verificationController.js:18 | a number between 10^k and 10^(k+1) prints with k+1 digits |
| XenditService.NewService | src/services/xenditService.js:5-13 | the adapter is built iff the secret key is set and non-empty, keeping both settings; otherwise the configuration error |
| XenditService.Wrap | src/services/xenditService.js:73-83 | a call succeeds iff a response arrived, with its data; a failure carries the gateway's error body when there is one, else the error message |
| XenditService.InvoicePayloadFor | src/services/xenditService.js:16-48 | the invoice payload: duration 86400 and method `QRIS` by default, currency IDR, one item priced at the amount, the redirect URLs under the front-end address |
| XenditService.VerifyWebhookSignature | src/services/xenditService.js:161-173 | with no token configured every callback passes; otherwise it passes iff the signature is the HMAC of the raw body |
| XenditService.UnsignedCallbackRefused | src/services/xenditService.js:161-173 | with a token configured, an unsigned callback is refused |
| XenditService.NormaliseStatus | src/services/xenditService.js:179-192 | `PAID`, `EXPIRED` and `PENDING` map to their local statuses, each iff the text matches; every other status is `failed` |
| XenditService.NormaliseNeverCancels | src/services/xenditService.js:179-192 | no callback ever yields `cancelled` |
| XenditService.ProcessWebhookData | src/services/xenditService.js:176-201 | the normalised callback: status mapped, external id and invoice id passed through, `paid_at` kept only when truthy, payload kept verbatim |
| DonationController.CreateDonationStep | src/controllers/donationController.js:24-101 | creation changes nothing or appends exactly one donation, and only on success; success means the invoice was requested and delivered |
| DonationController.InvoiceStage | src/controllers/donationController.js:55-71 | the invoice payload always goes out; a failed call answers 500 and changes nothing; a delivered one goes on to the save |
| DonationController.SaveStage | src/controllers/donationController.js:76-100 | success iff `Donation.create` stores the draft, appending exactly that document; otherwise the create fault with nothing changed |
| DonationController.CreateDonation | src/controllers/donationController.js:24-101 | the handler's steps leave the database, reply and invoice of `CreateDonationStep` |
| DonationController.InvoiceAndSave | src/controllers/donationController.js:57-100 | the invoice call and the save leave the database, reply and invoice of `InvoiceStage` |
| DonationController.CreateRejections | src/controllers/donationController.js:29-71 | every refusal comes before any invoice is requested and changes nothing: missing fields answer 400 "Campaign ID, amount, and payment method are required"; then an amount below the minimum answers 400 "Minimum donation amount is IDR 1,000", an unknown campaign 404 "Campaign not found", a completed campaign 400 "Campaign is already completed" and an unknown donor 404 "Donatur not found", each once the checks before it have passed; a failed invoice call answers 500 |
| DonationController.CreatedDonation | src/controllers/donationController.js:54-88 | a created donation is pending and unpaid, has external id `donation_id + "_" + campaign_id`, the invoice id, URL and expiry returned by the gateway, the message (or ""), the lower-cased method and the anonymity flag, and is valid; the invoice has the same external id and one item at the amount |
| DonationController.CreateReachesInvoice | src/controllers/donationController.js:24-53 | a successful creation had all three fields, an amount of at least the minimum, a campaign that exists and is not completed and a donor that exists, and is decided by the invoice stage |
| DonationController.CreateSuccessPath | src/controllers/donationController.js:55-88 | a successful creation got its invoice delivered, stored exactly the draft built from the request and the gateway's data, and posted the payload for the request's campaign and donor |
| DonationController.CreatedRecord | src/models/donationModel.js:3-65 | an admitted draft is stored with its own fields, pending, unpaid, with the trimmed message, and valid |
| DonationController.AppendKeepsValid | src/controllers/donationController.js:76-88 | storing one more valid donation keeps every stored donation valid |
| DonationController.PayerName | src/controllers/donationController.js:58-65 | the payer name sent to the gateway is "Anonymous Donatur" iff the donation is anonymous, otherwise the donor's full name; the e-mail is the donor's |
| DonationController.UnsupportedMethodRefusedAfterInvoice | src/controllers/donationController.js:29-88 | a payment method other than `qris` passes every check, gets its invoice, and only then fails validation, creating nothing |
| DonationController.Credit | src/controllers/donationController.js:149-163 | crediting adds the amount and marks the campaign completed iff the new total reaches the goal; nothing else changes |
| DonationController.XenditWebhookStep | src/controllers/donationController.js:111-173 | a token mismatch answers 400 and an unknown external id 404, both without change; only donations and campaigns can change; a completed campaign stays completed |
| DonationController.HandleXenditWebhook | src/controllers/donationController.js:111-173 | the handler's steps leave the database and reply of `XenditWebhookStep` |
| DonationController.WebhookOverwritesStatus | src/controllers/donationController.js:141-143 | an authenticated callback for a known donation overwrites its status with the normalised one, whatever it was, stores the payload and touches no other donation |
| DonationController.WebhookCredit | src/controllers/donationController.js:145-164 | `PAID` sets `paid_at` from the callback and credits the donation's campaign if it exists; any other status leaves campaigns and `paid_at` alone |
| DonationController.PaidReplayCreditsTwice | src/controllers/donationController.js:141-166 | the same `PAID` callback delivered twice credits the campaign twice |
| DonationController.GoalReachedScenario | src/controllers/donationController.js:151-160 | 600 000 credited towards a goal of 1 000 000 leaves the campaign fundraising; another 400 000 completes it |
| DonationController.PaidAtNotTiedToStatus | src/controllers/donationController.js:141-146 | a `PAID` callback without `paid_at` leaves a paid donation with no payment time; an `EXPIRED` callback after a paid one keeps the payment time |
| DonationController.CancelDonationStep | src/controllers/donationController.js:312-395 | 404 unless the caller owns the donation; a donation that is not pending answers 400 "Only pending donations can be cancelled" with no gateway call; for a pending one the expiry call is always made; any gateway error other than 404 answers 500 with the error detail and changes nothing; the database changes only by setting that pending donation to cancelled, and that happens iff the expiry call succeeded or answered 404 |
| DonationController.CancelDonation | src/controllers/donationController.js:312-395 | the handler's steps leave the database, reply and expired invoice of `CancelDonationStep` |
| DonationController.ViewOf | src/controllers/donationController.js:193-200 | an anonymous donation shows the anonymous donor; any other shows its donor's username and full name when the donor exists |
| DonationController.DonationStatusOf | src/controllers/donationController.js:182-206 | 404 iff no donation has the id; otherwise 200 "Donation status retrieved successfully" with exactly the view of the first stored donation with that id, masked when anonymous |
| DonationController.PaidDonationsOf | src/controllers/donationController.js:265-268 | exactly the paid donations of the campaign |
| DonationController.CampaignDonations | src/controllers/donationController.js:255-302 | 404 for an unknown campaign; otherwise 200 "Campaign donations retrieved successfully" with every paid donation of the campaign and nothing else, each shown through `ViewOf`: anonymous donors masked, the others with the populated username and full name |
| DonationController.CreateKeepsValid | src/controllers/donationController.js:76-88 | creation keeps every stored donation valid |
| DonationController.WebhookKeepsValid | src/controllers/donationController.js:141-166 | the invoice callback keeps every stored donation valid |
| DonationController.CancelKeepsValid | src/controllers/donationController.js:359-384 | cancellation keeps every stored donation valid |
| DonationController.ListedDonationsValid | src/controllers/donationController.js:265-283 | with every stored donation valid, a campaign listing shows only donations of at least the minimum amount, with the supported method and a message of at most 500 UTF-16 code units |
| DonationController.PaidCreditsAtLeastMinimum | src/controllers/donationController.js:145-152 | with every stored donation valid, a `PAID` callback raises its campaign's current total by at least the minimum donation |
| PayoutController.CampaignOf | src/controllers/payoutController.js:22-23 | a missing campaign id finds nothing; otherwise the campaign lookup |
| PayoutController.CreatePayoutStep | src/controllers/payoutController.js:17-68 | an unknown campaign answers 404 "Campaign not found"; a campaign without a creator crashes with a TypeError; a caller other than the creator gets 404 "Not authorized" before any bank lookup; a missing entry gets 404 "Bank account not found"; the disbursement is requested iff all of these pass; a failed request answers 500; only payouts can change, a failure changes nothing, and a success answers 200 and appends exactly one payout |
| PayoutController.DisburseStage | src/controllers/payoutController.js:41-67 | the disbursement request always goes out; a failed call answers 500 with nothing changed; a delivered one appends the pending payout with the gateway's disbursement id |
| PayoutController.CreatePayout | src/controllers/payoutController.js:17-68 | the handler's steps leave the database, reply and disbursement of `CreatePayoutStep` |
| PayoutController.PayoutAuthorised | src/controllers/payoutController.js:22-62 | a recorded payout is pending, for a campaign the caller created, to an entry of the caller's own account, for the requested amount, with the gateway's id |
| PayoutController.DisbursementTarget | src/controllers/payoutController.js:29-48 | the disbursement goes to the selected entry's bank details, for the requested amount, with reference `payout_<now>_<campaign>` |
| PayoutController.OverdrawAccepted | src/controllers/payoutController.js:41-67 | a request for more than the campaign holds is accepted |
| PayoutController.PayoutsOf | src/controllers/payoutController.js:76-79 | exactly the payouts of the campaign |
| PayoutController.Settle | src/controllers/payoutController.js:113-114 | settling moves the amount from the current total to the paid-out total, keeping their sum |
| PayoutController.DisbursementWebhookStep | src/controllers/payoutController.js:87-119 | a token mismatch answers 401 and an unknown disbursement 404, both without change; a missing status crashes and a status outside the enum fails validation, both without change; otherwise the found payout takes the lower-cased status whatever it held, no other payout changes, and a status other than `COMPLETED` answers 200; each campaign's raised total is kept; funds move and mail goes out only on the exact text `COMPLETED`; completion times never change |
| PayoutController.SettleStage | src/controllers/payoutController.js:104-116 | a missing campaign crashes; a mail is due iff the campaign's creator resolves to a user, and goes to that user's e-mail with the amount and title; an undelivered mail aborts with nothing changed; with the campaign present and no undelivered mail, the reply is 200 and exactly that campaign is settled |
| PayoutController.HandleDisbursementWebhook | src/controllers/payoutController.js:87-119 | the handler's steps leave the database, reply and mail of `DisbursementWebhookStep` |
| PayoutController.SettleCampaign | src/controllers/payoutController.js:103-116 | the settlement steps leave the database, reply and mail of `SettleStage` |
| PayoutController.CompletedSettles | src/controllers/payoutController.js:98-116 | an authenticated `COMPLETED` callback stores the payout as completed and settles its campaign |
| PayoutController.CompletedReplayDebitsTwice | src/controllers/payoutController.js:98-116 | the same `COMPLETED` callback delivered twice moves the amount twice |
| PayoutController.MixedCaseCompletionMovesNoFunds | src/controllers/payoutController.js:98-103 | `Completed` in another letter case stores the payout as completed but moves no funds and sends no mail |
| PayoutController.FailedAfterCompletedOverwrites | src/controllers/payoutController.js:98-100 | a `FAILED` callback for a completed payout stores it as failed and leaves the campaigns alone |
| PayoutController.SettlesWithoutCreator | src/controllers/payoutController.js:103-116 | a `COMPLETED` callback for a campaign whose creator no longer exists sends no mail and still settles |
| PayoutController.SettleCanOverdraw | src/controllers/payoutController.js:113-114 | settling more than the campaign holds leaves a negative current total |
| BankAccountController.CreateBankAccountStep | src/controllers/bankAccountController.js:12-33 | a blank field answers 400 "All fields are required"; then an existing account answers 400 "Bank account already exists" unchanged; success iff nothing is blank and the caller has no account, answering 200 and appending one document whose one entry has code and number trimmed and the holder as given |
| BankAccountController.CreateBankAccount | src/controllers/bankAccountController.js:12-33 | the handler's steps leave the database and reply of `CreateBankAccountStep` |
| BankAccountController.AddBankAccountStep | src/controllers/bankAccountController.js:56-81 | a blank field answers 400 and a missing account 404; an entry with the three trimmed details already listed answers 400 "Bank account already exists" unchanged; success iff none is listed, answering 200 and appending exactly that trimmed entry to the caller's account |
| BankAccountController.AddBankAccount | src/controllers/bankAccountController.js:56-81 | the duplicate scan and the push leave the database and reply of `AddBankAccountStep` |
| BankAccountController.BankAccountsOf | src/controllers/bankAccountController.js:41-47 | exactly the caller's account documents |
| BankAccountController.OnePerOwnerPreserved | src/controllers/bankAccountController.js:19-27 | create and add keep at most one account document per owner |
| BankAccountController.OwnListing | src/controllers/bankAccountController.js:41-47 | with one document per owner, the listing is empty or holds only the caller's one account |
| BankAccountController.UntrimmedHolderEscapesDuplicateCheck | src/controllers/bankAccountController.js:24-74 | creating with a holder that has surrounding white space, then adding the same details, stores two entries |
| BankAccountController.CreatedAccountFound | src/controllers/bankAccountController.js:19-27 | the account a create appends is the one later lookups of the caller find |
| BankAccountController.AddToSingleEntry | src/controllers/bankAccountController.js:63-80 | adding to an account whose one entry differs from the trimmed request succeeds and leaves exactly the old entry followed by the new trimmed one |
| VerificationController.GenerateOtp | src/controllers/verificationController.js:17-19 | the code is six digits, between 100000 and 999999 |
| VerificationController.SendOtpStep | src/controllers/verificationController.js:21-45 | 404 for an unknown e-mail; otherwise the user gets the code with expiry now + 5 minutes, the mail carries it, and a failed mail leaves it stored |
| VerificationController.SendOtp | src/controllers/verificationController.js:21-45 | the handler's steps leave the database, reply and mail of `SendOtpStep` |
| VerificationController.VerifyOtpStep | src/controllers/verificationController.js:47-69 | 404 for an unknown e-mail; a wrong code answers "OTP salah" before expiry is checked; success iff the code matches and has not expired, marking the user verified and clearing code and expiry |
| VerificationController.VerifyOtp | src/controllers/verificationController.js:47-69 | the handler's steps leave the database and reply of `VerifyOtpStep` |
| VerificationController.EmailLookupStable | src/controllers/verificationController.js:32-34 | saving a user's code does not change which user an e-mail finds |
| VerificationController.FindFirstPointwise | src/controllers/verificationController.js:24 | two collections with the same e-mails in the same order answer every e-mail lookup alike |
| VerificationController.SentCodeVerifies | src/controllers/verificationController.js:29-61 | a code just sent verifies up to its expiry instant and is expired after it; any other code is wrong |
| VerificationController.LaterCodeReplacesEarlier | src/controllers/verificationController.js:32-33 | after two sends only the later code verifies |
| VerificationController.CodeSingleUse | src/controllers/verificationController.js:63-66 | after a successful verification the same code is refused |
| VerificationController.OmittedCodeVerifies | src/controllers/verificationController.js:55-63 | a user with no stored code or expiry who presents none is marked verified |
| AuthMiddleware.BearerToken | src/middlewares/authMiddleware.js:14-18 | a token is found iff the header starts with `Bearer `, and it has no space in it |
| AuthMiddleware.BearerRoundTrip | src/middlewares/authMiddleware.js:14-18 | the prefix followed by a space-free token yields that token |
| AuthMiddleware.BearerStopsAtSpace | src/middlewares/authMiddleware.js:18 | a token followed by a space keeps only the part before the space |
| AuthMiddleware.Authenticate | src/middlewares/authMiddleware.js:10-42 | no bearer token answers the no-token 401; every denial is a 401; authenticated iff the token verifies, names a user id and that user exists, and the result is that user |
| AuthMiddleware.DenialReasons | src/middlewares/authMiddleware.js:21-41 | verification failure, a payload without user id and an unknown user each get their own 401 message |
| AuthMiddleware.Exchange.constructor | src/middlewares/authMiddleware.js:10 | a fresh exchange has no user and nothing done to it |
| AuthMiddleware.VerifyJwt | src/middlewares/authMiddleware.js:10-42 | on success `req.user` is set, then `next` is called once; otherwise only the 401 is sent |
| AuthMiddleware.MitraOnly | src/middlewares/authMiddleware.js:50-56 | the request passes iff there is a user with role `mitra`; otherwise the 403 |
| AuthMiddleware.DonaturOnly | src/middlewares/authMiddleware.js:64-70 | the request passes iff there is a user with role `donatur`; otherwise the 403 |
| AuthMiddleware.NoUserPassesBothGates | src/middlewares/authMiddleware.js:50-70 | no request passes both role gates |
| AuthMiddleware.Gate | src/middlewares/authMiddleware.js:50-70 | a gate calls `next` or sends its 403 and leaves `req.user` alone |
| UserController.RegisterStep | src/controllers/userController.js:24-69 | a blank field answers 400; a taken username or e-mail answers 409; past those, a missing username crashes with a TypeError, another missing field or a role outside the enum with a ValidationError, and a username taken only after lower-casing with a duplicate-key error; success iff none of these happens; a failure creates no one; success appends one user with the lower-cased username, the given e-mail, full name and phone, the parsed role, the hashed password, no refresh token, no one-time code and no expiry, unverified |
| UserController.Register | src/controllers/userController.js:24-69 | the handler's steps leave the database and reply of `RegisterStep` |
| UserController.RegisterTwiceConflicts | src/controllers/userController.js:34-40 | registering the same request again answers 409 and creates no one |
| UserController.StoreRefreshToken | src/controllers/userController.js:7-22 | the refresh token is stored on the user `findById` returns; it fails iff there is no such user |
| UserController.IssueTokens | src/controllers/userController.js:7-22 | the token steps leave the database of `StoreRefreshToken`, or the 500 with nothing changed |
| UserController.IdLookupStable | src/controllers/userController.js:14-15 | saving a user's token does not change which user an id finds |
| UserController.LoginStep | src/controllers/userController.js:71-108 | a blank field answers 400 and an unknown e-mail 404; then a missing password crashes, a wrong one answers 401 "Password incorrect", and a failed token store 500; success iff the password matches the stored hash, answering 200 and storing the new refresh token on that user; a failure changes nothing |
| UserController.Login | src/controllers/userController.js:71-108 | the handler's steps leave the database and reply of `LoginStep` |
| UserController.LoginStoresRefreshToken | src/controllers/userController.js:88 | after a successful login the user holds the refresh token just issued |
| UserController.RefreshStep | src/controllers/userController.js:160-196 | no cookie answers 401; every other failure answers the same 403 unchanged; success iff the cookie verifies, names an existing user, and equals that user's stored token, which is then replaced |
| UserController.Refresh | src/controllers/userController.js:160-196 | the handler's steps leave the database and reply of `RefreshStep` |
| UserController.RefreshRotates | src/controllers/userController.js:172-181 | once a refresh succeeds with a new token, the old token is refused with 403 |
| UserController.LogoutStep | src/controllers/userController.js:110-145 | always 200; no cookie or an invalid token changes nothing; a valid token clears the stored refresh token of the user it names, and nothing else changes |
| UserController.Logout | src/controllers/userController.js:110-145 | the handler's steps leave the database and reply of `LogoutStep` |
| UserController.LogoutRevokesRefresh | src/controllers/userController.js:122-127 | after a logout with a valid token, no refresh naming that user succeeds |

## Left out

- HTTP plumbing is not modelled: routing, headers other than the callback token and `Authorization`, cookies as such, cookie options, and the response bodies beyond status and message. The response fields (the created donation summary, the access token, `xendit_status`, the echoed user) are not modelled.
- Network calls to the gateway are not modelled. Each call's outcome is a parameter. `getInvoice` is modelled only through the result wrapper it shares with the other calls, because no core handler calls it.
- Cryptography is not modelled: JWT signing and verification, bcrypt hashing and comparison, and the HMAC. Each is a function-typed parameter.
- The clock, `crypto.randomBytes` and `Math.random` are parameters. `generateDonationId` becomes the given fresh `donationId`. The random value is a real in [0, 1).
- E-mail delivery (nodemailer) is a yes/no parameter. The message text of the e-mails is not modelled.
- Amounts are unbounded integers. The source uses JavaScript numbers (floating point), and a request could send a fractional or non-numeric amount. Request fields of the wrong JSON type are not modelled either (all request strings are strings).
- Dates are not modelled: `paid_at`, `expires_at` and the gateway's expiry date keep the gateway's text. `new Date(...)` parsing and its invalid-date case are not modelled.
- ObjectId casting is not modelled. A malformed id that would throw a cast error is treated as an id that matches nothing.
- Mongoose's schema setters (`trim` and `lowercase` on user fields, `trim` on campaign title) are not modelled, and neither are the setters Mongoose applies to query values. The donation message's `trim` is modelled.
- The `select(...)` projections are not modelled, because they only shape the returned documents. `populate` is modelled only where the two views read the donor's username and full name.
- The sorting, paging and counting of the listings (`getCampaignDonations` and the donor history) are not modelled.
- Concurrency is not modelled: interleaved requests and partial failure between the two saves. Every handler runs to completion on its own.
- Logging (`console.log`/`console.error`) is not modelled.
- Strings.ToLower: only the ASCII letters `A`-`Z` are mapped. JavaScript's `toLowerCase` maps every Unicode letter, and that is not modelled.
- Strings.ToUpper: only the ASCII letters `a`-`z` are mapped. JavaScript's `toUpperCase` maps every Unicode letter (and may lengthen the text, as `ß` becomes `SS`), and that is not modelled.
- UserController.RegisterStep: the 500 branch after the post-create `findById` is left out. The user was just created, so the lookup cannot miss.
- UserController.LogoutStep: the success message embeds the logged-out user document's text form. It is a parameter (`shown`), not its real rendering.
- A query on a field whose value is `undefined` is assumed to match only documents that lack the field (MongoDB's null match). Mongoose may instead drop such a key from the filter and match the first document of the collection; that reading is not modelled. The assumption affects Store.FindUserByEmail (login and `verifyOtpEmail` without an e-mail), Store.FindDonationByExternalId (an invoice callback without `external_id`), Store.FindPayoutByDisbursement (a disbursement callback without an id), Store.FindBankAccountWithEntry and Store.FindEntry (a payout request without an entry id), and UserController.NameOrEmailTaken (registration without a username or an e-mail: the blank check lets an absent field through, so the query is reached; the model then answers with a TypeError or a ValidationError, where the other reading would answer 409 as soon as any user exists).
- PayoutController.CreatePayoutStep: one clock reading `now` stands for both `Date.now()` in the disbursement's external id and `new Date()` in the payout's `requestTime`. The source reads the clock twice, on either side of the gateway call, so the two may differ; that difference is not modelled.
- The disbursement callback's `amount` is assumed present and numeric. A missing amount would turn both campaign totals into `NaN`, and that is not modelled.
- `getDonaturHistory`, `getUserProfile`, `campaignController.js`, the routes, `app.js`, `index.js` and the database connection are not part of this model: they are reads with paging, upload plumbing or wiring.
