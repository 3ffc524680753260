/** E-mail verification by one-time code: a six-digit code valid for five
    minutes is stored on the user and mailed; presenting it (match first,
    then expiry) marks the user verified and clears the code. */
module VerificationController {
  import opened Common
  import opened Strings
  import opened UserModel
  import opened Store

  /** How long a code stays valid: five minutes, in milliseconds. */
  const OtpLifetime: int := 5 * 60 * 1000

  /** `generateOTP`: `Math.floor(100000 + random * 900000).toString()`, where
      `random` is the value `Math.random()` returned. */
  function GenerateOtp(random: real): (otp: string)
    requires 0.0 <= random < 1.0
    ensures |otp| == 6 && AllDigits(otp)
    ensures 100000 <= DecimalValue(otp) <= 999999
  {
    var n := (100000.0 + random * 900000.0).Floor;
    assert 100000 <= n < 1000000;
    assert Pow10(5) == 100000 && Pow10(6) == 1000000;
    DecimalLength(n, 5);
    DecimalRoundTrip(n);
    NatToDecimal(n)
  }

  // ================================================================ issue

  /** The code e-mail: recipient and code. */
  datatype OtpMail = OtpMail(to: string, otp: string)

  datatype SendOutcome = SendOutcome(db: Db, reply: Reply, mail: Option<OtpMail>)

  /** `sendOtpEmail`: the user found by e-mail gets the code `otp` and the
      expiry `now + 5 min`, replacing any earlier code; the user is saved
      before the mail goes out, so a failed mail leaves the code stored. */
  function SendOtpStep(db: Db, email: Option<string>, otp: string, now: Time, mailDelivered: bool): (r: SendOutcome)
    ensures FindUserByEmail(db.users, email).None? ==> r == SendOutcome(db, Raise(404, "User tidak ditemukan"), None)
    ensures FindUserByEmail(db.users, email).Some? ==>
              var k := FindUserByEmail(db.users, email).value;
              && r.db == db.(users := db.users[k := db.users[k].(otp := Some(otp), otpExpiry := Some(now + OtpLifetime))])
              && r.mail == Some(OtpMail(email.value, otp))
              && r.reply == (if mailDelivered then Respond(200, "OTP terkirim ke email Anda") else Crash(MailFailure))
  {
    match FindUserByEmail(db.users, email)
    case None => SendOutcome(db, Raise(404, "User tidak ditemukan"), None)
    case Some(k) =>
      var saved := db.(users := db.users[k := db.users[k].(otp := Some(otp), otpExpiry := Some(now + OtpLifetime))]);
      SendOutcome(saved, if mailDelivered then Respond(200, "OTP terkirim ke email Anda") else Crash(MailFailure),
                  Some(OtpMail(email.value, otp)))
  }

  /** `sendOtpEmail` as the handler runs it. */
  method SendOtp(ledger: Ledger, email: Option<string>, otp: string, now: Time, mailDelivered: bool)
    returns (reply: Reply, mail: Option<OtpMail>)
    modifies ledger
    ensures var r := SendOtpStep(old(ledger.View()), email, otp, now, mailDelivered);
            ledger.View() == r.db && reply == r.reply && mail == r.mail
  {
    var k := FindUserByEmail(ledger.users, email);
    if k.None? {
      return Raise(404, "User tidak ditemukan"), None;
    }
    var user := ledger.users[k.value];
    user := user.(otp := Some(otp));
    user := user.(otpExpiry := Some(now + OtpLifetime));
    ledger.users := ledger.users[k.value := user];
    mail := Some(OtpMail(email.value, otp));
    if !mailDelivered {
      return Crash(MailFailure), mail;
    }
    reply := Respond(200, "OTP terkirim ke email Anda");
  }

  // =============================================================== verify

  /** `verifyOtpEmail`'s expiry test `Date.now() > user.otpExpiry`; with no
      expiry stored the comparison is false. */
  predicate Expired(u: User, now: Time)
  {
    u.otpExpiry.Some? && now > u.otpExpiry.value
  }

  /** `verifyOtpEmail`: the code must equal the stored one (both may be
      absent), then must not have expired; success marks the user verified
      and clears the code and its expiry. */
  function VerifyOtpStep(db: Db, email: Option<string>, otp: Option<string>, now: Time): (r: Step)
    ensures r.db.campaigns == db.campaigns && r.db.donations == db.donations && r.db.payouts == db.payouts
            && r.db.bankAccounts == db.bankAccounts && |r.db.users| == |db.users|
    ensures FindUserByEmail(db.users, email).None? ==> r == Step(db, Raise(404, "User tidak ditemukan"))
    ensures !Succeeded(r.reply) ==> r.db == db
    // the match check comes first, then the expiry check
    ensures FindUserByEmail(db.users, email).Some? ==>
              var u := db.users[FindUserByEmail(db.users, email).value];
              && (u.otp != otp ==> r.reply == Raise(400, "OTP salah"))
              && (u.otp == otp && Expired(u, now) ==> r.reply == Raise(400, "OTP kadaluarsa"))
              && (Succeeded(r.reply) <==> u.otp == otp && !Expired(u, now))
    ensures Succeeded(r.reply) ==>
              var k := FindUserByEmail(db.users, email).value;
              r.db.users == db.users[k := db.users[k].(verification := true, otp := None, otpExpiry := None)]
  {
    match FindUserByEmail(db.users, email)
    case None => Step(db, Raise(404, "User tidak ditemukan"))
    case Some(k) =>
      var u := db.users[k];
      if u.otp != otp then Step(db, Raise(400, "OTP salah"))
      else if Expired(u, now) then Step(db, Raise(400, "OTP kadaluarsa"))
      else
        Step(db.(users := db.users[k := u.(verification := true, otp := None, otpExpiry := None)]),
             Respond(200, "Email berhasil diverifikasi!"))
  }

  /** `verifyOtpEmail` as the handler runs it. */
  method VerifyOtp(ledger: Ledger, email: Option<string>, otp: Option<string>, now: Time) returns (reply: Reply)
    modifies ledger
    ensures var r := VerifyOtpStep(old(ledger.View()), email, otp, now);
            ledger.View() == r.db && reply == r.reply
  {
    var k := FindUserByEmail(ledger.users, email);
    if k.None? {
      return Raise(404, "User tidak ditemukan");
    }
    var user := ledger.users[k.value];
    if user.otp != otp {
      return Raise(400, "OTP salah");
    }
    if user.otpExpiry.Some? && now > user.otpExpiry.value {
      return Raise(400, "OTP kadaluarsa");
    }
    user := user.(verification := true);
    user := user.(otp := None);
    user := user.(otpExpiry := None);
    ledger.users := ledger.users[k.value := user];
    reply := Respond(200, "Email berhasil diverifikasi!");
  }

  // ============================================================ properties

  /** Changing fields other than `email` keeps every lookup by e-mail where it was. */
  lemma EmailLookupStable(users: seq<User>, k: nat, u: User, email: Option<string>)
    requires k < |users| && u.email == users[k].email
    ensures FindUserByEmail(users[k := u], email) == FindUserByEmail(users, email)
  {
    var after := users[k := u];
    assert forall j :: 0 <= j < |users| ==> after[j].email == users[j].email;
    FindFirstPointwise(users, after, email);
  }

  lemma {:induction false} FindFirstPointwise(a: seq<User>, b: seq<User>, email: Option<string>)
    requires |a| == |b| && forall j :: 0 <= j < |a| ==> a[j].email == b[j].email
    ensures FindUserByEmail(a, email) == FindUserByEmail(b, email)
  {
    var ra, rb := FindUserByEmail(a, email), FindUserByEmail(b, email);
    if ra.Some? && rb.Some? {
      assert !(ra.value < rb.value) && !(rb.value < ra.value);
    }
  }

  /** A code just sent verifies the user up to and including its expiry
      instant and is refused as expired after it; any other code is refused
      as wrong. */
  lemma SentCodeVerifies(db: Db, email: Option<string>, otp: string, sentAt: Time, mailDelivered: bool,
                         presented: Option<string>, now: Time)
    requires FindUserByEmail(db.users, email).Some?
    ensures var sent := SendOtpStep(db, email, otp, sentAt, mailDelivered).db;
            var r := VerifyOtpStep(sent, email, presented, now);
            && (presented != Some(otp) ==> r.reply == Raise(400, "OTP salah"))
            && (presented == Some(otp) && now <= sentAt + OtpLifetime ==> Succeeded(r.reply))
            && (presented == Some(otp) && now > sentAt + OtpLifetime ==> r.reply == Raise(400, "OTP kadaluarsa"))
  {
    var k := FindUserByEmail(db.users, email).value;
    var sent := SendOtpStep(db, email, otp, sentAt, mailDelivered).db;
    EmailLookupStable(db.users, k, sent.users[k], email);
  }

  /** A second code replaces the first: after two sends only the later code verifies. */
  lemma LaterCodeReplacesEarlier(db: Db, email: Option<string>, first: string, second: string,
                                 t1: Time, t2: Time, now: Time)
    requires FindUserByEmail(db.users, email).Some?
    requires first != second
    ensures var once := SendOtpStep(db, email, first, t1, true).db;
            var twice := SendOtpStep(once, email, second, t2, true).db;
            VerifyOtpStep(twice, email, Some(first), now).reply == Raise(400, "OTP salah")
  {
    var k := FindUserByEmail(db.users, email).value;
    var once := SendOtpStep(db, email, first, t1, true).db;
    EmailLookupStable(db.users, k, once.users[k], email);
    SentCodeVerifies(once, email, second, t2, true, Some(first), now);
  }

  /** A code works once: after a successful verification the same code is refused. */
  lemma CodeSingleUse(db: Db, email: Option<string>, otp: string, now: Time, later: Time)
    requires Succeeded(VerifyOtpStep(db, email, Some(otp), now).reply)
    ensures var after := VerifyOtpStep(db, email, Some(otp), now).db;
            VerifyOtpStep(after, email, Some(otp), later).reply == Raise(400, "OTP salah")
  {
    var k := FindUserByEmail(db.users, email).value;
    var after := VerifyOtpStep(db, email, Some(otp), now).db;
    EmailLookupStable(db.users, k, after.users[k], email);
  }

  /** A user who never asked for a code (none stored, no expiry) and presents
      none passes both checks and is marked verified: absent equals absent,
      and no expiry never expires. */
  lemma OmittedCodeVerifies(db: Db, email: Option<string>, now: Time)
    requires FindUserByEmail(db.users, email).Some?
    requires db.users[FindUserByEmail(db.users, email).value].otp.None?
    requires db.users[FindUserByEmail(db.users, email).value].otpExpiry.None?
    ensures var r := VerifyOtpStep(db, email, None, now);
            var k := FindUserByEmail(db.users, email).value;
            r.reply == Respond(200, "Email berhasil diverifikasi!") && r.db.users[k].verification
  {
  }
}
