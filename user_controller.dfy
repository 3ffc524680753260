/** The account handlers: registration with its blank and uniqueness checks,
    login, and the refresh-token life cycle (issued at login, rotated on
    refresh, cleared at logout).  Token signing and verification and password
    hashing are parameters. */
module UserController {
  import opened Common
  import opened Strings
  import opened UserModel
  import opened Store
  import AuthMiddleware

  /** `jwt.verify` under the refresh-token secret. */
  type RefreshCheck = string -> AuthMiddleware.Verified

  // ============================================================ registration

  /** The body of a registration request; every field may be missing. */
  datatype RegisterRequest = RegisterRequest(
    fullname: Option<string>,
    username: Option<string>,
    email: Option<string>,
    password: Option<string>,
    phone: Option<string>,
    role: Option<string>)

  /** The six fields the blank check of `registerUser` inspects. */
  function RegisterFields(req: RegisterRequest): seq<Option<string>>
  {
    [req.fullname, req.username, req.email, req.password, req.phone, req.role]
  }

  /** Every one of the six fields is present. */
  predicate AllGiven(req: RegisterRequest)
  {
    req.fullname.Some? && req.username.Some? && req.email.Some? && req.password.Some?
    && req.phone.Some? && req.role.Some?
  }

  /** `User.findOne({ $or: [{ username }, { email }] })` finds someone. */
  predicate NameOrEmailTaken(users: seq<User>, username: Option<string>, email: Option<string>)
  {
    exists i :: 0 <= i < |users| && (Some(users[i].username) == username || Some(users[i].email) == email)
  }

  /** Some stored user already has this username (the unique index). */
  predicate UsernameTaken(users: seq<User>, username: string)
  {
    exists i :: 0 <= i < |users| && users[i].username == username
  }

  /** `registerUser`.  `newId` is the fresh `_id`, `hash` the bcrypt hash the
      save hook applies to the password. */
  function RegisterStep(db: Db, req: RegisterRequest, newId: Id, hash: string -> string): (r: Step)
    ensures r.db.campaigns == db.campaigns && r.db.donations == db.donations && r.db.payouts == db.payouts
            && r.db.bankAccounts == db.bankAccounts
    ensures AnyBlank(RegisterFields(req)) ==> r == Step(db, Raise(400, "All fields are required"))
    ensures !AnyBlank(RegisterFields(req)) && NameOrEmailTaken(db.users, req.username, req.email) ==>
              r == Step(db, Raise(409, "username or email already exist"))
    ensures !Succeeded(r.reply) ==> r.db == db
    ensures Succeeded(r.reply) ==>
              && r.reply == Respond(201, "Registration Successfully")
              && !NameOrEmailTaken(db.users, req.username, req.email)
              && req.username.Some? && req.email.Some? && req.password.Some?
              && req.fullname.Some? && req.phone.Some? && req.role.Some?
              && |r.db.users| == |db.users| + 1 && r.db.users[..|db.users|] == db.users
              && var u := r.db.users[|db.users|];
                 && u.id == newId && u.username == ToLower(req.username.value) && Some(u.email) == req.email
                 && u.fullname == req.fullname.value && u.phone == req.phone.value
                 && Some(u.role) == ParseRole(req.role.value)
                 && u.password == hash(req.password.value) && u.refreshToken.None? && !u.verification
                 && u.otp.None? && u.otpExpiry.None?
                 && !UsernameTaken(db.users, u.username)
    // when registration succeeds, and how each other request past the 409 fails
    ensures Succeeded(r.reply) <==>
              && !AnyBlank(RegisterFields(req)) && !NameOrEmailTaken(db.users, req.username, req.email)
              && AllGiven(req) && ParseRole(req.role.value).Some?
              && !UsernameTaken(db.users, ToLower(req.username.value))
    ensures !AnyBlank(RegisterFields(req)) && !NameOrEmailTaken(db.users, req.username, req.email) ==>
              && (req.username.None? ==> r == Step(db, Crash(TypeError)))
              && (req.username.Some? && !AllGiven(req) ==> r == Step(db, Crash(ValidationError)))
              && (AllGiven(req) && ParseRole(req.role.value).None? ==> r == Step(db, Crash(ValidationError)))
              && (AllGiven(req) && ParseRole(req.role.value).Some? && UsernameTaken(db.users, ToLower(req.username.value))
                  ==> r == Step(db, Crash(DuplicateKey)))
  {
    if AnyBlank(RegisterFields(req)) then Step(db, Raise(400, "All fields are required"))
    else if NameOrEmailTaken(db.users, req.username, req.email) then
      Step(db, Raise(409, "username or email already exist"))
    else if req.username.None? then Step(db, Crash(TypeError))
    else if req.fullname.None? || req.email.None? || req.password.None? || req.phone.None? || req.role.None? then
      Step(db, Crash(ValidationError))
    else
      match ParseRole(req.role.value)
      case None => Step(db, Crash(ValidationError))
      case Some(role) =>
        var username := ToLower(req.username.value);
        if UsernameTaken(db.users, username) then Step(db, Crash(DuplicateKey))
        else
          var user := User(newId, username, req.email.value, req.fullname.value, hash(req.password.value),
                           req.phone.value, role, None, false, None, None);
          assert (db.users + [user])[..|db.users|] == db.users;
          Step(db.(users := db.users + [user]), Respond(201, "Registration Successfully"))
  }

  /** `registerUser` as the handler runs it. */
  method Register(ledger: Ledger, req: RegisterRequest, newId: Id, hash: string -> string) returns (reply: Reply)
    modifies ledger
    ensures var r := RegisterStep(old(ledger.View()), req, newId, hash);
            ledger.View() == r.db && reply == r.reply
  {
    if AnyBlank(RegisterFields(req)) {
      return Raise(400, "All fields are required");
    }
    if NameOrEmailTaken(ledger.users, req.username, req.email) {
      return Raise(409, "username or email already exist");
    }
    if req.username.None? {
      return Crash(TypeError);
    }
    if req.fullname.None? || req.email.None? || req.password.None? || req.phone.None? || req.role.None? {
      return Crash(ValidationError);
    }
    var role := ParseRole(req.role.value);
    if role.None? {
      return Crash(ValidationError);
    }
    var username := ToLower(req.username.value);
    if UsernameTaken(ledger.users, username) {
      return Crash(DuplicateKey);
    }
    var user := User(newId, username, req.email.value, req.fullname.value, hash(req.password.value),
                     req.phone.value, role.value, None, false, None, None);
    ledger.users := ledger.users + [user];
    reply := Respond(201, "Registration Successfully");
  }

  /** A second registration with the same request meets the user the first
      one created and is refused with 409, creating no one. */
  lemma RegisterTwiceConflicts(db: Db, req: RegisterRequest, firstId: Id, secondId: Id, hash: string -> string)
    requires Succeeded(RegisterStep(db, req, firstId, hash).reply)
    ensures var after := RegisterStep(db, req, firstId, hash).db;
            RegisterStep(after, req, secondId, hash) == Step(after, Raise(409, "username or email already exist"))
  {
    var after := RegisterStep(db, req, firstId, hash).db;
    var i := |db.users|;
    assert Some(after.users[i].email) == req.email;
    assert NameOrEmailTaken(after.users, req.username, req.email);
  }

  // ================================================================== tokens

  /** `generateAndAccessToken`: stores the issued refresh token on the user
      `findById` returns; `None` when there is no such user (the 500). */
  function StoreRefreshToken(db: Db, userId: Id, token: string): (r: Option<Db>)
    ensures r.None? <==> FindUser(db.users, userId).None?
    ensures r.Some? ==>
              var k := FindUser(db.users, userId).value;
              r.value == db.(users := db.users[k := db.users[k].(refreshToken := Some(token))])
  {
    match FindUser(db.users, userId)
    case None => None
    case Some(k) => Some(db.(users := db.users[k := db.users[k].(refreshToken := Some(token))]))
  }

  /** `generateAndAccessToken` as it runs: the lookup, the assignment, the save. */
  method IssueTokens(ledger: Ledger, userId: Id, token: string) returns (reply: Option<Reply>)
    modifies ledger
    ensures var r := StoreRefreshToken(old(ledger.View()), userId, token);
            && (r.None? ==> reply == Some(Raise(500, "Failed to generate tokens")) && ledger.View() == old(ledger.View()))
            && (r.Some? ==> reply.None? && ledger.View() == r.value)
  {
    var k := FindUser(ledger.users, userId);
    if k.None? {
      return Some(Raise(500, "Failed to generate tokens"));
    }
    var user := ledger.users[k.value];
    user := user.(refreshToken := Some(token));
    ledger.users := ledger.users[k.value := user];
    reply := None;
  }

  /** Changing fields other than `id` keeps every lookup by id where it was. */
  lemma IdLookupStable(users: seq<User>, k: nat, u: User, id: Id)
    requires k < |users| && u.id == users[k].id
    ensures FindUser(users[k := u], id) == FindUser(users, id)
  {
    var after := users[k := u];
    var ra, rb := FindUser(users, id), FindUser(after, id);
    assert forall j :: 0 <= j < |users| ==> after[j].id == users[j].id;
    if ra.Some? && rb.Some? {
      assert !(ra.value < rb.value) && !(rb.value < ra.value);
    }
  }

  // =================================================================== login

  /** `loginUser`.  `compare` stands for `bcrypt.compare`, `refreshToken` for
      the token `generateRefreshToken` signs. */
  function LoginStep(db: Db, email: Option<string>, password: Option<string>,
                     compare: (string, string) -> bool, refreshToken: string): (r: Step)
    ensures AnyBlank([email, password]) ==> r == Step(db, Raise(400, "All fields are required"))
    ensures !AnyBlank([email, password]) && FindUserByEmail(db.users, email).None? ==>
              r == Step(db, Raise(404, "User can't be found"))
    ensures !Succeeded(r.reply) ==> r.db == db
    ensures Succeeded(r.reply) <==>
              && !AnyBlank([email, password])
              && FindUserByEmail(db.users, email).Some? && password.Some?
              && compare(password.value, db.users[FindUserByEmail(db.users, email).value].password)
    ensures Succeeded(r.reply) ==>
              var k := FindUserByEmail(db.users, email).value;
              Some(r.db) == StoreRefreshToken(db, db.users[k].id, refreshToken)
    // past the blank check and the lookup: the missing password, the wrong one,
    // the failed token store and the 200
    ensures !AnyBlank([email, password]) && FindUserByEmail(db.users, email).Some? ==>
              var user := db.users[FindUserByEmail(db.users, email).value];
              && (password.None? ==> r == Step(db, Crash(TypeError)))
              && (password.Some? && !compare(password.value, user.password) ==>
                    r == Step(db, Raise(401, "Password incorrect")))
              && (password.Some? && compare(password.value, user.password)
                  && StoreRefreshToken(db, user.id, refreshToken).None? ==>
                    r == Step(db, Raise(500, "Failed to generate tokens")))
    ensures Succeeded(r.reply) ==> r.reply == Respond(200, "Login Successfully")
  {
    if AnyBlank([email, password]) then Step(db, Raise(400, "All fields are required"))
    else
      match FindUserByEmail(db.users, email)
      case None => Step(db, Raise(404, "User can't be found"))
      case Some(k) =>
        if password.None? then Step(db, Crash(TypeError))
        else if !compare(password.value, db.users[k].password) then Step(db, Raise(401, "Password incorrect"))
        else
          match StoreRefreshToken(db, db.users[k].id, refreshToken)
          case None => Step(db, Raise(500, "Failed to generate tokens"))
          case Some(issued) => Step(issued, Respond(200, "Login Successfully"))
  }

  /** `loginUser` as the handler runs it. */
  method Login(ledger: Ledger, email: Option<string>, password: Option<string>,
               compare: (string, string) -> bool, refreshToken: string) returns (reply: Reply)
    modifies ledger
    ensures var r := LoginStep(old(ledger.View()), email, password, compare, refreshToken);
            ledger.View() == r.db && reply == r.reply
  {
    if AnyBlank([email, password]) {
      return Raise(400, "All fields are required");
    }
    var k := FindUserByEmail(ledger.users, email);
    if k.None? {
      return Raise(404, "User can't be found");
    }
    var user := ledger.users[k.value];
    if password.None? {
      return Crash(TypeError);
    }
    if !compare(password.value, user.password) {
      return Raise(401, "Password incorrect");
    }
    var failure := IssueTokens(ledger, user.id, refreshToken);
    match failure
    case Some(error) => reply := error;
    case None => reply := Respond(200, "Login Successfully");
  }

  /** After a successful login the user holds the refresh token just issued. */
  lemma LoginStoresRefreshToken(db: Db, email: Option<string>, password: Option<string>,
                                compare: (string, string) -> bool, refreshToken: string)
    requires Succeeded(LoginStep(db, email, password, compare, refreshToken).reply)
    ensures var k := FindUserByEmail(db.users, email).value;
            var after := LoginStep(db, email, password, compare, refreshToken).db;
            var j := FindUser(after.users, db.users[k].id);
            j.Some? && after.users[j.value].refreshToken == Some(refreshToken)
  {
    var k := FindUserByEmail(db.users, email).value;
    var id := db.users[k].id;
    var j := FindUser(db.users, id).value;
    var after := LoginStep(db, email, password, compare, refreshToken).db;
    IdLookupStable(db.users, j, after.users[j], id);
  }

  // ================================================================= refresh

  /** `accessRefreshToken`: the cookie must verify, name an existing user and
      equal the token stored on that user; the stored token is then replaced by
      `newRefreshToken`.  The success reply carries only the new access token,
      so its message is empty. */
  function RefreshStep(db: Db, cookie: Option<string>, verify: RefreshCheck, newRefreshToken: string): (r: Step)
    ensures !Present(cookie) ==> r == Step(db, Raise(401, "Refresh token missing"))
    // every failure inside the `try` surfaces as the same 403
    ensures Present(cookie) && !Succeeded(r.reply) ==> r == Step(db, Raise(403, "Invalid or expired refresh token"))
    ensures Succeeded(r.reply) <==>
              && Present(cookie) && verify(cookie.value).Decoded? && verify(cookie.value).userId.Some?
              && FindUser(db.users, verify(cookie.value).userId.value).Some?
              && db.users[FindUser(db.users, verify(cookie.value).userId.value).value].refreshToken == cookie
    ensures Succeeded(r.reply) ==>
              Some(r.db) == StoreRefreshToken(db, verify(cookie.value).userId.value, newRefreshToken)
  {
    if !Present(cookie) then Step(db, Raise(401, "Refresh token missing"))
    else
      var v := verify(cookie.value);
      var k := if v.Decoded? && v.userId.Some? then FindUser(db.users, v.userId.value) else None;
      if k.None? || db.users[k.value].refreshToken != cookie then Step(db, Raise(403, "Invalid or expired refresh token"))
      else Step(StoreRefreshToken(db, v.userId.value, newRefreshToken).value, Respond(200, ""))
  }

  /** `accessRefreshToken` as the handler runs it. */
  method Refresh(ledger: Ledger, cookie: Option<string>, verify: RefreshCheck, newRefreshToken: string)
    returns (reply: Reply)
    modifies ledger
    ensures var r := RefreshStep(old(ledger.View()), cookie, verify, newRefreshToken);
            ledger.View() == r.db && reply == r.reply
  {
    if !Present(cookie) {
      return Raise(401, "Refresh token missing");
    }
    var decoded := verify(cookie.value);
    if decoded.Invalid? || decoded.userId.None? {
      return Raise(403, "Invalid or expired refresh token");
    }
    var k := FindUser(ledger.users, decoded.userId.value);
    if k.None? || ledger.users[k.value].refreshToken != cookie {
      return Raise(403, "Invalid or expired refresh token");
    }
    var user := ledger.users[k.value].(refreshToken := Some(newRefreshToken));
    ledger.users := ledger.users[k.value := user];
    reply := Respond(200, "");
  }

  /** Rotation: once a refresh succeeds with a new token, the old one is refused. */
  lemma RefreshRotates(db: Db, cookie: Option<string>, verify: RefreshCheck, newRefreshToken: string, later: string)
    requires Succeeded(RefreshStep(db, cookie, verify, newRefreshToken).reply)
    requires cookie != Some(newRefreshToken)
    ensures var after := RefreshStep(db, cookie, verify, newRefreshToken).db;
            RefreshStep(after, cookie, verify, later) == Step(after, Raise(403, "Invalid or expired refresh token"))
  {
    var id := verify(cookie.value).userId.value;
    var k := FindUser(db.users, id).value;
    var after := RefreshStep(db, cookie, verify, newRefreshToken).db;
    IdLookupStable(db.users, k, after.users[k], id);
  }

  // ================================================================== logout

  /** `logoutUser`: always 200.  A verifying cookie clears the refresh token of
      the user it names, whatever token that user holds; a missing cookie or
      one that does not verify changes nothing.  `shown` is the text a user
      document turns into inside the template string; an absent user shows as
      "null". */
  function LogoutStep(db: Db, cookie: Option<string>, verify: RefreshCheck, shown: User -> string): (r: Step)
    ensures r.reply.Respond? && r.reply.status == 200
    ensures !Present(cookie) ==> r == Step(db, Respond(200, "Logout successful"))
    ensures Present(cookie) && verify(cookie.value).Invalid? ==> r == Step(db, Respond(200, "Logout handled gracefully"))
    ensures r.db.users != db.users ==>
              && Present(cookie) && verify(cookie.value).Decoded? && verify(cookie.value).userId.Some?
              && FindUser(db.users, verify(cookie.value).userId.value).Some?
    ensures Present(cookie) && verify(cookie.value).Decoded? && verify(cookie.value).userId.Some? ==>
              match FindUser(db.users, verify(cookie.value).userId.value)
              case None => r.db == db
              case Some(k) => r.db == db.(users := db.users[k := db.users[k].(refreshToken := None)])
  {
    if !Present(cookie) then Step(db, Respond(200, "Logout successful"))
    else
      var v := verify(cookie.value);
      if v.Invalid? then Step(db, Respond(200, "Logout handled gracefully"))
      else
        var k := if v.userId.Some? then FindUser(db.users, v.userId.value) else None;
        match k
        case None => Step(db, Respond(200, "Logout successful + null"))
        case Some(k) =>
          var user := db.users[k].(refreshToken := None);
          Step(db.(users := db.users[k := user]), Respond(200, "Logout successful + " + shown(user)))
  }

  /** `logoutUser` as the handler runs it. */
  method Logout(ledger: Ledger, cookie: Option<string>, verify: RefreshCheck, shown: User -> string)
    returns (reply: Reply)
    modifies ledger
    ensures var r := LogoutStep(old(ledger.View()), cookie, verify, shown);
            ledger.View() == r.db && reply == r.reply
  {
    if !Present(cookie) {
      return Respond(200, "Logout successful");
    }
    var decoded := verify(cookie.value);
    if decoded.Invalid? {
      return Respond(200, "Logout handled gracefully");
    }
    var k := if decoded.userId.Some? then FindUser(ledger.users, decoded.userId.value) else None;
    if k.None? {
      return Respond(200, "Logout successful + null");
    }
    var user := ledger.users[k.value].(refreshToken := None);
    ledger.users := ledger.users[k.value := user];
    reply := Respond(200, "Logout successful + " + shown(user));
  }

  /** After a logout with a verifying cookie, no refresh naming that user
      succeeds until the next login: the stored token is gone. */
  lemma LogoutRevokesRefresh(db: Db, cookie: Option<string>, verify: RefreshCheck, shown: User -> string,
                             presented: Option<string>, newRefreshToken: string)
    requires Present(cookie) && verify(cookie.value).Decoded? && verify(cookie.value).userId.Some?
    requires Present(presented) && verify(presented.value) == verify(cookie.value)
    ensures var after := LogoutStep(db, cookie, verify, shown).db;
            RefreshStep(after, presented, verify, newRefreshToken).reply == Raise(403, "Invalid or expired refresh token")
  {
    var id := verify(cookie.value).userId.value;
    var after := LogoutStep(db, cookie, verify, shown).db;
    if FindUser(db.users, id).Some? {
      var k := FindUser(db.users, id).value;
      IdLookupStable(db.users, k, after.users[k], id);
    }
  }
}
