/** The authentication middleware: the `Authorization: Bearer <token>` header,
    token verification against the user collection, and the two role gates.
    A request/response exchange records what the middleware did to it, in
    order: setting `req.user`, calling `next`, or sending a response. */
module AuthMiddleware {
  import opened Common
  import opened Strings
  import opened UserModel
  import opened Store

  /** What `jwt.verify` makes of a token: a payload (whose `userID` may be
      missing) or an exception.  The signature check itself is not modelled. */
  datatype Verified = Decoded(userId: Option<Id>) | Invalid

  const BearerPrefix: string := "Bearer "

  /** `verifyJWT`'s reading of the `Authorization` header: the token of a
      header that starts with `Bearer `, taken as the second space-separated
      segment. */
  function BearerToken(header: Option<string>): (t: Option<string>)
    ensures t.Some? <==> header.Some? && StartsWith(header.value, BearerPrefix)
    ensures t.Some? ==> ' ' !in t.value
  {
    if header.Some? && StartsWith(header.value, BearerPrefix) then
      assert header.value[6] == BearerPrefix[6] == ' ';
      Some(Split(header.value, ' ')[1])
    else None
  }

  /** A header made of the prefix and a token without spaces yields that token. */
  lemma BearerRoundTrip(token: string)
    requires ' ' !in token
    ensures BearerToken(Some(BearerPrefix + token)) == Some(token)
  {
    var h := BearerPrefix + token;
    assert h[..7] == BearerPrefix;
    assert ' ' !in h[..6];
    assert IndexOf(h, ' ') == 6;
    assert h[7..] == token;
    assert Split(h, ' ') == [h[..6]] + Split(token, ' ');
  }

  /** A token followed by a further space keeps only the part before that space. */
  lemma BearerStopsAtSpace(token: string, rest: string)
    requires ' ' !in token
    ensures BearerToken(Some(BearerPrefix + token + " " + rest)) == Some(token)
  {
    var h := BearerPrefix + token + " " + rest;
    assert h[..7] == BearerPrefix;
    assert h[..6] == "Bearer";
    IndexOfAt(h, ' ', 6);
    var tail := h[7..];
    assert tail == token + " " + rest;
    assert tail[..|token|] == token;
    IndexOfAt(tail, ' ', |token|);
    assert Split(tail, ' ')[0] == token;
  }

  /** How `verifyJWT` ends: with the user it authenticated, or with a 401. */
  datatype AuthResult = Authenticated(user: User) | Denied(reply: Reply)

  /** `verifyJWT`'s decision.  `verify` stands for `jwt.verify` under the
      access-token secret. */
  function Authenticate(db: Db, header: Option<string>, verify: string -> Verified): (r: AuthResult)
    ensures BearerToken(header).None? ==> r == Denied(Respond(401, "Unauthorized: No token provided"))
    ensures r.Denied? ==> r.reply.Respond? && r.reply.status == 401
    ensures r.Authenticated? <==>
              && BearerToken(header).Some?
              && verify(BearerToken(header).value).Decoded?
              && Present(verify(BearerToken(header).value).userId)
              && FindUser(db.users, verify(BearerToken(header).value).userId.value).Some?
    ensures r.Authenticated? ==>
              r.user == db.users[FindUser(db.users, verify(BearerToken(header).value).userId.value).value]
  {
    match BearerToken(header)
    case None => Denied(Respond(401, "Unauthorized: No token provided"))
    case Some(token) =>
      match verify(token)
      case Invalid => Denied(Respond(401, "Unauthorized: Token verification failed"))
      case Decoded(userId) =>
        if !Present(userId) then Denied(Respond(401, "Unauthorized: Invalid token payload"))
        else
          match FindUser(db.users, userId.value)
          case None => Denied(Respond(401, "Unauthorized: User not found"))
          case Some(k) => Authenticated(db.users[k])
  }

  /** The failure messages, each for its own cause. */
  lemma DenialReasons(db: Db, header: Option<string>, verify: string -> Verified)
    requires BearerToken(header).Some?
    ensures var v := verify(BearerToken(header).value);
            var r := Authenticate(db, header, verify);
            && (v.Invalid? ==> r == Denied(Respond(401, "Unauthorized: Token verification failed")))
            && (v.Decoded? && !Present(v.userId) ==> r == Denied(Respond(401, "Unauthorized: Invalid token payload")))
            && (v.Decoded? && Present(v.userId) && FindUser(db.users, v.userId.value).None? ==>
                  r == Denied(Respond(401, "Unauthorized: User not found")))
  {
  }

  // ============================================================ the exchange

  /** Something the middleware did to the exchange. */
  datatype Event = SetUser(user: User) | Next | Sent(reply: Reply)

  /** One request with its response: `req.user` and the record of what was done. */
  class Exchange {
    var user: Option<User>
    var events: seq<Event>

    constructor ()
      ensures user.None? && events == []
    {
      user := None;
      events := [];
    }
  }

  /** `verifyJWT` as it runs: on success it sets `req.user` and then calls
      `next` once; otherwise it sends the 401 and never calls `next`. */
  method VerifyJwt(ex: Exchange, ledger: Ledger, header: Option<string>, verify: string -> Verified)
    modifies ex
    ensures var a := Authenticate(ledger.View(), header, verify);
            && (a.Authenticated? ==> ex.user == Some(a.user) && ex.events == old(ex.events) + [SetUser(a.user), Next])
            && (a.Denied? ==> ex.user == old(ex.user) && ex.events == old(ex.events) + [Sent(a.reply)])
  {
    var token := BearerToken(header);
    if token.None? {
      ex.events := ex.events + [Sent(Respond(401, "Unauthorized: No token provided"))];
      return;
    }
    var decoded := verify(token.value);
    if decoded.Invalid? {
      ex.events := ex.events + [Sent(Respond(401, "Unauthorized: Token verification failed"))];
      return;
    }
    if !Present(decoded.userId) {
      ex.events := ex.events + [Sent(Respond(401, "Unauthorized: Invalid token payload"))];
      return;
    }
    var k := FindUser(ledger.users, decoded.userId.value);
    if k.None? {
      ex.events := ex.events + [Sent(Respond(401, "Unauthorized: User not found"))];
      return;
    }
    var user := ledger.users[k.value];
    ex.user := Some(user);
    ex.events := ex.events + [SetUser(user)];
    ex.events := ex.events + [Next];
  }

  // ============================================================== role gates

  /** `mitraOnly`: `None` lets the request through (`next`), otherwise the 403 it sends. */
  function MitraOnly(user: Option<User>): (r: Option<Reply>)
    ensures r.None? <==> user.Some? && user.value.role == Mitra
    ensures r.Some? ==> r.value == Respond(403, "Access denied, mitra only")
  {
    if user.Some? && user.value.role == Mitra then None else Some(Respond(403, "Access denied, mitra only"))
  }

  /** `donaturOnly`: `None` lets the request through (`next`), otherwise the 403 it sends. */
  function DonaturOnly(user: Option<User>): (r: Option<Reply>)
    ensures r.None? <==> user.Some? && user.value.role == Donatur
    ensures r.Some? ==> r.value == Respond(403, "Access denied, donatur only")
  {
    if user.Some? && user.value.role == Donatur then None else Some(Respond(403, "Access denied, donatur only"))
  }

  /** No request passes both gates. */
  lemma NoUserPassesBothGates(user: Option<User>)
    ensures MitraOnly(user).Some? || DonaturOnly(user).Some?
  {
  }

  /** A gate as it runs on the exchange: `next` or the 403, `req.user` untouched. */
  method Gate(ex: Exchange, role: Role)
    modifies ex
    ensures var r := if role == Mitra then MitraOnly(old(ex.user)) else DonaturOnly(old(ex.user));
            && ex.user == old(ex.user)
            && ex.events == old(ex.events) + [if r.None? then Next else Sent(r.value)]
  {
    var denial := if role == Mitra then MitraOnly(ex.user) else DonaturOnly(ex.user);
    if denial.None? {
      ex.events := ex.events + [Next];
    } else {
      ex.events := ex.events + [Sent(denial.value)];
    }
  }
}
