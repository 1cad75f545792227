/**
 * The account lifecycle of `AuthService`: the `user` table and the five
 * operations that read and update it (`register`,
 * `validateAccountVerifyEmail`, `login`, `refreshToken`,
 * `resendAccountVerification`). Each operation is first stated as a
 * function from one table to the next, then implemented by a method of
 * `UserTable` proved to compute exactly that function. The current time
 * (milliseconds), the random verify token and the token pair signed by
 * `generateTokens` are inputs.
 */
module Accounts {
  import opened Wrappers
  import opened Credentials

  /** `1000 * 60 * 15`: a verify token is valid for fifteen minutes. */
  const VerifyTokenTtl: int := 1000 * 60 * 15

  /** `1000 * 60 * 60 * 24 * 7`: a refresh token is valid for seven days. */
  const RefreshTokenTtl: int := 1000 * 60 * 60 * 24 * 7

  /** A row of the `user` table; timestamps are milliseconds. */
  datatype User = User(
    id: nat, email: string, username: string, password: string,
    emailVerified: bool, isDeleted: bool,
    verifyToken: Option<string>, verifyTokenExp: Option<int>,
    refreshToken: Option<string>, refreshTokenExp: Option<int>,
    resetTokenExp: Option<int>)

  /** The `user` table and the generator of fresh user ids. */
  datatype Users = Users(rows: seq<User>, nextId: nat)

  /** `BadRequestException`, `NotFoundException`, a throw from `argon.verify`, a throw from `jwtService.verify`. */
  datatype AuthError = BadRequest(message: string) | NotFound(message: string) | HashFailure | TokenRejected

  /** The verification mail: recipient, greeting name, and the token and user id of its link. */
  datatype Mail = Mail(to: string, userName: string, token: string, uid: nat)

  /** A success response, with the mail it sends and the access token it returns. */
  datatype Reply = Reply(message: string, mail: Option<Mail>, accessToken: Option<string>)

  /** The access and refresh tokens `generateTokens` signs. */
  datatype TokenPair = TokenPair(access: string, refresh: string)

  /** The outcome of one operation and the table it leaves. */
  datatype Transition = Transition(result: Result<Reply, AuthError>, after: Users)

  /** Ids are increasing and below the generator, and emails are unique. */
  ghost predicate WellFormed(u: Users) {
    && (forall i, j :: 0 <= i < j < |u.rows| ==> u.rows[i].id < u.rows[j].id && u.rows[i].email != u.rows[j].email)
    && (forall i :: 0 <= i < |u.rows| ==> u.rows[i].id < u.nextId)
  }

  /** A nullable string column is truthy: present and not empty. */
  predicate Present(s: Option<string>) {
    s.Some? && s.value != ""
  }

  // ---------------------------------------------------------------- queries

  /** `findUnique({ where: { email } })`: the position of the row with that email. */
  function IndexOfEmail(rows: seq<User>, email: string): (r: Option<nat>)
    ensures r.Some? ==> r.value < |rows| && rows[r.value].email == email
    ensures r.Some? ==> forall k :: 0 <= k < r.value ==> rows[k].email != email
    ensures r.None? <==> forall k :: 0 <= k < |rows| ==> rows[k].email != email
  {
    if |rows| == 0 then None
    else if rows[0].email == email then Some(0)
    else match IndexOfEmail(rows[1..], email)
      case None => None
      case Some(k) => Some(k + 1)
  }

  /** `findUnique({ where: { id } })`: the position of the row with that id. */
  function IndexOfId(rows: seq<User>, id: nat): (r: Option<nat>)
    ensures r.Some? ==> r.value < |rows| && rows[r.value].id == id
    ensures r.Some? ==> forall k :: 0 <= k < r.value ==> rows[k].id != id
    ensures r.None? <==> forall k :: 0 <= k < |rows| ==> rows[k].id != id
  {
    if |rows| == 0 then None
    else if rows[0].id == id then Some(0)
    else match IndexOfId(rows[1..], id)
      case None => None
      case Some(k) => Some(k + 1)
  }

  /** `findUnique({ where: { email, emailVerified: verified, isDeleted: false } })`. */
  function FindByEmail(rows: seq<User>, email: string, verified: bool): (r: Option<nat>)
    ensures r.Some? ==> && r.value < |rows| && rows[r.value].email == email
                        && rows[r.value].emailVerified == verified && !rows[r.value].isDeleted
  {
    match IndexOfEmail(rows, email)
    case None => None
    case Some(i) => if rows[i].emailVerified == verified && !rows[i].isDeleted then Some(i) else None
  }

  /** `findUnique({ where: { id, isDeleted: false, emailVerified: true } })`. */
  function FindVerifiedById(rows: seq<User>, id: nat): (r: Option<nat>)
    ensures r.Some? ==> && r.value < |rows| && rows[r.value].id == id
                        && rows[r.value].emailVerified && !rows[r.value].isDeleted
  {
    match IndexOfId(rows, id)
    case None => None
    case Some(i) => if rows[i].emailVerified && !rows[i].isDeleted then Some(i) else None
  }

  /** In a well-formed table the first row with an id is the only one. */
  lemma IndexOfIdUnique(u: Users, i: nat)
    requires WellFormed(u) && i < |u.rows|
    ensures IndexOfId(u.rows, u.rows[i].id) == Some(i)
  {
  }

  /** In a well-formed table `FindByEmail` misses exactly when no row with that email passes the filters. */
  lemma FindByEmailComplete(u: Users, email: string, verified: bool)
    requires WellFormed(u)
    ensures FindByEmail(u.rows, email, verified).None? <==>
              forall k :: 0 <= k < |u.rows| && u.rows[k].email == email ==>
                u.rows[k].emailVerified != verified || u.rows[k].isDeleted
  {
  }

  /** In a well-formed table `FindVerifiedById` misses exactly when no row with that id is verified and live. */
  lemma FindVerifiedByIdComplete(u: Users, id: nat)
    requires WellFormed(u)
    ensures FindVerifiedById(u.rows, id).None? <==>
              forall k :: 0 <= k < |u.rows| && u.rows[k].id == id ==>
                !u.rows[k].emailVerified || u.rows[k].isDeleted
  {
  }

  // --------------------------------------------------------------- register

  /** The row `register` creates: hashed password, hashed verify token, valid for fifteen minutes. */
  function NewUser(id: nat, email: string, username: string, password: string, token: string, now: int): User {
    User(id, email, username, Hash(password), false, false,
         Some(Hash(token)), Some(now + VerifyTokenTtl), None, None, None)
  }

  /** `register`: refuse a known email, else add one unverified user and mail the raw verify token. */
  function RegisterStep(u: Users, email: string, username: string, password: string, token: string, now: int): (r: Transition)
    ensures r.result.Err? <==> exists k :: 0 <= k < |u.rows| && u.rows[k].email == email
    ensures r.result.Err? ==> r.result.error == BadRequest("User already exists") && r.after == u
    ensures r.result.Ok? ==> && r.after.rows == u.rows + [NewUser(u.nextId, email, username, password, token, now)]
                             && r.after.nextId == u.nextId + 1
                             && r.result.value.mail == Some(Mail(email, username, token, u.nextId))
  {
    if IndexOfEmail(u.rows, email).Some? then Transition(Err(BadRequest("User already exists")), u)
    else
      var user := NewUser(u.nextId, email, username, password, token, now);
      Transition(Ok(Reply("User registration successful", Some(Mail(email, username, token, user.id)), None)),
                 Users(u.rows + [user], u.nextId + 1))
  }

  // ------------------------------------------------------------ verification

  /** A user after a successful verification: verified, with no verify token. */
  function Verified(user: User): (r: User)
    ensures r.emailVerified && r.verifyToken.None? && r.verifyTokenExp.None?
    ensures r == user.(emailVerified := true, verifyToken := None, verifyTokenExp := None)
  {
    user.(emailVerified := true, verifyToken := None, verifyTokenExp := None)
  }

  /**
   * `validateAccountVerifyEmail`: NotFound without a user, a verify token
   * or an expiry; then BadRequest for a token that does not match; then
   * BadRequest for an expired one; else the user becomes verified.
   */
  function VerifyStep(u: Users, uid: nat, token: string, now: int): (r: Transition)
    ensures r.result.Err? ==> r.after == u
    ensures r.result == Err(NotFound("User not exist")) <==>
              (IndexOfId(u.rows, uid).None?
               || !Present(u.rows[IndexOfId(u.rows, uid).value].verifyToken)
               || u.rows[IndexOfId(u.rows, uid).value].verifyTokenExp.None?)
    ensures IndexOfId(u.rows, uid).Some? ==>
              var user := u.rows[IndexOfId(u.rows, uid).value];
              Present(user.verifyToken) && user.verifyTokenExp.Some? ==>
                && (r.result == Err(HashFailure) <==> !IsDigest(user.verifyToken.value))
                && (r.result == Err(BadRequest("Tokens are not matched")) <==>
                      IsDigest(user.verifyToken.value) && user.verifyToken.value != Hash(token))
                && (r.result == Err(BadRequest("Token is expired")) <==>
                      user.verifyToken.value == Hash(token) && now > user.verifyTokenExp.value)
    ensures r.result.Ok? <==>
              (&& IndexOfId(u.rows, uid).Some?
               && var user := u.rows[IndexOfId(u.rows, uid).value];
                  user.verifyToken == Some(Hash(token))
                  && user.verifyTokenExp.Some? && now <= user.verifyTokenExp.value)
    ensures r.result.Ok? ==>
              var i := IndexOfId(u.rows, uid).value;
              r.after == Users(u.rows[i := Verified(u.rows[i])], u.nextId)
  {
    match IndexOfId(u.rows, uid)
    case None => Transition(Err(NotFound("User not exist")), u)
    case Some(i) =>
      var user := u.rows[i];
      if !Present(user.verifyToken) || user.verifyTokenExp.None? then Transition(Err(NotFound("User not exist")), u)
      else
        match Match(user.verifyToken.value, token)
        case Err(_) => Transition(Err(HashFailure), u)
        case Ok(matched) =>
          if !matched then Transition(Err(BadRequest("Tokens are not matched")), u)
          else if now > user.verifyTokenExp.value then Transition(Err(BadRequest("Token is expired")), u)
          else Transition(Ok(Reply("Account email verified", None, None)), Users(u.rows[i := Verified(user)], u.nextId))
  }

  // ------------------------------------------------------------------ login

  /** `login` as written: stores the digest of the new refresh token and sets `resetTokenExp`. */
  function LoggedIn(user: User, tokens: TokenPair, now: int): User {
    user.(refreshToken := Some(Hash(tokens.refresh)), resetTokenExp := Some(now + RefreshTokenTtl))
  }

  /**
   * `login`: NotFound unless a verified, not deleted user has that email;
   * BadRequest for a wrong password; else store the refresh token's digest
   * and return the access token.
   */
  function LoginStep(u: Users, email: string, password: string, tokens: TokenPair, now: int): (r: Transition)
    ensures r.result.Err? ==> r.after == u
    ensures r.result == Err(NotFound("User not found!")) <==> FindByEmail(u.rows, email, true).None?
    ensures FindByEmail(u.rows, email, true).Some? ==>
              var stored := u.rows[FindByEmail(u.rows, email, true).value].password;
              && (r.result == Err(HashFailure) <==> !IsDigest(stored))
              && (r.result == Err(BadRequest("Credentials not valid")) <==> IsDigest(stored) && stored != Hash(password))
    ensures r.result.Ok? <==>
              FindByEmail(u.rows, email, true).Some?
              && u.rows[FindByEmail(u.rows, email, true).value].password == Hash(password)
    ensures r.result.Ok? ==>
              && r.result.value.accessToken == Some(tokens.access)
              && var i := FindByEmail(u.rows, email, true).value;
                 && r.after == Users(u.rows[i := LoggedIn(u.rows[i], tokens, now)], u.nextId)
                 && r.after.rows[i].refreshTokenExp == u.rows[i].refreshTokenExp
  {
    match FindByEmail(u.rows, email, true)
    case None => Transition(Err(NotFound("User not found!")), u)
    case Some(i) =>
      match Match(u.rows[i].password, password)
      case Err(_) => Transition(Err(HashFailure), u)
      case Ok(matched) =>
        if !matched then Transition(Err(BadRequest("Credentials not valid")), u)
        else Transition(Ok(Reply("Login Successful!", None, Some(tokens.access))),
                        Users(u.rows[i := LoggedIn(u.rows[i], tokens, now)], u.nextId))
  }

  // ---------------------------------------------------------------- refresh

  /** `refreshToken` as written: stores the new refresh token itself, not its digest. */
  function Refreshed(user: User, tokens: TokenPair, now: int): User {
    user.(refreshToken := Some(tokens.refresh), refreshTokenExp := Some(now + RefreshTokenTtl))
  }

  /**
   * `refreshToken`: NotFound unless a verified, not deleted user with that
   * id has a refresh token and an expiry; BadRequest when the token does
   * not match or has expired; a rejected JWT throws; else store the new
   * refresh token and return the new access token. `jwtValid` is what
   * `jwtService.verify` decides.
   */
  function RefreshStep(u: Users, id: nat, token: string, jwtValid: bool, tokens: TokenPair, now: int): (r: Transition)
    ensures r.result.Err? ==> r.after == u
    ensures r.result == Err(NotFound("User or refresh token not found")) <==>
              (FindVerifiedById(u.rows, id).None?
               || !Present(u.rows[FindVerifiedById(u.rows, id).value].refreshToken)
               || u.rows[FindVerifiedById(u.rows, id).value].refreshTokenExp.None?)
    ensures FindVerifiedById(u.rows, id).Some? ==>
              var user := u.rows[FindVerifiedById(u.rows, id).value];
              Present(user.refreshToken) && user.refreshTokenExp.Some? ==>
                && (r.result == Err(HashFailure) <==> !IsDigest(user.refreshToken.value))
                && (r.result == Err(BadRequest("Tokens are not matched or expired")) <==>
                      IsDigest(user.refreshToken.value)
                      && (user.refreshToken.value != Hash(token) || now > user.refreshTokenExp.value))
                && (r.result == Err(TokenRejected) <==>
                      user.refreshToken.value == Hash(token) && now <= user.refreshTokenExp.value && !jwtValid)
    ensures r.result.Ok? <==>
              (&& FindVerifiedById(u.rows, id).Some?
               && var user := u.rows[FindVerifiedById(u.rows, id).value];
                  user.refreshToken == Some(Hash(token))
                  && user.refreshTokenExp.Some? && now <= user.refreshTokenExp.value
                  && jwtValid)
    ensures r.result.Ok? ==>
              && r.result.value.accessToken == Some(tokens.access)
              && var i := FindVerifiedById(u.rows, id).value;
                 r.after == Users(u.rows[i := Refreshed(u.rows[i], tokens, now)], u.nextId)
  {
    match FindVerifiedById(u.rows, id)
    case None => Transition(Err(NotFound("User or refresh token not found")), u)
    case Some(i) =>
      var user := u.rows[i];
      if !Present(user.refreshToken) || user.refreshTokenExp.None? then
        Transition(Err(NotFound("User or refresh token not found")), u)
      else
        match Match(user.refreshToken.value, token)
        case Err(_) => Transition(Err(HashFailure), u)
        case Ok(matched) =>
          if !matched || now > user.refreshTokenExp.value then
            Transition(Err(BadRequest("Tokens are not matched or expired")), u)
          else if !jwtValid then Transition(Err(TokenRejected), u)
          else Transition(Ok(Reply("New Access token revoked!", None, Some(tokens.access))),
                          Users(u.rows[i := Refreshed(user, tokens, now)], u.nextId))
  }

  // ----------------------------------------------------------------- resend

  /** `resendAccountVerification` as written: the new verify token is the digest of fresh random bytes. */
  function Reissued(user: User, digest: string, now: int): User {
    user.(verifyToken := Some(digest), verifyTokenExp := Some(now + VerifyTokenTtl))
  }

  /**
   * `resendAccountVerification`: NotFound unless an unverified, not deleted
   * user with that email has a verify token and an expiry; BadRequest while
   * the token is still valid; else store the digest of `bytes` as the new
   * token, valid for fifteen minutes, and mail a link carrying that digest.
   */
  function ResendStep(u: Users, email: string, bytes: string, now: int): (r: Transition)
    ensures r.result.Err? ==> r.after == u
    ensures r.result == Err(NotFound("User not found or already verified")) <==>
              (FindByEmail(u.rows, email, false).None?
               || !Present(u.rows[FindByEmail(u.rows, email, false).value].verifyToken)
               || u.rows[FindByEmail(u.rows, email, false).value].verifyTokenExp.None?)
    ensures r.result == Err(BadRequest("Token is valid right now. no need to request new")) <==>
              (&& FindByEmail(u.rows, email, false).Some?
               && var user := u.rows[FindByEmail(u.rows, email, false).value];
                  Present(user.verifyToken) && user.verifyTokenExp.Some? && now <= user.verifyTokenExp.value)
    ensures r.result.Ok? <==>
              (&& FindByEmail(u.rows, email, false).Some?
               && var user := u.rows[FindByEmail(u.rows, email, false).value];
                  Present(user.verifyToken) && user.verifyTokenExp.Some? && now > user.verifyTokenExp.value)
    ensures r.result.Ok? ==>
              var i := FindByEmail(u.rows, email, false).value;
              && r.after == Users(u.rows[i := Reissued(u.rows[i], Hash(bytes), now)], u.nextId)
              && r.result.value.mail == Some(Mail(u.rows[i].email, u.rows[i].username, Hash(bytes), u.rows[i].id))
  {
    match FindByEmail(u.rows, email, false)
    case None => Transition(Err(NotFound("User not found or already verified")), u)
    case Some(i) =>
      var user := u.rows[i];
      if !Present(user.verifyToken) || user.verifyTokenExp.None? then
        Transition(Err(NotFound("User not found or already verified")), u)
      else if !(now > user.verifyTokenExp.value) then
        Transition(Err(BadRequest("Token is valid right now. no need to request new")), u)
      else
        var verifyToken := Hash(bytes);
        Transition(Ok(Reply("Verification email sent!", Some(Mail(user.email, user.username, verifyToken, user.id)), None)),
                   Users(u.rows[i := Reissued(user, verifyToken, now)], u.nextId))
  }

  // ------------------------------------------------------------- lifecycle

  /** An update of row `i` that keeps its id and email keeps the table well formed. */
  lemma UpdateKeepsWellFormed(u: Users, i: nat, user: User)
    requires WellFormed(u) && i < |u.rows|
    requires user.id == u.rows[i].id && user.email == u.rows[i].email
    ensures WellFormed(Users(u.rows[i := user], u.nextId))
  {
  }

  /** Every operation keeps ids increasing and emails unique. */
  lemma RegisterKeepsWellFormed(u: Users, email: string, username: string, password: string, token: string, now: int)
    requires WellFormed(u)
    ensures WellFormed(RegisterStep(u, email, username, password, token, now).after)
  {
    var r := RegisterStep(u, email, username, password, token, now);
    if r.result.Ok? {
      var rows := r.after.rows;
      forall i, j | 0 <= i < j < |rows| ensures rows[i].id < rows[j].id && rows[i].email != rows[j].email {
        if j == |u.rows| {
          assert rows[i] == u.rows[i];
        }
      }
    }
  }

  lemma OperationsKeepWellFormed(u: Users, op: Operation)
    requires WellFormed(u)
    ensures WellFormed(Apply(u, op))
  {
    match op
    case Register(email, username, password, token, now) =>
      RegisterKeepsWellFormed(u, email, username, password, token, now);
    case Verify(uid, token, now) =>
      var r := VerifyStep(u, uid, token, now);
      if r.result.Ok? {
        var i := IndexOfId(u.rows, uid).value;
        UpdateKeepsWellFormed(u, i, Verified(u.rows[i]));
      }
    case Login(email, password, tokens, now) =>
      var r := LoginStep(u, email, password, tokens, now);
      if r.result.Ok? {
        var i := FindByEmail(u.rows, email, true).value;
        UpdateKeepsWellFormed(u, i, LoggedIn(u.rows[i], tokens, now));
      }
    case Refresh(id, token, jwtValid, tokens, now) =>
      var r := RefreshStep(u, id, token, jwtValid, tokens, now);
      if r.result.Ok? {
        var i := FindVerifiedById(u.rows, id).value;
        UpdateKeepsWellFormed(u, i, Refreshed(u.rows[i], tokens, now));
      }
    case Resend(email, bytes, now) =>
      var r := ResendStep(u, email, bytes, now);
      if r.result.Ok? {
        var i := FindByEmail(u.rows, email, false).value;
        UpdateKeepsWellFormed(u, i, Reissued(u.rows[i], Hash(bytes), now));
      }
  }

  /** A call to one of the five operations, with its inputs. */
  datatype Operation =
    | Register(email: string, username: string, password: string, token: string, now: int)
    | Verify(uid: nat, token: string, now: int)
    | Login(email: string, password: string, tokens: TokenPair, now: int)
    | Refresh(id: nat, token: string, jwtValid: bool, tokens: TokenPair, now: int)
    | Resend(email: string, bytes: string, now: int)

  /** The table after one call, whatever its outcome. */
  function Apply(u: Users, op: Operation): Users {
    match op
    case Register(email, username, password, token, now) => RegisterStep(u, email, username, password, token, now).after
    case Verify(uid, token, now) => VerifyStep(u, uid, token, now).after
    case Login(email, password, tokens, now) => LoginStep(u, email, password, tokens, now).after
    case Refresh(id, token, jwtValid, tokens, now) => RefreshStep(u, id, token, jwtValid, tokens, now).after
    case Resend(email, bytes, now) => ResendStep(u, email, bytes, now).after
  }

  /** The table after a sequence of calls, starting from `u`. */
  function Run(u: Users, ops: seq<Operation>): Users
    decreases |ops|
  {
    if |ops| == 0 then u else Run(Apply(u, ops[0]), ops[1..])
  }

  /** The empty table. */
  const Empty: Users := Users([], 0)

  /** The mailed verify token works: right after registering, the link verifies the account until it expires. */
  lemma RegisterThenVerify(u: Users, email: string, username: string, password: string, token: string, now: int, later: int)
    requires WellFormed(u)
    requires RegisterStep(u, email, username, password, token, now).result.Ok?
    requires later <= now + VerifyTokenTtl
    ensures var r := RegisterStep(u, email, username, password, token, now);
            var mail := r.result.value.mail.value;
            && mail.token == token && mail.uid == u.nextId
            && VerifyStep(r.after, mail.uid, mail.token, later).result.Ok?
            && VerifyStep(r.after, mail.uid, mail.token, later).after.rows[|u.rows|].emailVerified
  {
    var r := RegisterStep(u, email, username, password, token, now);
    RegisterKeepsWellFormed(u, email, username, password, token, now);
    IndexOfIdUnique(r.after, |u.rows|);
    MatchHash(token, token);
  }

  /** A verified account cannot be verified again: the token is gone, so the same link now gives NotFound. */
  lemma VerifyTwiceFails(u: Users, uid: nat, token: string, now: int, later: int)
    requires VerifyStep(u, uid, token, now).result.Ok?
    ensures VerifyStep(VerifyStep(u, uid, token, now).after, uid, token, later).result == Err(NotFound("User not exist"))
  {
    var r := VerifyStep(u, uid, token, now);
    var i := IndexOfId(u.rows, uid).value;
    assert IndexOfId(r.after.rows, uid) == Some(i) by {
      IndexOfIdAfterUpdate(u.rows, i, Verified(u.rows[i]), uid);
    }
  }

  /** Updating a row without changing its id does not change where a query by id finds it. */
  lemma {:induction false} IndexOfIdAfterUpdate(rows: seq<User>, i: nat, user: User, id: nat)
    requires i < |rows| && user.id == rows[i].id
    ensures IndexOfId(rows[i := user], id) == IndexOfId(rows, id)
  {
    if |rows| > 0 && rows[0].id != id && i > 0 {
      assert rows[i := user][1..] == rows[1..][i - 1 := user];
      IndexOfIdAfterUpdate(rows[1..], i - 1, user, id);
    }
  }

  // --------------------------------------------------------------- findings

  /** No user has a refresh-token expiry. */
  ghost predicate NoRefreshExpiry(u: Users) {
    forall k :: 0 <= k < |u.rows| ==> u.rows[k].refreshTokenExp.None?
  }

  /** As written, `refreshToken` can never succeed while no user has a refresh-token expiry. */
  lemma RefreshNeedsExpiry(u: Users, id: nat, token: string, jwtValid: bool, tokens: TokenPair, now: int)
    requires NoRefreshExpiry(u)
    ensures RefreshStep(u, id, token, jwtValid, tokens, now).result == Err(NotFound("User or refresh token not found"))
  {
  }

  /**
   * Only `refreshToken` sets `refreshTokenExp`, and it needs one already:
   * every operation keeps the table without refresh-token expiries.
   */
  lemma OperationKeepsNoRefreshExpiry(u: Users, op: Operation)
    requires NoRefreshExpiry(u)
    ensures NoRefreshExpiry(Apply(u, op))
  {
    match op
    case Register(email, username, password, token, now) =>
    case Verify(uid, token, now) =>
    case Login(email, password, tokens, now) =>
    case Refresh(id, token, jwtValid, tokens, now) =>
      RefreshNeedsExpiry(u, id, token, jwtValid, tokens, now);
    case Resend(email, bytes, now) =>
  }

  /**
   * Whatever calls were made since the table was empty (including any
   * number of successful logins), no call to `refreshToken` succeeds.
   */
  lemma {:induction false} RefreshNeverSucceeds(ops: seq<Operation>, id: nat, token: string, jwtValid: bool, tokens: TokenPair, now: int)
    ensures RefreshStep(Run(Empty, ops), id, token, jwtValid, tokens, now).result.Err?
  {
    RunKeepsNoRefreshExpiry(Empty, ops);
    RefreshNeedsExpiry(Run(Empty, ops), id, token, jwtValid, tokens, now);
  }

  lemma {:induction false} RunKeepsNoRefreshExpiry(u: Users, ops: seq<Operation>)
    requires NoRefreshExpiry(u)
    ensures NoRefreshExpiry(Run(u, ops))
    decreases |ops|
  {
    if |ops| > 0 {
      OperationKeepsNoRefreshExpiry(u, ops[0]);
      RunKeepsNoRefreshExpiry(Apply(u, ops[0]), ops[1..]);
    }
  }

  /**
   * As written, a successful refresh stores the new refresh token in the
   * clear, so presenting that token at the next refresh never succeeds:
   * verifying a stored non-digest throws, and a stored digest would have to
   * be the digest of itself.
   */
  lemma RefreshTwiceFails(u: Users, id: nat, token: string, tokens: TokenPair, now: int,
                          jwtValid: bool, next: TokenPair, later: int)
    requires RefreshStep(u, id, token, true, tokens, now).result.Ok?
    ensures RefreshStep(RefreshStep(u, id, token, true, tokens, now).after, id, tokens.refresh, jwtValid, next, later).result.Err?
  {
    var r := RefreshStep(u, id, token, true, tokens, now);
    var i := FindVerifiedById(u.rows, id).value;
    IndexOfIdAfterUpdate(u.rows, i, Refreshed(u.rows[i], tokens, now), id);
    NoSelfMatch(tokens.refresh);
  }

  /** As written, the link `resendAccountVerification` mails carries the stored digest, which never verifies. */
  lemma ResendLinkNeverVerifies(u: Users, email: string, bytes: string, now: int, later: int)
    requires WellFormed(u)
    requires ResendStep(u, email, bytes, now).result.Ok?
    ensures var r := ResendStep(u, email, bytes, now);
            var mail := r.result.value.mail.value;
            VerifyStep(r.after, mail.uid, mail.token, later).result == Err(BadRequest("Tokens are not matched"))
  {
    var i := FindByEmail(u.rows, email, false).value;
    var r := ResendStep(u, email, bytes, now);
    IndexOfIdUnique(u, i);
    IndexOfIdAfterUpdate(u.rows, i, Reissued(u.rows[i], Hash(bytes), now), u.rows[i].id);
    MatchHash(bytes, Hash(bytes));
    assert bytes != Hash(bytes);
  }

  /** `login` as intended: the new refresh token's expiry goes to `refreshTokenExp`. */
  function LoggedInIntended(user: User, tokens: TokenPair, now: int): User {
    user.(refreshToken := Some(Hash(tokens.refresh)), refreshTokenExp := Some(now + RefreshTokenTtl))
  }

  /** `login` with `refreshTokenExp` set instead of `resetTokenExp`. */
  function LoginIntendedStep(u: Users, email: string, password: string, tokens: TokenPair, now: int): (r: Transition)
    ensures r.result.Err? ==> r.after == u
    ensures r.result.Ok? <==>
              FindByEmail(u.rows, email, true).Some?
              && u.rows[FindByEmail(u.rows, email, true).value].password == Hash(password)
    ensures r.result.Ok? ==>
              var i := FindByEmail(u.rows, email, true).value;
              r.after == Users(u.rows[i := LoggedInIntended(u.rows[i], tokens, now)], u.nextId)
  {
    match FindByEmail(u.rows, email, true)
    case None => Transition(Err(NotFound("User not found!")), u)
    case Some(i) =>
      match Match(u.rows[i].password, password)
      case Err(_) => Transition(Err(HashFailure), u)
      case Ok(matched) =>
        if !matched then Transition(Err(BadRequest("Credentials not valid")), u)
        else Transition(Ok(Reply("Login Successful!", None, Some(tokens.access))),
                        Users(u.rows[i := LoggedInIntended(u.rows[i], tokens, now)], u.nextId))
  }

  /** `refreshToken` storing the digest of the new refresh token, as `login` does. */
  function RefreshedIntended(user: User, tokens: TokenPair, now: int): User {
    user.(refreshToken := Some(Hash(tokens.refresh)), refreshTokenExp := Some(now + RefreshTokenTtl))
  }

  function RefreshIntendedStep(u: Users, id: nat, token: string, jwtValid: bool, tokens: TokenPair, now: int): (r: Transition)
    ensures r.result.Err? ==> r.after == u
    ensures r.result.Ok? <==>
              (&& FindVerifiedById(u.rows, id).Some?
               && var user := u.rows[FindVerifiedById(u.rows, id).value];
                  user.refreshToken == Some(Hash(token))
                  && user.refreshTokenExp.Some? && now <= user.refreshTokenExp.value
                  && jwtValid)
    ensures r.result.Ok? ==>
              var i := FindVerifiedById(u.rows, id).value;
              r.after == Users(u.rows[i := RefreshedIntended(u.rows[i], tokens, now)], u.nextId)
  {
    match FindVerifiedById(u.rows, id)
    case None => Transition(Err(NotFound("User or refresh token not found")), u)
    case Some(i) =>
      var user := u.rows[i];
      if !Present(user.refreshToken) || user.refreshTokenExp.None? then
        Transition(Err(NotFound("User or refresh token not found")), u)
      else
        match Match(user.refreshToken.value, token)
        case Err(_) => Transition(Err(HashFailure), u)
        case Ok(matched) =>
          if !matched || now > user.refreshTokenExp.value then
            Transition(Err(BadRequest("Tokens are not matched or expired")), u)
          else if !jwtValid then Transition(Err(TokenRejected), u)
          else Transition(Ok(Reply("New Access token revoked!", None, Some(tokens.access))),
                          Users(u.rows[i := RefreshedIntended(user, tokens, now)], u.nextId))
  }

  /** The intended `login` answers exactly as the written one; only the stored row differs. */
  lemma LoginIntendedAnswersAlike(u: Users, email: string, password: string, tokens: TokenPair, now: int)
    ensures LoginIntendedStep(u, email, password, tokens, now).result == LoginStep(u, email, password, tokens, now).result
  {
  }

  /** The intended `refreshToken` answers exactly as the written one; only the stored row differs. */
  lemma RefreshIntendedAnswersAlike(u: Users, id: nat, token: string, jwtValid: bool, tokens: TokenPair, now: int)
    ensures RefreshIntendedStep(u, id, token, jwtValid, tokens, now).result == RefreshStep(u, id, token, jwtValid, tokens, now).result
  {
  }

  /** With the intended `login`, the refresh token it issues can be exchanged until it expires. */
  lemma LoginThenRefresh(u: Users, email: string, password: string, tokens: TokenPair, now: int,
                         next: TokenPair, later: int)
    requires WellFormed(u)
    requires LoginIntendedStep(u, email, password, tokens, now).result.Ok?
    requires later <= now + RefreshTokenTtl
    ensures var r := LoginIntendedStep(u, email, password, tokens, now);
            var user := u.rows[FindByEmail(u.rows, email, true).value];
            RefreshIntendedStep(r.after, user.id, tokens.refresh, true, next, later).result.Ok?
  {
    var i := FindByEmail(u.rows, email, true).value;
    IndexOfIdUnique(u, i);
    IndexOfIdAfterUpdate(u.rows, i, LoggedInIntended(u.rows[i], tokens, now), u.rows[i].id);
    MatchHash(tokens.refresh, tokens.refresh);
  }

  /** With the intended `refreshToken`, the new refresh token can itself be exchanged until it expires. */
  lemma RefreshChains(u: Users, id: nat, token: string, tokens: TokenPair, now: int, next: TokenPair, later: int)
    requires RefreshIntendedStep(u, id, token, true, tokens, now).result.Ok?
    requires later <= now + RefreshTokenTtl
    ensures RefreshIntendedStep(RefreshIntendedStep(u, id, token, true, tokens, now).after,
                                id, tokens.refresh, true, next, later).result.Ok?
  {
    var i := FindVerifiedById(u.rows, id).value;
    IndexOfIdAfterUpdate(u.rows, i, RefreshedIntended(u.rows[i], tokens, now), id);
    MatchHash(tokens.refresh, tokens.refresh);
  }

  /** `resendAccountVerification` mailing the raw bytes, whose digest it stores. */
  function ResendIntendedStep(u: Users, email: string, bytes: string, now: int): (r: Transition)
    ensures r.result.Err? ==> r.after == u
    ensures r.result.Ok? <==>
              (&& FindByEmail(u.rows, email, false).Some?
               && var user := u.rows[FindByEmail(u.rows, email, false).value];
                  Present(user.verifyToken) && user.verifyTokenExp.Some? && now > user.verifyTokenExp.value)
    ensures r.result.Ok? ==>
              var i := FindByEmail(u.rows, email, false).value;
              && r.after == Users(u.rows[i := Reissued(u.rows[i], Hash(bytes), now)], u.nextId)
              && r.result.value.mail == Some(Mail(u.rows[i].email, u.rows[i].username, bytes, u.rows[i].id))
  {
    match FindByEmail(u.rows, email, false)
    case None => Transition(Err(NotFound("User not found or already verified")), u)
    case Some(i) =>
      var user := u.rows[i];
      if !Present(user.verifyToken) || user.verifyTokenExp.None? then
        Transition(Err(NotFound("User not found or already verified")), u)
      else if !(now > user.verifyTokenExp.value) then
        Transition(Err(BadRequest("Token is valid right now. no need to request new")), u)
      else
        Transition(Ok(Reply("Verification email sent!", Some(Mail(user.email, user.username, bytes, user.id)), None)),
                   Users(u.rows[i := Reissued(user, Hash(bytes), now)], u.nextId))
  }

  /** The intended resend refuses exactly as the written one, and stores the same row. */
  lemma ResendIntendedRefusesAlike(u: Users, email: string, bytes: string, now: int)
    ensures ResendIntendedStep(u, email, bytes, now).after == ResendStep(u, email, bytes, now).after
    ensures ResendIntendedStep(u, email, bytes, now).result.Err? ==>
              ResendIntendedStep(u, email, bytes, now).result == ResendStep(u, email, bytes, now).result
    ensures ResendIntendedStep(u, email, bytes, now).result.Ok? <==> ResendStep(u, email, bytes, now).result.Ok?
  {
  }

  /** With the intended resend, the new link verifies the account until it expires. */
  lemma ResendThenVerify(u: Users, email: string, bytes: string, now: int, later: int)
    requires WellFormed(u)
    requires ResendIntendedStep(u, email, bytes, now).result.Ok?
    requires later <= now + VerifyTokenTtl
    ensures var r := ResendIntendedStep(u, email, bytes, now);
            var mail := r.result.value.mail.value;
            VerifyStep(r.after, mail.uid, mail.token, later).result.Ok?
  {
    var i := FindByEmail(u.rows, email, false).value;
    IndexOfIdUnique(u, i);
    IndexOfIdAfterUpdate(u.rows, i, Reissued(u.rows[i], Hash(bytes), now), u.rows[i].id);
    MatchHash(bytes, bytes);
  }

  // ------------------------------------------------------------------ table

  /** The `user` table as the service updates it, one transaction per call. */
  class UserTable {
    var rows: seq<User>
    var nextId: nat

    function Snapshot(): Users
      reads this
    {
      Users(rows, nextId)
    }

    ghost predicate Valid()
      reads this
    {
      WellFormed(Snapshot())
    }

    constructor ()
      ensures Valid() && Snapshot() == Empty
    {
      rows := [];
      nextId := 0;
    }

    /** `register`. */
    method Register(email: string, username: string, password: string, token: string, now: int)
      returns (r: Result<Reply, AuthError>)
      requires Valid()
      modifies this
      ensures Valid()
      ensures Transition(r, Snapshot()) == RegisterStep(old(Snapshot()), email, username, password, token, now)
    {
      RegisterKeepsWellFormed(Snapshot(), email, username, password, token, now);
      var existing := IndexOfEmail(rows, email);
      if existing.Some? {
        return Err(BadRequest("User already exists"));
      }
      var user := NewUser(nextId, email, username, password, token, now);
      rows := rows + [user];
      nextId := nextId + 1;
      r := Ok(Reply("User registration successful", Some(Mail(user.email, user.username, token, user.id)), None));
    }

    /** `validateAccountVerifyEmail`. */
    method ValidateAccountVerifyEmail(uid: nat, token: string, now: int) returns (r: Result<Reply, AuthError>)
      requires Valid()
      modifies this
      ensures Valid()
      ensures Transition(r, Snapshot()) == VerifyStep(old(Snapshot()), uid, token, now)
    {
      var found := IndexOfId(rows, uid);
      if found.None? {
        return Err(NotFound("User not exist"));
      }
      var i := found.value;
      var user := rows[i];
      if !Present(user.verifyToken) || user.verifyTokenExp.None? {
        return Err(NotFound("User not exist"));
      }
      var matched := Match(user.verifyToken.value, token);
      if matched.Err? {
        return Err(HashFailure);
      }
      if !matched.value {
        return Err(BadRequest("Tokens are not matched"));
      }
      if now > user.verifyTokenExp.value {
        return Err(BadRequest("Token is expired"));
      }
      UpdateKeepsWellFormed(Snapshot(), i, Verified(user));
      rows := rows[i := Verified(user)];
      r := Ok(Reply("Account email verified", None, None));
    }

    /** `login`. */
    method Login(email: string, password: string, tokens: TokenPair, now: int) returns (r: Result<Reply, AuthError>)
      requires Valid()
      modifies this
      ensures Valid()
      ensures Transition(r, Snapshot()) == LoginStep(old(Snapshot()), email, password, tokens, now)
    {
      var found := FindByEmail(rows, email, true);
      if found.None? {
        return Err(NotFound("User not found!"));
      }
      var i := found.value;
      var matched := Match(rows[i].password, password);
      if matched.Err? {
        return Err(HashFailure);
      }
      if !matched.value {
        return Err(BadRequest("Credentials not valid"));
      }
      UpdateKeepsWellFormed(Snapshot(), i, LoggedIn(rows[i], tokens, now));
      rows := rows[i := LoggedIn(rows[i], tokens, now)];
      r := Ok(Reply("Login Successful!", None, Some(tokens.access)));
    }

    /** `refreshToken`. */
    method RefreshToken(id: nat, token: string, jwtValid: bool, tokens: TokenPair, now: int)
      returns (r: Result<Reply, AuthError>)
      requires Valid()
      modifies this
      ensures Valid()
      ensures Transition(r, Snapshot()) == RefreshStep(old(Snapshot()), id, token, jwtValid, tokens, now)
    {
      var found := FindVerifiedById(rows, id);
      if found.None? {
        return Err(NotFound("User or refresh token not found"));
      }
      var i := found.value;
      var user := rows[i];
      if !Present(user.refreshToken) || user.refreshTokenExp.None? {
        return Err(NotFound("User or refresh token not found"));
      }
      var matched := Match(user.refreshToken.value, token);
      if matched.Err? {
        return Err(HashFailure);
      }
      var expired := now > user.refreshTokenExp.value;
      if !matched.value || expired {
        return Err(BadRequest("Tokens are not matched or expired"));
      }
      if !jwtValid {
        return Err(TokenRejected);
      }
      UpdateKeepsWellFormed(Snapshot(), i, Refreshed(user, tokens, now));
      rows := rows[i := Refreshed(user, tokens, now)];
      r := Ok(Reply("New Access token revoked!", None, Some(tokens.access)));
    }

    /** `resendAccountVerification`. */
    method ResendAccountVerification(email: string, bytes: string, now: int) returns (r: Result<Reply, AuthError>)
      requires Valid()
      modifies this
      ensures Valid()
      ensures Transition(r, Snapshot()) == ResendStep(old(Snapshot()), email, bytes, now)
    {
      var found := FindByEmail(rows, email, false);
      if found.None? {
        return Err(NotFound("User not found or already verified"));
      }
      var i := found.value;
      var user := rows[i];
      if !Present(user.verifyToken) || user.verifyTokenExp.None? {
        return Err(NotFound("User not found or already verified"));
      }
      var expired := now > user.verifyTokenExp.value;
      if !expired {
        return Err(BadRequest("Token is valid right now. no need to request new"));
      }
      var verifyToken := Hash(bytes);
      UpdateKeepsWellFormed(Snapshot(), i, Reissued(user, verifyToken, now));
      rows := rows[i := Reissued(user, verifyToken, now)];
      r := Ok(Reply("Verification email sent!", Some(Mail(user.email, user.username, verifyToken, user.id)), None));
    }
  }
}
