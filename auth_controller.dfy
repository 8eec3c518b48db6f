/** The account handlers: registration with a one-time password mailed to the user, OTP
    verification, login, and password reset by token. The user table is keyed by email, as
    every handler but the reset looks users up with `findOne({email})`. bcrypt and the JSON
    web token library are given functions; `Math.random()`, the bcrypt salt and the outcome of
    sending mail are parameters. */
module AuthController {
  import opened Common
  import opened JsValues
  import Decimal

  /** A user document. `otp` is `None` once the stored value has been set to null. */
  datatype User = User(
    id: nat,
    name: string,
    email: string,
    phone: string,
    passwordHash: string,
    otp: Option<string>,
    isVerified: bool,
    token: Option<string>)

  /** The users collection: documents by email, and the id the next insert receives. */
  datatype Users = Users(byEmail: map<string, User>, nextId: nat)

  /** Every document sits under its own email, ids are below `nextId`, and no two documents
      share an id. */
  ghost predicate ValidUsers(u: Users) {
    && (forall e | e in u.byEmail :: u.byEmail[e].email == e && u.byEmail[e].id < u.nextId)
    && (forall e1, e2 | e1 in u.byEmail && e2 in u.byEmail && e1 != e2 :: u.byEmail[e1].id != u.byEmail[e2].id)
  }

  /** The payloads the handlers sign: `{email, userId, isVerified: true}` after OTP
      verification, `{id}` at login, `{userId}` for a reset link. */
  datatype Claims = OtpClaims(email: string, userId: nat) | LoginClaims(id: nat) | ResetClaims(userId: nat)

  /** `decoded.userId`; a login token has no such property. */
  function ClaimedUserId(claims: Claims): Option<nat> {
    match claims
    case OtpClaims(_, userId) => Some(userId)
    case LoginClaims(_) => None
    case ResetClaims(userId) => Some(userId)
  }

  /** bcrypt and jsonwebtoken: `hash(password, salt)`, `compare(password, hash)`, `sign` under
      the server's secret, and `verify`, which yields the claims of a valid unexpired token. */
  datatype Libraries = Libraries(
    hash: (string, string) -> string,
    compare: (string, string) -> bool,
    sign: Claims -> string,
    verify: string -> Option<Claims>)

  /** bcrypt's promise: a password matches the hash made from it. */
  ghost predicate HashesMatch(lib: Libraries) {
    forall p, s :: lib.compare(p, lib.hash(p, s))
  }

  /** A hash never equals the password it was made from. */
  ghost predicate HashHidesPassword(lib: Libraries) {
    forall p, s :: lib.hash(p, s) != p
  }

  /** The JSON replies: a message, a message with a token, or the login reply `{token, user}`. */
  datatype Reply =
    | Message(status: int, message: string)
    | TokenIssued(status: int, message: string, token: string)
    | LoggedIn(token: string, user: User)

  const UserExists: Reply := Message(400, "User already exists")
  const Registered: Reply := Message(201, "User Registered Successfully. An OTP has been sent to your email.")
  const ServerError: Reply := Message(500, "Internal Server Error")
  const UserNotFound: Reply := Message(400, "User not found")
  const InvalidOtp: Reply := Message(400, "Invalid OTP")
  const OtpVerifiedMessage: string := "OTP verified successfully"
  const NotVerified: Reply := Message(400, "Please verify your email before logging in.")
  const InvalidCredentials: Reply := Message(400, "Invalid credentials")
  const ResetDone: Reply := Message(200, "Password reset successful. You can now log in.")
  const InvalidResetToken: Reply := Message(400, "Invalid or expired token.")

  // ---------------------------------------------------------------------------------------
  // registerUser

  /** `Math.floor(1000 + Math.random() * 9000).toString()` for a random value `r` in [0, 1). */
  function GenerateOtp(r: real): (otp: string)
    requires 0.0 <= r < 1.0
    ensures |otp| == 4 && Decimal.AllDigits(otp)
    ensures 1000 <= Decimal.ValueOf(otp) <= 9999
  {
    var n := (1000.0 + r * 9000.0).Floor;
    assert 1000 <= n <= 9999;
    Decimal.ShowFourDigits(n);
    Decimal.ValueOfShow(n);
    Decimal.Show(n)
  }

  datatype RegisterBody = RegisterBody(name: string, email: string, password: string, phone: string)

  /** The document a registration stores: the hash of the password and the OTP, not verified. */
  function NewUser(id: nat, body: RegisterBody, otp: string, lib: Libraries, salt: string): (u: User)
    ensures u.id == id && u.name == body.name && u.email == body.email && u.phone == body.phone
    ensures u.otp == Some(otp) && !u.isVerified && u.token.None?
    ensures HashesMatch(lib) ==> lib.compare(body.password, u.passwordHash)
    ensures HashHidesPassword(lib) ==> u.passwordHash != body.password
  {
    User(id, body.name, body.email, body.phone, lib.hash(body.password, salt), Some(otp), false, None)
  }

  /** `registerUser`: refuse an email already present; otherwise store the new user, then mail
      the OTP. The user is stored whether or not the mail goes out. */
  function Register(users: Users, body: RegisterBody, otp: string, lib: Libraries, salt: string, mailSent: bool)
    : (r: (Reply, Users))
    ensures body.email in users.byEmail ==> r == (UserExists, users)
    ensures body.email !in users.byEmail ==>
      && r.1.byEmail == users.byEmail[body.email := NewUser(users.nextId, body, otp, lib, salt)]
      && r.1.nextId == users.nextId + 1
      && r.0 == (if mailSent then Registered else ServerError)
    ensures ValidUsers(users) ==> ValidUsers(r.1)
  {
    if body.email in users.byEmail then (UserExists, users)
    else
      var added := Users(users.byEmail[body.email := NewUser(users.nextId, body, otp, lib, salt)], users.nextId + 1);
      (if mailSent then Registered else ServerError, added)
  }

  /** The stored document holds the OTP and the hash of the password, never the password. */
  lemma RegisterStoresHashNotPassword(users: Users, body: RegisterBody, otp: string, lib: Libraries, salt: string,
                                      mailSent: bool)
    requires HashHidesPassword(lib)
    requires body.email !in users.byEmail
    ensures var stored := Register(users, body, otp, lib, salt, mailSent).1.byEmail[body.email];
            && stored.passwordHash != body.password
            && stored.otp == Some(otp)
            && !stored.isVerified
            && |Register(users, body, otp, lib, salt, mailSent).1.byEmail| == |users.byEmail| + 1
  {
  }

  // ---------------------------------------------------------------------------------------
  // verifyOtpHandler

  /** The stored OTP as JavaScript sees it: a string, or null once used. */
  function StoredOtp(otp: Option<string>): JsVal {
    match otp
    case None => Value(JNull)
    case Some(s) => Value(JStr(s))
  }

  /** Which reading of a handler is meant: `AsWritten` is the code as it stands, `Corrected`
      the evidently intended behaviour where the two differ. */
  datatype Rule = AsWritten | Corrected

  /** How the handler compares OTPs: as written, `user.otp === otp`, under which a stored null
      equals a provided null; corrected, only a provided string equal to a stored one matches. */
  function OtpMatches(rule: Rule, stored: Option<string>, provided: JsVal): (ok: bool)
    ensures rule == Corrected ==> (ok <==> stored.Some? && provided == Value(JStr(stored.value)))
    ensures rule == AsWritten ==> (ok <==> provided == StoredOtp(stored))
  {
    match rule
    case AsWritten => StrictEquals(StoredOtp(stored), provided)
    case Corrected => stored.Some? && StrictEquals(Value(JStr(stored.value)), provided)
  }

  /** The user after a successful verification: verified, OTP cleared, token kept. */
  function Verified(u: User, token: string): (v: User)
    ensures v.isVerified && v.otp.None? && v.token == Some(token)
    ensures v.(isVerified := u.isVerified, otp := u.otp, token := u.token) == u
  {
    u.(isVerified := true, otp := None, token := Some(token))
  }

  /** `verifyOtpHandler` for the body `{email, otp}`, with OTP comparison `rule`. */
  function VerifyOtp(users: Users, email: string, provided: JsVal, lib: Libraries, rule: Rule): (r: (Reply, Users))
    ensures email !in users.byEmail ==> r == (UserNotFound, users)
    ensures email in users.byEmail && !OtpMatches(rule, users.byEmail[email].otp, provided) ==> r == (InvalidOtp, users)
    ensures email in users.byEmail && OtpMatches(rule, users.byEmail[email].otp, provided) ==>
      var u := users.byEmail[email];
      var token := lib.sign(OtpClaims(u.email, u.id));
      && r.0 == TokenIssued(200, OtpVerifiedMessage, token)
      && r.1 == users.(byEmail := users.byEmail[email := Verified(u, token)])
      && r.1.byEmail[email].isVerified && r.1.byEmail[email].otp.None?
    ensures ValidUsers(users) ==> ValidUsers(r.1)
  {
    if email !in users.byEmail then (UserNotFound, users)
    else
      var u := users.byEmail[email];
      if OtpMatches(rule, u.otp, provided) then
        var token := lib.sign(OtpClaims(u.email, u.id));
        (TokenIssued(200, OtpVerifiedMessage, token), users.(byEmail := users.byEmail[email := Verified(u, token)]))
      else
        (InvalidOtp, users)
  }

  /** The OTP mailed at registration verifies the new account. */
  lemma RegisteredOtpVerifies(users: Users, body: RegisterBody, otp: string, lib: Libraries, salt: string, mailSent: bool)
    requires body.email !in users.byEmail
    ensures var registered := Register(users, body, otp, lib, salt, mailSent).1;
            VerifyOtp(registered, body.email, Value(JStr(otp)), lib, Corrected).0.TokenIssued?
  {
  }

  /** With the corrected comparison an OTP is single-use: once a verification succeeded, no
      value whatever verifies that account again, and the table is left as it is. */
  lemma UsedOtpNeverVerifies(users: Users, email: string, provided: JsVal, again: JsVal, lib: Libraries)
    requires VerifyOtp(users, email, provided, lib, Corrected).0.TokenIssued?
    ensures var after := VerifyOtp(users, email, provided, lib, Corrected).1;
            VerifyOtp(after, email, again, lib, Corrected) == (InvalidOtp, after)
  {
  }

  /** As written, the used OTP is stored as null and `null === null`: a body `{email, otp: null}`
      verifies the account again and is issued a fresh token, without knowing any OTP. */
  lemma UsedOtpReplaysAsWritten(users: Users, email: string, provided: JsVal, lib: Libraries)
    requires VerifyOtp(users, email, provided, lib, AsWritten).0.TokenIssued?
    ensures var after := VerifyOtp(users, email, provided, lib, AsWritten).1;
            VerifyOtp(after, email, Value(JNull), lib, AsWritten).0
            == TokenIssued(200, OtpVerifiedMessage, lib.sign(OtpClaims(users.byEmail[email].email, users.byEmail[email].id)))
  {
    var after := VerifyOtp(users, email, provided, lib, AsWritten).1;
    assert after.byEmail[email].otp == None;
    assert after.byEmail[email].email == users.byEmail[email].email;
  }

  // ---------------------------------------------------------------------------------------
  // loginUser

  /** `loginUser`: the checks in their order, then a token for `{id}` and the user document. */
  function Login(users: Users, email: string, password: string, lib: Libraries): (r: Reply)
    ensures r == UserNotFound <==> email !in users.byEmail
    ensures r == NotVerified <==> email in users.byEmail && !users.byEmail[email].isVerified
    ensures r == InvalidCredentials <==>
      email in users.byEmail && users.byEmail[email].isVerified && !lib.compare(password, users.byEmail[email].passwordHash)
    ensures r.LoggedIn? <==>
      email in users.byEmail && users.byEmail[email].isVerified && lib.compare(password, users.byEmail[email].passwordHash)
    ensures r.LoggedIn? ==> r.user == users.byEmail[email] && r.token == lib.sign(LoginClaims(r.user.id))
  {
    if email !in users.byEmail then UserNotFound
    else
      var u := users.byEmail[email];
      if !u.isVerified then NotVerified
      else if !lib.compare(password, u.passwordHash) then InvalidCredentials
      else LoggedIn(lib.sign(LoginClaims(u.id)), u)
  }

  /** Register, verify the mailed OTP, log in with the same password: the login succeeds,
      given that bcrypt matches a password against its own hash. */
  lemma RegisterVerifyLogin(users: Users, body: RegisterBody, otp: string, lib: Libraries, salt: string, mailSent: bool)
    requires HashesMatch(lib)
    requires body.email !in users.byEmail
    ensures var registered := Register(users, body, otp, lib, salt, mailSent).1;
            var verified := VerifyOtp(registered, body.email, Value(JStr(otp)), lib, Corrected).1;
            Login(verified, body.email, body.password, lib).LoggedIn?
  {
    var registered := Register(users, body, otp, lib, salt, mailSent).1;
    var verified := VerifyOtp(registered, body.email, Value(JStr(otp)), lib, Corrected).1;
    assert verified.byEmail[body.email].passwordHash == lib.hash(body.password, salt);
    assert lib.compare(body.password, lib.hash(body.password, salt));
  }

  // ---------------------------------------------------------------------------------------
  // resetPassword

  /** `findByIdAndUpdate(id, {password: hash})` over the table: only documents with that id change. */
  function SetPasswordById(byEmail: map<string, User>, id: nat, hash: string): (r: map<string, User>)
    ensures r.Keys == byEmail.Keys
    ensures forall e | e in byEmail ::
      r[e] == (if byEmail[e].id == id then byEmail[e].(passwordHash := hash) else byEmail[e])
  {
    map e | e in byEmail :: if byEmail[e].id == id then byEmail[e].(passwordHash := hash) else byEmail[e]
  }

  /** Every non-empty set of numbers has a least element. */
  lemma {:induction false} LeastExists(s: set<nat>)
    requires s != {}
    ensures exists m :: m in s && forall y | y in s :: m <= y
  {
    var x :| x in s;
    if s != {x} {
      LeastExists(s - {x});
      var m :| m in s - {x} && forall y | y in s - {x} :: m <= y;
      assert forall y | y in s :: y == x || y in s - {x};
      if x < m {
        assert forall y | y in s :: x <= y;
      } else {
        assert forall y | y in s :: m <= y;
      }
    } else {
      assert forall y | y in s :: x <= y;
    }
  }

  /** The id of the first user in natural order. Ids are handed out in insertion order, so that
      is the least id; `None` for an empty table. */
  function FirstUserId(byEmail: map<string, User>): (r: Option<nat>)
    ensures r.None? <==> byEmail == map[]
    ensures r.Some? ==> exists e | e in byEmail :: byEmail[e].id == r.value
    ensures r.Some? ==> forall e | e in byEmail :: r.value <= byEmail[e].id
  {
    var ids := set e | e in byEmail :: byEmail[e].id;
    if ids == {} then
      assert forall e | e in byEmail :: byEmail[e].id in ids;
      None
    else
      LeastExists(ids);
      var m :| m in ids && forall y | y in ids :: m <= y;
      assert forall e | e in byEmail :: byEmail[e].id in ids;
      Some(m)
  }

  /** The document `findByIdAndUpdate(decoded.userId, …)` addresses. A token with a `userId`
      addresses that id. A token without one (a login or OAuth token, `{id}`) passes `undefined`:
      as written the filter `{_id: undefined}` loses its only condition and matches the first
      user; corrected, it addresses nobody. */
  function ResetTarget(users: Users, claims: Claims, rule: Rule): (r: Option<nat>)
    ensures ClaimedUserId(claims).Some? ==> r == ClaimedUserId(claims)
    ensures ClaimedUserId(claims).None? && rule == Corrected ==> r.None?
    ensures ClaimedUserId(claims).None? && rule == AsWritten ==> r == FirstUserId(users.byEmail)
  {
    match ClaimedUserId(claims)
    case Some(id) => Some(id)
    case None => if rule == AsWritten then FirstUserId(users.byEmail) else None
  }

  /** `resetPassword` for the token in the URL and the new password in the body, under `rule`
      for a token that verifies but carries no `userId`. */
  function ResetPassword(users: Users, token: string, password: string, lib: Libraries, salt: string, rule: Rule)
    : (r: (Reply, Users))
    ensures lib.verify(token).None? ==> r == (InvalidResetToken, users)
    ensures lib.verify(token).Some? ==> r.0 == ResetDone && r.1.nextId == users.nextId
    ensures lib.verify(token).Some? && ClaimedUserId(lib.verify(token).value).Some? ==>
      r.1 == users.(byEmail := SetPasswordById(users.byEmail, ClaimedUserId(lib.verify(token).value).value,
                                               lib.hash(password, salt)))
    ensures lib.verify(token).Some? && ClaimedUserId(lib.verify(token).value).None? && rule == Corrected ==>
      r.1 == users
    ensures lib.verify(token).Some? && ClaimedUserId(lib.verify(token).value).None? && rule == AsWritten ==>
      r.1 == (if users.byEmail == map[] then users
              else users.(byEmail := SetPasswordById(users.byEmail, FirstUserId(users.byEmail).value,
                                                     lib.hash(password, salt))))
    ensures ValidUsers(users) ==> ValidUsers(r.1)
  {
    match lib.verify(token)
    case None => (InvalidResetToken, users)
    case Some(claims) =>
      match ResetTarget(users, claims, rule)
      case None => (ResetDone, users)
      case Some(id) => (ResetDone, users.(byEmail := SetPasswordById(users.byEmail, id, lib.hash(password, salt))))
  }

  /** As written, a valid token without `userId` (the token `loginUser` hands out) resets the
      password of the first user, whoever the token was issued to, and no other user's. */
  lemma LoginTokenResetsFirstUserAsWritten(users: Users, token: string, password: string, lib: Libraries,
                                           salt: string, first: string, loginId: nat)
    requires ValidUsers(users)
    requires lib.verify(token) == Some(LoginClaims(loginId))
    requires first in users.byEmail && forall e | e in users.byEmail :: users.byEmail[first].id <= users.byEmail[e].id
    ensures var r := ResetPassword(users, token, password, lib, salt, AsWritten);
            && r.0 == ResetDone
            && r.1.byEmail[first] == users.byEmail[first].(passwordHash := lib.hash(password, salt))
            && forall e | e in users.byEmail && e != first :: r.1.byEmail[e] == users.byEmail[e]
  {
    var m := FirstUserId(users.byEmail).value;
    var w :| w in users.byEmail && users.byEmail[w].id == m;
    assert users.byEmail[first].id == m;
  }

  /** Corrected, a reset changes a user only when the token names that user's id, and then only
      the password hash. */
  lemma CorrectedResetTouchesOnlyClaimedUser(users: Users, token: string, password: string, lib: Libraries,
                                             salt: string)
    ensures var after := ResetPassword(users, token, password, lib, salt, Corrected).1;
            && after.byEmail.Keys == users.byEmail.Keys
            && forall e | e in users.byEmail && after.byEmail[e] != users.byEmail[e] ::
                 && lib.verify(token).Some?
                 && ClaimedUserId(lib.verify(token).value) == Some(users.byEmail[e].id)
                 && after.byEmail[e] == users.byEmail[e].(passwordHash := lib.hash(password, salt))
  {
  }

  /** A valid token whose `userId` names no stored user matches no document: the reset is still
      answered with success and the table is unchanged. */
  lemma ResetUnknownIdChangesNothing(users: Users, token: string, password: string, lib: Libraries, salt: string,
                                     rule: Rule)
    requires lib.verify(token).Some? && ClaimedUserId(lib.verify(token).value).Some?
    requires forall e | e in users.byEmail :: users.byEmail[e].id != ClaimedUserId(lib.verify(token).value).value
    ensures ResetPassword(users, token, password, lib, salt, rule) == (ResetDone, users)
  {
    var id := ClaimedUserId(lib.verify(token).value).value;
    var after := SetPasswordById(users.byEmail, id, lib.hash(password, salt));
    assert after == users.byEmail;
  }

  /** A reset with a token naming the user of `email` replaces that user's password hash with
      the hash of the new password and leaves every other user, and every other field, as it was. */
  lemma ResetChangesOnlyThatPassword(users: Users, email: string, token: string, password: string, lib: Libraries,
                                     salt: string, rule: Rule)
    requires ValidUsers(users) && email in users.byEmail
    requires lib.verify(token).Some? && ClaimedUserId(lib.verify(token).value) == Some(users.byEmail[email].id)
    ensures var after := ResetPassword(users, token, password, lib, salt, rule).1;
            && after.byEmail.Keys == users.byEmail.Keys
            && after.byEmail[email] == users.byEmail[email].(passwordHash := lib.hash(password, salt))
            && forall e | e in users.byEmail && e != email :: after.byEmail[e] == users.byEmail[e]
  {
  }

  /** After a reset by a user's own token, the new password logs that verified user in. */
  lemma ResetThenLogin(users: Users, email: string, token: string, password: string, lib: Libraries, salt: string,
                       rule: Rule)
    requires HashesMatch(lib) && ValidUsers(users)
    requires email in users.byEmail && users.byEmail[email].isVerified
    requires lib.verify(token).Some? && ClaimedUserId(lib.verify(token).value) == Some(users.byEmail[email].id)
    ensures Login(ResetPassword(users, token, password, lib, salt, rule).1, email, password, lib).LoggedIn?
  {
    var after := ResetPassword(users, token, password, lib, salt, rule).1;
    ResetChangesOnlyThatPassword(users, email, token, password, lib, salt, rule);
    assert lib.compare(password, lib.hash(password, salt));
  }

  // ---------------------------------------------------------------------------------------
  // The handlers over the users collection

  class UserTable {
    var users: Users

    constructor ()
      ensures users == Users(map[], 0)
    {
      users := Users(map[], 0);
    }

    /** `registerUser(req, res)` with the random value `r` behind the OTP. */
    method RegisterUser(body: RegisterBody, r: real, lib: Libraries, salt: string, mailSent: bool) returns (reply: Reply)
      requires 0.0 <= r < 1.0
      modifies this
      ensures (reply, users) == Register(old(users), body, GenerateOtp(r), lib, salt, mailSent)
    {
      var otp := GenerateOtp(r);
      if body.email in users.byEmail {
        return UserExists;
      }
      var user := NewUser(users.nextId, body, otp, lib, salt);
      users := Users(users.byEmail[body.email := user], users.nextId + 1);
      if mailSent {
        reply := Registered;
      } else {
        reply := ServerError;
      }
    }

    /** `verifyOtpHandler(req, res)`, comparing OTPs by `rule`: `AsWritten` is the source, `Corrected` the fix. */
    method VerifyOtpHandler(email: string, provided: JsVal, lib: Libraries, rule: Rule) returns (reply: Reply)
      modifies this
      ensures (reply, users) == VerifyOtp(old(users), email, provided, lib, rule)
    {
      if email !in users.byEmail {
        return UserNotFound;
      }
      var user := users.byEmail[email];
      if !OtpMatches(rule, user.otp, provided) {
        return InvalidOtp;
      }
      user := user.(isVerified := true);
      user := user.(otp := None);
      var token := lib.sign(OtpClaims(user.email, user.id));
      user := user.(token := Some(token));
      users := users.(byEmail := users.byEmail[email := user]);
      reply := TokenIssued(200, OtpVerifiedMessage, token);
    }

    /** `loginUser(req, res)`; it changes nothing. */
    method LoginUser(email: string, password: string, lib: Libraries) returns (reply: Reply)
      ensures reply == Login(users, email, password, lib)
      ensures reply.LoggedIn? ==> reply.user.isVerified && lib.compare(password, reply.user.passwordHash)
    {
      if email !in users.byEmail {
        return UserNotFound;
      }
      var user := users.byEmail[email];
      if !user.isVerified {
        return NotVerified;
      }
      var isMatch := lib.compare(password, user.passwordHash);
      if !isMatch {
        return InvalidCredentials;
      }
      reply := LoggedIn(lib.sign(LoginClaims(user.id)), user);
    }

    /** `resetPassword(req, res)`. */
    method ResetUserPassword(token: string, password: string, lib: Libraries, salt: string, rule: Rule)
      returns (reply: Reply)
      modifies this
      ensures (reply, users) == ResetPassword(old(users), token, password, lib, salt, rule)
    {
      var decoded := lib.verify(token);
      if decoded.None? {
        return InvalidResetToken;
      }
      var hashed := lib.hash(password, salt);
      var id := ResetTarget(users, decoded.value, rule);
      if id.Some? {
        users := users.(byEmail := SetPasswordById(users.byEmail, id.value, hashed));
      }
      reply := ResetDone;
    }
  }
}
