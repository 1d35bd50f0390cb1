/** The account controller: registration, login, the profile update and
    the password reset token's lifecycle. Token signing, password matching,
    hashing and e-mail delivery are parameters: `sign(id)` is the JWT
    issued for a user id, `matches(candidate, stored)` is `matchPassword`,
    `hash` is the SHA-256 hex digest, and an e-mail either goes out or fails.
 */
module AuthController {

  import opened Wrappers
  import opened Seqs
  import opened Users

  const UserExists := "User already exists"
  const BadCredentials := "Invalid email or password"
  const Deactivated := "Your account has been deactivated"
  const UserNotFound := "User not found"
  const EmailNotSent := "Email could not be sent"
  const ResetEmailSent := "Reset password email sent"
  const InvalidResetToken := "Invalid or expired token"
  const ResetDone := "Password reset successful"

  /** How long a reset token stays valid: one hour, in milliseconds. */
  const ResetWindow: int := 3600000

  /** The user fields the endpoints answer with, and a fresh token. */
  datatype AuthResponse = AuthResponse(
    id: nat,
    email: string,
    firstName: Option<string>,
    lastName: Option<string>,
    phoneNumber: Option<string>,
    role: Role,
    token: string)

  function Respond(u: User, sign: nat -> string): AuthResponse
  {
    AuthResponse(u.id, u.email, u.firstName, u.lastName, u.phoneNumber, u.role, sign(u.id))
  }

  // ---------------------------------------------------------------------------
  // registerUser

  datatype RegisterBody = RegisterBody(
    email: string,
    password: string,
    firstName: Option<string>,
    lastName: Option<string>,
    phoneNumber: Option<string>)

  /** No two users share an email address. */
  ghost predicate EmailsUnique(users: seq<User>)
  {
    forall i, j :: 0 <= i < j < |users| ==> users[i].email != users[j].email
  }

  /** The user `registerUser` creates: refused with 400 when the email is
      taken, otherwise an active client whatever the body says. */
  function Registration(users: seq<User>, body: RegisterBody, id: nat): (r: Result<User>)
    ensures r.Err? <==> exists u :: u in users && u.email == body.email
    ensures r.Err? ==> r == Fail(400, UserExists)
    ensures r.Ok? ==>
              && r.value.id == id && r.value.email == body.email && r.value.password == body.password
              && r.value.role == Client && r.value.isActive
              && r.value.resetToken.None? && r.value.resetExpires.None?
  {
    if IndexByEmail(users, body.email).Some? then Fail(400, UserExists)
    else Ok(User(id, body.email, body.password, body.firstName, body.lastName, body.phoneNumber,
                 Client, true, None, None))
  }

  /** Registration never creates a second account for an address. */
  lemma RegistrationKeepsEmailsUnique(users: seq<User>, body: RegisterBody, id: nat)
    requires EmailsUnique(users)
    requires Registration(users, body, id).Ok?
    ensures EmailsUnique(users + [Registration(users, body, id).value])
  {
    var after := users + [Registration(users, body, id).value];
    forall i, j | 0 <= i < j < |after| ensures after[i].email != after[j].email {
      if j == |users| {
        assert after[i] in users;
      }
    }
  }

  // ---------------------------------------------------------------------------
  // loginUser

  /** `loginUser`: unknown address, then deactivated account, then wrong
      password, each refused with 401; the first and the last look alike. */
  function Login(users: seq<User>, email: string, password: string,
                 matches: (string, string) -> bool, sign: nat -> string): (r: Result<AuthResponse>)
    ensures IndexByEmail(users, email).None? ==> r == Fail(401, BadCredentials)
    ensures IndexByEmail(users, email).Some? ==>
              var u := users[IndexByEmail(users, email).value];
              && (!u.isActive ==> r == Fail(401, Deactivated))
              && (u.isActive && !matches(password, u.password) ==> r == Fail(401, BadCredentials))
              && (u.isActive && matches(password, u.password) ==> r == Ok(Respond(u, sign)))
    ensures r.Ok? ==> exists u :: u in users && u.email == email && u.isActive && r.value.id == u.id
  {
    match IndexByEmail(users, email)
    case None => Fail(401, BadCredentials)
    case Some(i) =>
      if !users[i].isActive then Fail(401, Deactivated)
      else if !matches(password, users[i].password) then Fail(401, BadCredentials)
      else Ok(Respond(users[i], sign))
  }

  /** A caller cannot tell an unknown address from a wrong password. */
  lemma LoginHidesUnknownEmail(users: seq<User>, email: string, password: string, other: string,
                               matches: (string, string) -> bool, sign: nat -> string)
    requires IndexByEmail(users, email).Some?
    requires users[IndexByEmail(users, email).value].isActive
    requires !matches(password, users[IndexByEmail(users, email).value].password)
    requires forall u :: u in users ==> u.email != other
    ensures Login(users, email, password, matches, sign) == Login(users, other, password, matches, sign)
  {
  }

  // ---------------------------------------------------------------------------
  // updateUserProfile

  /** The body of `PUT /api/auth/profile`; None is an absent field. */
  datatype ProfilePatch = ProfilePatch(
    email: Option<string>,
    firstName: Option<string>,
    lastName: Option<string>,
    phoneNumber: Option<string>,
    password: Option<string>)

  predicate Truthy(v: Option<string>) { v.Some? && v.value != "" }

  /** `field = body.field || field` for the address, the names and the
      phone number, and the password only when one is given. */
  function MergeProfile(u: User, p: ProfilePatch): (r: User)
    ensures r.id == u.id && r.role == u.role && r.isActive == u.isActive
    ensures r.resetToken == u.resetToken && r.resetExpires == u.resetExpires
    ensures r.email == (if Truthy(p.email) then p.email.value else u.email)
    ensures r.firstName == (if Truthy(p.firstName) then p.firstName else u.firstName)
    ensures r.lastName == (if Truthy(p.lastName) then p.lastName else u.lastName)
    ensures r.phoneNumber == (if Truthy(p.phoneNumber) then p.phoneNumber else u.phoneNumber)
    ensures r.password == (if Truthy(p.password) then p.password.value else u.password)
  {
    u.(email := if Truthy(p.email) then p.email.value else u.email,
       firstName := if Truthy(p.firstName) then p.firstName else u.firstName,
       lastName := if Truthy(p.lastName) then p.lastName else u.lastName,
       phoneNumber := if Truthy(p.phoneNumber) then p.phoneNumber else u.phoneNumber,
       password := if Truthy(p.password) then p.password.value else u.password)
  }

  /** An update can neither change a role nor reactivate an account, and
      empty strings change nothing. */
  lemma ProfileUpdateCannotEscalate(u: User, p: ProfilePatch)
    ensures MergeProfile(u, p).role == u.role && MergeProfile(u, p).isActive == u.isActive
    ensures MergeProfile(u, ProfilePatch(Some(""), Some(""), Some(""), Some(""), Some(""))) == u
    ensures MergeProfile(MergeProfile(u, p), p) == MergeProfile(u, p)
  {
  }

  // ---------------------------------------------------------------------------
  // forgotPassword / resetPassword

  /** What `forgotPassword` stores: the digest of the token, valid for an hour. */
  function IssueReset(u: User, digest: string, now: int): (r: User)
    ensures r.resetToken == Some(digest) && r.resetExpires == Some(now + ResetWindow)
    ensures r.(resetToken := u.resetToken, resetExpires := u.resetExpires) == u
  {
    u.(resetToken := Some(digest), resetExpires := Some(now + ResetWindow))
  }

  /** Both reset fields emptied, after a failed e-mail or a completed reset. */
  function ClearReset(u: User): (r: User)
    ensures r.resetToken.None? && r.resetExpires.None?
    ensures r.(resetToken := u.resetToken, resetExpires := u.resetExpires) == u
  {
    u.(resetToken := None, resetExpires := None)
  }

  /** A user whose stored digest is `digest` and whose expiry is later than `now`. */
  predicate HoldsLiveToken(u: User, digest: string, now: int)
  {
    u.resetToken == Some(digest) && u.resetExpires.Some? && u.resetExpires.value > now
  }

  /** The `findOne` of `resetPassword`. */
  function ResetHolder(users: seq<User>, digest: string, now: int): (r: Option<nat>)
    ensures r.Some? ==> r.value < |users| && HoldsLiveToken(users[r.value], digest, now)
    ensures r.None? <==> forall u :: u in users ==> !HoldsLiveToken(u, digest, now)
  {
    FirstIndex(users, (u: User) => HoldsLiveToken(u, digest, now))
  }

  /** A token issued at `issued` to user `i` (whose digest nobody else holds)
      is accepted exactly while less than an hour has passed. */
  lemma {:induction false} ResetTokenLivesOneHour(users: seq<User>, i: nat, digest: string, issued: int, now: int)
    requires i < |users|
    requires forall j :: 0 <= j < |users| && j != i ==> users[j].resetToken != Some(digest)
    ensures var after := users[i := IssueReset(users[i], digest, issued)];
            ResetHolder(after, digest, now) == (if now < issued + ResetWindow then Some(i) else None)
  {
    var after := users[i := IssueReset(users[i], digest, issued)];
    var r := ResetHolder(after, digest, now);
    if r.Some? {
      assert r.value == i;
    } else {
      assert after[i] in after;
    }
  }

  /** Once used, a token is no longer accepted. */
  lemma {:induction false} ResetTokenSingleUse(users: seq<User>, i: nat, digest: string, now: int, later: int)
    requires i < |users|
    requires forall j :: 0 <= j < |users| && j != i ==> users[j].resetToken != Some(digest)
    ensures ResetHolder(users[i := ClearReset(users[i])], digest, later).None?
  {
    var after := users[i := ClearReset(users[i])];
    forall u | u in after ensures !HoldsLiveToken(u, digest, later) {
      var k :| 0 <= k < |after| && after[k] == u;
    }
  }

  // ---------------------------------------------------------------------------
  // The user table

  class UserTable {
    var rows: seq<User>
    var nextId: nat

    /** Ids are distinct and below the next one handed out. */
    ghost predicate Valid()
      reads this
    {
      && (forall i :: 0 <= i < |rows| ==> rows[i].id < nextId)
      && (forall i, j :: 0 <= i < j < |rows| ==> rows[i].id != rows[j].id)
    }

    constructor ()
      ensures Valid() && rows == [] && nextId == 0
    {
      rows := [];
      nextId := 0;
    }

    /** `registerUser`. The account is saved before the welcome e-mail is
        sent, so a failing e-mail (`mailError`) fails the request but keeps
        the account. */
    method Register(body: RegisterBody, sign: nat -> string, mailError: Option<Error>)
      returns (r: Result<AuthResponse>)
      requires Valid()
      modifies this
      ensures Valid()
      ensures EmailsUnique(old(rows)) ==> EmailsUnique(rows)
      ensures var created := Registration(old(rows), body, old(nextId));
              && (created.Err? ==> r == Fail(400, UserExists) && rows == old(rows) && nextId == old(nextId))
              && (created.Ok? ==> rows == old(rows) + [created.value] && nextId == old(nextId) + 1)
              && (created.Ok? && mailError.Some? ==> r == Err(StatusUnset, mailError.value))
              && (created.Ok? && mailError.None? ==> r == Ok(Respond(created.value, sign)))
    {
      var created := Registration(rows, body, nextId);
      if created.Err? {
        return Fail(400, UserExists);
      }
      if EmailsUnique(rows) {
        RegistrationKeepsEmailsUnique(rows, body, nextId);
      }
      rows := rows + [created.value];
      nextId := nextId + 1;
      if mailError.Some? {
        return Err(StatusUnset, mailError.value);
      }
      r := Ok(Respond(created.value, sign));
    }

    /** `updateUserProfile` for the signed-in user `userId`. */
    method UpdateProfile(userId: nat, p: ProfilePatch, sign: nat -> string) returns (r: Result<AuthResponse>)
      requires Valid()
      modifies this
      ensures Valid() && nextId == old(nextId)
      ensures IndexById(old(rows), userId).None? ==> r == Fail(404, UserNotFound) && rows == old(rows)
      ensures IndexById(old(rows), userId).Some? ==>
                var i := IndexById(old(rows), userId).value;
                && rows == old(rows)[i := MergeProfile(old(rows)[i], p)]
                && r == Ok(Respond(rows[i], sign))
    {
      var i := IndexById(rows, userId);
      if i.None? {
        return Fail(404, UserNotFound);
      }
      rows := rows[i.value := MergeProfile(rows[i.value], p)];
      r := Ok(Respond(rows[i.value], sign));
    }

    /** `forgotPassword`: the digest of `rawToken` and an expiry one hour
        after `now` are saved; when the e-mail then fails, both are cleared
        again and the request fails with 500. */
    method ForgotPassword(email: string, rawToken: string, hash: string -> string, now: int, mailFails: bool)
      returns (r: Result<string>)
      requires Valid()
      modifies this
      ensures Valid() && nextId == old(nextId)
      ensures IndexByEmail(old(rows), email).None? ==> r == Fail(404, UserNotFound) && rows == old(rows)
      ensures IndexByEmail(old(rows), email).Some? ==>
                var i := IndexByEmail(old(rows), email).value;
                && (!mailFails ==> r == Ok(ResetEmailSent) && rows == old(rows)[i := IssueReset(old(rows)[i], hash(rawToken), now)])
                && (mailFails ==> r == Fail(500, EmailNotSent) && rows == old(rows)[i := ClearReset(old(rows)[i])])
    {
      var i := IndexByEmail(rows, email);
      if i.None? {
        return Fail(404, UserNotFound);
      }
      var k := i.value;
      rows := rows[k := IssueReset(rows[k], hash(rawToken), now)];
      if mailFails {
        rows := rows[k := ClearReset(rows[k])];
        return Fail(500, EmailNotSent);
      }
      r := Ok(ResetEmailSent);
    }

    /** `resetPassword`: the user holding the digest of `rawToken` with an
        expiry after `now` gets the new password and loses the token. */
    method ResetPassword(rawToken: string, password: string, hash: string -> string, now: int)
      returns (r: Result<string>)
      requires Valid()
      modifies this
      ensures Valid() && nextId == old(nextId)
      ensures ResetHolder(old(rows), hash(rawToken), now).None? ==>
                r == Fail(400, InvalidResetToken) && rows == old(rows)
      ensures ResetHolder(old(rows), hash(rawToken), now).Some? ==>
                var i := ResetHolder(old(rows), hash(rawToken), now).value;
                && r == Ok(ResetDone)
                && rows == old(rows)[i := ClearReset(old(rows)[i]).(password := password)]
    {
      var i := ResetHolder(rows, hash(rawToken), now);
      if i.None? {
        return Fail(400, InvalidResetToken);
      }
      rows := rows[i.value := ClearReset(rows[i.value]).(password := password)];
      r := Ok(ResetDone);
    }
  }
}
