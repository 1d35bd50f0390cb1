/** The authentication middleware: `protect` turns the Authorization header
    into the signed-in user, and `admin`, `staff` and `ownerOrAdmin` check
    the role of that user. JWT verification is a parameter: `verify(token)`
    is the id the token carries, or None when `jwt.verify` throws.
 */
module AuthMiddleware {

  import opened Wrappers
  import Text
  import opened Users

  const NoToken := "Not authorized, no token"
  const TokenFailed := "Not authorized, token failed"
  const NotAdmin := "Not authorized as an admin"
  const NotStaff := "Not authorized as staff"
  const NotOwner := "Not authorized to access this resource"

  /** `authorization.split(' ')[1]`, None when the header has no space. */
  function TokenOf(header: string): (t: Option<string>)
    ensures t.Some? <==> |Text.Split(header, ' ')| >= 2
    ensures t.Some? ==> ' ' !in t.value
  {
    var pieces := Text.Split(header, ' ');
    if |pieces| >= 2 then Some(pieces[1]) else None
  }

  /** `protect`: without a header starting with "Bearer" the request is
      refused as tokenless; with one, a missing or empty token, a token that
      does not verify, an unknown user and an inactive user are all refused
      with the one message the catch block throws. */
  function Protect(header: Option<string>, verify: string -> Option<nat>, users: seq<User>): (r: Result<User>)
    ensures header.None? || !Text.StartsWith(header.value, "Bearer") ==> r == Fail(401, NoToken)
    ensures r.Err? ==> r == Fail(401, NoToken) || r == Fail(401, TokenFailed)
    ensures r.Ok? <==>
              && header.Some? && Text.StartsWith(header.value, "Bearer")
              && TokenOf(header.value).Some? && TokenOf(header.value).value != ""
              && verify(TokenOf(header.value).value).Some?
              && IndexById(users, verify(TokenOf(header.value).value).value).Some?
              && users[IndexById(users, verify(TokenOf(header.value).value).value).value].isActive
    ensures r.Ok? ==> r.value in users && r.value.isActive && Some(r.value.id) == verify(TokenOf(header.value).value)
  {
    if header.None? || !Text.StartsWith(header.value, "Bearer") then Fail(401, NoToken)
    else
      var token := TokenOf(header.value);
      // `jwt.verify` throws on an absent or empty token before looking at it.
      if token.None? || token.value == "" then Fail(401, TokenFailed)
      else match verify(token.value)
        case None => Fail(401, TokenFailed)
        case Some(id) =>
          match IndexById(users, id)
          case None => Fail(401, TokenFailed)
          case Some(i) => if !users[i].isActive then Fail(401, TokenFailed) else Ok(users[i])
  }

  /** The reasons `protect` gives are indistinguishable once a Bearer header
      is present: an unknown user and an inactive one get the same answer as
      a forged token. */
  lemma BearerFailuresLookAlike(header: string, verify: string -> Option<nat>, users: seq<User>)
    requires Text.StartsWith(header, "Bearer")
    ensures Protect(Some(header), verify, users).Err? ==> Protect(Some(header), verify, users) == Fail(401, TokenFailed)
  {
  }

  /** A header written as "Bearer " followed by a token without spaces hands
      exactly that token to verification, and is accepted iff the token is
      not empty, verifies, and names an active user. */
  lemma BearerHeaderCarriesToken(t: string, verify: string -> Option<nat>, users: seq<User>)
    requires ' ' !in t
    ensures TokenOf("Bearer " + t) == Some(t)
    ensures Protect(Some("Bearer " + t), verify, users).Ok? <==>
              t != "" && verify(t).Some? && IndexById(users, verify(t).value).Some?
              && users[IndexById(users, verify(t).value).value].isActive
  {
    var header := "Bearer " + t;
    assert Text.Join(["Bearer", t], [' ']) == header;
    Text.SplitJoin(["Bearer", t], ' ');
    assert Text.StartsWith(header, "Bearer") by {
      assert header[..6] == "Bearer";
    }
  }

  /** The part of the Express request the middleware writes. */
  class Request {
    var user: Option<User>

    constructor ()
      ensures user.None?
    {
      user := None;
    }
  }

  /** The token a request with this header gets verified with, when it
      reaches verification at all. */
  function VerifiedToken(header: Option<string>): Option<string>
  {
    if header.Some? && Text.StartsWith(header.value, "Bearer") then
      var token := TokenOf(header.value);
      if token.Some? && token.value != "" then token else None
    else None
  }

  /** `protect` on a request: `req.user` is assigned the lookup result as
      soon as a token verifies, before the user is checked, so a refused
      inactive user is still left on the request. */
  method ProtectRequest(req: Request, header: Option<string>, verify: string -> Option<nat>, users: seq<User>)
    returns (r: Result<User>)
    modifies req
    ensures r == Protect(header, verify, users)
    ensures r.Ok? ==> req.user == Some(r.value)
    ensures VerifiedToken(header).Some? && verify(VerifiedToken(header).value).Some? ==>
              var i := IndexById(users, verify(VerifiedToken(header).value).value);
              req.user == (if i.Some? then Some(users[i.value]) else None)
    ensures VerifiedToken(header).None? || verify(VerifiedToken(header).value).None? ==> req.user == old(req.user)
  {
    if header.None? || !Text.StartsWith(header.value, "Bearer") {
      return Fail(401, NoToken);
    }
    var token := TokenOf(header.value);
    if token.None? || token.value == "" {
      return Fail(401, TokenFailed);
    }
    var decoded := verify(token.value);
    if decoded.None? {
      return Fail(401, TokenFailed);
    }
    var i := IndexById(users, decoded.value);
    req.user := if i.Some? then Some(users[i.value]) else None;
    if req.user.None? || !req.user.value.isActive {
      return Fail(401, TokenFailed);
    }
    r := Ok(req.user.value);
  }

  /** `admin`: passes exactly an admin. */
  function RequireAdmin(user: Option<User>): (r: Result<()>)
    ensures r.Ok? <==> user.Some? && user.value.role == Admin
    ensures r.Err? ==> r == Fail(403, NotAdmin)
  {
    if user.Some? && user.value.role == Admin then Ok(()) else Fail(403, NotAdmin)
  }

  /** `staff`: passes staff and admins. */
  function RequireStaff(user: Option<User>): (r: Result<()>)
    ensures r.Ok? <==> user.Some? && user.value.role in {Staff, Admin}
    ensures r.Err? ==> r == Fail(403, NotStaff)
  {
    if user.Some? && (user.value.role == Staff || user.value.role == Admin) then Ok(()) else Fail(403, NotStaff)
  }

  /** `ownerOrAdmin`: the resource's user id is taken from the route
      parameters, else from the body; the owner of that id and admins pass. */
  function RequireOwnerOrAdmin(user: Option<User>, paramUserId: Option<nat>, bodyUserId: Option<nat>): (r: Result<()>)
    ensures r.Ok? <==>
              user.Some? &&
              ((paramUserId.Some? && paramUserId.value == user.value.id)
               || (paramUserId.None? && bodyUserId.Some? && bodyUserId.value == user.value.id)
               || user.value.role == Admin)
    ensures r.Err? ==> r == Fail(403, NotOwner)
  {
    var resource := if paramUserId.Some? then paramUserId else bodyUserId;
    if user.Some? && (resource == Some(user.value.id) || user.value.role == Admin) then Ok(())
    else Fail(403, NotOwner)
  }

  /** Every admin passes the staff check, and every user the admin check
      passes is let through by `ownerOrAdmin` whatever the resource. */
  lemma AdminIsStrongest(user: Option<User>, paramUserId: Option<nat>, bodyUserId: Option<nat>)
    requires RequireAdmin(user).Ok?
    ensures RequireStaff(user).Ok? && RequireOwnerOrAdmin(user, paramUserId, bodyUserId).Ok?
  {
  }
}
