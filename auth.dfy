/** The three authentication middlewares. The bearer token is whatever is
    left of the Authorization header after its first "Bearer " is removed;
    token verification and the user lookup are oracles. */
module Auth {
  import opened Js
  import opened Http
  import opened Store
  import Roles

  const BEARER := "Bearer "
  const NO_TOKEN := "Access denied. No token provided."
  const INVALID_TOKEN := "Invalid token."
  const USER_NOT_FOUND := "Invalid token. User not found."
  const ADMIN_REQUIRED := "Access denied. Admin privileges required."

  /** What `verifyToken(token)` does: returns the decoded payload, or throws
      (a bad signature, an expired or malformed token). */
  datatype Verified = Decoded(payload: Value) | Throws

  /** The outcome of a gate: let the request through with this user, or
      answer with this reply. */
  datatype Gate = Admit(user: Obj) | Deny(reply: Reply)

  /** `req.header('Authorization')?.replace('Bearer ', '')` */
  function ExtractToken(header: Option<string>): (token: Option<string>)
    ensures token.Some? <==> header.Some?
  {
    match header
    case None => None
    case Some(h) => Some(ReplaceFirst(h, BEARER, ""))
  }

  /** `if (token)`: a header is present and something is left of it. */
  predicate HasToken(header: Option<string>)
  {
    ExtractToken(header).Some? && ExtractToken(header).value != ""
  }

  /** The decision `authMiddleware` takes for a header, given what
      `verifyToken` and `User.findById` do. */
  function Authenticate(header: Option<string>, verify: string -> Verified, find: Value -> Lookup): (g: Gate)
    ensures g.Deny? ==> g.reply.status == 401
    ensures g.Admit? ==> HasToken(header)
  {
    if !HasToken(header) then Deny(ErrorReply(401, NO_TOKEN))
    else match verify(ExtractToken(header).value)
      case Throws => Deny(ErrorReply(401, INVALID_TOKEN))
      case Decoded(payload) =>
        match Member(payload, "id")
        case None => Deny(ErrorReply(401, INVALID_TOKEN))
        case Some(id) =>
          match find(id)
          case Fails(_) => Deny(ErrorReply(401, INVALID_TOKEN))
          case Missing => Deny(ErrorReply(401, USER_NOT_FOUND))
          case Found(user) => Admit(user)
  }

  /** The decision `adminMiddleware` takes: authentication first, then the
      role of the authenticated user. */
  function AuthorizeAdmin(header: Option<string>, verify: string -> Verified, find: Value -> Lookup): (g: Gate)
    ensures g.Admit? ==> Authenticate(header, verify, find) == g && Roles.IsAdmin(Get(g.user, "role"))
    ensures Authenticate(header, verify, find).Deny? ==> g == Authenticate(header, verify, find)
    ensures (Authenticate(header, verify, find).Admit? && !Roles.IsAdmin(Get(Authenticate(header, verify, find).user, "role")))
      ==> g == Deny(ErrorReply(403, ADMIN_REQUIRED))
  {
    match Authenticate(header, verify, find)
    case Deny(reply) => Deny(reply)
    case Admit(user) =>
      if Roles.IsAdmin(Get(user, "role")) then Admit(user) else Deny(ErrorReply(403, ADMIN_REQUIRED))
  }

  /** `authMiddleware(req, res, next)`; `calledNext` tells whether `next()` ran. */
  method AuthMiddleware(req: Request, res: Response, verify: string -> Verified, find: Value -> Lookup)
    returns (calledNext: bool)
    modifies req, res
    ensures req.authorization == old(req.authorization) && req.query == old(req.query)
    ensures var g := Authenticate(old(req.authorization), verify, find);
      && (calledNext <==> g.Admit?)
      && (g.Admit? ==> req.user == Some(g.user) && res.sent == old(res.sent) && res.statusCode == old(res.statusCode))
      && (g.Deny? ==> req.user == old(req.user) && res.sent == Some(g.reply))
  {
    var token := ExtractToken(req.authorization);
    if token.None? || token.value == "" {
      res.Send(401, map["error" := Str(NO_TOKEN)]);
      return false;
    }
    var decoded := verify(token.value);
    if decoded.Throws? {
      res.Send(401, map["error" := Str(INVALID_TOKEN)]);
      return false;
    }
    var id := Member(decoded.payload, "id");
    if id.None? {
      res.Send(401, map["error" := Str(INVALID_TOKEN)]);
      return false;
    }
    var user := find(id.value);
    if user.Fails? {
      res.Send(401, map["error" := Str(INVALID_TOKEN)]);
      return false;
    }
    if user.Missing? {
      res.Send(401, map["error" := Str(USER_NOT_FOUND)]);
      return false;
    }
    req.user := Some(user.row);
    calledNext := true;
  }

  /** `adminMiddleware(req, res, next)`. When authentication answers, its
      callback is never called, so the awaited promise never settles: the
      role check never runs and the authentication reply is the only one. */
  method AdminMiddleware(req: Request, res: Response, verify: string -> Verified, find: Value -> Lookup)
    returns (calledNext: bool)
    modifies req, res
    ensures req.authorization == old(req.authorization) && req.query == old(req.query)
    ensures var g := AuthorizeAdmin(old(req.authorization), verify, find);
      && (calledNext <==> g.Admit?)
      && (g.Admit? ==> req.user == Some(g.user) && res.sent == old(res.sent))
      && (g.Deny? ==> res.sent == Some(g.reply))
    ensures var a := Authenticate(old(req.authorization), verify, find);
      && (a.Admit? ==> req.user == Some(a.user))
      && (a.Deny? ==> req.user == old(req.user))
  {
    var authenticated := AuthMiddleware(req, res, verify, find);
    if !authenticated {
      return false;
    }
    if req.user.None? || !Roles.IsAdmin(Get(req.user.value, "role")) {
      res.Send(403, map["error" := Str(ADMIN_REQUIRED)]);
      return false;
    }
    calledNext := true;
  }

  /** `optionalAuth(req, res, next)`: every failure is swallowed. */
  method OptionalAuth(req: Request, res: Response, verify: string -> Verified, find: Value -> Lookup)
    returns (calledNext: bool)
    modifies req
    ensures req.authorization == old(req.authorization) && req.query == old(req.query)
    ensures calledNext
    ensures res.sent == old(res.sent) && res.statusCode == old(res.statusCode)
    ensures match Authenticate(old(req.authorization), verify, find)
      case Admit(user) => req.user == Some(user)
      case Deny(_) => req.user == old(req.user)
  {
    var token := ExtractToken(req.authorization);
    if token.Some? && token.value != "" {
      var decoded := verify(token.value);
      if decoded.Decoded? {
        var id := Member(decoded.payload, "id");
        if id.Some? {
          var user := find(id.value);
          if user.Found? {
            req.user := Some(user.row);
          }
        }
      }
    }
    calledNext := true;
  }

  // ---------------------------------------------------------------- gates

  /** A missing header, and a header that is empty once its first "Bearer "
      is removed, are refused with 401 before the token is looked at. */
  lemma NoTokenIsRefused(header: Option<string>, verify: string -> Verified, find: Value -> Lookup)
    requires header.None? || ReplaceFirst(header.value, BEARER, "") == ""
    ensures Authenticate(header, verify, find) == Deny(ErrorReply(401, NO_TOKEN))
    ensures AuthorizeAdmin(header, verify, find) == Deny(ErrorReply(401, NO_TOKEN))
  {
  }

  /** The header "Bearer " alone carries no token. */
  lemma BareBearerIsRefused(verify: string -> Verified, find: Value -> Lookup)
    ensures Authenticate(Some(BEARER), verify, find) == Deny(ErrorReply(401, NO_TOKEN))
  {
    ReplaceFirstAtStart(BEARER, "", "");
    assert BEARER + "" == BEARER;
  }

  /** A well-formed bearer header yields exactly the token after the prefix. */
  lemma BearerHeaderToken(token: string)
    ensures ExtractToken(Some(BEARER + token)) == Some(token)
  {
    ReplaceFirstAtStart(BEARER, token, "");
    assert "" + token == token;
  }

  /** A header without "Bearer " is taken whole as the token. */
  lemma HeaderWithoutBearerIsToken(header: string)
    requires forall i :: !OccursAt(header, BEARER, i)
    ensures ExtractToken(Some(header)) == Some(header)
  {
    ReplaceFirstWithoutMatch(header, BEARER, "");
  }

  /** The removal is not a prefix parse: "Bearer " is cut out wherever it
      first occurs. */
  lemma BearerRemovedAnywhere(scheme: string, token: string)
    requires forall i :: !OccursAt(scheme, BEARER, i)
    ensures ExtractToken(Some(scheme + BEARER + token)) == Some(scheme + token)
  {
    var h := scheme + BEARER + token;
    assert OccursAt(h, BEARER, |scheme|) by {
      assert h[|scheme|..|scheme| + |BEARER|] == BEARER;
    }
    IndexOfIsFirst(h, BEARER);
    forall j | 0 <= j < |scheme|
      ensures !OccursAt(h, BEARER, j)
    {
      NotInsideScheme(scheme, token, j);
    }
    var k := IndexOf(h, BEARER).value;
    assert k == |scheme|;
    assert h[..k] == scheme;
    assert h[k + |BEARER|..] == token;
    assert scheme + "" + token == scheme + token;
  }

  /** No "Bearer " of the header starts inside a scheme that does not hold
      one: it would either lie in the scheme, or overlap the "Bearer " that
      follows it, whose 'B' appears in "Bearer " only at its start. */
  lemma NotInsideScheme(scheme: string, token: string, j: nat)
    requires forall i :: !OccursAt(scheme, BEARER, i)
    requires j < |scheme|
    ensures !OccursAt(scheme + BEARER + token, BEARER, j)
  {
    var h := scheme + BEARER + token;
    if j + |BEARER| <= |scheme| {
      assert h[j..j + |BEARER|] == scheme[j..j + |BEARER|];
      assert !OccursAt(scheme, BEARER, j);
    } else if j + |BEARER| <= |h| {
      var d := |scheme| - j;
      assert h[j..j + |BEARER|][d] == h[|scheme|] == 'B';
      assert BEARER[d] != 'B';
    }
  }

  /** A rejected verification is answered "Invalid token."; a verified token
      whose user does not exist is answered "Invalid token. User not found." */
  lemma BadTokenAndUnknownUser(header: Option<string>, verify: string -> Verified, find: Value -> Lookup)
    requires HasToken(header)
    ensures verify(ExtractToken(header).value).Throws? ==>
      Authenticate(header, verify, find) == Deny(ErrorReply(401, INVALID_TOKEN))
    ensures verify(ExtractToken(header).value).Decoded? &&
            Member(verify(ExtractToken(header).value).payload, "id").Some? &&
            find(Member(verify(ExtractToken(header).value).payload, "id").value).Missing? ==>
      Authenticate(header, verify, find) == Deny(ErrorReply(401, USER_NOT_FOUND))
  {
  }

  /** Authentication admits exactly when a token is present, verifies, its
      payload has an id and that id finds a user, and then admits that user. */
  lemma AdmitsIff(header: Option<string>, verify: string -> Verified, find: Value -> Lookup)
    ensures Authenticate(header, verify, find).Admit? <==>
      && HasToken(header)
      && verify(ExtractToken(header).value).Decoded?
      && Member(verify(ExtractToken(header).value).payload, "id").Some?
      && find(Member(verify(ExtractToken(header).value).payload, "id").value).Found?
    ensures Authenticate(header, verify, find).Admit? ==>
      Authenticate(header, verify, find).user ==
        find(Member(verify(ExtractToken(header).value).payload, "id").value).row
  {
  }

  /** The admin gate admits exactly the authenticated admins; an
      authenticated user of any other role, including the string "1", gets
      403, and an unauthenticated request gets its 401. */
  lemma AdminIff(header: Option<string>, verify: string -> Verified, find: Value -> Lookup)
    ensures AuthorizeAdmin(header, verify, find).Admit? <==>
      Authenticate(header, verify, find).Admit? && Get(Authenticate(header, verify, find).user, "role") == Num(Roles.ADMIN)
    ensures AuthorizeAdmin(header, verify, find).Deny? ==>
      AuthorizeAdmin(header, verify, find).reply.status == (if Authenticate(header, verify, find).Admit? then 403 else 401)
  {
  }
}
