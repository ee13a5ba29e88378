/** The `authMiddleware` and `adminMiddleware` guards
    (`middleware/authMiddleware.ts`). The credentials travel as a Bearer
    token in the `Authorization` header (section 2.1 of RFC 6750);
    `jwt.verify` is a parameter: the decoded token, or None when it throws. */
module AuthMiddleware {
  import opened Js
  import opened Http

  /** The claims of a decoded token. */
  datatype DecodedToken = DecodedToken(userId: string, role: string, iat: int, exp: int)

  /** What the guard attaches to the request: only the user id and the role. */
  datatype AttachedUser = AttachedUser(userId: string, role: string)

  datatype GuardMessage = LoginFirst | SessionExpired | AdminOnly | CheckFailed

  const BearerPrefix := "Bearer "

  /** A header that starts with `Bearer ` splits into at least two pieces. */
  lemma BearerSplits(header: string)
    requires StartsWith(header, BearerPrefix)
    ensures |Split(header, ' ')| >= 2
  {
    var rest := header[|BearerPrefix|..];
    assert header == "Bearer" + [' '] + rest;
    SplitAtFirst("Bearer", ' ', rest);
  }

  /** `authHeader.split(' ')[1]` once the prefix is known. */
  function BearerToken(header: string): (t: string)
    requires StartsWith(header, BearerPrefix)
    ensures ' ' !in t
  {
    BearerSplits(header);
    SplitPiecesHaveNoSeparator(header, ' ');
    Split(header, ' ')[1]
  }

  /** The token of `Bearer <token>` is the token itself. */
  lemma BearerTokenOf(token: string)
    requires ' ' !in token
    ensures StartsWith(BearerPrefix + token, BearerPrefix)
    ensures BearerToken(BearerPrefix + token) == token
  {
    assert (BearerPrefix + token)[..|BearerPrefix|] == BearerPrefix;
    assert BearerPrefix + token == "Bearer" + [' '] + token;
    SplitAtFirst("Bearer", ' ', token);
    SplitWithoutSeparator(token, ' ');
  }

  /** `authMiddleware`: a missing header, or one not starting with
      `Bearer `, is 401; a token the verifier refuses is 401 with its own
      message; otherwise exactly the user id and role are attached. */
  function Authenticate(header: Opt<string>, verify: string -> Option<DecodedToken>): (g: Gate<GuardMessage, AttachedUser>)
    ensures !Truthy(header) || !StartsWith(header.v, BearerPrefix) ==> g == Reject(401, LoginFirst)
    ensures g.Next? <==> Truthy(header) && StartsWith(header.v, BearerPrefix) && verify(BearerToken(header.v)).Some?
    ensures g.Next? ==> var d := verify(BearerToken(header.v)).value; g.user == AttachedUser(d.userId, d.role)
    ensures g.Reject? ==> g.status == 401
  {
    if !Truthy(header) || !StartsWith(header.v, BearerPrefix) then Reject(401, LoginFirst)
    else
      match verify(BearerToken(header.v))
      case None => Reject(401, SessionExpired)
      case Some(d) => Next(AttachedUser(d.userId, d.role))
  }

  /** `adminMiddleware`: `next` only for the role `admin`; any other role is
      403, and a request with no user at all fails reading its role and is
      answered 500, not 401. */
  function Admin(user: Option<AttachedUser>): (g: Gate<GuardMessage, AttachedUser>)
    ensures g.Next? <==> user.Some? && user.value.role == "admin"
    ensures g.Next? ==> g.user == user.value
    ensures user.None? ==> g == Reject(500, CheckFailed)
    ensures user.Some? && user.value.role != "admin" ==> g == Reject(403, AdminOnly)
  {
    if user.None? then Reject(500, CheckFailed)
    else if user.value.role != "admin" then Reject(403, AdminOnly)
    else Next(user.value)
  }
}
