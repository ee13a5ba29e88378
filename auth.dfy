/** The `authenticate` and `authorize` middlewares (`middleware/auth.ts`).
    `jwt.verify` is a parameter: the payload of a valid token, or None when
    it throws. */
module Auth {
  import opened Js
  import opened Http

  /** The decoded token payload, attached to the request as `req.user`. */
  datatype AuthUser = AuthUser(id: string, username: string, role: string)

  datatype AuthMessage = NoToken | BadToken | NotLoggedIn | NoAccess

  /** `authHeader.split(' ')[1]`: the second space-separated piece, or
      undefined when there is none. */
  function TokenOf(header: string): (t: Opt<string>)
    ensures t.Val? <==> |Split(header, ' ')| > 1
    ensures t.Val? ==> t.v == Split(header, ' ')[1] && ' ' !in t.v
  {
    SplitPiecesHaveNoSeparator(header, ' ');
    var pieces := Split(header, ' ');
    if |pieces| > 1 then Val(pieces[1]) else Undef
  }

  /** `authenticate`: no header, or no second piece, is 401; a token the
      verifier refuses is 401 with its own message; otherwise the payload
      becomes the request's user and `next` is called. */
  function Authenticate(header: Opt<string>, verify: string -> Option<AuthUser>): (g: Gate<AuthMessage, AuthUser>)
    ensures !Truthy(header) ==> g == Reject(401, NoToken)
    ensures Truthy(header) && !Truthy(TokenOf(header.v)) ==> g == Reject(401, NoToken)
    ensures g.Next? <==> Truthy(header) && Truthy(TokenOf(header.v)) && verify(TokenOf(header.v).v).Some?
    ensures g.Next? ==> g.user == verify(TokenOf(header.v).v).value
    ensures g.Reject? ==> g.status == 401
  {
    if !Truthy(header) then Reject(401, NoToken)
    else
      var token := TokenOf(header.v);
      if !Truthy(token) then Reject(401, NoToken)
      else
        match verify(token.v)
        case None => Reject(401, BadToken)
        case Some(user) => Next(user)
  }

  /** The token is the text between the first and the second space. */
  lemma TokenAfterScheme(scheme: string, token: string, rest: string)
    requires ' ' !in scheme && ' ' !in token
    requires rest == [] || rest[0] == ' '
    ensures TokenOf(scheme + " " + token + rest) == Val(token)
  {
    SplitAtFirst(scheme, ' ', token + rest);
    assert scheme + " " + token + rest == scheme + [' '] + (token + rest);
    if rest == [] {
      SplitWithoutSeparator(token, ' ');
      assert token + rest == token;
    } else {
      SplitAtFirst(token, ' ', rest[1..]);
      assert token + rest == token + [' '] + rest[1..];
    }
  }

  /** No scheme is checked: any first word in front of the token is accepted
      alike, `Bearer` or not. */
  lemma AnySchemeAccepted(scheme: string, token: string, verify: string -> Option<AuthUser>)
    requires ' ' !in scheme && ' ' !in token
    ensures Authenticate(Val(scheme + " " + token), verify) == Authenticate(Val("Bearer " + token), verify)
  {
    TokenAfterScheme(scheme, token, []);
    TokenAfterScheme("Bearer", token, []);
    assert scheme + " " + token + [] == scheme + " " + token;
    assert "Bearer" + " " + token + [] == "Bearer " + token;
  }

  /** `authorize(roles)`: no user is 401, a role outside the list is 403,
      and otherwise `next` is called with the user unchanged. */
  function Authorize(roles: seq<string>, user: Option<AuthUser>): (g: Gate<AuthMessage, AuthUser>)
    ensures g.Next? <==> user.Some? && user.value.role in roles
    ensures g.Next? ==> g.user == user.value
    ensures user.None? ==> g == Reject(401, NotLoggedIn)
    ensures user.Some? && user.value.role !in roles ==> g == Reject(403, NoAccess)
  {
    if user.None? then Reject(401, NotLoggedIn)
    else if user.value.role !in roles then Reject(403, NoAccess)
    else Next(user.value)
  }
}
