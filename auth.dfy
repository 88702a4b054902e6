/** The two token middlewares (`authMiddleware`, `optionalAuthMiddleware`), with
    `jwt.verify` abstracted as an oracle from a token string to its claims. */
module Auth {
  import opened Common
  import opened Text

  type UserId = nat

  /** The payload of a signed token: the user id (absent in a payload that lacks `id`) and name. */
  datatype Claims = Claims(id: Option<UserId>, username: string)

  datatype Denial = NoToken | MalformedToken | InvalidToken | InvalidOrExpiredToken

  /** What a middleware decides: call the handler as a guest or as the token's user, or answer itself. */
  datatype AuthResult =
    | Guest
    | Authenticated(claims: Claims)
    | Rejected(status: nat, reason: Denial)

  const Scheme: string := "Bearer "

  /** `authHeader.replace('Bearer ', '')`: removes the first "Bearer " wherever it occurs. */
  function ExtractToken(header: string): string {
    ReplaceFirst(header, Scheme, "")
  }

  /** `optionalAuthMiddleware`: no credentials means a guest; a token that does not verify is refused. */
  function OptionalAuth(header: Option<string>, verify: string -> Option<Claims>): (r: AuthResult)
    ensures r.Rejected? ==> r == Rejected(401, InvalidOrExpiredToken)
  {
    if Falsy(header) then Guest
    else
      var token := ExtractToken(header.value);
      if token == "" then Guest
      else
        match verify(token)
        case Some(c) => Authenticated(c)
        case None => Rejected(401, InvalidOrExpiredToken)
  }

  /** `authMiddleware`: every request without a verified token is refused. */
  function StrictAuth(header: Option<string>, verify: string -> Option<Claims>): (r: AuthResult)
    ensures !r.Guest?
  {
    if Falsy(header) then Rejected(401, NoToken)
    else
      var token := ExtractToken(header.value);
      if token == "" then Rejected(401, MalformedToken)
      else
        match verify(token)
        case Some(c) => Authenticated(c)
        case None => Rejected(400, InvalidToken)
  }

  /** `req.user && req.user.id`: the id of a caller who is logged in. */
  function LoggedIn(a: AuthResult): Option<UserId> {
    if a.Authenticated? then a.claims.id else None
  }

  /** A header with something besides one "Bearer " yields a non-empty token. */
  lemma {:induction false} ExtractTokenEmptyIff(header: string)
    requires header != ""
    ensures ExtractToken(header) == "" <==> header == Scheme
  {
    match IndexOf(header, Scheme)
    case None =>
    case Some(i) =>
      var r := header[..i] + header[i + |Scheme|..];
      assert ExtractToken(header) == r;
      if r == "" {
        assert i == 0 && |header| == |Scheme|;
        assert header == header[0..|Scheme|];
      }
  }

  /** The scheme is stripped, and only the first one: "Bearer Bearer x" yields "Bearer x". */
  lemma BearerPrefixStripped(rest: string)
    ensures ExtractToken(Scheme + rest) == rest
  {
    var h := Scheme + rest;
    assert h[..|Scheme|] == Scheme;
    assert IndexOf(h, Scheme) == Some(0);
  }

  /** A header that never mentions the scheme is taken as the raw token. */
  lemma RawTokenAccepted(header: string)
    requires forall j :: 0 <= j <= |header| ==> !OccursAt(header, Scheme, j)
    ensures ExtractToken(header) == header
  {
  }

  /** The optional middleware treats the caller as a guest exactly when there are no credentials:
      no header, an empty header, or the bare scheme. A bad token is never downgraded. */
  lemma GuestIffNoCredentials(header: Option<string>, verify: string -> Option<Claims>)
    ensures OptionalAuth(header, verify) == Guest <==> Falsy(header) || header.value == Scheme
  {
    if !Falsy(header) {
      ExtractTokenEmptyIff(header.value);
    }
  }

  /** Side by side: where the optional middleware lets a guest through, the strict one answers 401;
      where the optional one refuses a token (401) the strict one answers 400; both accept the
      same verified claims. */
  lemma StrictVersusOptional(header: Option<string>, verify: string -> Option<Claims>)
    ensures OptionalAuth(header, verify) == Guest <==>
      StrictAuth(header, verify) in {Rejected(401, NoToken), Rejected(401, MalformedToken)}
    ensures OptionalAuth(header, verify).Rejected? <==> StrictAuth(header, verify) == Rejected(400, InvalidToken)
    ensures forall c :: OptionalAuth(header, verify) == Authenticated(c) <==> StrictAuth(header, verify) == Authenticated(c)
  {
  }
}
