/** The credentials the console keeps: the access and refresh tokens in local storage, and
    the `Authorization` default header of the authenticated client, which lives in memory
    only. Login and token refresh are the two requests that write them. */
module TokenStore {
  import opened Base
  import opened Server

  /** Local storage's `accessToken` and `refreshToken` (`None` when the item is absent) and
      the client's default `Authorization` header (`None` when never set). */
  datatype Store = Store(accessToken: Option<string>, refreshToken: Option<string>, authorization: Option<string>)

  const BearerPrefix: string := "Bearer "

  /** The header value that carries an access token. */
  function Bearer(access: string): (h: string)
    ensures |h| == |BearerPrefix| + |access| && h[..|BearerPrefix|] == BearerPrefix
  {
    BearerPrefix + access
  }

  /** The access token a header carries, if it is a bearer header. */
  function TokenOf(header: string): (t: Option<string>)
    ensures t.Some? ==> |header| >= |BearerPrefix| && header == BearerPrefix + t.value
    ensures t.None? ==> !(BearerPrefix <= header)
  {
    if BearerPrefix <= header then
      assert header == BearerPrefix + header[|BearerPrefix|..];
      Some(header[|BearerPrefix|..])
    else None
  }

  /** The header identifies the token: reading a bearer header gives back its token. */
  lemma TokenOfBearer(access: string)
    ensures TokenOf(Bearer(access)) == Some(access)
  {
    assert Bearer(access)[|BearerPrefix|..] == access;
  }

  /** The header is the bearer header of the stored access token. */
  predicate InSync(s: Store) {
    s.accessToken.Some? ==> s.authorization == Some(Bearer(s.accessToken.value))
  }

  /** What the token endpoint answers: an access and a refresh token. */
  datatype TokenPair = TokenPair(access: string, refresh: string)

  /** `login`: on success both tokens are stored and the header is set to the new access
      token; on failure the error is passed on and nothing is touched. */
  function Login(s: Store, reply: Reply<TokenPair>): (r: Store)
    ensures reply.Ok? ==> r.accessToken == Some(reply.value.access) && r.refreshToken == Some(reply.value.refresh)
    ensures reply.Ok? ==> InSync(r) && r.authorization.Some?
    ensures reply.Failed? ==> r == s
  {
    match reply
    case Ok(pair) => Store(Some(pair.access), Some(pair.refresh), Some(Bearer(pair.access)))
    case Failed(_) => s
  }

  /** `updateToken`: on success the new access token replaces the stored one and the
      header; the refresh token is kept. On failure nothing is touched. */
  function UpdateToken(s: Store, reply: Reply<string>): (r: Store)
    ensures r.refreshToken == s.refreshToken
    ensures reply.Ok? ==> r.accessToken == Some(reply.value) && r.authorization.Some? && TokenOf(r.authorization.value) == Some(reply.value)
    ensures reply.Failed? ==> r == s
    ensures InSync(s) ==> InSync(r)
  {
    match reply
    case Ok(access) =>
      TokenOfBearer(access);
      s.(accessToken := Some(access), authorization := Some(Bearer(access)))
    case Failed(_) => s
  }

  /** A successful refresh after login keeps the refresh token from the login and makes the
      new access token the one in use. */
  lemma RefreshAfterLogin(s: Store, pair: TokenPair, access: string)
    ensures var r := UpdateToken(Login(s, Ok(pair)), Ok(access));
            r == Store(Some(access), Some(pair.refresh), Some(Bearer(access)))
  {
  }
}
