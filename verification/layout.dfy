/** The page frame: on mount it decides whether the user is logged in from the stored access
    token, and its logout button forgets the credentials. */
module Layout {
  import opened Base
  import opened Server
  import opened TokenStore

  /** The credentials and the app's logged-in flag. */
  datatype Session = Session(store: Store, isLoggedIn: bool)

  /** The mount check: a stored, non-empty access token sets the flag; without one the flag
      is left as it is. */
  function OnMount(s: Session): (r: Session)
    ensures r.store == s.store
    ensures Truthy(s.store.accessToken) ==> r.isLoggedIn
    ensures !Truthy(s.store.accessToken) ==> r.isLoggedIn == s.isLoggedIn
  {
    if Truthy(s.store.accessToken) then s.(isLoggedIn := true) else s
  }

  /** Logout: both tokens are removed from storage, the header is set to the empty string,
      and the flag is cleared. */
  function Logout(s: Session): (r: Session)
    ensures r.store.accessToken.None? && r.store.refreshToken.None? && r.store.authorization == Some("")
    ensures !r.isLoggedIn
  {
    Session(Store(None, None, Some("")), false)
  }

  /** A page reload: storage survives, the in-memory header does not. */
  function Reload(s: Store): (r: Store)
    ensures r.accessToken == s.accessToken && r.refreshToken == s.refreshToken && r.authorization.None?
  {
    s.(authorization := None)
  }

  /** After logout, no later mount check logs the user back in, however many happen. */
  lemma LogoutStaysLoggedOut(s: Session)
    ensures OnMount(Logout(s)) == Logout(s)
    ensures OnMount(Session(Reload(Logout(s).store), false)).isLoggedIn == false
  {
  }

  /** Logging out forgets everything: what happened before makes no difference. */
  lemma LogoutForgetsHistory(s: Session, pair: TokenPair, access: string)
    ensures Logout(Session(UpdateToken(Login(s.store, Ok(pair)), Ok(access)), true)) == Logout(s)
    ensures Logout(Logout(s)) == Logout(s)
  {
  }

  /** After a login and a reload the mount check reports the user logged in while the client
      carries no bearer header: nothing shown puts the stored token back into the header.
      Whether the first authenticated request then goes out without it depends on how the
      authenticated client is built, which is not part of this model; the model assumes its
      only default header is the one login and refresh set. */
  lemma ReloadKeepsLoginButNotHeader(s: Store, pair: TokenPair)
    requires pair.access != ""
    ensures var after := OnMount(Session(Reload(Login(s, Ok(pair))), false));
            after.isLoggedIn && after.store.authorization.None? && !InSync(after.store)
  {
  }
}
