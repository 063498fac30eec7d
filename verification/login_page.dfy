/** The login page: two credential fields, a submit that logs in only when both are filled,
    and a redirect after success to the page that sent the user here, or home. */
module LoginPage {
  import opened Base
  import opened Entities
  import opened Server
  import opened TokenStore
  import Layout

  /** The form object (`username`, `password`, and whatever else a change names) and the
      page's loading flag. */
  datatype Page = Page(inputs: map<string, string>, isLoading: bool)

  function Initial(): (p: Page)
    ensures p.inputs.Keys == {"username", "password"} && p.inputs["username"] == "" && p.inputs["password"] == ""
    ensures !p.isLoading
  {
    Page(map["username" := "", "password" := ""], false)
  }

  /** A credential field as the page reads it (`undefined` reads as empty). */
  function Field(p: Page, name: string): string {
    if name in p.inputs then p.inputs[name] else ""
  }

  /** `handleChange`: the named field takes the typed value; every other field is kept. */
  function OnChange(p: Page, name: string, value: string): (r: Page)
    ensures name in r.inputs && r.inputs[name] == value
    ensures forall k :: k != name ==> (k in r.inputs <==> k in p.inputs) && (k in r.inputs ==> r.inputs[k] == p.inputs[k])
    ensures r.isLoading == p.isLoading
  {
    p.(inputs := p.inputs[name := value])
  }

  /** `handleSubmit`: the page starts loading and sends the credentials only when both are
      non-empty. While loading the submit button is disabled and nothing happens. */
  function Submit(p: Page): (r: (Page, Option<UserLogin>))
    ensures p.isLoading ==> r == (p, None)
    ensures !p.isLoading ==> r.0 == p.(isLoading := true)
    ensures r.1.Some? <==> !p.isLoading && Field(p, "username") != "" && Field(p, "password") != ""
    ensures r.1.Some? ==> r.1.value == UserLogin(Field(p, "username"), Field(p, "password"))
  {
    if p.isLoading then (p, None)
    else
      var loading := p.(isLoading := true);
      if Field(p, "username") != "" && Field(p, "password") != "" then
        (loading, Some(UserLogin(Field(p, "username"), Field(p, "password"))))
      else (loading, None)
  }

  /** The delayed reset after a submit with an empty field. */
  function OnResetTimer(p: Page): (r: Page)
    ensures !r.isLoading && r.inputs == p.inputs
  {
    p.(isLoading := false)
  }

  /** A navigation; the login page always replaces the history entry. */
  datatype Navigation = Navigation(to: string, replace: bool)

  /** The "You must login first." alert shows when the page was reached with a `from`. */
  function ShowsAlert(from: Option<string>): (shows: bool)
    ensures shows <==> from.Some? && from.value != ""
  {
    Truthy(from)
  }

  /** Where a successful login leads: back to `from` when there is one, otherwise home. */
  function Destination(from: Option<string>, home: string): (to: string)
    ensures ShowsAlert(from) ==> to == from.value
    ensures !ShowsAlert(from) ==> to == home
  {
    if Truthy(from) then from.value else home
  }

  /** The login request settles. Success stores the credentials, marks the user logged in,
      stops loading and navigates; failure only stops loading. */
  function OnLoginSettled(p: Page, s: Layout.Session, from: Option<string>, home: string, reply: Reply<TokenPair>)
    : (r: (Page, Layout.Session, Option<Navigation>))
    ensures !r.0.isLoading && r.0.inputs == p.inputs
    ensures reply.Ok? ==> r.1 == Layout.Session(Login(s.store, reply), true) && r.2 == Some(Navigation(Destination(from, home), true))
    ensures reply.Failed? ==> r.1 == s && r.2.None?
  {
    match reply
    case Ok(_) => (p.(isLoading := false), Layout.Session(Login(s.store, reply), true), Some(Navigation(Destination(from, home), true)))
    case Failed(_) => (p.(isLoading := false), s, None)
  }

  /** A page that showed the alert sends the user back to the page they came from, which may
      itself be home; a page without it sends them home. */
  lemma AlertMatchesRedirect(p: Page, s: Layout.Session, from: Option<string>, home: string, pair: TokenPair)
    ensures var r := OnLoginSettled(p, s, from, home, Ok(pair));
            && (ShowsAlert(from) ==> r.2 == Some(Navigation(from.value, true)))
            && (!ShowsAlert(from) ==> r.2 == Some(Navigation(home, true)))
  {
  }

  /** A login sent from a filled-in form and answered stores exactly the answered tokens and
      leaves the form ready to submit again. */
  lemma SubmitThenSuccess(p: Page, s: Layout.Session, from: Option<string>, home: string, pair: TokenPair)
    requires !p.isLoading && Field(p, "username") != "" && Field(p, "password") != ""
    ensures var (loading, sent) := Submit(p);
            var (after, session, nav) := OnLoginSettled(loading, s, from, home, Ok(pair));
            && sent.Some? && after == p && session.isLoggedIn
            && session.store.accessToken == Some(pair.access) && session.store.refreshToken == Some(pair.refresh)
            && InSync(session.store) && nav.Some?
  {
  }
}
