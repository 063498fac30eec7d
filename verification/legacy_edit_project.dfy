/** The older edit page (a plain form without drafts). It loads the project on mount, edits
    it with the numeric change handler, and on submit sends the whole project and replaces
    it with the server's answer, reporting progress as the words `loading` and `success`. */
module LegacyEditProject {
  import opened Base
  import opened JsNumbers
  import opened Entities
  import opened Associations
  import opened Api
  import opened Server
  import EditProject

  datatype Page = Page(project: Inputs<JsNumber>, message: string)

  /** Before the project arrives: the same empty project as the newer edit page, no message. */
  function Initial(): (p: Page)
    ensures HasLists(SnakeCase, p.project) && p.message == ""
  {
    Page(EditProject.InitialInputs(), "")
  }

  /** The mount fetch: with an id in the route the page shows whatever project the server
      returns; without one nothing is fetched. */
  function OnMount(p: Page, routeId: Option<string>, fetched: Reply<Inputs<JsNumber>>): (r: Page)
    ensures r.message == p.message
    ensures Truthy(routeId) && fetched.Ok? ==> r.project == fetched.value
    ensures !Truthy(routeId) || fetched.Failed? ==> r == p
  {
    if Truthy(routeId) && fetched.Ok? then p.(project := fetched.value) else p
  }

  function OnChange(p: Page, e: ChangeEvent): (r: Page)
    ensures r.message == p.message
    ensures forall k :: k != e.name ==> (k in r.project <==> k in p.project) && (k in r.project ==> r.project[k] == p.project[k])
  {
    p.(project := EditProject.NumericChange(p.project, e))
  }

  /** How the submit handler calls `updateProject`: as written, with the id and the project as
      two arguments; or with the single `{ id, project }` object the function destructures. */
  datatype CallStyle = Positional | Named

  datatype Submitted = Submitted(page: Page, sent: seq<Request<JsNumber>>, stop: Stop)

  /** The argument `updateProject` receives, destructured: `{ id, project }` read off it.
      Reading `id` off the route string, as the positional call makes it do, gives `undefined`. */
  function UpdateArgumentId(style: CallStyle, routeId: string): (id: Option<JsNumber>)
    ensures style == Positional <==> id.None?
    ensures style == Named ==> id == Some(ParseInt(routeId))
  {
    match style
    case Positional => None
    case Named => Some(ParseInt(routeId))
  }

  /** `handleSubmit`: without an id in the route nothing happens. Otherwise the message
      becomes `loading`, the update is sent, and on success the project is replaced by the
      response and the message becomes `success`. A throw or rejection leaves `loading`. */
  function Submit(p: Page, routeId: Option<string>, style: CallStyle, reply: Reply<Inputs<JsNumber>>): (s: Submitted)
    ensures !Truthy(routeId) ==> s == Submitted(p, [], Finished)
    ensures Truthy(routeId) && s.stop.Finished? ==>
              s.sent == [UpdateProject(ParseInt(routeId.value), p.project)] && reply.Ok?
              && s.page == Page(reply.value, "success")
    ensures Truthy(routeId) && !s.stop.Finished? ==> s.page == p.(message := "loading")
  {
    if !Truthy(routeId) then Submitted(p, [], Finished)
    else
      var loading := p.(message := "loading");
      match UpdateArgumentId(style, routeId.value)
      case None => Submitted(loading, [], Threw(TypeError("Cannot read properties of undefined (reading 'toString')")))
      case Some(id) =>
        var request := UpdateProject(id, p.project);
        match reply
        case Ok(data) => Submitted(Page(data, "success"), [request], Finished)
        case Failed(m) => Submitted(loading, [request], Rejected(m))
  }

  /** As written, every submit from an edit route throws before sending anything: the page
      shows `loading` from then on and the edits are never saved, whatever the server would
      have answered. */
  lemma PositionalSubmitNeverSaves(p: Page, routeId: Option<string>, reply: Reply<Inputs<JsNumber>>)
    requires Truthy(routeId)
    ensures var s := Submit(p, routeId, Positional, reply);
            && s.sent == [] && s.stop.Threw?
            && s.page.project == p.project && s.page.message == "loading"
  {
  }

  /** With the object call, a route written from id `n` updates project `n`; an answered
      update shows the server's project and `success`. */
  lemma NamedSubmitSaves(p: Page, n: int, reply: Reply<Inputs<JsNumber>>)
    ensures var s := Submit(p, Some(NumberToString(n)), Named, reply);
            && s.sent == [UpdateProject(Int(n), p.project)]
            && (reply.Ok? <==> s.stop.Finished?)
            && (reply.Ok? ==> s.page == Page(reply.value, "success"))
  {
    ParseIntInvertsNumberToString(n);
    assert Truthy(Some(NumberToString(n))) by {
      assert NumberToString(n) != [];
    }
  }
}
