/** The project list's delete confirmation: a prompt that remembers which project it asks
    about, and a delete that refreshes the list when it succeeds. */
module Home {
  import opened Base
  import opened JsNumbers
  import opened Api
  import opened Server

  /** The project the prompt asks about. */
  datatype Current = Current(id: JsNumber, title: string)

  /** The prompt's visibility, the remembered project, and the delete mutation's last error. */
  datatype Modal = Modal(showPrompt: bool, current: Option<Current>, error: Option<string>)

  function Initial(): (m: Modal)
    ensures !m.showPrompt && m.current.None? && m.error.None?
  {
    Modal(false, None, None)
  }

  /** `handleShow`: remember the project and open the prompt. */
  function Show(m: Modal, id: JsNumber, title: string): (r: Modal)
    ensures r.showPrompt && r.current == Some(Current(id, title)) && r.error == m.error
  {
    m.(showPrompt := true, current := Some(Current(id, title)))
  }

  /** `handleClose`: hide the prompt; the remembered project stays. */
  function Close(m: Modal): (r: Modal)
    ensures !r.showPrompt && r.current == m.current && r.error == m.error
  {
    m.(showPrompt := false)
  }

  /** What a delete did: the modal afterwards, the request sent (if any), the keys invalidated. */
  datatype Deleted = Deleted(modal: Modal, sent: seq<Request<JsNumber>>, invalidated: set<QueryKey>)

  /** `handleDelete` and its settling. Without a remembered project, or with a falsy id (0 or
      `NaN`), nothing happens. Otherwise the project is deleted; success invalidates the
      project list and closes the prompt, failure leaves the prompt open with the error. */
  function Delete(m: Modal, reply: Reply<()>): (r: Deleted)
    ensures m.current.None? || Falsy(m.current.value.id) ==> r == Deleted(m, [], {})
    ensures m.current.Some? && !Falsy(m.current.value.id) ==> r.sent == [DeleteProject(m.current.value.id)]
    ensures r.sent != [] && reply.Ok? ==> !r.modal.showPrompt && r.invalidated == {ListKey("projects")} && r.modal.error.None?
    ensures r.sent != [] && reply.Failed? ==> r.modal.showPrompt == m.showPrompt && r.invalidated == {} && r.modal.error == Some(reply.message)
    ensures r.modal.current == m.current
  {
    if m.current.None? || Falsy(m.current.value.id) then Deleted(m, [], {})
    else
      var request := DeleteProject(m.current.value.id);
      match reply
      case Ok(_) => Deleted(m.(showPrompt := false, error := None), [request], {ListKey("projects")})
      case Failed(message) => Deleted(m.(error := Some(message)), [request], {})
  }

  /** The error line shows inside the open prompt. */
  function ShownError(m: Modal): (e: Option<string>)
    ensures e.Some? <==> m.showPrompt && m.error.Some?
  {
    if m.showPrompt then m.error else None
  }

  /** Confirming a prompt opened for a project with a non-zero id deletes exactly that
      project; a failure keeps the prompt open showing the error. */
  lemma ShowThenDelete(m: Modal, id: int, title: string, reply: Reply<()>)
    requires id != 0
    ensures var r := Delete(Show(m, Int(id), title), reply);
            && r.sent == [DeleteProject(Int(id))]
            && (reply.Failed? ==> ShownError(r.modal) == Some(reply.message))
            && (reply.Ok? ==> ShownError(r.modal).None? && ListKey("projects") in r.invalidated)
  {
  }

  /** The prompt for project 0 can be opened, but confirming it never deletes anything. */
  lemma ProjectZeroIsNeverDeleted(m: Modal, title: string, reply: Reply<()>)
    ensures Delete(Show(m, Int(0), title), reply).sent == []
  {
  }

  /** Closing and reopening for the same project, then confirming, sends the same delete. */
  lemma CloseKeepsTarget(m: Modal, reply: Reply<()>)
    requires m.current.Some?
    ensures Delete(Close(m), reply).sent == Delete(m, reply).sent
  {
  }
}
