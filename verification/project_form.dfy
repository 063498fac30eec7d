/** The project form with string ids (`_id`, camelCase properties), used both to create a
    project (no id in the route) and to edit one (an id in the route). Besides the form object
    it keeps technology and screenshot drafts, which a submit creates on the server one by
    one before saving the project with their new ids appended. */
module ProjectForm {
  import opened Base
  import opened Entities
  import opened Associations
  import opened Drafts
  import opened Api
  import opened Server

  /** The state of one react-query mutation, as far as the page reads it. */
  datatype MutationStatus = Idle | Succeeded | Errored(message: string)

  datatype Form = Form(
    inputs: Inputs<string>,
    technologyDrafts: seq<TechnologyDraft>,
    screenshotDrafts: seq<ScreenshotDraft>,
    isLoading: bool,
    created: MutationStatus,
    updated: MutationStatus)

  /** The empty form object: blank text, priority 0, empty lists, and no `_id`. */
  function InitialInputs(): (r: Inputs<string>)
    ensures HasLists(CamelCase, r)
    ensures r[Key(CamelCase, Technologies)].ids == [] && r[Key(CamelCase, Categories)].ids == []
    ensures r[Key(CamelCase, Screenshots)].ids == []
    ensures Key(CamelCase, IdField) !in r
  {
    map[Key(CamelCase, Title) := Text(""), Key(CamelCase, Description) := Text(""),
        Key(CamelCase, LivePreview) := Text(""), Key(CamelCase, SourceCode) := Text(""),
        Key(CamelCase, PriorityOrder) := Number(0), Key(CamelCase, Technologies) := Refs([]),
        Key(CamelCase, Categories) := Refs([]), Key(CamelCase, Screenshots) := Refs([])]
  }

  function Initial(): (f: Form)
    ensures HasLists(CamelCase, f.inputs) && !f.isLoading
    ensures f.technologyDrafts == [] && f.screenshotDrafts == []
  {
    Form(InitialInputs(), [], [], false, Idle, Idle)
  }

  /** A checkbox's `value` is used as the id as it is. */
  function Verbatim(value: string): string {
    value
  }

  /** `===` on string ids. */
  function SameString(a: string, b: string): bool {
    a == b
  }

  /** `handleChange` on this form. */
  function OnChange(f: Form, e: ChangeEvent): (r: Form)
    ensures r.technologyDrafts == f.technologyDrafts && r.screenshotDrafts == f.screenshotDrafts
    ensures r.isLoading == f.isLoading && r.created == f.created && r.updated == f.updated
    ensures e.Checkbox? && IsList(f.inputs, e.name) && !e.checked ==>
              IsList(r.inputs, e.name) && e.value !in r.inputs[e.name].ids
  {
    f.(inputs := HandleChange(f.inputs, e, Verbatim, SameString))
  }

  /** Ticking a box and then clearing it restores the form when the id was not selected. */
  lemma TickThenClearRestores(f: Form, name: string, value: string)
    requires IsList(f.inputs, name) && value !in f.inputs[name].ids
    ensures OnChange(OnChange(f, Checkbox(name, value, true)), Checkbox(name, value, false)) == f
  {
    CheckThenUncheck(f.inputs, name, value, Verbatim, SameString);
    UncheckAbsentIsNoOp(f.inputs, name, value, Verbatim, SameString);
  }

  /** When the edited project arrives, the form object becomes a copy of it; drafts and
      flags are kept. */
  function OnLoad(f: Form, project: Option<Project<string>>): (r: Form)
    ensures project.None? ==> r == f
    ensures project.Some? ==> HasLists(CamelCase, r.inputs)
    ensures project.Some? ==> forall fld :: Key(CamelCase, fld) in r.inputs && r.inputs[Key(CamelCase, fld)] == FieldValue(project.value, fld)
    ensures project.Some? ==> forall k :: k in r.inputs ==> exists fld :: Key(CamelCase, fld) == k
    ensures r.technologyDrafts == f.technologyDrafts && r.screenshotDrafts == f.screenshotDrafts && r.isLoading == f.isLoading
  {
    if project.None? then f
    else
      var p := project.value;
      assert forall fld :: Key(CamelCase, fld) in ToInputs(CamelCase, p) && ToInputs(CamelCase, p)[Key(CamelCase, fld)] == FieldValue(p, fld) by {
        forall fld ensures Key(CamelCase, fld) in ToInputs(CamelCase, p) && ToInputs(CamelCase, p)[Key(CamelCase, fld)] == FieldValue(p, fld) {
          ToInputsField(CamelCase, p, fld);
        }
      }
      f.(inputs := ToInputs(CamelCase, p))
  }

  /** The line under the submit button: loading first, then the create mutation's outcome,
      then the update mutation's. */
  function StatusMessage(f: Form): (line: string)
    ensures f.isLoading ==> line == "Please wait ..."
    ensures !f.isLoading && f.created.Succeeded? ==> line == "Created successfully!"
    ensures !f.isLoading && f.created.Errored? ==> line == f.created.message
    ensures !f.isLoading && f.created.Idle? && f.updated.Succeeded? ==> line == "Update successfully"
    ensures !f.isLoading && f.created.Idle? && f.updated.Errored? ==> line == f.updated.message
    ensures !f.isLoading && f.created.Idle? && f.updated.Idle? ==> line == ""
  {
    if f.isLoading then "Please wait ..."
    else if f.created.Succeeded? then "Created successfully!"
    else if f.created.Errored? then f.created.message
    else if f.updated.Succeeded? then "Update successfully"
    else if f.updated.Errored? then f.updated.message
    else ""
  }

  /** The server's replies for one submit: technologies, screenshots, then the project. */
  datatype Script = Script(technologies: seq<Reply<string>>, screenshots: seq<Reply<string>>, persist: Reply<()>)

  /** The form after a submit has settled, the requests it sent in order, the query keys it
      invalidated, and how the submit handler itself ended. */
  datatype Submitted = Submitted(form: Form, sent: seq<Request<string>>, invalidated: set<QueryKey>, stop: Stop)

  /** The route's id decides between updating and creating. */
  function PersistRequest(routeId: Option<string>, project: Inputs<string>): (r: Request<string>)
    ensures r.Persists() && r.project == project
    ensures r.UpdateProject? <==> Truthy(routeId)
    ensures r.UpdateProject? ==> r.id == routeId.value
  {
    if Truthy(routeId) then UpdateProject(routeId.value, project) else CreateProject(project)
  }

  /** The form once the create or update mutation answers. Success stops the loading state
      (and a create empties the form); failure records the error and leaves the form loading,
      because neither mutation clears the flag on error. */
  function Settle(f: Form, routeId: Option<string>, reply: Reply<()>): (r: Form)
    ensures r.isLoading == (f.isLoading && reply.Failed?)
    ensures r.technologyDrafts == f.technologyDrafts && r.screenshotDrafts == f.screenshotDrafts
    ensures r.inputs == if reply.Ok? && !Truthy(routeId) then InitialInputs() else f.inputs
  {
    match reply
    case Ok(_) =>
      if Truthy(routeId) then f.(isLoading := false, updated := Succeeded)
      else f.(isLoading := false, inputs := InitialInputs(), created := Succeeded)
    case Failed(m) =>
      if Truthy(routeId) then f.(updated := Errored(m)) else f.(created := Errored(m))
  }

  /** The project query a successful update invalidates. */
  function SettledKeys(routeId: Option<string>, reply: Reply<()>): (keys: set<QueryKey>)
    ensures keys != {} <==> reply.Ok? && Truthy(routeId)
    ensures keys <= {ProjectKey(if routeId.Some? then routeId.value else "")}
  {
    if reply.Ok? && Truthy(routeId) then {ProjectKey(routeId.value)} else {}
  }

  /** The uploads for the screenshot drafts; the form's drafts carry no owning project. */
  function ScreenshotRequests(drafts: seq<ScreenshotDraft>, mode: UploadMode): (r: seq<Result<Request<string>, ClientError>>)
    ensures |r| == |drafts|
    ensures forall i :: 0 <= i < |r| ==> r[i] == ScreenshotRequest(ScreenshotUpload(drafts[i].image, None), mode)
  {
    seq(|drafts|, i requires 0 <= i < |drafts| => ScreenshotRequest(ScreenshotUpload(drafts[i].image, None), mode))
  }

  /** `handleSubmit`. While loading the submit button is disabled and nothing happens.
      Otherwise: technologies are created in draft order and their ids appended to the
      project's list, then the screenshots likewise, then the project is updated (an id in the
      route) or created. A throw or rejection on the way ends the handler where it is: the
      loading flag stays set and nothing created is deleted again. */
  function Submit(f: Form, routeId: Option<string>, script: Script, mode: UploadMode): (s: Submitted)
    requires HasLists(CamelCase, f.inputs)
    ensures f.isLoading ==> s == Submitted(f, [], {}, Finished)
    ensures !f.isLoading && !s.stop.Finished? ==> s.form.isLoading && s.form.inputs == f.inputs
    ensures s.stop.Finished? && !f.isLoading ==> s.sent != [] && s.sent[|s.sent| - 1].Persists()
    ensures forall i :: 0 <= i < |s.sent| && s.sent[i].Persists() ==> i == |s.sent| - 1 && s.stop.Finished?
    ensures |s.sent| <= |f.technologyDrafts| + |f.screenshotDrafts| + 1
  {
    if f.isLoading then Submitted(f, [], {}, Finished)
    else
      var loading := f.(isLoading := true);
      var techs := CreateEach(TechnologyRequests(f.technologyDrafts), script.technologies);
      if !techs.stop.Finished? then Submitted(loading, techs.sent, {}, techs.stop)
      else
        var withTechs := Attach(f.inputs, Key(CamelCase, Technologies), techs.ids);
        var techKeys := if f.technologyDrafts == [] then {} else {ListKey("technologies")};
        var cleared := loading.(technologyDrafts := []);
        var shots := CreateEach(ScreenshotRequests(f.screenshotDrafts, mode), script.screenshots);
        if !shots.stop.Finished? then Submitted(cleared, techs.sent + shots.sent, techKeys, shots.stop)
        else
          var project := Attach(withTechs, Key(CamelCase, Screenshots), shots.ids);
          var shotKeys := if f.screenshotDrafts == [] then {} else {ListKey("screenshots")};
          Submitted(Settle(cleared.(screenshotDrafts := []), routeId, script.persist),
                    techs.sent + shots.sent + [PersistRequest(routeId, project)],
                    techKeys + shotKeys + SettledKeys(routeId, script.persist),
                    Finished)
  }

  /** With no drafts, a submit sends nothing but the project exactly as the form holds it. */
  lemma SubmitWithoutDrafts(f: Form, routeId: Option<string>, script: Script, mode: UploadMode)
    requires HasLists(CamelCase, f.inputs) && !f.isLoading
    requires f.technologyDrafts == [] && f.screenshotDrafts == []
    ensures Submit(f, routeId, script, mode).sent == [PersistRequest(routeId, f.inputs)]
    ensures Submit(f, routeId, script, mode).invalidated == SettledKeys(routeId, script.persist)
  {
    AttachNothing(f.inputs, Key(CamelCase, Technologies));
    AttachNothing(f.inputs, Key(CamelCase, Screenshots));
  }

  /** When every request is answered (screenshot bodies leaving out the missing owner), a
      submit creates the technologies and then the screenshots in draft order, and saves the
      project once, last, with the returned ids appended to its lists in the same order. As
      written the same holds for a submit without screenshot drafts, which never builds a
      screenshot body (see `UploadModeIrrelevantWithoutScreenshots`). */
  lemma SubmitAllAnswered(f: Form, routeId: Option<string>, script: Script)
    requires HasLists(CamelCase, f.inputs) && !f.isLoading
    requires forall i :: 0 <= i < |f.technologyDrafts| ==> ReplyAt(script.technologies, i).Ok?
    requires forall i :: 0 <= i < |f.screenshotDrafts| ==> ReplyAt(script.screenshots, i).Ok?
    ensures var s := Submit(f, routeId, script, OptionalOwner);
            var nt, ns := |f.technologyDrafts|, |f.screenshotDrafts|;
            && s.stop.Finished? && |s.sent| == nt + ns + 1
            && (forall i :: 0 <= i < nt ==> s.sent[i] == CreateTechnology(f.technologyDrafts[i].name))
            && (forall i :: 0 <= i < ns ==>
                  s.sent[nt + i] == CreateScreenshot(ScreenshotFormOptionalOwner(ScreenshotUpload(f.screenshotDrafts[i].image, None))))
            && s.sent[nt + ns] == PersistRequest(routeId, s.sent[nt + ns].project)
            && s.sent[nt + ns].project[Key(CamelCase, Technologies)]
               == Refs(f.inputs[Key(CamelCase, Technologies)].ids + Answers(script.technologies, nt))
            && s.sent[nt + ns].project[Key(CamelCase, Screenshots)]
               == Refs(f.inputs[Key(CamelCase, Screenshots)].ids + Answers(script.screenshots, ns))
            && (forall k :: k != Key(CamelCase, Technologies) && k != Key(CamelCase, Screenshots) ==>
                  (k in s.sent[nt + ns].project <==> k in f.inputs)
                  && (k in f.inputs ==> s.sent[nt + ns].project[k] == f.inputs[k]))
            && s.form.technologyDrafts == [] && s.form.screenshotDrafts == []
  {
    var tr := TechnologyRequests<string>(f.technologyDrafts);
    var sr := ScreenshotRequests(f.screenshotDrafts, OptionalOwner);
    CreateEachAllAnswered(tr, script.technologies);
    CreateEachAllAnswered(sr, script.screenshots);
  }

  /** A submit without screenshot drafts never builds a screenshot body, so the code as
      written sends and settles exactly as with the corrected upload body. */
  lemma UploadModeIrrelevantWithoutScreenshots(f: Form, routeId: Option<string>, script: Script)
    requires HasLists(CamelCase, f.inputs) && f.screenshotDrafts == []
    ensures Submit(f, routeId, script, AsWritten) == Submit(f, routeId, script, OptionalOwner)
  {
    assert ScreenshotRequests(f.screenshotDrafts, AsWritten) == ScreenshotRequests(f.screenshotDrafts, OptionalOwner);
  }

  /** The caches such a submit invalidates: the technology list when there were technology
      drafts, the screenshot list when there were screenshot drafts, and the project itself
      after a successful update. */
  lemma SubmitAllAnsweredInvalidates(f: Form, routeId: Option<string>, script: Script, mode: UploadMode)
    requires HasLists(CamelCase, f.inputs) && !f.isLoading
    requires mode == OptionalOwner || f.screenshotDrafts == []
    requires forall i :: 0 <= i < |f.technologyDrafts| ==> ReplyAt(script.technologies, i).Ok?
    requires forall i :: 0 <= i < |f.screenshotDrafts| ==> ReplyAt(script.screenshots, i).Ok?
    ensures Submit(f, routeId, script, mode).invalidated
         == (if f.technologyDrafts == [] then {} else {ListKey("technologies")})
          + (if f.screenshotDrafts == [] then {} else {ListKey("screenshots")})
          + SettledKeys(routeId, script.persist)
    decreases if mode == AsWritten then 1 else 0
  {
    if mode == AsWritten {
      UploadModeIrrelevantWithoutScreenshots(f, routeId, script);
      SubmitAllAnsweredInvalidates(f, routeId, script, OptionalOwner);
    } else {
      CreateEachAllAnswered(TechnologyRequests<string>(f.technologyDrafts), script.technologies);
      CreateEachAllAnswered(ScreenshotRequests(f.screenshotDrafts, OptionalOwner), script.screenshots);
    }
  }

  /** A rejected technology create ends the submit right there: the technologies before it
      stay created, nothing else is sent, the drafts are all kept (those already created
      included), and the form stays loading, so its submit button stays disabled. */
  lemma TechnologyRejectionHalts(f: Form, routeId: Option<string>, script: Script, mode: UploadMode, k: nat)
    requires HasLists(CamelCase, f.inputs) && !f.isLoading
    requires k < |f.technologyDrafts|
    requires forall i :: 0 <= i < k ==> ReplyAt(script.technologies, i).Ok?
    requires ReplyAt(script.technologies, k).Failed?
    ensures var s := Submit(f, routeId, script, mode);
            && s.stop == Rejected(ReplyAt(script.technologies, k).message)
            && |s.sent| == k + 1
            && (forall i :: 0 <= i <= k ==> s.sent[i] == CreateTechnology(f.technologyDrafts[i].name))
            && s.form == f.(isLoading := true)
            && s.invalidated == {}
  {
  }

  /** As written, any screenshot draft makes the submit throw before the first upload is
      sent: the drafts carry no project, and the upload reads the project's `toString`. By
      then every technology has been created and the technology drafts cleared, but their
      ids reach neither the form nor any saved project, nothing is saved, and the form stays
      loading. */
  lemma ScreenshotDraftsThrowAsWritten(f: Form, routeId: Option<string>, script: Script)
    requires HasLists(CamelCase, f.inputs) && !f.isLoading
    requires f.screenshotDrafts != []
    requires forall i :: 0 <= i < |f.technologyDrafts| ==> ReplyAt(script.technologies, i).Ok?
    ensures var s := Submit(f, routeId, script, AsWritten);
            && s.stop.Threw?
            && |s.sent| == |f.technologyDrafts|
            && (forall i :: 0 <= i < |s.sent| ==> s.sent[i] == CreateTechnology(f.technologyDrafts[i].name))
            && s.form.technologyDrafts == [] && s.form.screenshotDrafts == f.screenshotDrafts
            && s.form.inputs == f.inputs && s.form.isLoading
            && s.invalidated == (if f.technologyDrafts == [] then {} else {ListKey("technologies")})
  {
    var tr := TechnologyRequests<string>(f.technologyDrafts);
    var sr := ScreenshotRequests(f.screenshotDrafts, AsWritten);
    CreateEachAllAnswered(tr, script.technologies);
    CreateEachStopsAtThrow(sr, script.screenshots, 0);
  }

  /** A failed save leaves the form loading for good: the line under the button keeps saying
      "Please wait ..." and no later submit sends anything. */
  lemma FailedSaveStaysLoading(f: Form, routeId: Option<string>, script: Script, mode: UploadMode)
    requires HasLists(CamelCase, f.inputs) && !f.isLoading
    requires script.persist.Failed?
    requires Submit(f, routeId, script, mode).stop.Finished?
    ensures var s := Submit(f, routeId, script, mode);
            && s.form.isLoading
            && StatusMessage(s.form) == "Please wait ..."
            && HasLists(CamelCase, s.form.inputs)
            && forall later: Script :: Submit(s.form, routeId, later, mode).sent == []
  {
  }

  /** A successful save ends the loading state. A create empties the form and reports
      success; an update keeps the form object as it was submitted (without the new ids,
      until the project query is fetched again) and invalidates that query. */
  lemma SuccessfulSave(f: Form, routeId: Option<string>, script: Script, mode: UploadMode)
    requires HasLists(CamelCase, f.inputs) && !f.isLoading
    requires script.persist.Ok?
    requires Submit(f, routeId, script, mode).stop.Finished?
    ensures var s := Submit(f, routeId, script, mode);
            && !s.form.isLoading
            && (!Truthy(routeId) ==> s.form.inputs == InitialInputs() && StatusMessage(s.form) == "Created successfully!")
            && (Truthy(routeId) ==> s.form.inputs == f.inputs && ProjectKey(routeId.value) in s.invalidated)
            && (Truthy(routeId) && f.created == Idle ==> StatusMessage(s.form) == "Update successfully")
  {
  }
}
