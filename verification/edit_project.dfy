/** The edit page with numeric ids (`id`, snake_case properties). Checkbox values are read
    with `parseInt` and compared with `!==`; new technologies are drafted as in the project
    form, but there are no screenshot drafts, and a submit only ever updates the project
    named by the route. */
module EditProject {
  import opened Base
  import opened JsNumbers
  import opened Entities
  import opened Associations
  import opened Drafts
  import opened Api
  import opened Server

  /** The update mutation's last settled outcome. */
  datatype UpdateStatus = NotSent | Updated | UpdateFailed(message: string)

  datatype Form = Form(inputs: Inputs<JsNumber>, technologyDrafts: seq<TechnologyDraft>, update: UpdateStatus)

  /** The empty form object: id 0, blank text, priority 0, empty lists. */
  function InitialInputs(): (r: Inputs<JsNumber>)
    ensures HasLists(SnakeCase, r)
    ensures r[Key(SnakeCase, Technologies)].ids == [] && r[Key(SnakeCase, Categories)].ids == []
    ensures r[Key(SnakeCase, Screenshots)].ids == []
    ensures Key(SnakeCase, IdField) in r && r[Key(SnakeCase, IdField)] == Ref(Int(0))
  {
    map[Key(SnakeCase, IdField) := Ref(Int(0)), Key(SnakeCase, Title) := Text(""),
        Key(SnakeCase, Description) := Text(""), Key(SnakeCase, LivePreview) := Text(""),
        Key(SnakeCase, SourceCode) := Text(""), Key(SnakeCase, PriorityOrder) := Number(0),
        Key(SnakeCase, Technologies) := Refs([]), Key(SnakeCase, Categories) := Refs([]),
        Key(SnakeCase, Screenshots) := Refs([])]
  }

  function Initial(): (f: Form)
    ensures HasLists(SnakeCase, f.inputs) && f.technologyDrafts == [] && f.update == NotSent
  {
    Form(InitialInputs(), [], NotSent)
  }

  /** `handleChange` with numeric ids, shared by this page and the older edit page. */
  function NumericChange(inputs: Inputs<JsNumber>, e: ChangeEvent): (r: Inputs<JsNumber>)
    ensures forall k :: k != e.name ==> (k in r <==> k in inputs) && (k in r ==> r[k] == inputs[k])
    ensures e.Checkbox? && IsList(inputs, e.name) && e.checked ==>
              IsList(r, e.name) && r[e.name].ids == inputs[e.name].ids + [ParseInt(e.value)]
    ensures e.Checkbox? && IsList(inputs, e.name) && !e.checked ==>
              IsList(r, e.name) && forall x :: x in r[e.name].ids <==> x in inputs[e.name].ids && !StrictEquals(x, ParseInt(e.value))
  {
    HandleChange(inputs, e, ParseInt, StrictEquals)
  }

  function OnChange(f: Form, e: ChangeEvent): (r: Form)
    ensures r.technologyDrafts == f.technologyDrafts && r.update == f.update
    ensures forall k :: k != e.name ==> (k in r.inputs <==> k in f.inputs) && (k in r.inputs ==> r.inputs[k] == f.inputs[k])
  {
    f.(inputs := NumericChange(f.inputs, e))
  }

  /** A checkbox rendered for id `n` carries `String(n)`; ticking and then clearing it
      restores the list when `n` was not selected. */
  lemma TickThenClearRestores(inputs: Inputs<JsNumber>, name: string, n: int)
    requires IsList(inputs, name) && Int(n) !in inputs[name].ids
    ensures NumericChange(NumericChange(inputs, Checkbox(name, NumberToString(n), true)), Checkbox(name, NumberToString(n), false))
         == inputs
  {
    var value := NumberToString(n);
    ParseIntInvertsNumberToString(n);
    CheckThenUncheck(inputs, name, value, ParseInt, StrictEquals);
    UncheckAbsentIsNoOp(inputs, name, value, ParseInt, StrictEquals);
  }

  /** A value `parseInt` cannot read becomes `NaN`. Ticking appends it, and since `NaN !== NaN`
      clearing the box removes nothing: the `NaN` stays in the list. */
  lemma NaNTickIsPermanent(inputs: Inputs<JsNumber>, name: string, value: string)
    requires IsList(inputs, name) && ParseInt(value) == NaN
    ensures var ticked := NumericChange(inputs, Checkbox(name, value, true));
            && NumericChange(ticked, Checkbox(name, value, false)) == ticked
            && ticked[name].ids == inputs[name].ids + [NaN]
  {
    var ticked := NumericChange(inputs, Checkbox(name, value, true));
    assert forall x :: !StrictEquals(x, ParseInt(value));
    UncheckAbsentIsNoOp(ticked, name, value, ParseInt, StrictEquals);
  }

  /** When the project arrives, the form object becomes a copy of it; drafts are kept. */
  function OnLoad(f: Form, project: Option<Project<JsNumber>>): (r: Form)
    ensures project.None? ==> r == f
    ensures project.Some? ==> HasLists(SnakeCase, r.inputs)
    ensures project.Some? ==> forall fld :: Key(SnakeCase, fld) in r.inputs && r.inputs[Key(SnakeCase, fld)] == FieldValue(project.value, fld)
    ensures project.Some? ==> forall k :: k in r.inputs ==> exists fld :: Key(SnakeCase, fld) == k
    ensures r.technologyDrafts == f.technologyDrafts && r.update == f.update
  {
    if project.None? then f
    else
      var p := project.value;
      assert forall fld :: Key(SnakeCase, fld) in ToInputs(SnakeCase, p) && ToInputs(SnakeCase, p)[Key(SnakeCase, fld)] == FieldValue(p, fld) by {
        forall fld ensures Key(SnakeCase, fld) in ToInputs(SnakeCase, p) && ToInputs(SnakeCase, p)[Key(SnakeCase, fld)] == FieldValue(p, fld) {
          ToInputsField(SnakeCase, p, fld);
        }
      }
      f.(inputs := ToInputs(SnakeCase, p))
  }

  /** The line under the submit button once the update has settled: the success text after
      an answered update, and nothing before one or after a failure. */
  function StatusMessage(f: Form): (line: string)
    ensures f.update.Updated? ==> line == "Updated successfully!"
    ensures f.update.NotSent? || f.update.UpdateFailed? ==> line == ""
  {
    if f.update.Updated? then "Updated successfully!" else ""
  }

  /** The server's replies for one submit: the technologies, then the update. */
  datatype Script = Script(technologies: seq<Reply<JsNumber>>, persist: Reply<()>)

  datatype Submitted = Submitted(form: Form, sent: seq<Request<JsNumber>>, invalidated: set<QueryKey>, stop: Stop)

  /** `handleSubmit`. Without an id in the route it returns at once, before even preventing
      the browser's own form submission. Otherwise the technology drafts are created in order
      and their ids appended, and the project is updated under `parseInt` of the route id. The
      form object itself is not changed; the project query is invalidated on success. */
  function Submit(f: Form, routeId: Option<string>, script: Script): (s: Submitted)
    requires HasLists(SnakeCase, f.inputs)
    ensures !Truthy(routeId) ==> s == Submitted(f, [], {}, Finished)
    ensures s.form.inputs == f.inputs
    ensures forall i :: 0 <= i < |s.sent| && s.sent[i].Persists() ==>
              i == |s.sent| - 1 && s.stop.Finished? && s.sent[i].UpdateProject? && s.sent[i].id == ParseInt(routeId.value)
    ensures Truthy(routeId) && s.stop.Finished? ==> s.sent != [] && s.sent[|s.sent| - 1].UpdateProject?
    ensures !s.stop.Finished? ==> s.form == f && s.invalidated == {}
    ensures Truthy(routeId) && s.stop.Finished? ==>
              s.invalidated == (if f.technologyDrafts == [] then {} else {ListKey("technologies")})
                             + (if script.persist.Ok? then {ProjectKey(routeId.value)} else {})
  {
    if !Truthy(routeId) then Submitted(f, [], {}, Finished)
    else
      var techs := CreateEach(TechnologyRequests(f.technologyDrafts), script.technologies);
      if !techs.stop.Finished? then Submitted(f, techs.sent, {}, techs.stop)
      else
        var project := Attach(f.inputs, Key(SnakeCase, Technologies), techs.ids);
        var techKeys := if f.technologyDrafts == [] then {} else {ListKey("technologies")};
        var request := UpdateProject(ParseInt(routeId.value), project);
        var cleared := f.(technologyDrafts := []);
        match script.persist
        case Ok(_) =>
          Submitted(cleared.(update := Updated), techs.sent + [request], techKeys + {ProjectKey(routeId.value)}, Finished)
        case Failed(m) =>
          Submitted(cleared.(update := UpdateFailed(m)), techs.sent + [request], techKeys, Finished)
  }

  /** The update goes to the project the route names: a route written from id `n` updates
      `n`, and its cache entry is the route's own string. */
  lemma SubmitTargetsRouteProject(f: Form, n: int, script: Script)
    requires HasLists(SnakeCase, f.inputs)
    requires Submit(f, Some(NumberToString(n)), script).stop.Finished?
    ensures var s := Submit(f, Some(NumberToString(n)), script);
            && s.sent[|s.sent| - 1] == UpdateProject(Int(n), s.sent[|s.sent| - 1].project)
            && (script.persist.Ok? ==> ProjectKey(NumberToString(n)) in s.invalidated)
  {
    ParseIntInvertsNumberToString(n);
  }

  /** When every technology create is answered, the drafts are created in order and the
      update carries the form object with the returned ids appended to its technologies. */
  lemma SubmitAllAnswered(f: Form, routeId: Option<string>, script: Script)
    requires HasLists(SnakeCase, f.inputs) && Truthy(routeId)
    requires forall i :: 0 <= i < |f.technologyDrafts| ==> ReplyAt(script.technologies, i).Ok?
    ensures var s := Submit(f, routeId, script);
            var nt := |f.technologyDrafts|;
            && s.stop.Finished? && |s.sent| == nt + 1
            && (forall i :: 0 <= i < nt ==> s.sent[i] == CreateTechnology(f.technologyDrafts[i].name))
            && s.sent[nt].project[Key(SnakeCase, Technologies)]
               == Refs(f.inputs[Key(SnakeCase, Technologies)].ids + Answers(script.technologies, nt))
            && (forall k :: k != Key(SnakeCase, Technologies) ==>
                  (k in s.sent[nt].project <==> k in f.inputs) && (k in f.inputs ==> s.sent[nt].project[k] == f.inputs[k]))
            && s.form.technologyDrafts == []
            && (nt > 0 <==> ListKey("technologies") in s.invalidated)
            && (script.persist.Ok? ==> StatusMessage(s.form) == "Updated successfully!")
            && (script.persist.Failed? ==> StatusMessage(s.form) == "")
  {
    CreateEachAllAnswered(TechnologyRequests<JsNumber>(f.technologyDrafts), script.technologies);
  }

  /** With no drafts the update carries the form object exactly as it is. */
  lemma SubmitWithoutDrafts(f: Form, routeId: Option<string>, script: Script)
    requires HasLists(SnakeCase, f.inputs) && Truthy(routeId) && f.technologyDrafts == []
    ensures Submit(f, routeId, script).sent == [UpdateProject(ParseInt(routeId.value), f.inputs)]
  {
    AttachNothing(f.inputs, Key(SnakeCase, Technologies));
  }
}
