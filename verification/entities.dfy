/** The records the console manages, with the identifier type left as a parameter: the
    shared type declarations use string ids (`_id`), the API layer and the newer pages use
    numeric ones (`id`). Alongside them, the form's view of a project: a plain object whose
    properties the change handlers overwrite by name. */
module Entities {
  import opened Base

  /** A browser `File` chosen in a file input; files are compared by identity, never by contents. */
  datatype FileHandle = FileHandle(identity: nat)

  /** A screenshot image: the URL of a stored image, or a file waiting to be uploaded.
      An empty URL stands for "no file chosen". */
  datatype Image = Url(url: string) | Upload(file: FileHandle)

  datatype Project<Id> = Project(
    id: Id,
    title: string,
    description: string,
    livePreview: string,
    sourceCode: string,
    priorityOrder: int,
    technologies: seq<Id>,
    categories: seq<Id>,
    screenshots: seq<Id>)

  datatype Technology<Id> = Technology(id: Id, name: string)

  datatype Category<Id> = Category(id: Id, title: string, name: string, priorityOrder: int)

  datatype Screenshot<Id> = Screenshot(id: Id, image: Image, priorityOrder: Option<int>)

  datatype UserLogin = UserLogin(username: string, password: string)

  /** A property of the form object. Text inputs always store text, even into a numeric
      property, so a property's kind can change under editing. */
  datatype Value<Id> = Text(text: string) | Number(number: int) | Ref(id: Id) | Refs(ids: seq<Id>)

  /** The form object: property name to value. A missing key is `undefined`. */
  type Inputs<Id> = map<string, Value<Id>>

  /** `Array.isArray(inputs[key])`. */
  predicate IsList<Id>(inputs: Inputs<Id>, key: string) {
    key in inputs && inputs[key].Refs?
  }

  /** The fields of a project. */
  datatype Field = IdField | Title | Description | LivePreview | SourceCode | PriorityOrder
                 | Technologies | Categories | Screenshots

  /** The two property-naming conventions: the form with string ids writes `_id` and camelCase,
      the edit pages with numeric ids write `id` and snake_case. */
  datatype Naming = CamelCase | SnakeCase

  /** The property name of `f` under naming `n`. */
  function Key(n: Naming, f: Field): string {
    match f
    case IdField => if n == CamelCase then "_id" else "id"
    case Title => "title"
    case Description => "description"
    case LivePreview => if n == CamelCase then "livePreview" else "live_preview"
    case SourceCode => if n == CamelCase then "sourceCode" else "source_code"
    case PriorityOrder => if n == CamelCase then "priorityOrder" else "priority_order"
    case Technologies => "technologies"
    case Categories => "categories"
    case Screenshots => "screenshots"
  }

  /** The three association lists are arrays, as the page's type declares. */
  predicate HasLists<Id>(n: Naming, inputs: Inputs<Id>) {
    IsList(inputs, Key(n, Technologies)) && IsList(inputs, Key(n, Categories)) && IsList(inputs, Key(n, Screenshots))
  }

  /** The value a project holds in field `f`. */
  function FieldValue<Id>(p: Project<Id>, f: Field): Value<Id> {
    match f
    case IdField => Ref(p.id)
    case Title => Text(p.title)
    case Description => Text(p.description)
    case LivePreview => Text(p.livePreview)
    case SourceCode => Text(p.sourceCode)
    case PriorityOrder => Number(p.priorityOrder)
    case Technologies => Refs(p.technologies)
    case Categories => Refs(p.categories)
    case Screenshots => Refs(p.screenshots)
  }

  /** Different fields have different property names. */
  lemma KeyInjective(n: Naming, f: Field, g: Field)
    requires f != g
    ensures Key(n, f) != Key(n, g)
  {
    var a, b := Key(n, f), Key(n, g);
    if |a| == |b| {
      assert a[0] != b[0] || a[1] != b[1] || a[2] != b[2];
    }
  }

  /** `{ ...project }`: the form object holding exactly the project's fields, each under
      its property name (see `ToInputsField` and `ToInputsHasOnlyProjectKeys`). */
  function ToInputs<Id>(n: Naming, p: Project<Id>): (r: Inputs<Id>)
    ensures HasLists(n, r)
    ensures r[Key(n, Technologies)].ids == p.technologies
    ensures r[Key(n, Categories)].ids == p.categories
    ensures r[Key(n, Screenshots)].ids == p.screenshots
  {
    map[Key(n, IdField) := Ref(p.id), Key(n, Title) := Text(p.title),
        Key(n, Description) := Text(p.description), Key(n, LivePreview) := Text(p.livePreview),
        Key(n, SourceCode) := Text(p.sourceCode), Key(n, PriorityOrder) := Number(p.priorityOrder),
        Key(n, Technologies) := Refs(p.technologies), Key(n, Categories) := Refs(p.categories),
        Key(n, Screenshots) := Refs(p.screenshots)]
  }

  /** Every field of the project is readable from the spread copy under its property name. */
  lemma ToInputsField<Id>(n: Naming, p: Project<Id>, f: Field)
    ensures Key(n, f) in ToInputs(n, p) && ToInputs(n, p)[Key(n, f)] == FieldValue(p, f)
  {
    forall g | g != f
      ensures Key(n, g) != Key(n, f)
    {
      KeyInjective(n, g, f);
    }
  }

  /** The spread copies nothing but the project's own fields. */
  lemma ToInputsHasOnlyProjectKeys<Id>(n: Naming, p: Project<Id>, k: string)
    requires k in ToInputs(n, p)
    ensures exists f :: Key(n, f) == k
  {
  }
}
