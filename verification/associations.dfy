/** The change handler the project forms share: a text input overwrites the property it
    names; a checkbox adds its value to the end of the association list it names when
    checked, and removes every equal element when unchecked. A checkbox naming a property
    that is not an array changes nothing. Pages differ only in how they read a checkbox
    value into an id and in what `!==` means for their ids, so both are parameters. */
module Associations {
  import opened Entities

  /** `xs.filter(keep)`: the elements `keep` accepts, in their original order. */
  function Filter<T(==,!new)>(xs: seq<T>, keep: T -> bool): (r: seq<T>)
    ensures |r| <= |xs|
    ensures forall x :: x in r <==> x in xs && keep(x)
    decreases |xs|
  {
    if xs == [] then []
    else
      var rest := Filter(xs[1..], keep);
      if keep(xs[0]) then [xs[0]] + rest else rest
  }

  /** Filtering keeps every copy of an accepted element and no copy of a rejected one. */
  lemma {:induction false} FilterCounts<T(!new)>(xs: seq<T>, keep: T -> bool)
    ensures forall x :: multiset(Filter(xs, keep))[x] == if keep(x) then multiset(xs)[x] else 0
    decreases |xs|
  {
    if xs != [] {
      FilterCounts(xs[1..], keep);
      assert xs == [xs[0]] + xs[1..];
    }
  }

  lemma {:induction false} FilterAppend<T(!new)>(xs: seq<T>, ys: seq<T>, keep: T -> bool)
    ensures Filter(xs + ys, keep) == Filter(xs, keep) + Filter(ys, keep)
    decreases |xs|
  {
    if xs == [] {
      assert xs + ys == ys;
    } else {
      assert (xs + ys)[0] == xs[0];
      assert (xs + ys)[1..] == xs[1..] + ys;
      FilterAppend(xs[1..], ys, keep);
    }
  }

  /** Filtering twice by the same test filters once. */
  lemma {:induction false} FilterIdempotent<T(!new)>(xs: seq<T>, keep: T -> bool)
    ensures Filter(Filter(xs, keep), keep) == Filter(xs, keep)
    decreases |xs|
  {
    if xs != [] {
      FilterIdempotent(xs[1..], keep);
    }
  }

  /** A filter that rejects nothing keeps the sequence as it is. */
  lemma {:induction false} FilterKeepsAll<T(!new)>(xs: seq<T>, keep: T -> bool)
    requires forall x :: x in xs ==> keep(x)
    ensures Filter(xs, keep) == xs
    decreases |xs|
  {
    if xs != [] {
      FilterKeepsAll(xs[1..], keep);
    }
  }

  /** The test `x => x !== v`, where `same` is the page's `===` on ids. */
  function Differs<Id(!new)>(v: Id, same: (Id, Id) -> bool): (keep: Id -> bool)
    ensures forall x :: keep(x) == !same(x, v)
  {
    x => !same(x, v)
  }

  /** `xs.filter(x => x !== v)`. */
  function Without<Id(==,!new)>(xs: seq<Id>, v: Id, same: (Id, Id) -> bool): seq<Id> {
    Filter(xs, Differs(v, same))
  }

  /** A change event from a form control: its `name`, its `value`, and for a checkbox whether
      it is now checked. */
  datatype ChangeEvent = TextInput(name: string, value: string) | Checkbox(name: string, value: string, checked: bool)

  /** `handleChange`: returns the new form object. `parse` reads a checkbox value into an id;
      `same` is `===` on ids. */
  function HandleChange<Id(==,!new)>(inputs: Inputs<Id>, e: ChangeEvent, parse: string -> Id, same: (Id, Id) -> bool)
    : (r: Inputs<Id>)
    // only the named property can change
    ensures forall k :: k != e.name ==> (k in r <==> k in inputs) && (k in r ==> r[k] == inputs[k])
    ensures e.TextInput? ==> e.name in r && r[e.name] == Text(e.value)
    // a checkbox on a property that is not an array is ignored
    ensures e.Checkbox? && !IsList(inputs, e.name) ==> r == inputs
    // checking appends the parsed value at the end, keeping the list before it
    ensures e.Checkbox? && IsList(inputs, e.name) && e.checked ==>
              IsList(r, e.name) && r[e.name].ids == inputs[e.name].ids + [parse(e.value)]
    // unchecking drops exactly the elements equal to the parsed value
    ensures e.Checkbox? && IsList(inputs, e.name) && !e.checked ==>
              && IsList(r, e.name)
              && (forall x :: x in r[e.name].ids <==> x in inputs[e.name].ids && !same(x, parse(e.value)))
              && (forall x :: !same(x, parse(e.value)) ==> multiset(r[e.name].ids)[x] == multiset(inputs[e.name].ids)[x])
  {
    match e
    case TextInput(name, value) => inputs[name := Text(value)]
    case Checkbox(name, value, checked) =>
      if !IsList(inputs, name) then inputs
      else
        var current := inputs[name].ids;
        var v := parse(value);
        FilterCounts(current, Differs(v, same));
        inputs[name := Refs(if checked then current + [v] else Without(current, v, same))]
  }

  /** Unchecking the same box twice is the same as unchecking it once. */
  lemma UncheckIdempotent<Id(!new)>(inputs: Inputs<Id>, e: ChangeEvent, parse: string -> Id, same: (Id, Id) -> bool)
    requires e.Checkbox? && !e.checked
    ensures HandleChange(HandleChange(inputs, e, parse, same), e, parse, same) == HandleChange(inputs, e, parse, same)
  {
    if IsList(inputs, e.name) {
      FilterIdempotent(inputs[e.name].ids, Differs(parse(e.value), same));
    }
  }

  /** Checking and then unchecking a box whose value equals itself leaves the list as a single
      uncheck would: the appended value and every earlier copy are gone. */
  lemma CheckThenUncheck<Id(!new)>(inputs: Inputs<Id>, name: string, value: string, parse: string -> Id,
                                  same: (Id, Id) -> bool)
    requires same(parse(value), parse(value))
    ensures HandleChange(HandleChange(inputs, Checkbox(name, value, true), parse, same), Checkbox(name, value, false), parse, same)
         == HandleChange(inputs, Checkbox(name, value, false), parse, same)
  {
    if IsList(inputs, name) {
      var v := parse(value);
      var xs := inputs[name].ids;
      var checked := HandleChange(inputs, Checkbox(name, value, true), parse, same);
      assert checked == inputs[name := Refs(xs + [v])];
      FilterAppend(xs, [v], Differs(v, same));
      assert [v][1..] == [];
      assert Filter([v], Differs(v, same)) == [];
      assert Without(xs + [v], v, same) == Without(xs, v, same);
      assert HandleChange(checked, Checkbox(name, value, false), parse, same)
          == checked[name := Refs(Without(xs + [v], v, same))];
    }
  }

  /** Unchecking a value the list does not hold changes nothing. */
  lemma UncheckAbsentIsNoOp<Id(!new)>(inputs: Inputs<Id>, name: string, value: string, parse: string -> Id,
                                     same: (Id, Id) -> bool)
    requires IsList(inputs, name)
    requires forall x :: x in inputs[name].ids ==> !same(x, parse(value))
    ensures HandleChange(inputs, Checkbox(name, value, false), parse, same) == inputs
  {
    FilterKeepsAll(inputs[name].ids, Differs(parse(value), same));
    assert inputs[name] == Refs(inputs[name].ids);
  }

  /** Checkbox events, and text events on non-list properties, keep the association lists
      arrays. */
  lemma ChangeKeepsLists<Id(!new)>(n: Naming, inputs: Inputs<Id>, e: ChangeEvent, parse: string -> Id,
                                  same: (Id, Id) -> bool)
    requires HasLists(n, inputs)
    requires e.TextInput? ==> e.name !in {Key(n, Technologies), Key(n, Categories), Key(n, Screenshots)}
    ensures HasLists(n, HandleChange(inputs, e, parse, same))
  {
  }
}
