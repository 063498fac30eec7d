/** Small value types shared by every module: optional values, results, and the two
    JavaScript string tests the handlers rely on (truthiness and `String.prototype.includes`). */
module Base {

  /** A value that may be missing (`undefined`/`null` in the source). */
  datatype Option<+T> = None | Some(value: T)

  /** The outcome of a step that may throw. */
  datatype Result<+T, +E> = Success(value: T) | Failure(error: E)

  /** JavaScript truthiness of a possibly missing string: `undefined`, `null` and `""` are falsy. */
  predicate Truthy(s: Option<string>) {
    s.Some? && s.value != ""
  }

  /** `needle` occurs in `haystack` starting at index `i`. */
  ghost predicate OccursAt(haystack: string, needle: string, i: int) {
    0 <= i && i + |needle| <= |haystack| && haystack[i..i + |needle|] == needle
  }

  /** `haystack.includes(needle)`: some slice of `haystack` equals `needle`. */
  function Includes(haystack: string, needle: string): (r: bool)
    ensures r <==> exists i :: OccursAt(haystack, needle, i)
    decreases |haystack|
  {
    if needle <= haystack then
      assert OccursAt(haystack, needle, 0);
      true
    else if haystack == [] then
      assert forall i :: !OccursAt(haystack, needle, i);
      false
    else
      var rest := Includes(haystack[1..], needle);
      assert forall i :: OccursAt(haystack[1..], needle, i) <==> OccursAt(haystack, needle, i + 1) by {
        forall i
          ensures OccursAt(haystack[1..], needle, i) <==> OccursAt(haystack, needle, i + 1)
        {
          if 0 <= i && i + |needle| <= |haystack| - 1 {
            assert haystack[1..][i..i + |needle|] == haystack[i + 1..i + 1 + |needle|];
          }
        }
      }
      assert !OccursAt(haystack, needle, 0);
      assert (exists i :: OccursAt(haystack, needle, i)) ==> exists j :: OccursAt(haystack[1..], needle, j) by {
        if exists i :: OccursAt(haystack, needle, i) {
          var i :| OccursAt(haystack, needle, i);
          assert OccursAt(haystack[1..], needle, i - 1);
        }
      }
      rest
  }
}
