/** The client's shared array helpers used by the table columns. */
module ArrayUtils {
  import opened Wrappers

  /**
   * `ifTheSameElseDefault`, by its name: the common value when all values agree, the default
   * when two differ, and undefined (None) for no values.
   */
  function IfTheSameElseDefault<T(==)>(values: seq<T>, default: T): (r: Option<T>)
    ensures values == [] <==> r.None?
    ensures (values != [] && forall i :: 0 <= i < |values| ==> values[i] == values[0]) ==> r == Some(values[0])
    ensures (exists i, j :: 0 <= i < |values| && 0 <= j < |values| && values[i] != values[j]) ==> r == Some(default)
  {
    if values == [] then None
    else if forall i :: 0 <= i < |values| ==> values[i] == values[0] then Some(values[0])
    else Some(default)
  }
}
