/** Notions shared by several modules. */
module Common {

  datatype Option<+T> = None | Some(value: T)

  /** Python's `ceil`. */
  function Ceiling(x: real): int { -((-x).Floor) }

  ghost predicate Sorted(s: seq<real>) { forall i, j :: 0 <= i <= j < |s| ==> s[i] <= s[j] }

  /** How many values are at most y. */
  function CountAtMost(values: seq<real>, y: real): nat {
    if values == [] then 0
    else CountAtMost(values[..|values| - 1], y) + if values[|values| - 1] <= y then 1 else 0
  }
}
