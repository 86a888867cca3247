// Shared helper types.

module Wrappers {

  /** An optional field of a record. */
  datatype Option<+T> = None | Some(value: T) {

    function GetOr(default: T): T {
      match this
      case Some(v) => v
      case None => default
    }
  }

  /** The truthiness test on an optional string: neither missing nor empty. */
  predicate Present(o: Option<string>) {
    o.Some? && o.value != ""
  }

  /** An optional string that is dropped when it is empty. */
  function Truthy(o: Option<string>): Option<string> {
    if Present(o) then o else None
  }

  /** `left || right` on optional strings. */
  function OrElse(left: Option<string>, right: Option<string>): Option<string> {
    if Present(left) then left else right
  }

  /** `after` is `before` without the first element that passes the test, or all of it if none does. */
  ghost predicate WithoutFirst<T(!new)>(before: seq<T>, after: seq<T>, test: T -> bool) {
    if exists i :: 0 <= i < |before| && test(before[i]) then
      exists i :: 0 <= i < |before| && test(before[i]) && (forall j :: 0 <= j < i ==> !test(before[j]))
                  && after == before[..i] + before[i + 1..]
    else
      after == before
  }

  lemma FirstPassing<T(!new)>(before: seq<T>, after: seq<T>, i: nat, test: T -> bool)
    requires i < |before| && test(before[i]) && forall j :: 0 <= j < i ==> !test(before[j])
    requires after == before[..i] + before[i + 1..]
    ensures WithoutFirst(before, after, test)
  {
  }

  lemma NonePassing<T(!new)>(before: seq<T>, after: seq<T>, test: T -> bool)
    requires (forall j :: 0 <= j < |before| ==> !test(before[j])) && after == before
    ensures WithoutFirst(before, after, test)
  {
  }
}
