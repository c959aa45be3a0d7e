/** The small part of PHP's runtime semantics that the file record relies on:
    nullable values, truthiness, string coercion in concatenation, `implode`,
    and the first-match lookup an Eloquent relation performs. */
module Php {

  /** A PHP value that may be `null`. */
  datatype Option<+T> = None | Some(value: T)

  /** PHP truthiness of a nullable string: `null`, `""` and `"0"` are false,
      every other string is true. */
  predicate Truthy(v: Option<string>)
    ensures Truthy(v) <==> v !in {None, Some(""), Some("0")}
  {
    v.Some? && v.value != "" && v.value != "0"
  }

  /** The string a nullable value becomes inside the `.` operator: `null` reads as `""`. */
  function ConcatString(v: Option<string>): (s: string)
    ensures v.Some? ==> s == v.value
    ensures v.None? ==> s == ""
  {
    match v
    case None => ""
    case Some(x) => x
  }

  /** `implode(glue, pieces)`: the pieces in order, with `glue` between neighbours.
      An empty list gives the empty string, a one-piece list gives that piece
      whatever the glue, and a longer list starts with its first piece followed
      by the glue. */
  function Implode(glue: string, pieces: seq<string>): (r: string)
    ensures |pieces| == 0 ==> r == ""
    ensures |pieces| == 1 ==> r == pieces[0]
    ensures |pieces| > 1 ==> |pieces[0] + glue| <= |r| && r[..|pieces[0] + glue|] == pieces[0] + glue
    decreases |pieces|
  {
    if |pieces| == 0 then ""
    else if |pieces| == 1 then pieces[0]
    else pieces[0] + glue + Implode(glue, pieces[1..])
  }

  /** The first element of `xs` whose `key` equals `k`, or `None` when no element
      has that key: what a relation query returns when it joins on `key`. */
  function FirstMatch<T>(xs: seq<T>, key: T -> int, k: int): (r: Option<T>)
    ensures r.None? <==> forall i :: 0 <= i < |xs| ==> key(xs[i]) != k
    ensures r.Some? ==> exists i :: 0 <= i < |xs| && xs[i] == r.value
                           && key(xs[i]) == k
                           && forall j :: 0 <= j < i ==> key(xs[j]) != k
    decreases |xs|
  {
    if |xs| == 0 then None
    else if key(xs[0]) == k then Some(xs[0])
    else
      var r := FirstMatch(xs[1..], key, k);
      assert r.Some? ==> exists i :: 0 <= i < |xs[1..]| && xs[1..][i] == r.value
                           && key(xs[1..][i]) == k
                           && forall j :: 0 <= j < i ==> key(xs[1..][j]) != k;
      assert forall i :: 1 <= i < |xs| ==> xs[i] == xs[1..][i - 1];
      r
  }
}
