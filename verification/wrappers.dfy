/** Failure-compatible wrappers shared by every module of the model:
    `Option` stands for Python's "value or None", `Result` for
    "value or raised exception". */
module Wrappers {

  datatype Option<+T> = None | Some(value: T)

  datatype Result<+T, +E> = Ok(value: T) | Err(error: E)

  /** The index of the first element of `xs` that satisfies `p`, as Python's
      `next((x for x in xs if p(x)), None)` finds it. */
  function FindFirst<T>(xs: seq<T>, p: T -> bool): (r: Option<nat>)
    ensures r.None? <==> forall i :: 0 <= i < |xs| ==> !p(xs[i])
    ensures r.Some? ==> r.value < |xs| && p(xs[r.value])
    ensures r.Some? ==> forall i :: 0 <= i < r.value ==> !p(xs[i])
  {
    if |xs| == 0 then None
    else if p(xs[0]) then Some(0)
    else
      match FindFirst(xs[1..], p)
      case None => None
      case Some(i) => Some(i + 1)
  }

  /** Between two elements, the first that satisfies `p` is found. */
  lemma FindFirstOfTwo<T>(xs: seq<T>, p: T -> bool)
    requires |xs| == 2 && (p(xs[0]) || p(xs[1]))
    ensures FindFirst(xs, p) == if p(xs[0]) then Some(0) else Some(1)
  {}
}
