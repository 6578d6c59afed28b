/**
 * The three list idioms the editor's handlers use on its layer lists:
 * `prev.map(e => e.id === id ? f(e) : e)`, `prev.filter(e => e.id !== id)`,
 * and the top-down scan `for (i = len - 1; i >= 0; i--) if (hit(xs[i])) return xs[i]`.
 */
module ListOps {
  import opened Common

  /** `xs.map(e => idOf(e) === id ? f(e) : e)`. */
  function UpdateWhere<T>(xs: seq<T>, idOf: T -> Id, id: Id, f: T -> T): (ys: seq<T>)
    ensures |ys| == |xs|
    ensures forall i :: 0 <= i < |xs| && idOf(xs[i]) == id ==> ys[i] == f(xs[i])
    ensures forall i :: 0 <= i < |xs| && idOf(xs[i]) != id ==> ys[i] == xs[i]
  {
    if xs == [] then []
    else [if idOf(xs[0]) == id then f(xs[0]) else xs[0]] + UpdateWhere(xs[1..], idOf, id, f)
  }

  /** Number of elements carrying `id`. */
  function CountWhere<T>(xs: seq<T>, idOf: T -> Id, id: Id): nat {
    if xs == [] then 0 else (if idOf(xs[0]) == id then 1 else 0) + CountWhere(xs[1..], idOf, id)
  }

  /** `ys` is `xs` with some elements dropped and the rest kept in order. */
  predicate SubsequenceOf<T(==)>(ys: seq<T>, xs: seq<T>) {
    if ys == [] then true
    else if xs == [] then false
    else (ys[0] == xs[0] && SubsequenceOf(ys[1..], xs[1..])) || SubsequenceOf(ys, xs[1..])
  }

  /** `xs.filter(e => idOf(e) !== id)`: exactly the elements carrying `id` are removed, order is kept. */
  function RemoveWhere<T(==)>(xs: seq<T>, idOf: T -> Id, id: Id): (ys: seq<T>)
    ensures forall i :: 0 <= i < |ys| ==> ys[i] in xs && idOf(ys[i]) != id
    ensures forall i :: 0 <= i < |xs| && idOf(xs[i]) != id ==> xs[i] in ys
    ensures |ys| + CountWhere(xs, idOf, id) == |xs|
    ensures SubsequenceOf(ys, xs)
    ensures (forall i :: 0 <= i < |xs| ==> idOf(xs[i]) != id) ==> ys == xs
  {
    if xs == [] then []
    else if idOf(xs[0]) == id then RemoveWhere(xs[1..], idOf, id)
    else [xs[0]] + RemoveWhere(xs[1..], idOf, id)
  }

  /** Index of the last element among `xs[..k]` that `hit` accepts, scanning from `k - 1` down. */
  function TopmostIndex<T>(xs: seq<T>, k: nat, hit: T -> bool): (r: Option<nat>)
    requires k <= |xs|
    ensures r.Some? ==> r.value < k
  {
    if k == 0 then None
    else if hit(xs[k - 1]) then Some(k - 1)
    else TopmostIndex(xs, k - 1, hit)
  }

  /** The element a top-down scan of the whole list returns, or None. */
  function Topmost<T>(xs: seq<T>, hit: T -> bool): Option<T> {
    match TopmostIndex(xs, |xs|, hit)
    case None => None
    case Some(i) => Some(xs[i])
  }

  /** "Topmost wins": the scan finds a hit with nothing above it that also hits, or reports that nothing hits. */
  lemma {:induction false} TopmostIndexIsTopmostHit<T>(xs: seq<T>, k: nat, hit: T -> bool)
    requires k <= |xs|
    ensures TopmostIndex(xs, k, hit).None? <==> forall j :: 0 <= j < k ==> !hit(xs[j])
    ensures TopmostIndex(xs, k, hit).Some? ==>
              var i := TopmostIndex(xs, k, hit).value;
              hit(xs[i]) && forall j :: i < j < k ==> !hit(xs[j])
  {
    if k > 0 && !hit(xs[k - 1]) {
      TopmostIndexIsTopmostHit(xs, k - 1, hit);
    }
  }

  /** The same, stated for the element the scan returns. */
  lemma TopmostIsTopmostHit<T>(xs: seq<T>, hit: T -> bool)
    ensures Topmost(xs, hit).None? <==> forall j :: 0 <= j < |xs| ==> !hit(xs[j])
    ensures Topmost(xs, hit).Some? ==>
              exists i :: 0 <= i < |xs| && xs[i] == Topmost(xs, hit).value && hit(xs[i]) &&
                          forall j :: i < j < |xs| ==> !hit(xs[j])
  {
    TopmostIndexIsTopmostHit(xs, |xs|, hit);
  }
}
