/** Option, and the selection of elements from a list, shared by every module of the model. */
module Wrappers {
  datatype Option<+T> = None | Some(value: T)

  /** The places in all, from the first to the last, at which keep holds. */
  ghost predicate Selects<T(!new)>(all: seq<T>, keep: T -> bool, picks: seq<nat>) {
    && (forall i, j :: 0 <= i < j < |picks| ==> picks[i] < picks[j])
    && (forall i :: 0 <= i < |picks| ==> picks[i] < |all|)
    && (forall k :: 0 <= k < |all| ==> (keep(all[k]) <==> k in picks))
  }

  lemma SelectsMore<T(!new)>(all: seq<T>, keep: T -> bool, picks: seq<nat>, x: T)
    requires Selects(all, keep, picks)
    ensures Selects(all + [x], keep, if keep(x) then picks + [|all|] else picks)
  {
  }
}
