/** Vocabulary shared by every module: optional values and flattening of lists. */
module Basics {

  datatype Option<+T> = None | Some(value: T) {
    function GetOr(default: T): T {
      match this
      case Some(v) => v
      case None => default
    }
  }

  /** The concatenation of a list of lists, in order. */
  function Concat<T>(parts: seq<seq<T>>): seq<T> {
    if parts == [] then [] else parts[0] + Concat(parts[1..])
  }

  lemma {:induction false} ConcatAppend<T>(a: seq<seq<T>>, b: seq<seq<T>>)
    ensures Concat(a + b) == Concat(a) + Concat(b)
  {
    if a == [] {
      assert a + b == b;
    } else {
      assert (a + b)[1..] == a[1..] + b;
      ConcatAppend(a[1..], b);
      Assoc(a[0], Concat(a[1..]), Concat(b));
    }
  }

  lemma Assoc<T>(a: seq<T>, b: seq<T>, c: seq<T>)
    ensures a + b + c == a + (b + c)
  {
  }

  /** `picked` is made of exactly the items to keep, in order; `at` are their positions. */
  ghost predicate Picked<T(!new), U(!new)>(items: seq<T>, at: seq<nat>, picked: seq<U>, keep: T -> bool, make: T -> U) {
    && |at| == |picked|
    && (forall i :: 0 <= i < |at| ==> at[i] < |items| && keep(items[at[i]]) && picked[i] == make(items[at[i]]))
    && (forall i, j :: 0 <= i < j < |at| ==> at[i] < at[j])
    && (forall k: nat :: k < |items| && keep(items[k]) ==> k in at)
  }

  lemma PickedNone<T(!new), U(!new)>(keep: T -> bool, make: T -> U)
    ensures Picked<T, U>([], [], [], keep, make)
  {
  }

  lemma PickedSnoc<T(!new), U(!new)>(items: seq<T>, at: seq<nat>, picked: seq<U>, keep: T -> bool, make: T -> U, x: T)
    requires Picked(items, at, picked, keep, make)
    ensures keep(x) ==> Picked(items + [x], at + [|items|], picked + [make(x)], keep, make)
    ensures !keep(x) ==> Picked(items + [x], at, picked, keep, make)
  {
    var all, at' := items + [x], if keep(x) then at + [|items|] else at;
    forall k: nat | k < |all| && keep(all[k]) ensures k in at' {
      if k == |items| {
        assert at'[|at|] == k;
      } else {
        assert keep(items[k]) && k in at;
      }
    }
  }

  /** `items` without repetition. */
  ghost predicate Distinct<T(!new)>(items: seq<T>) {
    forall i, j :: 0 <= i < j < |items| ==> items[i] != items[j]
  }

  /** The position of an element of the list, counted from the front. */
  function IndexOf<T(==)>(items: seq<T>, x: T): (k: nat)
    requires x in items
    ensures k < |items| && items[k] == x
    ensures x !in items[..k]
  {
    if items[0] == x then 0 else 1 + IndexOf(items[1..], x)
  }
}
