/**
 * Small shared vocabulary: optional values, Python exceptions as values,
 * and flattening a sequence of row groups.
 */
module Basics {

  /** A value that may be absent: a missing dictionary key, a failed fetch, or a JSON null where the source treats it like a missing key. */
  datatype Option<+T> = None | Some(value: T) {
    /** `x if x is not None else default` */
    function GetOr(default: T): T {
      match this
      case Some(v) => v
      case None => default
    }
  }

  /** The Python exceptions the modelled code can raise. */
  datatype Exception =
    | IndexError    // a list index past the end
    | NameError     // a name bound nowhere
    | KeyError      // a required dictionary key is missing
    | RequestError  // an HTTP request or the decoding of its JSON body failed

  /** The outcome of a Python call that may raise instead of returning. */
  datatype Outcome<+T> = Ok(value: T) | Raised(error: Exception)

  /** Concatenation of a sequence of sequences, in order. */
  function Flatten<T>(groups: seq<seq<T>>): seq<T> {
    if groups == [] then [] else groups[0] + Flatten(groups[1..])
  }

  predicate NoDuplicates<T(==)>(s: seq<T>) {
    forall i, j :: 0 <= i < j < |s| ==> s[i] != s[j]
  }

  lemma {:induction false} FlattenAppend<T>(a: seq<seq<T>>, b: seq<seq<T>>)
    ensures Flatten(a + b) == Flatten(a) + Flatten(b)
    decreases |a|
  {
    if a == [] {
      assert a + b == b;
    } else {
      assert (a + b)[1..] == a[1..] + b;
      FlattenAppend(a[1..], b);
    }
  }

  /** Appending one more group appends its elements: the step of every accumulating loop. */
  lemma FlattenSnoc<T>(groups: seq<seq<T>>, last: seq<T>)
    ensures Flatten(groups + [last]) == Flatten(groups) + last
  {
    FlattenAppend(groups, [last]);
    assert Flatten([last]) == last + Flatten([last][1..]);
  }

  /** The prefix of one more group: the step of a loop that accumulates `groups[j]` at pass `j`. */
  lemma {:induction false} FlattenPrefixStep<T>(groups: seq<seq<T>>, j: nat)
    requires j < |groups|
    ensures Flatten(groups[..j + 1]) == Flatten(groups[..j]) + groups[j]
  {
    assert groups[..j + 1] == groups[..j] + [groups[j]];
    FlattenSnoc(groups[..j], groups[j]);
  }

  /** Splitting the groups around position k. */
  lemma {:induction false} FlattenAround<T>(groups: seq<seq<T>>, k: nat)
    requires k < |groups|
    ensures Flatten(groups) == Flatten(groups[..k]) + groups[k] + Flatten(groups[k + 1..])
  {
    var tail := [groups[k]] + groups[k + 1..];
    assert groups == groups[..k] + tail;
    FlattenAppend(groups[..k], tail);
    assert tail[0] == groups[k] && tail[1..] == groups[k + 1..];
    assert Flatten(tail) == groups[k] + Flatten(groups[k + 1..]);
  }

  /** Taking group `k` out of the list takes exactly its elements out of the flattening. */
  lemma {:induction false} RemoveGroup<T>(ys: seq<seq<T>>, k: nat)
    requires k < |ys|
    ensures multiset(ys) == multiset(ys[..k] + ys[k + 1..]) + multiset{ys[k]}
    ensures multiset(Flatten(ys)) == multiset(ys[k]) + multiset(Flatten(ys[..k] + ys[k + 1..]))
  {
    assert ys == ys[..k] + [ys[k]] + ys[k + 1..];
    FlattenAround(ys, k);
    FlattenAppend(ys[..k], ys[k + 1..]);
  }

  /**
   * Whatever order the groups arrive in (a thread pool's completion order is
   * any permutation of the submitted tasks), the flattened elements are the
   * same multiset.
   */
  lemma {:induction false} FlattenPermutation<T>(xs: seq<seq<T>>, ys: seq<seq<T>>)
    requires multiset(xs) == multiset(ys)
    ensures multiset(Flatten(xs)) == multiset(Flatten(ys))
    decreases |xs|
  {
    if xs == [] {
      assert |ys| == |multiset(ys)| == 0;
    } else {
      var x := xs[0];
      assert x in multiset(ys);
      var k :| 0 <= k < |ys| && ys[k] == x;
      var rest := ys[..k] + ys[k + 1..];
      RemoveGroup(ys, k);
      assert xs == [x] + xs[1..];
      assert multiset(xs) == multiset(xs[1..]) + multiset{x};
      assert multiset(xs[1..]) == multiset(xs) - multiset{x};
      assert multiset(rest) == multiset(ys) - multiset{x};
      FlattenPermutation(xs[1..], rest);
    }
  }

  /**
   * Reordering inside every group (each group's elements may themselves come
   * from concurrent tasks) does not change the flattened multiset either.
   */
  lemma {:induction false} FlattenPermuteWithin<T>(xs: seq<seq<T>>, ys: seq<seq<T>>)
    requires |xs| == |ys|
    requires forall i :: 0 <= i < |xs| ==> multiset(xs[i]) == multiset(ys[i])
    ensures multiset(Flatten(xs)) == multiset(Flatten(ys))
    decreases |xs|
  {
    if xs != [] {
      FlattenPermuteWithin(xs[1..], ys[1..]);
    }
  }

  /** Replacing one group by an empty one removes exactly that group's elements. */
  lemma DropGroup<T>(groups: seq<seq<T>>, k: nat)
    requires k < |groups|
    ensures multiset(Flatten(groups[k := []])) + multiset(groups[k]) == multiset(Flatten(groups))
  {
    var dropped := groups[k := []];
    FlattenAround(groups, k);
    FlattenAround(dropped, k);
    assert dropped[..k] == groups[..k];
    assert dropped[k + 1..] == groups[k + 1..];
  }
}
