/** Collections kept in storage order and looked up by a string key, as
    `findOne({ userId })` does on a collection with a unique index on
    `userId`. */
module Keyed {
  import opened JsValues

  /** The position of the first element of `xs` whose key is `k`. */
  function IndexOf<T>(xs: seq<T>, key: T -> string, k: string): (r: Option<nat>)
    ensures r.Some? ==> r.value < |xs| && key(xs[r.value]) == k
    ensures r.Some? ==> forall j :: 0 <= j < r.value ==> key(xs[j]) != k
    ensures r.None? <==> forall j :: 0 <= j < |xs| ==> key(xs[j]) != k
  {
    if xs == [] then None
    else if key(xs[0]) == k then Some(0)
    else
      match IndexOf(xs[1..], key, k)
      case None => None
      case Some(i) => Some(i + 1)
  }

  /** No two elements share a key: the unique index. */
  predicate KeysUnique<T>(xs: seq<T>, key: T -> string) {
    forall i, j :: 0 <= i < j < |xs| ==> key(xs[i]) != key(xs[j])
  }

  /** How many elements have key `k`. */
  function Count<T>(xs: seq<T>, key: T -> string, k: string): nat {
    if xs == [] then 0 else (if key(xs[0]) == k then 1 else 0) + Count(xs[1..], key, k)
  }

  lemma {:induction false} CountZeroWhenAbsent<T>(xs: seq<T>, key: T -> string, k: string)
    requires forall j :: 0 <= j < |xs| ==> key(xs[j]) != k
    ensures Count(xs, key, k) == 0
  {
    if xs != [] {
      assert key(xs[0]) != k;
      CountZeroWhenAbsent(xs[1..], key, k);
    }
  }

  /** Under the unique index a key is held by exactly one element when the
      lookup finds it and by none otherwise. */
  lemma {:induction false} UniqueCount<T>(xs: seq<T>, key: T -> string, k: string)
    requires KeysUnique(xs, key)
    ensures Count(xs, key, k) == if IndexOf(xs, key, k).Some? then 1 else 0
  {
    if xs != [] {
      assert KeysUnique(xs[1..], key) by {
        forall i, j | 0 <= i < j < |xs| - 1
          ensures key(xs[1..][i]) != key(xs[1..][j])
        {
          assert key(xs[i + 1]) != key(xs[j + 1]);
        }
      }
      if key(xs[0]) == k {
        forall j | 0 <= j < |xs| - 1
          ensures key(xs[1..][j]) != k
        {
          assert key(xs[0]) != key(xs[j + 1]);
        }
        CountZeroWhenAbsent(xs[1..], key, k);
      } else {
        UniqueCount(xs[1..], key, k);
      }
    }
  }

  /** Appending an element whose key is not yet present keeps the index unique. */
  lemma AppendKeepsUnique<T>(xs: seq<T>, key: T -> string, x: T)
    requires KeysUnique(xs, key) && IndexOf(xs, key, key(x)).None?
    ensures KeysUnique(xs + [x], key)
  {
    forall i, j | 0 <= i < j < |xs| + 1
      ensures key((xs + [x])[i]) != key((xs + [x])[j])
    {
      if j == |xs| {
        assert key(xs[i]) != key(x);
      } else {
        assert key(xs[i]) != key(xs[j]);
      }
    }
  }

  /** Replacing an element by one with the same key keeps the index unique,
      and the lookup still finds the same position. */
  lemma ReplaceKeepsIndex<T>(xs: seq<T>, key: T -> string, i: nat, x: T)
    requires i < |xs| && IndexOf(xs, key, key(x)) == Some(i)
    ensures IndexOf(xs[i := x], key, key(x)) == Some(i)
    ensures KeysUnique(xs, key) ==> KeysUnique(xs[i := x], key)
  {
    var ys := xs[i := x];
    assert key(ys[i]) == key(x);
  }
}
