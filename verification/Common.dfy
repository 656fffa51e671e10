/** Shared value types and sequence sums. */
module Common {

  datatype Option<+T> = None | Some(value: T)

  datatype Result<+T, +E> = Ok(value: T) | Err(error: E)

  function Max(a: int, b: int): int { if a < b then b else a }

  function Min(a: int, b: int): int { if a < b then a else b }

  function Sum(s: seq<int>): int {
    if s == [] then 0 else Sum(s[..|s| - 1]) + s[|s| - 1]
  }

  lemma {:induction false} SumAppend(s: seq<int>, t: seq<int>)
    ensures Sum(s + t) == Sum(s) + Sum(t)
  {
    if t == [] {
      assert s + t == s;
    } else {
      assert (s + t)[..|s + t| - 1] == s + t[..|t| - 1];
      SumAppend(s, t[..|t| - 1]);
    }
  }

  lemma SumFirst(s: seq<int>)
    requires s != []
    ensures Sum(s) == s[0] + Sum(s[1..])
  {
    assert s == [s[0]] + s[1..];
    assert Sum([s[0]]) == s[0];
    SumAppend([s[0]], s[1..]);
  }

  // ------------------------------------------------------------------ counting lists

  predicate NoDuplicates<T(==)>(s: seq<T>) { forall j, k :: 0 <= j < k < |s| ==> s[j] != s[k] }

  function UpTo(n: nat): seq<nat> { seq(n, i => i) }

  lemma {:induction false} FewerThanHolder(a: seq<nat>, b: seq<nat>)
    requires NoDuplicates(a) && forall x :: x in a ==> x in b
    ensures |a| <= |b|
  {
    if a != [] {
      var last := a[|a| - 1];
      assert last in a && last in b;
      var j :| 0 <= j < |b| && b[j] == last;
      var rest := b[..j] + b[j + 1..];
      forall x | x in a[..|a| - 1] ensures x in rest {
        assert x in a && x in b;
        var i :| 0 <= i < |b| && b[i] == x;
        assert x != last;
        assert if i < j then rest[i] == x else rest[i - 1] == x;
      }
      FewerThanHolder(a[..|a| - 1], rest);
    }
  }

  /** Different numbers below `n` are no more than `n`. */
  lemma NoMoreThan(s: seq<nat>, n: nat)
    requires NoDuplicates(s) && forall k :: 0 <= k < |s| ==> s[k] < n
    ensures |s| <= n
  {
    forall x | x in s ensures x in UpTo(n) { assert UpTo(n)[x] == x; }
    FewerThanHolder(s, UpTo(n));
  }
}
