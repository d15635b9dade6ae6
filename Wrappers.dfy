/** Option and Result values used where the source returns `null`/`undefined` or throws. */
module Wrappers {

  /** `None` stands for JavaScript's `null`/`undefined`. */
  datatype Option<+T> = None | Some(value: T) {
    function GetOr(default: T): T {
      match this
      case Some(v) => v
      case None => default
    }
  }

  /** `Failure` stands for a thrown `Error` (its message); `Success` for a normal return. */
  datatype Result<+R, +E> = Success(value: R) | Failure(error: E)

  /** No element occurs twice. */
  predicate NoDuplicates<T(==)>(s: seq<T>) {
    forall i, j | 0 <= i < j < |s| :: s[i] != s[j]
  }

  /** Entries at two different positions of a duplicate-free list differ. */
  lemma NoDuplicatesAt<T>(s: seq<T>, i: nat, j: nat)
    requires NoDuplicates(s) && i < |s| && j < |s| && i != j
    ensures s[i] != s[j]
  {
    if j < i {
      assert s[j] != s[i];
    }
  }

  /** A value of a duplicate-free list occurs in it exactly once. */
  lemma SingleOccurrence<T>(s: seq<T>, i: nat)
    requires NoDuplicates(s) && i < |s|
    ensures multiset(s)[s[i]] == 1
  {
    assert s == s[..i] + [s[i]] + s[i + 1..];
    assert s[i] !in s[..i] by {
      forall k | 0 <= k < i ensures s[..i][k] != s[i] {
        assert s[..i][k] == s[k];
      }
    }
    assert s[i] !in s[i + 1..] by {
      var tail := s[i + 1..];
      forall x | x in tail ensures x != s[i] {
        var k :| 0 <= k < |tail| && tail[k] == x;
        assert x == s[i + 1 + k];
      }
    }
  }

  /** A value at two positions of a list occurs in it at least twice. */
  lemma TwoCopies<T>(s: seq<T>, i: nat, j: nat)
    requires i < j < |s|
    ensures s[i] == s[j] ==> multiset(s)[s[i]] >= 2
  {
    assert s == s[..j] + [s[j]] + s[j + 1..];
    assert s[..j][i] == s[i];
    assert s[i] in multiset(s[..j]);
  }

  /** A list whose values occur no more often than in a duplicate-free list (a reordering, a
      filtered copy) is duplicate-free. */
  lemma FewerCopiesNoDuplicates<T>(s: seq<T>, t: seq<T>)
    requires NoDuplicates(s) && multiset(t) <= multiset(s)
    ensures NoDuplicates(t)
  {
    forall i, j | 0 <= i < j < |t| ensures t[i] != t[j] {
      TwoCopies(t, i, j);
      assert t[i] in multiset(s);
      var k :| 0 <= k < |s| && s[k] == t[i];
      SingleOccurrence(s, k);
    }
  }

  /** A value in front of a duplicate-free list that lacks it. */
  lemma ConsFreshNoDuplicates<T>(x: T, s: seq<T>)
    requires NoDuplicates(s) && x !in s
    ensures NoDuplicates([x] + s)
  {
    forall i, j | 0 <= i < j < |[x] + s| ensures ([x] + s)[i] != ([x] + s)[j] {
      assert ([x] + s)[j] == s[j - 1];
      if i > 0 {
        assert ([x] + s)[i] == s[i - 1];
      }
    }
  }

  /** A prefix of a duplicate-free list is duplicate-free. */
  lemma PrefixNoDuplicates<T>(s: seq<T>, n: nat)
    requires NoDuplicates(s) && n <= |s|
    ensures NoDuplicates(s[..n])
  {
    forall i, j | 0 <= i < j < n ensures s[..n][i] != s[..n][j] {
      assert s[..n][i] == s[i] && s[..n][j] == s[j];
    }
  }

  lemma {:induction false} AppendFreshKeepsNoDuplicates<T>(s: seq<T>, x: T)
    requires NoDuplicates(s) && x !in s
    ensures NoDuplicates(s + [x])
  {
    forall i, j | 0 <= i < j < |s + [x]|
      ensures (s + [x])[i] != (s + [x])[j]
    {
      if j == |s| {
        assert (s + [x])[i] == s[i];
      } else {
        assert (s + [x])[i] == s[i] && (s + [x])[j] == s[j];
      }
    }
  }
}
