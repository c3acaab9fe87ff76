/** Facts about sequences that several parts of the operator need. */
module Sequences {

  ghost predicate NoDup<T>(s: seq<T>) {
    forall i, j :: 0 <= i < j < |s| ==> s[i] != s[j]
  }

  ghost predicate Disjoint<T(!new)>(s: seq<T>, t: seq<T>) {
    forall x :: x in s ==> x !in t
  }

  lemma NoDupConcat<T(!new)>(s: seq<T>, t: seq<T>)
    ensures NoDup(s + t) <==> NoDup(s) && NoDup(t) && Disjoint(s, t)
  {
    var u := s + t;
    if !Disjoint(s, t) {
      var x :| x in s && x in t;
      var i :| 0 <= i < |s| && s[i] == x;
      var j :| 0 <= j < |t| && t[j] == x;
      assert u[i] == u[|s| + j];
    } else if NoDup(u) {
      forall i, j | 0 <= i < j < |s| ensures s[i] != s[j] {
        assert u[i] == s[i] && u[j] == s[j];
      }
      forall i, j | 0 <= i < j < |t| ensures t[i] != t[j] {
        assert u[|s| + i] == t[i] && u[|s| + j] == t[j];
      }
    } else {
      var i, j :| 0 <= i < j < |u| && u[i] == u[j];
      assert i < |s| ==> s[i] in s;
    }
  }

  /** A sequence has no duplicate exactly when its multiset counts nothing twice. */
  lemma {:induction false} NoDupMultiset<T(!new)>(s: seq<T>)
    ensures NoDup(s) <==> forall x :: multiset(s)[x] <= 1
  {
    if s != [] {
      var r, l := s[..|s| - 1], s[|s| - 1];
      assert s == r + [l];
      NoDupMultiset(r);
      NoDupConcat(r, [l]);
      assert multiset(s) == multiset(r) + multiset{l};
      if NoDup(s) {
        assert l !in r;
        forall x ensures multiset(s)[x] <= 1 {
          assert x == l ==> x !in multiset(r);
        }
      } else if NoDup(r) {
        assert l in multiset(r);
        assert multiset(s)[l] >= 2;
      } else {
        var x :| multiset(r)[x] > 1;
        assert multiset(s)[x] > 1;
      }
    }
  }

  function RemoveAt<T>(s: seq<T>, j: nat): (r: seq<T>)
    requires j < |s|
    ensures |r| == |s| - 1
  {
    s[..j] + s[j + 1..]
  }

  lemma RemoveAtFront<T>(s: seq<T>, j: nat)
    requires j < |s|
    ensures var n := |s| - 1;
            if j == n then RemoveAt(s, j) == s[..n]
            else RemoveAt(s, j)[..n - 1] == RemoveAt(s[..n], j) && RemoveAt(s, j)[n - 1] == s[n]
                 && s[..n][j] == s[j]
  {
    var n := |s| - 1;
    if j < n {
      assert RemoveAt(s, j)[..n - 1] == s[..j] + s[j + 1..n];
      assert s[..n][..j] == s[..j] && s[..n][j + 1..] == s[j + 1..n];
    }
  }

  /** Equal multisets: the last element of one occurs in the other, and removing it leaves them equal. */
  lemma PermutationSplit<T>(s: seq<T>, t: seq<T>) returns (j: nat)
    requires s != [] && multiset(s) == multiset(t)
    ensures j < |t| && t[j] == s[|s| - 1]
    ensures multiset(s[..|s| - 1]) == multiset(RemoveAt(t, j))
  {
    var l := s[|s| - 1];
    assert s == s[..|s| - 1] + [l];
    assert l in multiset(t);
    j :| 0 <= j < |t| && t[j] == l;
    assert t == t[..j] + [l] + t[j + 1..];
    assert multiset(t) == multiset(RemoveAt(t, j)) + multiset{l};
    assert multiset(s) == multiset(s[..|s| - 1]) + multiset{l};
    assert multiset(s[..|s| - 1]) == multiset(s) - multiset{l};
  }

  lemma SliceParts<T>(a: seq<T>, x: T, b: seq<T>)
    ensures var p := a + [x] + b; p[|a|] == x && p[..|a|] == a && p[|a| + 1..] == b
  {
  }

  /** What holds first and is handed on at every position holds everywhere. */
  lemma {:induction false} Chain(bs: seq<bool>, i: nat)
    requires i < |bs| && bs[0]
    requires forall k :: 0 <= k < |bs| - 1 && bs[k] ==> bs[k + 1]
    ensures bs[i]
  {
    if i > 0 {
      Chain(bs, i - 1);
      assert bs[i - 1 + 1];
    }
  }

  predicate HasSuffix(s: string, suffix: string): (r: bool)
    ensures r <==> exists p :: s == p + suffix
  {
    assert |suffix| <= |s| && s[|s| - |suffix|..] == suffix ==> s == s[..|s| - |suffix|] + suffix;
    |suffix| <= |s| && s[|s| - |suffix|..] == suffix
  }
}
