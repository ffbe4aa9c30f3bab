/** Duplicate-free sequences, used as insertion-ordered sets, and options. */
module Sequences {

  datatype Option<+T> = None | Some(value: T)

  ghost function At<T>(s: seq<T>, i: int): T
    requires 0 <= i < |s|
  {
    s[i]
  }

  /** No element occurs twice. Stated over `At`, so that a proof takes instances only where it asks for them. */
  ghost predicate NoDup<T>(s: seq<T>) {
    forall i, j {:trigger At(s, i), At(s, j)} :: 0 <= i < j < |s| ==> At(s, i) != At(s, j)
  }

  lemma NoDupDistinct<T>(s: seq<T>)
    requires NoDup(s)
    ensures forall i, j :: 0 <= i < |s| && 0 <= j < |s| && i != j ==> s[i] != s[j]
  {
    forall i, j | 0 <= i < |s| && 0 <= j < |s| && i != j ensures s[i] != s[j] {
      assert At(s, i) == s[i] && At(s, j) == s[j];
    }
  }

  lemma NoDupCons<T>(x: T, s: seq<T>)
    ensures NoDup([x] + s) <==> x !in s && NoDup(s)
  {
    var t := [x] + s;
    if x in s {
      var k :| 0 <= k < |s| && s[k] == x;
      assert At(t, 0) == At(t, k + 1);
    }
    if NoDup(t) {
      forall i, j | 0 <= i < j < |s| ensures At(s, i) != At(s, j) {
        assert At(t, i + 1) != At(t, j + 1);
      }
    }
    if NoDup(s) && x !in s {
      forall i, j | 0 <= i < j < |t| ensures At(t, i) != At(t, j) {
        if i > 0 {
          assert At(s, i - 1) != At(s, j - 1);
        }
      }
    }
  }

  lemma NoDupSnoc<T>(s: seq<T>, x: T)
    requires NoDup(s) && x !in s
    ensures NoDup(s + [x])
  {
    NoDupDistinct(s);
  }

  lemma NoDupAppend<T>(s: seq<T>, t: seq<T>)
    requires NoDup(s) && NoDup(t) && forall x :: x in s ==> x !in t
    ensures NoDup(s + t)
  {
    NoDupDistinct(s);
    NoDupDistinct(t);
    forall i, j | 0 <= i < j < |s + t| ensures At(s + t, i) != At(s + t, j) {
      if i < |s| && j >= |s| {
        assert s[i] !in t;
      }
    }
  }

  /** `s` with the gap at `k` closed. */
  ghost function DropAt<T>(s: seq<T>, k: nat): seq<T>
    requires k < |s|
  {
    seq(|s| - 1, i requires 0 <= i < |s| - 1 => if i < k then s[i] else s[i + 1])
  }

  lemma DropAtKeeps<T>(s: seq<T>, k: nat)
    requires NoDup(s) && k < |s|
    ensures NoDup(DropAt(s, k)) && s[k] !in DropAt(s, k)
    ensures forall y :: y in DropAt(s, k) ==> y in s
    ensures forall y :: y in s && y != s[k] ==> y in DropAt(s, k)
  {
    NoDupDistinct(s);
    forall y | y in s && y != s[k] ensures y in DropAt(s, k) {
      var j :| 0 <= j < |s| && s[j] == y;
      assert DropAt(s, k)[if j < k then j else j - 1] == y;
    }
  }

  /** `s` with `x` taken out, the order of the others kept. */
  ghost function Without<T>(s: seq<T>, x: T): (r: seq<T>)
    ensures |r| <= |s|
    ensures x !in s ==> r == s
    ensures x in s ==> |r| == |s| - 1
  {
    if x in s then
      var k :| 0 <= k < |s| && s[k] == x;
      DropAt(s, k)
    else s
  }

  lemma WithoutKeeps<T>(s: seq<T>, x: T)
    requires NoDup(s)
    ensures NoDup(Without(s, x)) && x !in Without(s, x)
    ensures forall y :: y in Without(s, x) ==> y in s
    ensures forall y :: y in s && y != x ==> y in Without(s, x)
  {
    if x in s {
      var k :| 0 <= k < |s| && s[k] == x && Without(s, x) == DropAt(s, k);
      DropAtKeeps(s, k);
    }
  }

  lemma WithoutIsDropAt<T>(s: seq<T>, k: nat)
    requires NoDup(s) && k < |s|
    ensures Without(s, s[k]) == DropAt(s, k)
  {
    NoDupDistinct(s);
  }

  lemma WithoutCons<T>(a: T, s: seq<T>, x: T)
    requires NoDup([a] + s)
    ensures Without([a] + s, x) == if a == x then s else [a] + Without(s, x)
  {
    var t := [a] + s;
    if a == x {
      WithoutIsDropAt(t, 0);
    } else if x in s {
      var k :| 0 <= k < |s| && s[k] == x;
      assert NoDup(s) by { NoDupCons(a, s); }
      assert Without(s, x) == DropAt(s, k) by { WithoutIsDropAt(s, k); }
      assert Without(t, x) == DropAt(t, k + 1) by { WithoutIsDropAt(t, k + 1); }
    }
  }
}
