/** Sums over sequences, added up from the left as the program's folds do. */
module Sums {

  function Sum<T>(s: seq<T>, f: T -> int): int {
    if s == [] then 0 else Sum(s[..|s| - 1], f) + f(s[|s| - 1])
  }

  lemma SumSnoc<T>(s: seq<T>, t: T, f: T -> int)
    ensures Sum(s + [t], f) == Sum(s, f) + f(t)
  {
    assert (s + [t])[..|s|] == s;
  }

  lemma {:induction false} SumConcat<T>(a: seq<T>, b: seq<T>, f: T -> int)
    ensures Sum(a + b, f) == Sum(a, f) + Sum(b, f)
  {
    if b == [] {
      assert a + b == a;
    } else {
      var front, last := b[..|b| - 1], b[|b| - 1];
      assert a + b == (a + front) + [last];
      SumSnoc(a + front, last, f);
      SumConcat(a, front, f);
    }
  }

  /** Sums agree when the terms agree position by position. */
  lemma {:induction false} SumZip<S, T>(a: seq<S>, f: S -> int, b: seq<T>, g: T -> int)
    requires |a| == |b| && forall i :: 0 <= i < |a| ==> f(a[i]) == g(b[i])
    ensures Sum(a, f) == Sum(b, g)
  {
    if a != [] {
      SumZip(a[..|a| - 1], f, b[..|b| - 1], g);
    }
  }

  lemma {:induction false} SumSplit<T>(s: seq<T>, f: T -> int, g: T -> int, h: T -> int)
    requires forall i :: 0 <= i < |s| ==> f(s[i]) == g(s[i]) + h(s[i])
    ensures Sum(s, f) == Sum(s, g) + Sum(s, h)
  {
    if s != [] {
      SumSplit(s[..|s| - 1], f, g, h);
    }
  }

  lemma {:induction false} SumZero<T>(s: seq<T>, f: T -> int)
    requires forall i :: 0 <= i < |s| ==> f(s[i]) == 0
    ensures Sum(s, f) == 0
  {
    if s != [] {
      SumZero(s[..|s| - 1], f);
    }
  }

  lemma {:induction false} SumNegate<T>(s: seq<T>, f: T -> int, g: T -> int)
    requires forall i :: 0 <= i < |s| ==> f(s[i]) == -g(s[i])
    ensures Sum(s, f) == -Sum(s, g)
  {
    if s != [] {
      SumNegate(s[..|s| - 1], f, g);
    }
  }

  lemma {:induction false} SumBound<T>(s: seq<T>, f: T -> int, bound: int)
    requires forall i :: 0 <= i < |s| ==> -bound <= f(s[i]) <= bound
    ensures -(bound * |s|) <= Sum(s, f) <= bound * |s|
  {
    if s != [] {
      SumBound(s[..|s| - 1], f, bound);
      assert bound * |s| == bound * (|s| - 1) + bound;
    }
  }

  /** A sum of non-negative terms is at least each of them. */
  lemma {:induction false} SumAtLeast<T>(s: seq<T>, f: T -> int, k: nat)
    requires k < |s| && forall i :: 0 <= i < |s| ==> f(s[i]) >= 0
    ensures Sum(s, f) >= f(s[k])
  {
    var n := |s| - 1;
    if k < n {
      SumAtLeast(s[..n], f, k);
    } else if n > 0 {
      SumAtLeast(s[..n], f, 0);
    }
  }

  lemma RemoveAt<T>(s: seq<T>, k: nat)
    requires k < |s|
    ensures s == s[..k] + ([s[k]] + s[k + 1..])
    ensures multiset(s) == multiset(s[..k] + s[k + 1..]) + multiset{s[k]}
  {
    var front, back := s[..k], s[k + 1..];
    assert s == front + ([s[k]] + back);
    assert multiset(s) == multiset(front) + (multiset{s[k]} + multiset(back));
  }

  lemma CancelOne<T>(m: multiset<T>, n: multiset<T>, t: T)
    requires m + multiset{t} == n + multiset{t}
    ensures m == n
  {
    assert m == (m + multiset{t}) - multiset{t};
    assert n == (n + multiset{t}) - multiset{t};
  }

  lemma Locate<T>(s: seq<T>, t: T) returns (k: nat)
    requires t in multiset(s)
    ensures k < |s| && s[k] == t
  {
    k :| 0 <= k < |s| && s[k] == t;
  }

  function Without<T>(s: seq<T>, k: nat): seq<T>
    requires k < |s|
  {
    s[..k] + s[k + 1..]
  }

  /** Taking one and the same element out of two lists with the same elements. */
  lemma SameWithout<T>(a: seq<T>, b: seq<T>, i: nat, j: nat)
    requires multiset(a) == multiset(b) && i < |a| && j < |b| && a[i] == b[j]
    ensures multiset(Without(a, i)) == multiset(Without(b, j))
  {
    RemoveAt(a, i);
    RemoveAt(b, j);
    CancelOne(multiset(Without(a, i)), multiset(Without(b, j)), a[i]);
  }

  /** Taking out an element the two lists share leaves lists with the same elements. */
  lemma DropShared<T>(a: seq<T>, b: seq<T>) returns (k: nat)
    requires multiset(a) == multiset(b) && a != []
    ensures k < |b| && b[k] == a[|a| - 1]
    ensures multiset(a[..|a| - 1]) == multiset(b[..k] + b[k + 1..])
  {
    var front, last := a[..|a| - 1], a[|a| - 1];
    RemoveAt(a, |a| - 1);
    assert front + a[|a|..] == front;
    assert multiset(a) == multiset(front) + multiset{last};
    k := Locate(b, last);
    RemoveAt(b, k);
    CancelOne(multiset(front), multiset(b[..k] + b[k + 1..]), last);
  }

  /** The order of the terms does not matter. */
  lemma {:induction false} SumPermute<T>(a: seq<T>, b: seq<T>, f: T -> int)
    requires multiset(a) == multiset(b)
    ensures Sum(a, f) == Sum(b, f)
  {
    if a == [] {
      assert |multiset(b)| == 0;
    } else {
      var k := DropShared(a, b);
      SumPermute(a[..|a| - 1], b[..k] + b[k + 1..], f);
      assert b == b[..k] + [b[k]] + b[k + 1..];
      SumSnoc(b[..k], b[k], f);
      SumConcat(b[..k] + [b[k]], b[k + 1..], f);
      SumConcat(b[..k], b[k + 1..], f);
    }
  }

  // ---------- Keys in a reordered list ----------

  function HasKey<T>(key: T -> string, k: string): T -> int {
    (t: T) => if key(t) == k then 1 else 0
  }

  lemma {:induction false} CountDistinct<T>(s: seq<T>, key: T -> string, k: string)
    requires forall i, j :: 0 <= i < j < |s| ==> key(s[i]) != key(s[j])
    ensures Sum(s, HasKey(key, k)) <= 1
  {
    if s != [] {
      var n := |s| - 1;
      if key(s[n]) == k {
        SumZero(s[..n], HasKey(key, k));
      } else {
        CountDistinct(s[..n], key, k);
      }
    }
  }

  lemma CountTwice<T>(s: seq<T>, key: T -> string, i: nat, j: nat)
    requires i < j < |s| && key(s[i]) == key(s[j])
    ensures Sum(s, HasKey(key, key(s[i]))) >= 2
  {
    var f := HasKey(key, key(s[i]));
    assert s == s[..j] + s[j..];
    SumConcat(s[..j], s[j..], f);
    SumAtLeast(s[..j], f, i);
    SumAtLeast(s[j..], f, 0);
  }

  /** Keys that are distinct stay distinct in any order. */
  lemma DistinctInAnyOrder<T>(a: seq<T>, b: seq<T>, key: T -> string)
    requires multiset(a) == multiset(b)
    requires forall i, j :: 0 <= i < j < |a| ==> key(a[i]) != key(a[j])
    ensures forall i, j :: 0 <= i < j < |b| ==> key(b[i]) != key(b[j])
  {
    forall i, j | 0 <= i < j < |b| ensures key(b[i]) != key(b[j]) {
      if key(b[i]) == key(b[j]) {
        CountTwice(b, key, i, j);
        CountDistinct(a, key, key(b[i]));
        SumPermute(a, b, HasKey(key, key(b[i])));
      }
    }
  }
}
