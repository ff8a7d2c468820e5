/** The few facts about sequences that several models share. */
module Seqs {

  ghost predicate NoDup<T>(s: seq<T>) {
    forall i, j :: 0 <= i < j < |s| ==> s[i] != s[j]
  }

  function Elems<T>(s: seq<T>): set<T> {
    set x | x in s
  }

  /** A list names as many things as it has entries exactly when nothing repeats. */
  lemma {:induction false} ElemsSize<T>(s: seq<T>)
    ensures |Elems(s)| <= |s|
    ensures |Elems(s)| == |s| <==> NoDup(s)
  {
    if s != [] {
      var rest, last := s[..|s| - 1], s[|s| - 1];
      ElemsSize(rest);
      assert s == rest + [last];
      assert Elems(s) == Elems(rest) + {last};
      if last in rest {
        var i :| 0 <= i < |rest| && rest[i] == last;
        assert s[i] == s[|s| - 1];
        assert Elems(s) == Elems(rest);
      } else {
        assert NoDup(s) <==> NoDup(rest);
      }
    }
  }

  lemma Assoc<T>(a: seq<T>, b: seq<T>, c: seq<T>)
    ensures a + b + c == a + (b + c)
  {
  }

  /** The first step of a filter or a map over a concatenation. */
  lemma ConcatTail<T>(a: seq<T>, b: seq<T>)
    requires a != []
    ensures (a + b)[0] == a[0] && (a + b)[1..] == a[1..] + b && a + b != []
  {
  }

  lemma TakeOneMore<T>(before: seq<T>, s: seq<T>, n: nat)
    requires n < |s|
    ensures s[..n + 1] == s[..n] + [s[n]]
    ensures before + s[..n + 1] == before + s[..n] + [s[n]]
  {
  }

  lemma HeadIsMember<T>(s: seq<T>)
    ensures s == [] || s[0] in s
  {
  }

  lemma NoDupAppend<T>(a: seq<T>, b: seq<T>)
    ensures NoDup(a + b) <==> NoDup(a) && NoDup(b) && Elems(a) !! Elems(b)
  {
    var s := a + b;
    if NoDup(s) {
      forall i, j | 0 <= i < j < |a| ensures a[i] != a[j] { assert s[i] != s[j]; }
      forall i, j | 0 <= i < j < |b| ensures b[i] != b[j] { assert s[|a| + i] != s[|a| + j]; }
      forall i, j | 0 <= i < |a| && 0 <= j < |b| ensures a[i] != b[j] { assert s[i] != s[|a| + j]; }
    }
    if NoDup(a) && NoDup(b) && Elems(a) !! Elems(b) {
      forall i, j | 0 <= i < j < |s| ensures s[i] != s[j] {
        if i < |a| <= j {
          assert s[i] in Elems(a) && s[j] in Elems(b);
        }
      }
    }
  }

  /** Lexicographic order of two sort keys of the same width (ORDER BY k1, k2, ...). */
  predicate LexLess(a: seq<int>, b: seq<int>)
    requires |a| == |b|
  {
    a != [] && (a[0] < b[0] || (a[0] == b[0] && LexLess(a[1..], b[1..])))
  }

  lemma {:induction false} LexTotal(a: seq<int>, b: seq<int>)
    requires |a| == |b|
    ensures a == b <==> !LexLess(a, b) && !LexLess(b, a)
    ensures !(LexLess(a, b) && LexLess(b, a))
  {
    if a != [] {
      LexTotal(a[1..], b[1..]);
      assert a == [a[0]] + a[1..] && b == [b[0]] + b[1..];
    }
  }

  lemma {:induction false} LexTransitive(a: seq<int>, b: seq<int>, c: seq<int>)
    requires |a| == |b| == |c|
    requires LexLess(a, b) && LexLess(b, c)
    ensures LexLess(a, c)
  {
    if a[0] == b[0] == c[0] {
      LexTransitive(a[1..], b[1..], c[1..]);
    }
  }

  lemma SubsetSize<T>(a: set<T>, b: set<T>)
    requires a <= b
    ensures |a| <= |b| && (|a| == |b| <==> a == b)
  {
    assert b == a + (b - a);
    assert |b| == |a| + |b - a|;
  }

  function Image<A, B>(s: set<A>, f: A -> B): set<B> {
    set x | x in s :: f(x)
  }

  lemma {:induction false} ImageSizeIff<A, B>(s: set<A>, f: A -> B)
    ensures |Image(s, f)| <= |s|
    ensures |Image(s, f)| == |s| <==> forall x, y :: x in s && y in s && f(x) == f(y) ==> x == y
    decreases s
  {
    if x :| x in s {
      var rest := s - {x};
      ImageSizeIff(rest, f);
      assert Image(s, f) == Image(rest, f) + {f(x)};
      if f(x) in Image(rest, f) {
        var y :| y in rest && f(y) == f(x);
        assert x != y && Image(s, f) == Image(rest, f);
      }
    } else {
      assert Image(s, f) == {};
    }
  }

  lemma LexSecond(a: seq<int>, b: seq<int>)
    requires |a| == |b| >= 2 && LexLess(a, b)
    ensures a[0] < b[0] || (a[0] == b[0] && a[1] <= b[1])
  {
    assert a[0] == b[0] ==> LexLess(a[1..], b[1..]);
  }

  /** One representative per class: as many as there are classes. */
  lemma Representatives<A, B>(kept: set<A>, all: set<A>, f: A -> B)
    requires kept <= all
    requires forall x, y :: x in kept && y in kept && f(x) == f(y) ==> x == y
    requires forall x :: x in all ==> exists k :: k in kept && f(k) == f(x)
    ensures |kept| == |Image(all, f)|
  {
    ImageSizeIff(kept, f);
    assert Image(kept, f) == Image(all, f);
  }

  // ---------- sums ----------

  ghost function Total<T>(keys: set<T>, cost: map<T, nat>): nat
    requires keys <= cost.Keys
  {
    if keys == {} then 0 else var k :| k in keys; cost[k] + Total(keys - {k}, cost)
  }

  lemma {:induction false} TotalWithout<T>(keys: set<T>, cost: map<T, nat>, k: T)
    requires keys <= cost.Keys && k in keys
    ensures Total(keys, cost) == cost[k] + Total(keys - {k}, cost)
    decreases keys
  {
    var first :| first in keys && Total(keys, cost) == cost[first] + Total(keys - {first}, cost);
    if first != k {
      TotalWithout(keys - {first}, cost, k);
      TotalWithout(keys - {k}, cost, first);
      assert keys - {first} - {k} == keys - {k} - {first};
    }
  }

  lemma {:induction false} TotalAtMost<T>(keys: set<T>, a: map<T, nat>, b: map<T, nat>)
    requires keys <= a.Keys && keys <= b.Keys && forall k :: k in keys ==> a[k] <= b[k]
    ensures Total(keys, a) <= Total(keys, b)
    decreases keys
  {
    if k :| k in keys {
      TotalWithout(keys, a, k);
      TotalWithout(keys, b, k);
      TotalAtMost(keys - {k}, a, b);
    }
  }

  lemma {:induction false} TotalGrows<T>(some: set<T>, all: set<T>, cost: map<T, nat>)
    requires some <= all <= cost.Keys
    ensures Total(some, cost) <= Total(all, cost)
    decreases all
  {
    if !(all <= some) {
      var k :| k in all && k !in some;
      TotalWithout(all, cost, k);
      TotalGrows(some, all - {k}, cost);
    } else {
      assert some == all;
    }
  }

  /** Keys that cost nothing may be left out. */
  lemma {:induction false} TotalOfSome<T>(some: set<T>, all: set<T>, a: map<T, nat>, b: map<T, nat>)
    requires some <= all <= b.Keys && some <= a.Keys
    requires forall k :: k in all ==> b[k] == if k in some then a[k] else 0
    ensures Total(some, a) == Total(all, b)
    decreases all
  {
    if k :| k in all {
      TotalWithout(all, b, k);
      if k in some { TotalWithout(some, a, k); }
      TotalOfSome(some - {k}, all - {k}, a, b);
      if k !in some { assert some - {k} == some; }
    } else {
      assert some == {};
    }
  }
}
