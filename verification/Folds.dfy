// Sums, searches and filters over sequences, with the facts the accounting proofs share.
module Folds {

  datatype Option<+T> = None | Some(value: T)

  ghost function Sum<T>(s: seq<T>, f: T -> nat): nat {
    if s == [] then 0 else Sum(s[..|s| - 1], f) + f(s[|s| - 1])
  }

  ghost function Indicator<T>(p: T -> bool): T -> nat {
    x => if p(x) then 1 else 0
  }

  /** f restricted to the elements p selects. */
  ghost function Only<T>(p: T -> bool, f: T -> nat): T -> nat {
    x => if p(x) then f(x) else 0
  }

  ghost function Both<T>(p: T -> bool, q: T -> bool): T -> bool {
    x => p(x) && q(x)
  }

  ghost function Count<T>(s: seq<T>, p: T -> bool): nat {
    Sum(s, Indicator(p))
  }

  ghost predicate Any<T>(s: seq<T>, p: T -> bool) {
    exists i :: 0 <= i < |s| && p(s[i])
  }

  ghost function First<T>(s: seq<T>, p: T -> bool): Option<T> {
    if s == [] then None else if p(s[0]) then Some(s[0]) else First(s[1..], p)
  }

  ghost function Last<T>(s: seq<T>, p: T -> bool): Option<T> {
    if s == [] then None else if p(s[|s| - 1]) then Some(s[|s| - 1]) else Last(s[..|s| - 1], p)
  }

  ghost function Filter<T>(s: seq<T>, p: T -> bool): seq<T> {
    if s == [] then [] else Filter(s[..|s| - 1], p) + if p(s[|s| - 1]) then [s[|s| - 1]] else []
  }

  ghost function Elements<T>(s: seq<T>): set<T> {
    set x | x in s
  }

  lemma SumSnoc<T>(s: seq<T>, x: T, f: T -> nat)
    ensures Sum(s + [x], f) == Sum(s, f) + f(x)
  {
    assert (s + [x])[..|s|] == s;
  }

  lemma {:induction false} SumUpdate<T>(s: seq<T>, i: nat, x: T, f: T -> nat)
    requires i < |s|
    ensures Sum(s[i := x], f) + f(s[i]) == Sum(s, f) + f(x)
  {
    var n := |s| - 1;
    if i == n {
      assert s[i := x][..n] == s[..n];
    } else {
      assert s[i := x][..n] == s[..n][i := x];
      SumUpdate(s[..n], i, x, f);
    }
  }

  lemma {:induction false} SumCong<T>(s: seq<T>, f: T -> nat, g: T -> nat)
    requires forall i :: 0 <= i < |s| ==> f(s[i]) == g(s[i])
    ensures Sum(s, f) == Sum(s, g)
  {
    if s != [] {
      SumCong(s[..|s| - 1], f, g);
    }
  }

  lemma {:induction false} SumAppend<T>(s: seq<T>, t: seq<T>, f: T -> nat)
    ensures Sum(s + t, f) == Sum(s, f) + Sum(t, f)
  {
    if t == [] {
      assert s + t == s;
    } else {
      assert (s + t)[..|s + t| - 1] == s + t[..|t| - 1];
      SumAppend(s, t[..|t| - 1], f);
    }
  }

  lemma {:induction false} FirstSnoc<T>(s: seq<T>, x: T, p: T -> bool)
    ensures First(s + [x], p) == if First(s, p).Some? then First(s, p) else if p(x) then Some(x) else None
  {
    if s != [] {
      assert (s + [x])[1..] == s[1..] + [x];
      FirstSnoc(s[1..], x, p);
    }
  }

  lemma LastSnoc<T>(s: seq<T>, x: T, p: T -> bool)
    ensures Last(s + [x], p) == if p(x) then Some(x) else Last(s, p)
  {
    assert (s + [x])[..|s|] == s;
  }

  lemma FilterSnoc<T>(s: seq<T>, x: T, p: T -> bool)
    ensures Filter(s + [x], p) == Filter(s, p) + if p(x) then [x] else []
  {
    assert (s + [x])[..|s|] == s;
  }

  lemma {:induction false} FilterAppend<T>(s: seq<T>, t: seq<T>, p: T -> bool)
    ensures Filter(s + t, p) == Filter(s, p) + Filter(t, p)
  {
    if t == [] {
      assert s + t == s;
    } else {
      assert (s + t)[..|s + t| - 1] == s + t[..|t| - 1];
      FilterAppend(s, t[..|t| - 1], p);
    }
  }

  lemma AnySnoc<T>(s: seq<T>, x: T, p: T -> bool)
    ensures Any(s + [x], p) <==> Any(s, p) || p(x)
  {
    if Any(s, p) {
      var i :| 0 <= i < |s| && p(s[i]);
      assert (s + [x])[i] == s[i];
    }
    if p(x) {
      assert (s + [x])[|s|] == x;
    }
  }

  lemma AnyAppend<T>(s: seq<T>, t: seq<T>, p: T -> bool)
    ensures Any(s + t, p) <==> Any(s, p) || Any(t, p)
  {
    forall i | 0 <= i < |s| && p(s[i])
      ensures Any(s + t, p)
    {
      assert (s + t)[i] == s[i];
    }
    forall i | 0 <= i < |t| && p(t[i])
      ensures Any(s + t, p)
    {
      assert (s + t)[|s| + i] == t[i];
    }
  }

  // Sums over the members of a finite set.

  ghost function SumSet<K>(ks: set<K>, g: K -> nat): nat {
    if ks == {} then 0 else
    var k :| k in ks;
    g(k) + SumSet(ks - {k}, g)
  }

  lemma {:induction false} SumSetTake<K>(ks: set<K>, k: K, g: K -> nat)
    requires k in ks
    ensures SumSet(ks, g) == g(k) + SumSet(ks - {k}, g)
    decreases |ks|
  {
    var c :| c in ks && SumSet(ks, g) == g(c) + SumSet(ks - {c}, g);
    if c != k {
      SumSetTake(ks - {c}, k, g);
      SumSetTake(ks - {k}, c, g);
      assert ks - {c} - {k} == ks - {k} - {c};
    }
  }

  lemma {:induction false} SumSetCong<K>(ks: set<K>, g: K -> nat, h: K -> nat)
    requires forall k :: k in ks ==> g(k) == h(k)
    ensures SumSet(ks, g) == SumSet(ks, h)
    decreases |ks|
  {
    if ks != {} {
      var k :| k in ks;
      SumSetTake(ks, k, g);
      SumSetTake(ks, k, h);
      SumSetCong(ks - {k}, g, h);
    }
  }

  lemma {:induction false} SumSetAdd<K>(ks: set<K>, g: K -> nat, h: K -> nat, both: K -> nat)
    requires forall k :: k in ks ==> both(k) == g(k) + h(k)
    ensures SumSet(ks, both) == SumSet(ks, g) + SumSet(ks, h)
    decreases |ks|
  {
    if ks != {} {
      var k :| k in ks;
      SumSetTake(ks, k, g);
      SumSetTake(ks, k, h);
      SumSetTake(ks, k, both);
      SumSetAdd(ks - {k}, g, h, both);
    }
  }

  lemma {:induction false} SumSetZero<K>(ks: set<K>, g: K -> nat)
    requires forall k :: k in ks ==> g(k) == 0
    ensures SumSet(ks, g) == 0
    decreases |ks|
  {
    if ks != {} {
      var k :| k in ks;
      SumSetTake(ks, k, g);
      SumSetZero(ks - {k}, g);
    }
  }

  lemma {:induction false} SumSetUnion<K>(a: set<K>, b: set<K>, g: K -> nat)
    requires a !! b
    ensures SumSet(a + b, g) == SumSet(a, g) + SumSet(b, g)
    decreases |a|
  {
    if a == {} {
      assert a + b == b;
    } else {
      var k :| k in a;
      SumSetTake(a + b, k, g);
      SumSetTake(a, k, g);
      assert a + b - {k} == (a - {k}) + b;
      SumSetUnion(a - {k}, b, g);
    }
  }

  ghost function Member<T, K>(cls: T -> K, k: K): T -> bool {
    x => cls(x) == k
  }

  /** A sum over a sequence, taken class by class. */
  ghost function PerClass<T, K>(s: seq<T>, cls: T -> K, f: T -> nat): K -> nat {
    k => Sum(s, Only(Member(cls, k), f))
  }

  /** Splitting a sequence into classes loses and repeats nothing. */
  lemma {:induction false} SumPartition<T, K>(s: seq<T>, ks: set<K>, cls: T -> K, f: T -> nat)
    requires forall i :: 0 <= i < |s| ==> cls(s[i]) in ks
    ensures SumSet(ks, PerClass(s, cls, f)) == Sum(s, f)
  {
    if s == [] {
      SumSetZero(ks, PerClass(s, cls, f));
    } else {
      var n := |s| - 1;
      var x := s[n];
      var one: K -> nat := k => if cls(x) == k then f(x) else 0;
      SumPartition(s[..n], ks, cls, f);
      SumSetAdd(ks, PerClass(s[..n], cls, f), one, PerClass(s, cls, f));
      SumSetTake(ks, cls(x), one);
      SumSetZero(ks - {cls(x)}, one);
    }
  }
}
