/** Facts about sequences that the other modules share.  Every recursive function peels off the
    last element, which is the shape that the loops of the modelled program need. */
module Sequences {

  datatype Option<+T> = None | Some(value: T)

  function Filter<T>(s: seq<T>, p: T -> bool): seq<T> {
    if s == [] then [] else
      var rest := Filter(s[..|s| - 1], p);
      if p(s[|s| - 1]) then rest + [s[|s| - 1]] else rest
  }

  lemma FilterStep<T>(s: seq<T>, i: nat, p: T -> bool)
    requires i < |s|
    ensures Filter(s[..i + 1], p) == Filter(s[..i], p) + (if p(s[i]) then [s[i]] else [])
  {
    assert s[..i + 1][..i] == s[..i];
  }

  lemma {:induction false} FilterMember<T>(s: seq<T>, p: T -> bool)
    ensures forall x :: x in Filter(s, p) <==> x in s && p(x)
  {
    if s != [] {
      FilterMember(s[..|s| - 1], p);
      assert s == s[..|s| - 1] + [s[|s| - 1]];
    }
  }

  lemma {:induction false} FilterSame<T>(s: seq<T>, p: T -> bool, q: T -> bool)
    requires forall x | x in s :: p(x) == q(x)
    ensures Filter(s, p) == Filter(s, q)
  {
    if s != [] {
      FilterSame(s[..|s| - 1], p, q);
    }
  }

  /** Filtering twice is filtering once by the conjunction. */
  lemma {:induction false} FilterTwice<T>(s: seq<T>, p: T -> bool, q: T -> bool, both: T -> bool)
    requires forall x | x in s :: both(x) == (p(x) && q(x))
    ensures Filter(Filter(s, p), q) == Filter(s, both)
  {
    if s != [] {
      FilterTwice(s[..|s| - 1], p, q, both);
      var rest := Filter(s[..|s| - 1], p);
      assert (rest + [s[|s| - 1]])[..|rest|] == rest;
    }
  }

  /** A filter splits into two filters whose conditions partition it. */
  lemma {:induction false} FilterSplit<T>(s: seq<T>, p: T -> bool, q: T -> bool, r: T -> bool)
    requires forall x | x in s :: p(x) == (q(x) || r(x)) && !(q(x) && r(x))
    ensures multiset(Filter(s, p)) == multiset(Filter(s, q)) + multiset(Filter(s, r))
  {
    if s != [] {
      FilterSplit(s[..|s| - 1], p, q, r);
    }
  }

  function Flatten<T>(ss: seq<seq<T>>): seq<T> {
    if ss == [] then [] else Flatten(ss[..|ss| - 1]) + ss[|ss| - 1]
  }

  lemma FlattenSnoc<T>(ss: seq<seq<T>>, s: seq<T>)
    ensures Flatten(ss + [s]) == Flatten(ss) + s
    ensures multiset(Flatten(ss + [s])) == multiset(Flatten(ss)) + multiset(s)
  {
    assert (ss + [s])[..|ss|] == ss;
  }

  lemma {:induction false} FlattenMember<T>(ss: seq<seq<T>>, b: nat, i: nat)
    requires b < |ss| && i < |ss[b]|
    ensures ss[b][i] in Flatten(ss)
  {
    if b < |ss| - 1 {
      FlattenMember(ss[..|ss| - 1], b, i);
    }
  }

  lemma {:induction false} FlattenWhere<T>(ss: seq<seq<T>>, x: T) returns (b: nat, i: nat)
    requires x in Flatten(ss)
    ensures b < |ss| && i < |ss[b]| && ss[b][i] == x
  {
    var last := |ss| - 1;
    if x in ss[last] {
      b := last;
      i :| 0 <= i < |ss[last]| && ss[last][i] == x;
    } else {
      b, i := FlattenWhere(ss[..last], x);
    }
  }

  lemma {:induction false} FlattenLength<T>(ss: seq<seq<T>>)
    requires forall b | 0 <= b < |ss| :: ss[b] != []
    ensures |ss| <= |Flatten(ss)|
  {
    if ss != [] {
      FlattenLength(ss[..|ss| - 1]);
    }
  }

  lemma {:induction false} FlattenConcat<T>(s: seq<seq<T>>, t: seq<seq<T>>)
    ensures Flatten(s + t) == Flatten(s) + Flatten(t)
  {
    if t == [] {
      assert s + t == s;
    } else {
      var all, init := s + t, t[..|t| - 1];
      FlattenConcat(s, init);
      assert all[..|all| - 1] == s + init && all[|all| - 1] == t[|t| - 1];
      assert Flatten(all) == Flatten(s + init) + t[|t| - 1];
    }
  }

  /** Replacing each part by a permutation of it permutes the whole. */
  lemma {:induction false} FlattenPermutation<T>(ss: seq<seq<T>>, tt: seq<seq<T>>)
    requires |ss| == |tt|
    requires forall b | 0 <= b < |ss| :: multiset(ss[b]) == multiset(tt[b])
    ensures multiset(Flatten(ss)) == multiset(Flatten(tt))
  {
    if ss != [] {
      FlattenPermutation(ss[..|ss| - 1], tt[..|tt| - 1]);
    }
  }

  function Map<S, T>(s: seq<S>, f: S -> T): (r: seq<T>)
    ensures |r| == |s| && forall i | 0 <= i < |s| :: r[i] == f(s[i])
  {
    seq(|s|, i requires 0 <= i < |s| => f(s[i]))
  }

  lemma MapConcat<S, T>(s: seq<S>, t: seq<S>, f: S -> T)
    ensures Map(s + t, f) == Map(s, f) + Map(t, f)
  {
  }

  /** A permutation can be undone one element at a time. */
  lemma RemoveFromPermutation<T>(s: seq<T>, x: T, t: seq<T>) returns (a: seq<T>, b: seq<T>)
    requires multiset(s + [x]) == multiset(t)
    ensures t == a + [x] + b && multiset(s) == multiset(a + b)
  {
    assert x in multiset(t) by { assert (s + [x])[|s|] == x; }
    var k :| 0 <= k < |t| && t[k] == x;
    a, b := t[..k], t[k + 1..];
    assert t == a + [x] + b;
    WithoutOne(s, x, a, b);
  }

  lemma WithoutOne<T>(s: seq<T>, x: T, a: seq<T>, b: seq<T>)
    requires multiset(s + [x]) == multiset(a + [x] + b)
    ensures multiset(s) == multiset(a + b)
  {
    assert multiset(a + [x] + b) == multiset(a + b) + multiset{x};
    assert multiset(s) == multiset(s + [x]) - multiset{x};
    assert multiset(a + b) == multiset(a + [x] + b) - multiset{x};
  }

  lemma {:induction false} FilterConcat<T>(s: seq<T>, t: seq<T>, p: T -> bool)
    ensures Filter(s + t, p) == Filter(s, p) + Filter(t, p)
  {
    if t == [] {
      assert s + t == s;
    } else {
      assert (s + t)[..|s + t| - 1] == s + t[..|t| - 1];
      FilterConcat(s, t[..|t| - 1], p);
    }
  }

  lemma FilterMiddle<T>(a: seq<T>, x: T, b: seq<T>, p: T -> bool)
    ensures multiset(Filter(a + [x] + b, p)) == multiset(Filter(a + b, p)) + multiset(Filter([x], p))
  {
    FilterConcat(a, b, p);
    FilterConcat(a, [x], p);
    FilterConcat(a + [x], b, p);
  }

  /** A filter keeps what it keeps as often as it stands there. */
  lemma {:induction false} FilterCount<T>(s: seq<T>, p: T -> bool, x: T)
    ensures multiset(Filter(s, p))[x] == if p(x) then multiset(s)[x] else 0
  {
    if s != [] {
      FilterCount(s[..|s| - 1], p, x);
      assert s == s[..|s| - 1] + [s[|s| - 1]];
    }
  }

  /** A permutation of the input permutes what a filter keeps. */
  lemma {:induction false} FilterPermutation<T>(s: seq<T>, t: seq<T>, p: T -> bool)
    requires multiset(s) == multiset(t)
    ensures multiset(Filter(s, p)) == multiset(Filter(t, p))
    decreases |s|
  {
    if s == [] {
      assert |multiset(s)| == |multiset(t)|;
    } else {
      var init, x := s[..|s| - 1], s[|s| - 1];
      assert s == init + [x] && s == init + [x] + [] && init + [] == init;
      var a, b := RemoveFromPermutation(init, x, t);
      FilterPermutation(init, a + b, p);
      FilterMiddle(init, x, [], p);
      FilterMiddle(a, x, b, p);
    }
  }

  lemma MapMiddle<S, T>(a: seq<S>, x: S, b: seq<S>, f: S -> T)
    ensures multiset(Map(a + [x] + b, f)) == multiset(Map(a + b, f)) + multiset{f(x)}
  {
    MapConcat(a, b, f);
    MapConcat(a + [x], b, f);
    MapConcat(a, [x], f);
    assert Map([x], f) == [f(x)];
  }

  lemma {:induction false} MapPermutation<S, T>(s: seq<S>, t: seq<S>, f: S -> T)
    requires multiset(s) == multiset(t)
    ensures multiset(Map(s, f)) == multiset(Map(t, f))
    decreases |s|
  {
    if s == [] {
      assert |multiset(s)| == |multiset(t)|;
    } else {
      var init, x := s[..|s| - 1], s[|s| - 1];
      assert s == init + [x] && s == init + [x] + [] && init + [] == init;
      var a, b := RemoveFromPermutation(init, x, t);
      MapPermutation(init, a + b, f);
      MapMiddle(init, x, [], f);
      MapMiddle(a, x, b, f);
    }
  }

  ghost predicate NoDuplicates<T>(s: seq<T>) {
    forall i, j | 0 <= i < j < |s| :: s[i] != s[j]
  }

  lemma NoDuplicatesAppend<T>(s: seq<T>, x: T)
    requires NoDuplicates(s) && x !in s
    ensures NoDuplicates(s + [x])
  {
    forall i | 0 <= i < |s| ensures s[i] != x {
      assert s[i] in s;
    }
  }

  lemma {:induction false} NoDuplicatesCount<T>(s: seq<T>, x: T)
    requires NoDuplicates(s)
    ensures multiset(s)[x] == if x in s then 1 else 0
  {
    if s != [] {
      NoDuplicatesCount(s[..|s| - 1], x);
      assert s == s[..|s| - 1] + [s[|s| - 1]];
    }
  }

  /** Two duplicate-free sequences with the same members are permutations of each other. */
  lemma SameMembersPermutation<T>(s: seq<T>, t: seq<T>)
    requires NoDuplicates(s) && NoDuplicates(t)
    requires forall x :: x in s <==> x in t
    ensures multiset(s) == multiset(t)
  {
    forall x: T
      ensures multiset(s)[x] == multiset(t)[x]
    {
      NoDuplicatesCount(s, x);
      NoDuplicatesCount(t, x);
    }
  }

  ghost function Elements<T>(s: seq<T>): set<T> {
    set x | x in s
  }

  lemma {:induction false} ElementsCount<T>(s: seq<T>)
    ensures |Elements(s)| <= |s|
    ensures NoDuplicates(s) ==> |Elements(s)| == |s|
  {
    if s == [] {
      assert Elements(s) == {};
    } else {
      var init := s[..|s| - 1];
      ElementsCount(init);
      assert Elements(s) == Elements(init) + {s[|s| - 1]};
    }
  }

  lemma SubsetSize<T>(a: set<T>, b: set<T>)
    requires a <= b
    ensures |a| <= |b|
  {
    assert b == a + (b - a);
  }

  /** The pigeonhole principle: more positions than distinct values forces a repetition. */
  lemma Pigeonhole<T>(s: seq<T>, holes: set<T>) returns (i: nat, j: nat)
    requires forall x | x in s :: x in holes
    requires |s| > |holes|
    ensures i < j < |s| && s[i] == s[j]
  {
    if NoDuplicates(s) {
      ElementsCount(s);
      SubsetSize(Elements(s), holes);
      assert false;
    } else {
      i, j :| 0 <= i < j < |s| && s[i] == s[j];
    }
  }
}
