/** The constraint graph on job keys, its chains and cycles, and the levels it induces.
    Nothing here mentions an algorithm: this is the specification of lock ordering. */
module LockGraph {
  import opened Sequences
  import opened Jobs

  ghost predicate IsKey(jobs: seq<Job>, k: JobKey) {
    exists j | j in jobs :: Key(j) == k
  }

  /** k must be locked before l. */
  ghost predicate Edge(jobs: seq<Job>, activity: Activity, k: JobKey, l: JobKey) {
    exists a, b | a in jobs && b in jobs :: Key(a) == k && Key(b) == l && MustLockBefore(activity, a, b)
  }

  /** A chain: each key must be locked before the next. */
  ghost predicate Chain(jobs: seq<Job>, activity: Activity, p: seq<JobKey>) {
    && |p| > 0
    && (forall i | 0 <= i < |p| :: IsKey(jobs, p[i]))
    && (forall i | 0 < i < |p| :: Edge(jobs, activity, p[i - 1], p[i]))
  }

  /** A cycle of constraints; [k, k] is a job that must be locked before itself. */
  ghost predicate Cycle(jobs: seq<Job>, activity: Activity, p: seq<JobKey>) {
    Chain(jobs, activity, p) && |p| > 1 && p[0] == p[|p| - 1]
  }

  ghost predicate Cyclic(jobs: seq<Job>, activity: Activity) {
    exists p :: Cycle(jobs, activity, p)
  }

  /** Some chain of d constraints ends at k. */
  ghost predicate Deep(jobs: seq<Job>, activity: Activity, k: JobKey, d: nat)
    decreases d
  {
    if d == 0 then IsKey(jobs, k)
    else exists l :: Edge(jobs, activity, l, k) && Deep(jobs, activity, l, d - 1)
  }

  lemma {:induction false} DeepHasChain(jobs: seq<Job>, activity: Activity, k: JobKey, d: nat) returns (p: seq<JobKey>)
    requires Deep(jobs, activity, k, d)
    ensures Chain(jobs, activity, p) && |p| == d + 1 && p[d] == k
    decreases d
  {
    if d == 0 {
      p := [k];
    } else {
      var l :| Edge(jobs, activity, l, k) && Deep(jobs, activity, l, d - 1);
      var q := DeepHasChain(jobs, activity, l, d - 1);
      p := q + [k];
    }
  }

  lemma {:induction false} ChainIsDeep(jobs: seq<Job>, activity: Activity, p: seq<JobKey>, i: nat)
    requires Chain(jobs, activity, p) && i < |p|
    ensures Deep(jobs, activity, p[i], i)
    decreases i
  {
    if i > 0 {
      ChainIsDeep(jobs, activity, p, i - 1);
      assert Edge(jobs, activity, p[i - 1], p[i]);
    }
  }

  lemma {:induction false} DeepIsKey(jobs: seq<Job>, activity: Activity, k: JobKey, d: nat)
    requires Deep(jobs, activity, k, d)
    ensures IsKey(jobs, k)
  {
  }

  lemma {:induction false} DeepDown(jobs: seq<Job>, activity: Activity, k: JobKey, d: nat)
    requires Deep(jobs, activity, k, d + 1)
    ensures Deep(jobs, activity, k, d)
    decreases d
  {
    if d == 0 {
      DeepIsKey(jobs, activity, k, 1);
    } else {
      var l :| Edge(jobs, activity, l, k) && Deep(jobs, activity, l, d);
      DeepDown(jobs, activity, l, d - 1);
    }
  }

  lemma {:induction false} DeepMonotone(jobs: seq<Job>, activity: Activity, k: JobKey, d: nat, e: nat)
    requires d <= e && Deep(jobs, activity, k, e)
    ensures Deep(jobs, activity, k, d)
    decreases e - d
  {
    if d < e {
      DeepDown(jobs, activity, k, e - 1);
      DeepMonotone(jobs, activity, k, d, e - 1);
    }
  }

  /** A constraint pushes its target one deeper than its source. */
  lemma DeepEdge(jobs: seq<Job>, activity: Activity, k: JobKey, l: JobKey, d: nat)
    requires Edge(jobs, activity, k, l) && Deep(jobs, activity, k, d)
    ensures Deep(jobs, activity, l, d + 1)
  {
  }

  /** A chain with more constraints than there are jobs revisits a key: pigeonhole gives a cycle. */
  lemma DeepForcesCycle(jobs: seq<Job>, activity: Activity, k: JobKey, d: nat)
    requires Deep(jobs, activity, k, d) && d >= |jobs|
    ensures Cyclic(jobs, activity)
  {
    var p := DeepHasChain(jobs, activity, k, d);
    forall x | x in p
      ensures x in KeySet(jobs)
    {
      assert IsKey(jobs, x);
    }
    KeySetSize(jobs);
    var a, b := Pigeonhole(p, KeySet(jobs));
    ChainPart(jobs, activity, p, a, b);
    assert Cycle(jobs, activity, p[a..b + 1]);
  }

  ghost function KeySet(jobs: seq<Job>): set<JobKey> {
    set j | j in jobs :: Key(j)
  }

  lemma {:induction false} KeySetSize(jobs: seq<Job>)
    ensures |KeySet(jobs)| <= |jobs|
  {
    if jobs == [] {
      assert KeySet(jobs) == {};
    } else {
      var init := jobs[..|jobs| - 1];
      KeySetSize(init);
      assert KeySet(jobs) == KeySet(init) + {Key(jobs[|jobs| - 1])};
    }
  }

  lemma ChainPart(jobs: seq<Job>, activity: Activity, p: seq<JobKey>, a: nat, b: nat)
    requires Chain(jobs, activity, p) && a <= b < |p|
    ensures Chain(jobs, activity, p[a..b + 1])
  {
    var c := p[a..b + 1];
    forall i | 0 < i < |c|
      ensures Edge(jobs, activity, c[i - 1], c[i])
    {
      assert c[i - 1] == p[a + i - 1] && c[i] == p[a + i];
    }
  }

  /** Every key on a cycle ends arbitrarily long chains. */
  lemma {:induction false} CycleIsDeep(jobs: seq<Job>, activity: Activity, p: seq<JobKey>, i: nat, d: nat)
    requires Cycle(jobs, activity, p) && i < |p|
    ensures Deep(jobs, activity, p[i], d)
    decreases d
  {
    if d > 0 {
      var at := if i == 0 then |p| - 1 else i;
      CycleIsDeep(jobs, activity, p, at - 1, d - 1);
      assert Edge(jobs, activity, p[at - 1], p[at]);
    }
  }

  // ---------------------------------------------------------------------------------------------
  // Levels

  ghost function DeepAt(jobs: seq<Job>, activity: Activity, r: nat): Job -> bool {
    j => Deep(jobs, activity, Key(j), r)
  }

  ghost predicate Exactly(jobs: seq<Job>, activity: Activity, j: Job, r: nat) {
    Deep(jobs, activity, Key(j), r) && !Deep(jobs, activity, Key(j), r + 1)
  }

  /** The longest chain that ends at the job has r constraints. */
  ghost function ExactlyAt(jobs: seq<Job>, activity: Activity, r: nat): Job -> bool {
    j => Exactly(jobs, activity, j, r)
  }

  /** The jobs at depth r or more, in input order. */
  ghost function Remaining(jobs: seq<Job>, activity: Activity, r: nat): seq<Job> {
    Filter(jobs, DeepAt(jobs, activity, r))
  }

  ghost function Level(jobs: seq<Job>, activity: Activity, r: nat): seq<Job> {
    Filter(jobs, ExactlyAt(jobs, activity, r))
  }

  ghost function LevelsBelow(jobs: seq<Job>, activity: Activity, r: nat): seq<seq<Job>> {
    if r == 0 then [] else LevelsBelow(jobs, activity, r - 1) + [Level(jobs, activity, r - 1)]
  }

  lemma {:induction false} LevelsBelowAt(jobs: seq<Job>, activity: Activity, r: nat)
    ensures |LevelsBelow(jobs, activity, r)| == r
    ensures forall b | 0 <= b < r :: LevelsBelow(jobs, activity, r)[b] == Level(jobs, activity, b)
  {
    if r > 0 {
      LevelsBelowAt(jobs, activity, r - 1);
    }
  }

  lemma RemainingMember(jobs: seq<Job>, activity: Activity, r: nat)
    ensures forall j :: j in Remaining(jobs, activity, r) <==> j in jobs && Deep(jobs, activity, Key(j), r)
  {
    FilterMember(jobs, DeepAt(jobs, activity, r));
  }

  lemma LevelMember(jobs: seq<Job>, activity: Activity, r: nat)
    ensures forall j :: j in Level(jobs, activity, r) <==> j in jobs && Exactly(jobs, activity, j, r)
  {
    FilterMember(jobs, ExactlyAt(jobs, activity, r));
  }

  lemma RemainingSplit(jobs: seq<Job>, activity: Activity, r: nat)
    ensures multiset(Remaining(jobs, activity, r)) ==
            multiset(Level(jobs, activity, r)) + multiset(Remaining(jobs, activity, r + 1))
  {
    forall j | j in jobs && Deep(jobs, activity, Key(j), r + 1) ensures Deep(jobs, activity, Key(j), r) {
      DeepDown(jobs, activity, Key(j), r);
    }
    FilterSplit(jobs, DeepAt(jobs, activity, r), ExactlyAt(jobs, activity, r), DeepAt(jobs, activity, r + 1));
  }

  lemma AllRemainAtFirst(jobs: seq<Job>, activity: Activity)
    ensures Remaining(jobs, activity, 0) == jobs
  {
    forall j | j in jobs ensures DeepAt(jobs, activity, 0)(j) {
      assert IsKey(jobs, Key(j));
    }
    AllKept(jobs, DeepAt(jobs, activity, 0));
  }

  /** The first r levels and the jobs that remain are a permutation of all the jobs. */
  lemma PartitionStep<T>(levels: seq<seq<T>>, level: seq<T>, before: seq<T>, after: seq<T>, all: seq<T>)
    requires multiset(Flatten(levels)) + multiset(before) == multiset(all)
    requires multiset(before) == multiset(level) + multiset(after)
    ensures multiset(Flatten(levels + [level])) + multiset(after) == multiset(all)
  {
    FlattenSnoc(levels, level);
    var a, b, c := multiset(Flatten(levels)), multiset(level), multiset(after);
    assert a + b + c == a + (b + c);
  }

  /** The levels so far and what remains make up all jobs. */
  ghost predicate Partitioned(jobs: seq<Job>, activity: Activity, r: nat) {
    multiset(Flatten(LevelsBelow(jobs, activity, r))) + multiset(Remaining(jobs, activity, r)) == multiset(jobs)
  }

  lemma FirstPartition(jobs: seq<Job>, activity: Activity)
    ensures Partitioned(jobs, activity, 0)
  {
    AllRemainAtFirst(jobs, activity);
  }

  lemma NextPartition(jobs: seq<Job>, activity: Activity, r: nat, next: nat)
    requires Partitioned(jobs, activity, r) && next == r + 1
    ensures Partitioned(jobs, activity, next)
  {
    RemainingSplit(jobs, activity, r);
    PartitionStep(LevelsBelow(jobs, activity, r), Level(jobs, activity, r), Remaining(jobs, activity, r),
                  Remaining(jobs, activity, next), jobs);
  }

  lemma {:induction false} LevelsPartition(jobs: seq<Job>, activity: Activity, r: nat)
    ensures Partitioned(jobs, activity, r)
  {
    if r == 0 {
      FirstPartition(jobs, activity);
    } else {
      LevelsPartition(jobs, activity, r - 1);
      NextPartition(jobs, activity, r - 1, r);
    }
  }

  lemma {:induction false} AllKept<T>(s: seq<T>, p: T -> bool)
    requires forall x | x in s :: p(x)
    ensures Filter(s, p) == s
  {
    if s != [] {
      AllKept(s[..|s| - 1], p);
    }
  }

  /** The number of levels: the least depth that no job has. */
  ghost function HeightFrom(jobs: seq<Job>, activity: Activity, r: nat): nat
    decreases |jobs| - r
  {
    if r >= |jobs| || Remaining(jobs, activity, r) == [] then r else HeightFrom(jobs, activity, r + 1)
  }

  lemma {:induction false} HeightFromIs(jobs: seq<Job>, activity: Activity, r: nat)
    ensures var h := HeightFrom(jobs, activity, r);
            && h >= r
            && (h <= |jobs| || h == r)
            && (h < |jobs| ==> Remaining(jobs, activity, h) == [])
            && forall d | r <= d < h :: Remaining(jobs, activity, d) != []
    decreases |jobs| - r
  {
    if r < |jobs| && Remaining(jobs, activity, r) != [] {
      HeightFromIs(jobs, activity, r + 1);
    }
  }

  ghost function Height(jobs: seq<Job>, activity: Activity): nat {
    HeightFrom(jobs, activity, 0)
  }

  /** What ordering means: no answer when the constraints are cyclic, otherwise the levels by longest chain. */
  ghost function LockOrder(jobs: seq<Job>, activity: Activity): Option<seq<seq<Job>>> {
    if Cyclic(jobs, activity) then None
    else Some(LevelsBelow(jobs, activity, Height(jobs, activity)))
  }

  lemma NothingBelowHeight(jobs: seq<Job>, activity: Activity)
    requires !Cyclic(jobs, activity)
    ensures Remaining(jobs, activity, Height(jobs, activity)) == []
    ensures forall d | 0 <= d < Height(jobs, activity) :: Remaining(jobs, activity, d) != []
  {
    HeightFromIs(jobs, activity, 0);
    var h := Height(jobs, activity);
    if h >= |jobs| && Remaining(jobs, activity, h) != [] {
      var j := Remaining(jobs, activity, h)[0];
      RemainingMember(jobs, activity, h);
      DeepForcesCycle(jobs, activity, Key(j), h);
    }
  }

  /** If rounds 0 .. r - 1 each found jobs and round r has none left, r is the height. */
  lemma HeightIs(jobs: seq<Job>, activity: Activity, r: nat)
    requires !Cyclic(jobs, activity)
    requires Remaining(jobs, activity, r) == []
    requires forall d | 0 <= d < r :: Remaining(jobs, activity, d) != []
    ensures Height(jobs, activity) == r
  {
    NothingBelowHeight(jobs, activity);
  }

  // ---------------------------------------------------------------------------------------------
  // What the levels promise

  /** A layering honours the constraints: whatever must be locked before stands in a strictly earlier layer. */
  ghost predicate Honours(jobs: seq<Job>, activity: Activity, layers: seq<seq<Job>>) {
    forall b, i, c, k | 0 <= b < |layers| && 0 <= i < |layers[b]| && 0 <= c < |layers| && 0 <= k < |layers[c]| ::
      Edge(jobs, activity, Key(layers[b][i]), Key(layers[c][k])) ==> b < c
  }

  /** A valid answer: the layers are a permutation of the jobs and honour every constraint. */
  ghost predicate ValidLayering(jobs: seq<Job>, activity: Activity, layers: seq<seq<Job>>) {
    multiset(Flatten(layers)) == multiset(jobs) && Honours(jobs, activity, layers)
  }

  lemma LevelAt(jobs: seq<Job>, activity: Activity, levels: seq<seq<Job>>, b: nat, i: nat)
    requires LockOrder(jobs, activity) == Some(levels)
    requires b < |levels| && i < |levels[b]|
    ensures levels[b][i] in jobs && Exactly(jobs, activity, levels[b][i], b)
  {
    LevelsBelowAt(jobs, activity, Height(jobs, activity));
    LevelMember(jobs, activity, b);
    assert levels[b][i] in Level(jobs, activity, b);
  }

  lemma ExactlyIncreases(jobs: seq<Job>, activity: Activity, x: Job, b: nat, y: Job, c: nat)
    requires Exactly(jobs, activity, x, b) && Exactly(jobs, activity, y, c)
    requires Edge(jobs, activity, Key(x), Key(y))
    ensures b < c
  {
    DeepEdge(jobs, activity, Key(x), Key(y), b);
    if c <= b {
      DeepMonotone(jobs, activity, Key(y), c + 1, b + 1);
    }
  }

  lemma LevelsHonour(jobs: seq<Job>, activity: Activity, levels: seq<seq<Job>>)
    requires LockOrder(jobs, activity) == Some(levels)
    ensures Honours(jobs, activity, levels)
  {
    forall b, i, c, k | 0 <= b < |levels| && 0 <= i < |levels[b]| && 0 <= c < |levels| && 0 <= k < |levels[c]|
      ensures Edge(jobs, activity, Key(levels[b][i]), Key(levels[c][k])) ==> b < c
    {
      LevelAt(jobs, activity, levels, b, i);
      LevelAt(jobs, activity, levels, c, k);
      if Edge(jobs, activity, Key(levels[b][i]), Key(levels[c][k])) {
        ExactlyIncreases(jobs, activity, levels[b][i], b, levels[c][k], c);
      }
    }
  }

  /** In a round that finds no job to lock, every key at depth r is also at depth r + 1. */
  lemma StuckDeeper(jobs: seq<Job>, activity: Activity, r: nat, k: JobKey) returns (l: JobKey)
    requires Level(jobs, activity, r) == [] && Deep(jobs, activity, k, r)
    ensures Edge(jobs, activity, l, k) && Deep(jobs, activity, l, r)
  {
    LevelMember(jobs, activity, r);
    DeepIsKey(jobs, activity, k, r);
    var j :| j in jobs && Key(j) == k;
    assert j !in Level(jobs, activity, r);
    assert Deep(jobs, activity, k, r + 1);
    l :| Edge(jobs, activity, l, k) && Deep(jobs, activity, l, r);
  }

  /** So chains of any length end at such a key. */
  lemma {:induction false} StuckChain(jobs: seq<Job>, activity: Activity, r: nat, k: JobKey, d: nat)
    returns (p: seq<JobKey>)
    requires Level(jobs, activity, r) == [] && Deep(jobs, activity, k, r)
    ensures Chain(jobs, activity, p) && |p| == d + 1 && p[d] == k
    decreases d
  {
    DeepIsKey(jobs, activity, k, r);
    if d == 0 {
      p := [k];
    } else {
      var l := StuckDeeper(jobs, activity, r, k);
      var q := StuckChain(jobs, activity, r, l, d - 1);
      p := q + [k];
    }
  }

  /** A stuck round with jobs left exhibits a cycle. */
  lemma StuckIsCyclic(jobs: seq<Job>, activity: Activity, r: nat)
    requires Level(jobs, activity, r) == [] && Remaining(jobs, activity, r) != []
    ensures Cyclic(jobs, activity)
  {
    RemainingMember(jobs, activity, r);
    var k := Key(Remaining(jobs, activity, r)[0]);
    var p := StuckChain(jobs, activity, r, k, |jobs|);
    ChainIsDeep(jobs, activity, p, |jobs|);
    DeepForcesCycle(jobs, activity, k, |jobs|);
  }

  /** On success the levels are non-empty, at most one per job, a permutation of the jobs, and honour every
      constraint. */
  lemma LockOrderIsValid(jobs: seq<Job>, activity: Activity, levels: seq<seq<Job>>)
    requires LockOrder(jobs, activity) == Some(levels)
    ensures ValidLayering(jobs, activity, levels)
    ensures forall b | 0 <= b < |levels| :: levels[b] != []
    ensures |levels| <= |jobs|
  {
    NothingBelowHeight(jobs, activity);
    LevelsBelowAt(jobs, activity, Height(jobs, activity));
    LevelsPartition(jobs, activity, Height(jobs, activity));
    LevelsHonour(jobs, activity, levels);
    forall b | 0 <= b < |levels|
      ensures levels[b] != []
    {
      if Level(jobs, activity, b) == [] {
        StuckIsCyclic(jobs, activity, b);
      }
    }
    FlattenLength(levels);
    assert |multiset(Flatten(levels))| == |multiset(jobs)|;
  }

  lemma KeyInLayers(jobs: seq<Job>, layers: seq<seq<Job>>, l: JobKey) returns (b: nat, i: nat)
    requires multiset(Flatten(layers)) == multiset(jobs) && IsKey(jobs, l)
    ensures b < |layers| && i < |layers[b]| && Key(layers[b][i]) == l
  {
    var a :| a in jobs && Key(a) == l;
    assert a in multiset(Flatten(layers));
    b, i := FlattenWhere(layers, a);
  }

  /** Any valid layering places a job no earlier than the length of a chain that ends at it. */
  lemma {:induction false} LayeringIsDeep(jobs: seq<Job>, activity: Activity, layers: seq<seq<Job>>,
                                          c: nat, k: nat, d: nat)
    requires ValidLayering(jobs, activity, layers)
    requires c < |layers| && k < |layers[c]|
    requires Deep(jobs, activity, Key(layers[c][k]), d)
    ensures d <= c
    decreases d
  {
    if d > 0 {
      var l :| Edge(jobs, activity, l, Key(layers[c][k])) && Deep(jobs, activity, l, d - 1);
      var e, i := KeyInLayers(jobs, layers, l);
      LayeringIsDeep(jobs, activity, layers, e, i, d - 1);
    }
  }

  /** The levels are the earliest possible: no valid layering has fewer layers or places any job earlier. */
  lemma LockOrderIsEarliest(jobs: seq<Job>, activity: Activity, levels: seq<seq<Job>>, layers: seq<seq<Job>>)
    requires LockOrder(jobs, activity) == Some(levels)
    requires ValidLayering(jobs, activity, layers)
    ensures |levels| <= |layers|
    ensures forall b, i, c, k |
              0 <= b < |levels| && 0 <= i < |levels[b]| && 0 <= c < |layers| && 0 <= k < |layers[c]| ::
              levels[b][i] == layers[c][k] ==> b <= c
  {
    forall b, i, c, k | 0 <= b < |levels| && 0 <= i < |levels[b]| && 0 <= c < |layers| && 0 <= k < |layers[c]| &&
                        levels[b][i] == layers[c][k]
      ensures b <= c
    {
      LevelAt(jobs, activity, levels, b, i);
      LayeringIsDeep(jobs, activity, layers, c, k, b);
    }
    if levels != [] {
      var b := |levels| - 1;
      LockOrderIsValid(jobs, activity, levels);
      assert levels[b] != [];
      LevelAt(jobs, activity, levels, b, 0);
      assert levels[b][0] in multiset(Flatten(layers));
      var c, k := FlattenWhere(layers, levels[b][0]);
      assert b <= c;
    }
  }

  lemma LongestChain(jobs: seq<Job>, activity: Activity, j: Job, b: nat, p: seq<JobKey>)
    requires Exactly(jobs, activity, j, b)
    requires Chain(jobs, activity, p) && p[|p| - 1] == Key(j)
    ensures |p| <= b + 1
  {
    ChainIsDeep(jobs, activity, p, |p| - 1);
    if |p| > b + 1 {
      DeepMonotone(jobs, activity, Key(j), b + 1, |p| - 1);
    }
  }

  /** The level of a job is the length of the longest chain that ends at it. */
  lemma LevelIsLongestChain(jobs: seq<Job>, activity: Activity, levels: seq<seq<Job>>, b: nat, i: nat)
    requires LockOrder(jobs, activity) == Some(levels)
    requires b < |levels| && i < |levels[b]|
    ensures exists p :: Chain(jobs, activity, p) && |p| == b + 1 && p[b] == Key(levels[b][i])
    ensures forall p | Chain(jobs, activity, p) && p[|p| - 1] == Key(levels[b][i]) :: |p| <= b + 1
  {
    LevelAt(jobs, activity, levels, b, i);
    var q := DeepHasChain(jobs, activity, Key(levels[b][i]), b);
    forall p | Chain(jobs, activity, p) && p[|p| - 1] == Key(levels[b][i])
      ensures |p| <= b + 1
    {
      LongestChain(jobs, activity, levels[b][i], b, p);
    }
  }

  // ---------------------------------------------------------------------------------------------
  // Independence from the order in which the jobs were discovered

  lemma EdgePermutation(jobs: seq<Job>, other: seq<Job>, activity: Activity, k: JobKey, l: JobKey)
    requires forall j :: j in jobs <==> j in other
    ensures Edge(jobs, activity, k, l) == Edge(other, activity, k, l)
  {
  }

  lemma {:induction false} DeepPermutation(jobs: seq<Job>, other: seq<Job>, activity: Activity, k: JobKey, d: nat)
    requires forall j :: j in jobs <==> j in other
    ensures Deep(jobs, activity, k, d) == Deep(other, activity, k, d)
    decreases d
  {
    if d > 0 {
      forall l
        ensures Edge(jobs, activity, l, k) == Edge(other, activity, l, k)
        ensures Deep(jobs, activity, l, d - 1) == Deep(other, activity, l, d - 1)
      {
        EdgePermutation(jobs, other, activity, l, k);
        DeepPermutation(jobs, other, activity, l, d - 1);
      }
    }
  }

  lemma LevelPermutation(jobs: seq<Job>, other: seq<Job>, activity: Activity, r: nat)
    requires multiset(jobs) == multiset(other)
    ensures multiset(Level(jobs, activity, r)) == multiset(Level(other, activity, r))
    ensures multiset(Remaining(jobs, activity, r)) == multiset(Remaining(other, activity, r))
  {
    SameElements(jobs, other);
    forall k, d: nat ensures Deep(jobs, activity, k, d) == Deep(other, activity, k, d) {
      DeepPermutation(jobs, other, activity, k, d);
    }
    FilterSame(jobs, ExactlyAt(jobs, activity, r), ExactlyAt(other, activity, r));
    FilterPermutation(jobs, other, ExactlyAt(other, activity, r));
    FilterSame(jobs, DeepAt(jobs, activity, r), DeepAt(other, activity, r));
    FilterPermutation(jobs, other, DeepAt(other, activity, r));
  }

  lemma SameElements<T>(s: seq<T>, t: seq<T>)
    requires multiset(s) == multiset(t)
    ensures forall x :: x in s <==> x in t
  {
    forall x
      ensures x in s <==> x in t
    {
      assert x in s <==> x in multiset(s);
      assert x in t <==> x in multiset(t);
    }
  }

  /** Permuting the jobs changes neither the verdict nor any level, up to the order inside it. */
  lemma LockOrderPermutation(jobs: seq<Job>, other: seq<Job>, activity: Activity)
    requires multiset(jobs) == multiset(other)
    ensures LockOrder(jobs, activity).None? == LockOrder(other, activity).None?
    ensures LockOrder(jobs, activity).Some? ==>
              var a, b := LockOrder(jobs, activity).value, LockOrder(other, activity).value;
              |a| == |b| && forall r | 0 <= r < |a| :: multiset(a[r]) == multiset(b[r])
  {
    SameElements(jobs, other);
    CyclicPermutation(jobs, other, activity);
    CyclicPermutation(other, jobs, activity);
    if !Cyclic(jobs, activity) {
      HeightPermutation(jobs, other, activity);
      LevelsBelowAt(jobs, activity, Height(jobs, activity));
      LevelsBelowAt(other, activity, Height(other, activity));
      forall r: nat
        ensures multiset(Level(jobs, activity, r)) == multiset(Level(other, activity, r))
      {
        LevelPermutation(jobs, other, activity, r);
      }
    }
  }

  lemma CyclicPermutation(jobs: seq<Job>, other: seq<Job>, activity: Activity)
    requires forall j :: j in jobs <==> j in other
    ensures Cyclic(jobs, activity) ==> Cyclic(other, activity)
  {
    if p :| Cycle(jobs, activity, p) {
      forall i | 0 < i < |p|
        ensures Edge(other, activity, p[i - 1], p[i])
      {
        EdgePermutation(jobs, other, activity, p[i - 1], p[i]);
      }
      assert Cycle(other, activity, p);
    }
  }

  lemma HeightPermutation(jobs: seq<Job>, other: seq<Job>, activity: Activity)
    requires multiset(jobs) == multiset(other)
    requires !Cyclic(jobs, activity) && !Cyclic(other, activity)
    ensures Height(jobs, activity) == Height(other, activity)
  {
    NothingBelowHeight(jobs, activity);
    forall r: nat
      ensures Remaining(jobs, activity, r) == [] <==> Remaining(other, activity, r) == []
    {
      LevelPermutation(jobs, other, activity, r);
      assert |multiset(Remaining(jobs, activity, r))| == |multiset(Remaining(other, activity, r))|;
    }
    HeightIs(other, activity, Height(jobs, activity));
  }
}
