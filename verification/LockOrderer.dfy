/** Kahn's algorithm as the program runs it (orderer/kahn_lock_orderer.go), proved against LockGraph. */
module LockOrderer {
  import opened Sequences
  import opened Jobs
  import opened LockGraph
  import opened Constraints

  datatype LockingDependency = LockingDependency(before: Job, after: Job)

  function MatchesSpecifier(specifier: JobSpecifier): Job -> bool {
    j => Matches(j, specifier)
  }

  method FindJobsBySpecifier(jobs: seq<Job>, specifier: JobSpecifier) returns (found: seq<Job>)
    ensures found == Filter(jobs, MatchesSpecifier(specifier))
  {
    found := [];
    for i := 0 to |jobs|
      invariant found == Filter(jobs[..i], MatchesSpecifier(specifier))
    {
      FilterStep(jobs, i, MatchesSpecifier(specifier));
      if jobs[i].name == specifier.name && jobs[i].release == specifier.release {
        found := found + [jobs[i]];
      }
    }
    assert jobs[..|jobs|] == jobs;
  }

  /** d is a constraint of one of the first i jobs, or of job i through one of its first s specifiers. */
  ghost predicate FoundSoFar(jobs: seq<Job>, activity: Activity, d: LockingDependency, i: nat, s: nat)
    requires i <= |jobs|
  {
    && d.after in jobs
    && (|| (d.before in jobs[..i] && MustLockBefore(activity, d.before, d.after))
        || (i < |jobs| && d.before == jobs[i] && s <= |Before(activity, jobs[i])| &&
            exists t | t in Before(activity, jobs[i])[..s] :: Matches(d.after, t)))
  }

  lemma NextJob(jobs: seq<Job>, activity: Activity, d: LockingDependency, i: nat)
    requires i < |jobs|
    ensures FoundSoFar(jobs, activity, d, i, |Before(activity, jobs[i])|) == FoundSoFar(jobs, activity, d, i + 1, 0)
  {
    var specifiers := Before(activity, jobs[i]);
    assert specifiers[..|specifiers|] == specifiers;
    assert jobs[..i + 1] == jobs[..i] + [jobs[i]];
  }

  lemma NextSpecifier(jobs: seq<Job>, activity: Activity, d: LockingDependency, i: nat, s: nat)
    requires i < |jobs| && s < |Before(activity, jobs[i])|
    ensures FoundSoFar(jobs, activity, d, i, s + 1) <==>
            FoundSoFar(jobs, activity, d, i, s) ||
            (d.before == jobs[i] && d.after in jobs && Matches(d.after, Before(activity, jobs[i])[s]))
  {
    var specifiers := Before(activity, jobs[i]);
    assert specifiers[..s + 1] == specifiers[..s] + [specifiers[s]];
  }

  method FindLockingDependencies(jobs: seq<Job>, activity: Activity) returns (dependencies: seq<LockingDependency>)
    ensures forall d :: d in dependencies <==>
              d.before in jobs && d.after in jobs && MustLockBefore(activity, d.before, d.after)
    ensures forall d :: d in dependencies <==>
              d.before in jobs && d.after in jobs && Declares(activity, d.before, d.after)
  {
    dependencies := [];
    for i := 0 to |jobs|
      invariant forall d :: d in dependencies <==> FoundSoFar(jobs, activity, d, i, 0)
    {
      var specifiers := Before(activity, jobs[i]);
      for s := 0 to |specifiers|
        invariant forall d :: d in dependencies <==> FoundSoFar(jobs, activity, d, i, s)
      {
        var after := FindJobsBySpecifier(jobs, specifiers[s]);
        FilterMember(jobs, MatchesSpecifier(specifiers[s]));
        ghost var earlier := dependencies;
        for k := 0 to |after|
          invariant forall d :: d in dependencies <==>
                      d in earlier || (d.before == jobs[i] && d.after in after[..k])
        {
          dependencies := dependencies + [LockingDependency(jobs[i], after[k])];
          assert after[..k + 1] == after[..k] + [after[k]];
        }
        assert after[..|after|] == after;
        forall d ensures d in dependencies <==> FoundSoFar(jobs, activity, d, i, s + 1) {
          NextSpecifier(jobs, activity, d, i, s);
        }
      }
      forall d ensures FoundSoFar(jobs, activity, d, i, |specifiers|) == FoundSoFar(jobs, activity, d, i + 1, 0) {
        NextJob(jobs, activity, d, i);
      }
    }
    assert jobs[..|jobs|] == jobs;
    forall d: LockingDependency
      ensures MustLockBefore(activity, d.before, d.after) <==> Declares(activity, d.before, d.after)
    {
      Constraint(activity, d.before, d.after);
    }
  }

  function Unblocked(dependencies: seq<LockingDependency>): Job -> bool {
    j => forall d | d in dependencies :: !SameJob(d.after, j)
  }

  method JobsThatCanBeLocked(jobs: seq<Job>, dependencies: seq<LockingDependency>) returns (unblocked: seq<Job>)
    ensures unblocked == Filter(jobs, Unblocked(dependencies))
  {
    unblocked := [];
    for i := 0 to |jobs|
      invariant unblocked == Filter(jobs[..i], Unblocked(dependencies))
    {
      var dependencyFound := false;
      for k := 0 to |dependencies|
        invariant dependencyFound <==> exists n | 0 <= n < k :: SameJob(dependencies[n].after, jobs[i])
      {
        if SameJob(dependencies[k].after, jobs[i]) {
          dependencyFound := true;
        }
      }
      FilterStep(jobs, i, Unblocked(dependencies));
      if !dependencyFound {
        unblocked := unblocked + [jobs[i]];
      }
    }
    assert jobs[..|jobs|] == jobs;
  }

  function NotAmong(removed: seq<Job>): Job -> bool {
    j => forall r | r in removed :: !SameJob(r, j)
  }

  method RemoveJobs(jobs: seq<Job>, jobsToRemove: seq<Job>) returns (kept: seq<Job>)
    ensures kept == Filter(jobs, NotAmong(jobsToRemove))
  {
    kept := [];
    for i := 0 to |jobs|
      invariant kept == Filter(jobs[..i], NotAmong(jobsToRemove))
    {
      var removeJob := false;
      for k := 0 to |jobsToRemove|
        invariant removeJob <==> exists n | 0 <= n < k :: SameJob(jobsToRemove[n], jobs[i])
      {
        if SameJob(jobsToRemove[k], jobs[i]) {
          removeJob := true;
        }
      }
      FilterStep(jobs, i, NotAmong(jobsToRemove));
      if !removeJob {
        kept := kept + [jobs[i]];
      }
    }
    assert jobs[..|jobs|] == jobs;
  }

  function BeforeNotAmong(removed: seq<Job>): LockingDependency -> bool {
    (d: LockingDependency) => forall r | r in removed :: !SameJob(d.before, r)
  }

  method RemoveDependenciesThatHaveAnyOneJobInBefore(dependencies: seq<LockingDependency>, jobs: seq<Job>)
    returns (kept: seq<LockingDependency>)
    ensures kept == Filter(dependencies, BeforeNotAmong(jobs))
  {
    kept := [];
    for i := 0 to |dependencies|
      invariant kept == Filter(dependencies[..i], BeforeNotAmong(jobs))
    {
      var removeDependency := false;
      for k := 0 to |jobs|
        invariant removeDependency <==> exists n | 0 <= n < k :: SameJob(dependencies[i].before, jobs[n])
      {
        if SameJob(dependencies[i].before, jobs[k]) {
          removeDependency := true;
        }
      }
      FilterStep(dependencies, i, BeforeNotAmong(jobs));
      if !removeDependency {
        kept := kept + [dependencies[i]];
      }
    }
    assert dependencies[..|dependencies|] == dependencies;
  }

  /** The dependencies left after r rounds are those whose source is at depth r or more. */
  ghost predicate DependenciesAt(jobs: seq<Job>, activity: Activity, dependencies: seq<LockingDependency>, r: nat) {
    forall d :: d in dependencies <==>
      d.before in jobs && d.after in jobs && MustLockBefore(activity, d.before, d.after) &&
      Deep(jobs, activity, Key(d.before), r)
  }

  lemma BlockedIsDeeper(jobs: seq<Job>, activity: Activity, dependencies: seq<LockingDependency>, r: nat, j: Job)
    requires DependenciesAt(jobs, activity, dependencies, r) && j in jobs
    ensures Unblocked(dependencies)(j) <==> !Deep(jobs, activity, Key(j), r + 1)
  {
    if Deep(jobs, activity, Key(j), r + 1) {
      var l :| Edge(jobs, activity, l, Key(j)) && Deep(jobs, activity, l, r);
      var a, b :| a in jobs && b in jobs && Key(a) == l && Key(b) == Key(j) && MustLockBefore(activity, a, b);
      assert LockingDependency(a, b) in dependencies;
      assert SameJob(LockingDependency(a, b).after, j);
    } else if !Unblocked(dependencies)(j) {
      var d :| d in dependencies && SameJob(d.after, j);
      assert Edge(jobs, activity, Key(d.before), Key(j));
      DeepEdge(jobs, activity, Key(d.before), Key(j), r);
    }
  }

  lemma AmongLevel(jobs: seq<Job>, activity: Activity, r: nat, j: Job)
    requires j in jobs && Deep(jobs, activity, Key(j), r)
    ensures (exists x | x in Level(jobs, activity, r) :: SameJob(x, j)) <==> !Deep(jobs, activity, Key(j), r + 1)
  {
    LevelMember(jobs, activity, r);
    if !Deep(jobs, activity, Key(j), r + 1) {
      assert j in Level(jobs, activity, r) && SameJob(j, j);
    }
  }

  /** What one round locks and what it leaves. */
  lemma Round(jobs: seq<Job>, activity: Activity, dependencies: seq<LockingDependency>, r: nat)
    requires DependenciesAt(jobs, activity, dependencies, r)
    ensures Filter(Remaining(jobs, activity, r), Unblocked(dependencies)) == Level(jobs, activity, r)
    ensures Filter(Remaining(jobs, activity, r), NotAmong(Level(jobs, activity, r))) == Remaining(jobs, activity, r + 1)
  {
    forall j | j in jobs
      ensures ExactlyAt(jobs, activity, r)(j) == (DeepAt(jobs, activity, r)(j) && Unblocked(dependencies)(j))
    {
      BlockedIsDeeper(jobs, activity, dependencies, r, j);
    }
    FilterTwice(jobs, DeepAt(jobs, activity, r), Unblocked(dependencies), ExactlyAt(jobs, activity, r));
    forall j | j in jobs
      ensures DeepAt(jobs, activity, r + 1)(j) ==
              (DeepAt(jobs, activity, r)(j) && NotAmong(Level(jobs, activity, r))(j))
    {
      if Deep(jobs, activity, Key(j), r) {
        AmongLevel(jobs, activity, r, j);
      } else if Deep(jobs, activity, Key(j), r + 1) {
        DeepDown(jobs, activity, Key(j), r);
      }
    }
    FilterTwice(jobs, DeepAt(jobs, activity, r), NotAmong(Level(jobs, activity, r)), DeepAt(jobs, activity, r + 1));
  }

  lemma RoundDependencies(jobs: seq<Job>, activity: Activity, dependencies: seq<LockingDependency>, r: nat)
    requires DependenciesAt(jobs, activity, dependencies, r)
    ensures DependenciesAt(jobs, activity, Filter(dependencies, BeforeNotAmong(Level(jobs, activity, r))), r + 1)
  {
    var level := Level(jobs, activity, r);
    FilterMember(dependencies, BeforeNotAmong(level));
    forall d: LockingDependency | d.before in jobs
      ensures Deep(jobs, activity, Key(d.before), r + 1) <==>
              Deep(jobs, activity, Key(d.before), r) && BeforeNotAmong(level)(d)
    {
      if Deep(jobs, activity, Key(d.before), r) {
        AmongLevel(jobs, activity, r, d.before);
      } else if Deep(jobs, activity, Key(d.before), r + 1) {
        DeepDown(jobs, activity, Key(d.before), r);
      }
    }
  }

  /** The state of the loop after r rounds: what is held is what lies at depth r or more. */
  ghost predicate AfterRounds(allJobs: seq<Job>, activity: Activity, r: nat,
                              jobs: seq<Job>, dependencies: seq<LockingDependency>, levels: seq<seq<Job>>) {
    && jobs == Remaining(allJobs, activity, r)
    && DependenciesAt(allJobs, activity, dependencies, r)
    && levels == LevelsBelow(allJobs, activity, r)
    && forall b | 0 <= b < r :: Remaining(allJobs, activity, b) != []
  }

  lemma BeforeFirstRound(jobs: seq<Job>, activity: Activity, dependencies: seq<LockingDependency>)
    requires forall d :: d in dependencies <==>
               d.before in jobs && d.after in jobs && MustLockBefore(activity, d.before, d.after)
    ensures AfterRounds(jobs, activity, 0, jobs, dependencies, [])
  {
    AllRemainAtFirst(jobs, activity);
    forall d: LockingDependency | d.before in jobs ensures Deep(jobs, activity, Key(d.before), 0) {
      assert IsKey(jobs, Key(d.before));
    }
  }

  lemma AfterNextRound(allJobs: seq<Job>, activity: Activity, r: nat,
                       jobs: seq<Job>, dependencies: seq<LockingDependency>, levels: seq<seq<Job>>)
    requires AfterRounds(allJobs, activity, r, jobs, dependencies, levels) && jobs != []
    ensures var locked := Filter(jobs, Unblocked(dependencies));
            var left := Filter(jobs, NotAmong(locked));
            && (locked == [] ==> Cyclic(allJobs, activity))
            && |left| + |locked| == |jobs|
            && AfterRounds(allJobs, activity, r + 1, left,
                           Filter(dependencies, BeforeNotAmong(locked)), levels + [locked])
  {
    Round(allJobs, activity, dependencies, r);
    RoundDependencies(allJobs, activity, dependencies, r);
    RemainingSize(allJobs, activity, r);
    if Level(allJobs, activity, r) == [] {
      StuckIsCyclic(allJobs, activity, r);
    }
  }

  lemma RemainingSize(jobs: seq<Job>, activity: Activity, r: nat)
    ensures |Remaining(jobs, activity, r)| == |Level(jobs, activity, r)| + |Remaining(jobs, activity, r + 1)|
  {
    RemainingSplit(jobs, activity, r);
    assert |multiset(Remaining(jobs, activity, r))| ==
           |multiset(Level(jobs, activity, r))| + |multiset(Remaining(jobs, activity, r + 1))|;
  }

  lemma AfterLastRound(allJobs: seq<Job>, activity: Activity, r: nat,
                       dependencies: seq<LockingDependency>, levels: seq<seq<Job>>)
    requires AfterRounds(allJobs, activity, r, [], dependencies, levels)
    ensures LockOrder(allJobs, activity) == Some(levels)
  {
    EmptyIsAcyclic(allJobs, activity, r);
    HeightIs(allJobs, activity, r);
  }

  method OrderJobs(allJobs: seq<Job>, activity: Activity, allDependencies: seq<LockingDependency>)
    returns (ordered: Option<seq<seq<Job>>>)
    requires forall d :: d in allDependencies <==>
               d.before in allJobs && d.after in allJobs && MustLockBefore(activity, d.before, d.after)
    ensures ordered == LockOrder(allJobs, activity)
  {
    var jobs, dependencies, levels := allJobs, allDependencies, [];
    ghost var r := 0;
    BeforeFirstRound(jobs, activity, dependencies);
    while |jobs| != 0
      invariant AfterRounds(allJobs, activity, r, jobs, dependencies, levels)
      decreases |jobs|
    {
      AfterNextRound(allJobs, activity, r, jobs, dependencies, levels);
      var jobsToLock := JobsThatCanBeLocked(jobs, dependencies);
      jobs := RemoveJobs(jobs, jobsToLock);
      dependencies := RemoveDependenciesThatHaveAnyOneJobInBefore(dependencies, jobsToLock);
      if |jobsToLock| == 0 {
        return None;
      }
      levels := levels + [jobsToLock];
      r := r + 1;
    }
    AfterLastRound(allJobs, activity, r, dependencies, levels);
    return Some(levels);
  }

  /** A cycle would leave its jobs in every round. */
  lemma EmptyIsAcyclic(jobs: seq<Job>, activity: Activity, r: nat)
    requires Remaining(jobs, activity, r) == []
    ensures !Cyclic(jobs, activity)
  {
    if p :| Cycle(jobs, activity, p) {
      CycleIsDeep(jobs, activity, p, 0, r);
      RemainingMember(jobs, activity, r);
    }
  }

  /** The ordering of orderer/kahn_lock_orderer.go; None is the "graph is cyclic" error. */
  method Order(jobs: seq<Job>, activity: Activity) returns (ordered: Option<seq<seq<Job>>>)
    ensures ordered == LockOrder(jobs, activity)
    ensures ordered.None? <==> Cyclic(jobs, activity)
    ensures ordered.Some? ==> ValidLayering(jobs, activity, ordered.value) && |ordered.value| <= |jobs|
    ensures ordered.Some? ==> DeclaredApart(activity, ordered.value)
  {
    var dependencies := FindLockingDependencies(jobs, activity);
    ordered := OrderJobs(jobs, activity, dependencies);
    if ordered.Some? {
      LockOrderIsValid(jobs, activity, ordered.value);
      LevelsApart(jobs, activity, ordered.value);
    }
  }
}
