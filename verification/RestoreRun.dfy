/** Whole restore runs (orchestrator/restorer.go): the step graph, its runs and what they do to the deployment. */
module RestoreRun {
  import opened Sequences
  import opened Jobs
  import opened Errors
  import opened BackupDirectory
  import opened Deployment
  import opened Traces
  import opened Session
  import opened Workflow

  function RestoreSteps(): set<Step> {
    {ValidateArtifact, FindDeployment, CheckRestorable, CopyToRemote, LockForRestore, RestoreJobs, UnlockAfterRestore,
     CleanUp}
  }

  function RestoreEdges(step: Step): Edges {
    match step
    case ValidateArtifact => Edges(Some(FindDeployment), None)
    case FindDeployment => Edges(Some(CheckRestorable), None)
    case CheckRestorable => Edges(Some(CopyToRemote), Some(CleanUp))
    case CopyToRemote => Edges(Some(LockForRestore), Some(CleanUp))
    case LockForRestore => Edges(Some(RestoreJobs), Some(UnlockAfterRestore))
    case RestoreJobs => Always(UnlockAfterRestore)
    case UnlockAfterRestore => Always(CleanUp)
    case _ => Edges(None, None)
  }

  function RestoreGraph(): Graph {
    PlannedGraph(RestoreSteps(), RestoreEdges)
  }

  function RestoreRank(step: Step): nat {
    match step
    case ValidateArtifact => 8
    case FindDeployment => 7
    case CheckRestorable => 6
    case CopyToRemote => 5
    case LockForRestore => 4
    case RestoreJobs => 3
    case UnlockAfterRestore => 2
    case _ => 1
  }

  lemma RestoreGraphRanked()
    ensures Ranked(RestoreGraph(), RestoreRank)
  {
    forall step | step in RestoreSteps() ensures Falls(RestoreSteps(), RestoreEdges, RestoreRank, step) {
      RestoreRankFalls(step);
    }
    PlanIsRanked(RestoreSteps(), RestoreEdges, RestoreRank);
  }

  lemma RestoreRankFalls(step: Step)
    requires step in RestoreSteps()
    ensures Falls(RestoreSteps(), RestoreEdges, RestoreRank, step)
  {
  }

  // ---------------------------------------------------------------------------------------------
  // Where a run ends

  ghost predicate RestoreEnds(w: World, step: Step, s: State, end: State, clean: bool)
    requires step in RestoreSteps()
  {
    RestoreGraphRanked();
    Ends(StepsIn(w), RestoreGraph(), RestoreRank, step, s, end, clean)
  }

  lemma Onward(w: World, step: Step, s: State, s': State, error: Outcome, next: Step, end: State, clean: bool)
    requires step in RestoreSteps() && next in RestoreSteps()
    requires RunStep(w, step, s) == Returned(s', error)
    requires (if error.None? then RestoreEdges(step).success else RestoreEdges(step).failure) == Some(next)
    requires RestoreEnds(w, next, s', end, clean)
    ensures RestoreEnds(w, step, s, end, clean && error.None?)
  {
    RestoreGraphRanked();
    EndsAfter(StepsIn(w), RestoreGraph(), RestoreRank, step, s, s', error, next, end, clean);
  }

  lemma Stop(w: World, step: Step, s: State, s': State, error: Outcome)
    requires step in RestoreSteps()
    requires RunStep(w, step, s) == Returned(s', error)
    requires (if error.None? then RestoreEdges(step).success else RestoreEdges(step).failure) == None
    ensures RestoreEnds(w, step, s, s', error.None?)
  {
    RestoreGraphRanked();
    EndsHere(StepsIn(w), RestoreGraph(), RestoreRank, step, s, s', error);
  }

  lemma FromCleanUp(w: World, s: State)
    requires s.deployment
    ensures RestoreEnds(w, CleanUp, s, RunCleanUp(w, s).state, CleansUp(w, s.marked))
  {
    Stop(w, CleanUp, s, RunCleanUp(w, s).state, RunCleanUp(w, s).error);
  }

  ghost function Unlocked(w: World, s: State): (r: StepResult)
    ensures r.Returned? && r.state == s.(trace := r.state.trace)
  {
    RunUnlock(w, s, Restoring, false)
  }

  ghost predicate CleanUnlock(w: World, s: State) {
    Unlocked(w, s).error.None? && CleansUp(w, s.marked)
  }

  lemma FromUnlock(w: World, s: State)
    requires s.deployment
    ensures RestoreEnds(w, UnlockAfterRestore, s, RunCleanUp(w, Unlocked(w, s).state).state, CleanUnlock(w, s))
  {
    var result := Unlocked(w, s);
    assert RunStep(w, UnlockAfterRestore, s) == result;
    FromCleanUp(w, result.state);
    Onward(w, UnlockAfterRestore, s, result.state, result.error, CleanUp, RunCleanUp(w, result.state).state,
           CleansUp(w, s.marked));
  }

  ghost function Restored(w: World, s: State): State {
    s.(trace := Join(s.trace, RestoreTrace(w, |w.instances|).0))
  }

  ghost predicate RestoresSucceed(w: World) {
    RestoreTrace(w, |w.instances|).1
  }

  lemma FromRestore(w: World, s: State)
    requires s.deployment
    ensures RestoreEnds(w, RestoreJobs, s, RunCleanUp(w, Unlocked(w, Restored(w, s)).state).state,
                        RestoresSucceed(w) && CleanUnlock(w, Restored(w, s)))
  {
    var result := RunStep(w, RestoreJobs, s);
    assert result == Returned(Restored(w, s), Verdict(RestoresSucceed(w), Other));
    FromUnlock(w, result.state);
    Onward(w, RestoreJobs, s, result.state, result.error, UnlockAfterRestore,
           RunCleanUp(w, Unlocked(w, result.state).state).state,
           CleanUnlock(w, result.state));
  }

  ghost function Locked(w: World, s: State): (r: StepResult)
    ensures r.Returned? && r.state == s.(trace := r.state.trace)
  {
    RunLock(w, s, Restoring, Other)
  }

  /** What the session holds when the unlock step is reached. */
  ghost function BeforeUnlock(w: World, s: State): State {
    var result := Locked(w, s);
    if result.error.None? then Restored(w, result.state) else result.state
  }

  ghost predicate CleanLock(w: World, s: State) {
    Locked(w, s).error.None? && RestoresSucceed(w) && CleanUnlock(w, BeforeUnlock(w, s))
  }

  lemma FromLock(w: World, s: State)
    requires s.deployment
    ensures RestoreEnds(w, LockForRestore, s, RunCleanUp(w, Unlocked(w, BeforeUnlock(w, s)).state).state,
                        CleanLock(w, s))
  {
    var result := Locked(w, s);
    var end := RunCleanUp(w, Unlocked(w, BeforeUnlock(w, s)).state).state;
    assert RunStep(w, LockForRestore, s) == result;
    if result.error.None? {
      FromRestore(w, result.state);
      Onward(w, LockForRestore, s, result.state, result.error, RestoreJobs, end,
             RestoresSucceed(w) && CleanUnlock(w, Restored(w, result.state)));
    } else {
      FromUnlock(w, result.state);
      Onward(w, LockForRestore, s, result.state, result.error, UnlockAfterRestore, end, CleanUnlock(w, result.state));
    }
  }

  ghost predicate UploadsSucceed(w: World) {
    AllUploaded(w, w.files, w.metadata, JobsWith(w.instances, RestoreScript))
  }

  /** The session once the backup is opened, once the deployment is found, and once everything is uploaded. */
  ghost function Opened(w: World): State {
    Initial(w).(artifact := true)
  }

  ghost function Found(w: World): State {
    Opened(w).(deployment := true)
  }

  ghost function Copied(w: World): State {
    RunCopyToRemote(w, Found(w)).state
  }

  ghost function AfterCopy(w: World): State {
    RunCleanUp(w, if UploadsSucceed(w) then Unlocked(w, BeforeUnlock(w, Copied(w))).state else Copied(w)).state
  }

  ghost predicate CleanCopy(w: World) {
    UploadsSucceed(w) && CleanLock(w, Copied(w))
  }

  lemma FromCopy(w: World)
    ensures RestoreEnds(w, CopyToRemote, Found(w), AfterCopy(w), CleanCopy(w))
  {
    var result := RunStep(w, CopyToRemote, Found(w));
    assert result == Returned(Copied(w), Verdict(UploadsSucceed(w), Other));
    if UploadsSucceed(w) {
      FromLock(w, Copied(w));
      Onward(w, CopyToRemote, Found(w), Copied(w), result.error, LockForRestore, AfterCopy(w), CleanLock(w, Copied(w)));
    } else {
      FromCleanUp(w, Copied(w));
      Onward(w, CopyToRemote, Found(w), Copied(w), result.error, CleanUp, AfterCopy(w), CleansUp(w, Copied(w).marked));
    }
  }

  /** The backup could be opened and is valid. */
  ghost predicate BackupValid(w: World) {
    w.openable && w.metadata.Some? && AllIntact(w.files, w.metadata.value)
  }

  /** The session at the end of a run. */
  ghost function RestoreEnd(w: World): State {
    if !w.openable then Initial(w)
    else if !BackupValid(w) || !w.found then Opened(w)
    else if !Restorable(w, Found(w)) then RunCleanUp(w, Found(w)).state
    else AfterCopy(w)
  }

  ghost predicate CleanRestore(w: World) {
    BackupValid(w) && w.found && Restorable(w, Found(w)) && CleanCopy(w)
  }

  lemma FromCheck(w: World)
    requires BackupValid(w) && w.found
    ensures RestoreEnds(w, CheckRestorable, Found(w), RestoreEnd(w), CleanRestore(w))
  {
    var result := RunStep(w, CheckRestorable, Found(w));
    assert result == Returned(Found(w), Verdict(Restorable(w, Found(w)), Other));
    if Restorable(w, Found(w)) {
      FromCopy(w);
      Onward(w, CheckRestorable, Found(w), Found(w), result.error, CopyToRemote, AfterCopy(w), CleanCopy(w));
    } else {
      FromCleanUp(w, Found(w));
      Onward(w, CheckRestorable, Found(w), Found(w), result.error, CleanUp, RestoreEnd(w), CleansUp(w, {}));
    }
  }

  lemma FromFind(w: World)
    requires BackupValid(w)
    ensures RestoreEnds(w, FindDeployment, Opened(w), RestoreEnd(w), CleanRestore(w))
  {
    var result := RunStep(w, FindDeployment, Opened(w));
    if w.found {
      FromCheck(w);
      Onward(w, FindDeployment, Opened(w), result.state, result.error, CheckRestorable, RestoreEnd(w), CleanRestore(w));
    } else {
      Stop(w, FindDeployment, Opened(w), result.state, result.error);
    }
  }

  /** Whatever fails, a run reads no session field that is not set and ends in RestoreEnd. */
  lemma RestoreRunEnds(w: World)
    ensures RestoreEnds(w, ValidateArtifact, Initial(w), RestoreEnd(w), CleanRestore(w))
  {
    var result := RunStep(w, ValidateArtifact, Initial(w));
    if BackupValid(w) {
      FromFind(w);
      Onward(w, ValidateArtifact, Initial(w), result.state, result.error, FindDeployment, RestoreEnd(w),
             CleanRestore(w));
    } else {
      Stop(w, ValidateArtifact, Initial(w), result.state, result.error);
    }
  }

  // ---------------------------------------------------------------------------------------------
  // The restorer

  function RestoreNodes(): seq<Step> {
    [ValidateArtifact, FindDeployment, CheckRestorable, CopyToRemote, LockForRestore, RestoreJobs, UnlockAfterRestore,
     CleanUp]
  }

  lemma RestoreNodesAre()
    ensures NoDuplicates(RestoreNodes()) && Elements(RestoreNodes()) == RestoreSteps()
  {
  }

  /** NewRestorer */
  method NewRestorer() returns (workflow: WorkflowObject)
    ensures fresh(workflow) && workflow.Starts(ValidateArtifact) && workflow.Graph() == RestoreGraph()
  {
    RestoreNodesAre();
    workflow := new WorkflowObject();
    workflow.Build(RestoreNodes(), RestoreEdges);
  }

  /** The visits are those of a restore run in the given world. */
  ghost predicate IsRestoreRun(w: World, visits: seq<Visit>) {
    RestoreGraphRanked();
    RunFrom(StepsIn(w), RestoreGraph(), RestoreRank, ValidateArtifact, Initial(w)) == Some(visits)
  }

  /** Every restore run follows the graph, visits no step twice, ends in RestoreEnd, and returns no error exactly when
      nothing failed. */
  lemma RestoreRunFacts(w: World, visits: seq<Visit>)
    requires IsRestoreRun(w, visits)
    ensures Linked(StepsIn(w), RestoreGraph(), visits)
    ensures forall m, n | 0 <= m < n < |visits| :: visits[m].step != visits[n].step
    ensures visits[0].step == ValidateArtifact && visits[0].before == Initial(w)
    ensures visits[|visits| - 1].after == RestoreEnd(w)
    ensures ErrorsOf(visits) == [] <==> CleanRestore(w)
  {
    RestoreGraphRanked();
    RestoreRunEnds(w);
    RunIsLinked(StepsIn(w), RestoreGraph(), RestoreRank, ValidateArtifact, Initial(w));
    VisitsOnce(StepsIn(w), RestoreGraph(), RestoreRank, ValidateArtifact, Initial(w));
  }

  lemma RestoreRunExists(w: World) returns (visits: seq<Visit>)
    ensures IsRestoreRun(w, visits)
  {
    RestoreGraphRanked();
    RestoreRunEnds(w);
    visits := RunFrom(StepsIn(w), RestoreGraph(), RestoreRank, ValidateArtifact, Initial(w)).value;
  }

  /** Restore: whatever fails, the run comes to its end and returns the errors of the steps that failed, in order. */
  method Restore(w: World) returns (errors: seq<Error>, end: State, ghost visits: seq<Visit>)
    requires Possible(w)
    ensures IsRestoreRun(w, visits) && errors == ErrorsOf(visits)
    ensures end == RestoreEnd(w)
    ensures errors == [] <==> CleanRestore(w)
  {
    var workflow := NewRestorer();
    RestoreGraphRanked();
    visits := RestoreRunExists(w);
    RestoreRunFacts(w, visits);
    errors, end := RunInNewSession(w, workflow, ValidateArtifact, RestoreGraph(), RestoreRank, visits);
  }
}
