/** Whole backup runs (orchestrator/backuper.go): the step graph, its runs and what they do to the deployment. */
module BackupRun {
  import opened Sequences
  import opened Jobs
  import opened LockGraph
  import opened Errors
  import opened Transfers
  import opened Deployment
  import opened Traces
  import opened Session
  import opened Workflow

  /** Without locking, a step that only logs takes the place of each lock and unlock step. */
  function Unless(lockFree: bool, step: Step): Step {
    if lockFree then Skip(step) else step
  }

  function BackupSteps(lockFree: bool): set<Step> {
    {FindDeployment, CheckBackupable, CreateArtifact, BackUpJobs, DrainArtifacts, CleanUp, AddFinishTime,
     Unless(lockFree, LockForBackup), Unless(lockFree, UnlockAfterBackup(true)),
     Unless(lockFree, UnlockAfterBackup(false))}
  }

  function BackupEdges(lockFree: bool, step: Step): Edges {
    var unlock := ok => Some(Unless(lockFree, UnlockAfterBackup(ok)));
    match if step.Skip? then step.skipped else step
    case FindDeployment => Edges(Some(CheckBackupable), None)
    case CheckBackupable => Edges(Some(CreateArtifact), Some(CleanUp))
    case CreateArtifact => Edges(Some(Unless(lockFree, LockForBackup)), Some(CleanUp))
    case LockForBackup => Edges(Some(BackUpJobs), unlock(false))
    case BackUpJobs => Edges(unlock(true), unlock(false))
    case UnlockAfterBackup(ok) => Always(if ok then DrainArtifacts else CleanUp)
    case DrainArtifacts => Always(CleanUp)
    case CleanUp => Always(AddFinishTime)
    case _ => Edges(None, None)
  }

  function BackupPlan(lockFree: bool): Step -> Edges {
    step => BackupEdges(lockFree, step)
  }

  function BackupGraph(lockFree: bool): Graph {
    PlannedGraph(BackupSteps(lockFree), BackupPlan(lockFree))
  }

  function BackupRank(step: Step): nat {
    match if step.Skip? then step.skipped else step
    case FindDeployment => 9
    case CheckBackupable => 8
    case CreateArtifact => 7
    case LockForBackup => 6
    case BackUpJobs => 5
    case UnlockAfterBackup(_) => 4
    case DrainArtifacts => 3
    case CleanUp => 2
    case _ => 1
  }

  lemma BackupGraphRanked(lockFree: bool)
    ensures Ranked(BackupGraph(lockFree), BackupRank)
  {
    forall step | step in BackupSteps(lockFree)
      ensures Falls(BackupSteps(lockFree), BackupPlan(lockFree), BackupRank, step)
    {
      BackupRankFalls(lockFree, step);
    }
    PlanIsRanked(BackupSteps(lockFree), BackupPlan(lockFree), BackupRank);
  }

  lemma BackupRankFalls(lockFree: bool, step: Step)
    requires step in BackupSteps(lockFree)
    ensures Falls(BackupSteps(lockFree), BackupPlan(lockFree), BackupRank, step)
  {
  }

  // ---------------------------------------------------------------------------------------------
  // Where a run ends

  /** All checks before the lock step pass. */
  ghost predicate Ready(w: World) {
    && w.found
    && AnyWith(w.instances, BackupScript)
    && !DirProblem(w, w.dirs)
    && !Cyclic(AllJobs(w.instances), Backing)
    && w.directoryCreated && w.manifestSaved
  }

  ghost predicate LocksSucceed(w: World, lockFree: bool) {
    lockFree || AllCallsSucceed(w, Lock(Backing), AllJobs(w.instances))
  }

  ghost predicate BackupsSucceed(w: World) {
    AllCallsSucceed(w, BackUp, Flatten(BackupBatches(w)))
  }

  /** What the flag of the unlock step says. */
  ghost predicate Successful(w: World, lockFree: bool) {
    LocksSucceed(w, lockFree) && BackupsSucceed(w)
  }

  ghost predicate BackupEnds(w: World, lockFree: bool, step: Step, s: State, end: State, clean: bool)
    requires step in BackupSteps(lockFree)
  {
    BackupGraphRanked(lockFree);
    Ends(StepsIn(w), BackupGraph(lockFree), BackupRank, step, s, end, clean)
  }

  lemma Onward(w: World, lockFree: bool, step: Step, s: State, s': State, error: Outcome, next: Step, end: State,
               clean: bool)
    requires step in BackupSteps(lockFree) && next in BackupSteps(lockFree)
    requires RunStep(w, step, s) == Returned(s', error)
    requires (if error.None? then BackupEdges(lockFree, step).success else BackupEdges(lockFree, step).failure) ==
             Some(next)
    requires BackupEnds(w, lockFree, next, s', end, clean)
    ensures BackupEnds(w, lockFree, step, s, end, clean && error.None?)
  {
    BackupGraphRanked(lockFree);
    EndsAfter(StepsIn(w), BackupGraph(lockFree), BackupRank, step, s, s', error, next, end, clean);
  }

  lemma Stop(w: World, lockFree: bool, step: Step, s: State, s': State, error: Outcome)
    requires step in BackupSteps(lockFree)
    requires RunStep(w, step, s) == Returned(s', error)
    requires (if error.None? then BackupEdges(lockFree, step).success else BackupEdges(lockFree, step).failure) == None
    ensures BackupEnds(w, lockFree, step, s, s', error.None?)
  {
    BackupGraphRanked(lockFree);
    EndsHere(StepsIn(w), BackupGraph(lockFree), BackupRank, step, s, s', error);
  }

  ghost function AfterCleanUp(w: World, s: State): State {
    RunAddFinishTime(w, RunCleanUp(w, s).state).state
  }

  ghost predicate CleanCleanUp(w: World, s: State) {
    CleansUp(w, s.marked) && (s.artifact ==> s.metadata.Some?)
  }

  lemma FromCleanUp(w: World, lockFree: bool, s: State)
    requires s.deployment
    ensures BackupEnds(w, lockFree, CleanUp, s, AfterCleanUp(w, s), CleanCleanUp(w, s))
  {
    var cleaned := RunCleanUp(w, s).state;
    var ended := RunAddFinishTime(w, cleaned);
    Stop(w, lockFree, AddFinishTime, cleaned, ended.state, ended.error);
    Onward(w, lockFree, CleanUp, s, cleaned, RunCleanUp(w, s).error, AddFinishTime, ended.state, ended.error.None?);
  }

  lemma DrainStepResult(w: World, s: State)
    requires s.deployment && s.artifact
    ensures RunStep(w, DrainArtifacts, s) == RunDrain(w, s)
    ensures RunDrain(w, s).error.None? <==> AllDone(Drained(w, s.metadata))
  {
  }

  ghost function AfterDrain(w: World, s: State): State {
    AfterCleanUp(w, RunDrain(w, s).state)
  }

  ghost predicate CleanDrain(w: World, s: State) {
    AllDone(Drained(w, s.metadata)) && CleanCleanUp(w, RunDrain(w, s).state)
  }

  lemma FromDrain(w: World, lockFree: bool, s: State)
    requires s.deployment && s.artifact
    ensures BackupEnds(w, lockFree, DrainArtifacts, s, AfterDrain(w, s), CleanDrain(w, s))
  {
    var result := RunDrain(w, s);
    DrainStepResult(w, s);
    FromCleanUp(w, lockFree, result.state);
    Onward(w, lockFree, DrainArtifacts, s, result.state, result.error, CleanUp, AfterCleanUp(w, result.state),
           CleanCleanUp(w, result.state));
  }

  ghost function UnlockResult(w: World, lockFree: bool, ok: bool, s: State): (r: StepResult)
    ensures r.Returned? && r.state == s.(trace := r.state.trace)
  {
    if lockFree then Returned(s, None) else RunUnlock(w, s, Backing, ok)
  }

  ghost function AfterUnlock(w: World, lockFree: bool, ok: bool, s: State): State {
    var unlocked := UnlockResult(w, lockFree, ok, s).state;
    if ok then AfterDrain(w, unlocked) else AfterCleanUp(w, unlocked)
  }

  ghost predicate CleanUnlock(w: World, lockFree: bool, ok: bool, s: State) {
    var result := UnlockResult(w, lockFree, ok, s);
    result.error.None? && if ok then CleanDrain(w, result.state) else CleanCleanUp(w, result.state)
  }

  lemma UnlockEdges(lockFree: bool, ok: bool)
    ensures BackupEdges(lockFree, Unless(lockFree, UnlockAfterBackup(ok))) ==
            Always(if ok then DrainArtifacts else CleanUp)
  {
  }

  lemma FromUnlock(w: World, lockFree: bool, ok: bool, s: State)
    requires s.deployment && s.artifact
    ensures BackupEnds(w, lockFree, Unless(lockFree, UnlockAfterBackup(ok)), s, AfterUnlock(w, lockFree, ok, s),
                       CleanUnlock(w, lockFree, ok, s))
  {
    var result := UnlockResult(w, lockFree, ok, s);
    UnlockStepResult(w, lockFree, ok, s);
    UnlockEdges(lockFree, ok);
    if ok {
      FromDrain(w, lockFree, result.state);
      AfterUnlockEnds(w, lockFree, ok, s, DrainArtifacts, AfterDrain(w, result.state), CleanDrain(w, result.state));
    } else {
      FromCleanUp(w, lockFree, result.state);
      AfterUnlockEnds(w, lockFree, ok, s, CleanUp, AfterCleanUp(w, result.state), CleanCleanUp(w, result.state));
    }
  }

  /** Whatever the next step leads to. */
  lemma AfterUnlockEnds(w: World, lockFree: bool, ok: bool, s: State, next: Step, end: State, clean: bool)
    requires next in BackupSteps(lockFree)
    requires BackupEdges(lockFree, Unless(lockFree, UnlockAfterBackup(ok))) == Always(next)
    requires RunStep(w, Unless(lockFree, UnlockAfterBackup(ok)), s) == UnlockResult(w, lockFree, ok, s)
    requires BackupEnds(w, lockFree, next, UnlockResult(w, lockFree, ok, s).state, end, clean)
    ensures BackupEnds(w, lockFree, Unless(lockFree, UnlockAfterBackup(ok)), s, end,
                       clean && UnlockResult(w, lockFree, ok, s).error.None?)
  {
    var result := UnlockResult(w, lockFree, ok, s);
    Onward(w, lockFree, Unless(lockFree, UnlockAfterBackup(ok)), s, result.state, result.error, next, end, clean);
  }

  lemma UnlockStepResult(w: World, lockFree: bool, ok: bool, s: State)
    requires s.deployment
    ensures RunStep(w, Unless(lockFree, UnlockAfterBackup(ok)), s) == UnlockResult(w, lockFree, ok, s)
  {
  }

  ghost function AfterBackUp(w: World, lockFree: bool, s: State): State {
    AfterUnlock(w, lockFree, BackupsSucceed(w), RunBackup(w, s).state)
  }

  lemma FromBackUp(w: World, lockFree: bool, s: State)
    requires s.deployment && s.artifact
    ensures BackupEnds(w, lockFree, BackUpJobs, s, AfterBackUp(w, lockFree, s),
                       BackupsSucceed(w) && CleanUnlock(w, lockFree, true, RunBackup(w, s).state))
  {
    var result, ok := RunBackup(w, s), BackupsSucceed(w);
    FromUnlock(w, lockFree, ok, result.state);
    assert RunStep(w, BackUpJobs, s) == result;
    Onward(w, lockFree, BackUpJobs, s, result.state, result.error, Unless(lockFree, UnlockAfterBackup(ok)),
           AfterBackUp(w, lockFree, s), CleanUnlock(w, lockFree, ok, result.state));
  }

  ghost function LockResult(w: World, lockFree: bool, s: State): (r: StepResult)
    ensures r.Returned? && r.state == s.(trace := r.state.trace)
  {
    if lockFree then Returned(s, None) else RunLock(w, s, Backing, LockError)
  }

  ghost function AfterLock(w: World, lockFree: bool, s: State): State {
    var result := LockResult(w, lockFree, s);
    if result.error.None? then AfterBackUp(w, lockFree, result.state)
    else AfterUnlock(w, lockFree, false, result.state)
  }

  ghost predicate CleanLock(w: World, lockFree: bool, s: State) {
    var result := LockResult(w, lockFree, s);
    result.error.None? && BackupsSucceed(w) && CleanUnlock(w, lockFree, true, RunBackup(w, result.state).state)
  }

  lemma FromLock(w: World, lockFree: bool, s: State)
    requires s.deployment && s.artifact
    ensures BackupEnds(w, lockFree, Unless(lockFree, LockForBackup), s, AfterLock(w, lockFree, s),
                       CleanLock(w, lockFree, s))
  {
    var result := LockResult(w, lockFree, s);
    var step := Unless(lockFree, LockForBackup);
    assert RunStep(w, step, s) == result;
    if result.error.None? {
      FromBackUp(w, lockFree, result.state);
      Onward(w, lockFree, step, s, result.state, result.error, BackUpJobs, AfterLock(w, lockFree, s),
             BackupsSucceed(w) && CleanUnlock(w, lockFree, true, RunBackup(w, result.state).state));
    } else {
      FromUnlock(w, lockFree, false, result.state);
      Onward(w, lockFree, step, s, result.state, result.error, Unless(lockFree, UnlockAfterBackup(false)),
             AfterLock(w, lockFree, s), CleanUnlock(w, lockFree, false, result.state));
    }
  }

  /** The session once the deployment is found, and once the local directory is created. */
  ghost function Found(w: World): State {
    Initial(w).(deployment := true)
  }

  ghost function Created(w: World): State {
    Found(w).(artifact := true, files := map[], metadata := FirstMetadata(w))
  }

  ghost function AfterCreate(w: World, lockFree: bool): State {
    if !w.directoryCreated then AfterCleanUp(w, Found(w))
    else if !w.manifestSaved then AfterCleanUp(w, Created(w))
    else AfterLock(w, lockFree, Created(w))
  }

  ghost predicate CleanCreate(w: World, lockFree: bool) {
    w.directoryCreated && w.manifestSaved && CleanLock(w, lockFree, Created(w))
  }

  lemma FromCreate(w: World, lockFree: bool)
    ensures BackupEnds(w, lockFree, CreateArtifact, Found(w), AfterCreate(w, lockFree), CleanCreate(w, lockFree))
  {
    var result := RunStep(w, CreateArtifact, Found(w));
    if w.directoryCreated && w.manifestSaved {
      FromLock(w, lockFree, Created(w));
      Onward(w, lockFree, CreateArtifact, Found(w), result.state, result.error, Unless(lockFree, LockForBackup),
             AfterCreate(w, lockFree), CleanLock(w, lockFree, Created(w)));
    } else {
      FromCleanUp(w, lockFree, result.state);
      Onward(w, lockFree, CreateArtifact, Found(w), result.state, result.error, CleanUp, AfterCreate(w, lockFree),
             CleanCleanUp(w, result.state));
    }
  }

  /** The session at the end of a run. */
  ghost function BackupEnd(w: World, lockFree: bool): State {
    if !w.found then Initial(w)
    else if BackupableVerdict(w, Found(w)).Some? then AfterCleanUp(w, Found(w))
    else AfterCreate(w, lockFree)
  }

  ghost predicate CleanBackup(w: World, lockFree: bool) {
    w.found && BackupableVerdict(w, Found(w)).None? && CleanCreate(w, lockFree)
  }

  /** Whatever fails, a run reads no session field that is not set and ends in BackupEnd. */
  lemma BackupRunEnds(w: World, lockFree: bool)
    ensures BackupEnds(w, lockFree, FindDeployment, Initial(w), BackupEnd(w, lockFree), CleanBackup(w, lockFree))
  {
    var result := RunStep(w, FindDeployment, Initial(w));
    if w.found {
      FromCheck(w, lockFree);
      Onward(w, lockFree, FindDeployment, Initial(w), result.state, result.error, CheckBackupable,
             BackupEnd(w, lockFree), CleanBackup(w, lockFree));
    } else {
      Stop(w, lockFree, FindDeployment, Initial(w), result.state, result.error);
    }
  }

  lemma FromCheck(w: World, lockFree: bool)
    requires w.found
    ensures BackupEnds(w, lockFree, CheckBackupable, Found(w), BackupEnd(w, lockFree), CleanBackup(w, lockFree))
  {
    var result := RunStep(w, CheckBackupable, Found(w));
    if result.error.None? {
      FromCreate(w, lockFree);
      Onward(w, lockFree, CheckBackupable, Found(w), result.state, result.error, CreateArtifact, BackupEnd(w, lockFree),
             CleanCreate(w, lockFree));
    } else {
      FromCleanUp(w, lockFree, Found(w));
      Onward(w, lockFree, CheckBackupable, Found(w), result.state, result.error, CleanUp, BackupEnd(w, lockFree),
             CleanCleanUp(w, Found(w)));
    }
  }

  // ---------------------------------------------------------------------------------------------
  // The backuper

  /** The nodes in the order in which NewBackuper adds them. */
  function BackupNodes(lockFree: bool): seq<Step> {
    [FindDeployment, CheckBackupable, CreateArtifact, Unless(lockFree, LockForBackup), BackUpJobs,
     Unless(lockFree, UnlockAfterBackup(true)), Unless(lockFree, UnlockAfterBackup(false)), DrainArtifacts, CleanUp,
     AddFinishTime]
  }

  lemma BackupNodesAre(lockFree: bool)
    ensures NoDuplicates(BackupNodes(lockFree))
    ensures Elements(BackupNodes(lockFree)) == BackupSteps(lockFree)
  {
  }

  /** NewBackuper */
  method NewBackuper(lockFree: bool) returns (workflow: WorkflowObject)
    ensures fresh(workflow) && workflow.Starts(FindDeployment) && workflow.Graph() == BackupGraph(lockFree)
  {
    BackupNodesAre(lockFree);
    workflow := new WorkflowObject();
    workflow.Build(BackupNodes(lockFree), BackupPlan(lockFree));
  }

  /** The visits are those of a backup run in the given world. */
  ghost predicate IsBackupRun(w: World, lockFree: bool, visits: seq<Visit>) {
    BackupGraphRanked(lockFree);
    RunFrom(StepsIn(w), BackupGraph(lockFree), BackupRank, FindDeployment, Initial(w)) == Some(visits)
  }

  /** Every backup run follows the graph, visits no step twice, ends in BackupEnd, and returns no error exactly when
      nothing failed. */
  lemma BackupRunFacts(w: World, lockFree: bool, visits: seq<Visit>)
    requires IsBackupRun(w, lockFree, visits)
    ensures Linked(StepsIn(w), BackupGraph(lockFree), visits)
    ensures forall m, n | 0 <= m < n < |visits| :: visits[m].step != visits[n].step
    ensures visits[0].step == FindDeployment && visits[0].before == Initial(w)
    ensures visits[|visits| - 1].after == BackupEnd(w, lockFree)
    ensures ErrorsOf(visits) == [] <==> CleanBackup(w, lockFree)
  {
    BackupGraphRanked(lockFree);
    BackupRunEnds(w, lockFree);
    RunIsLinked(StepsIn(w), BackupGraph(lockFree), BackupRank, FindDeployment, Initial(w));
    VisitsOnce(StepsIn(w), BackupGraph(lockFree), BackupRank, FindDeployment, Initial(w));
  }

  lemma BackupRunExists(w: World, lockFree: bool) returns (visits: seq<Visit>)
    ensures IsBackupRun(w, lockFree, visits)
  {
    BackupGraphRanked(lockFree);
    BackupRunEnds(w, lockFree);
    visits := RunFrom(StepsIn(w), BackupGraph(lockFree), BackupRank, FindDeployment, Initial(w)).value;
  }

  /** Backup: whatever fails, the run comes to its end and returns the errors of the steps that failed, in order. */
  method Backup(w: World, lockFree: bool) returns (errors: seq<Error>, end: State, ghost visits: seq<Visit>)
    requires Possible(w)
    ensures IsBackupRun(w, lockFree, visits) && errors == ErrorsOf(visits)
    ensures end == BackupEnd(w, lockFree)
    ensures errors == [] <==> CleanBackup(w, lockFree)
  {
    var workflow := NewBackuper(lockFree);
    BackupGraphRanked(lockFree);
    visits := BackupRunExists(w, lockFree);
    BackupRunFacts(w, lockFree, visits);
    errors, end := RunInNewSession(w, workflow, FindDeployment, BackupGraph(lockFree), BackupRank, visits);
  }
}
