/** The steps of the backup and restore workflows and what each does to the session
    (orchestrator/session.go and the *_step.go files).  Everything outside the program answers through a World. */
module Session {
  import opened Sequences
  import opened Jobs
  import opened LockGraph
  import opened Errors
  import opened Executor
  import opened Metadata
  import opened BackupDirectory
  import opened Transfers
  import opened DrainLog
  import opened Deployment
  import opened Traces

  datatype Step =
    | FindDeployment | CheckBackupable | CreateArtifact | LockForBackup | BackUpJobs
    | UnlockAfterBackup(successful: bool) | DrainArtifacts | CleanUp | AddFinishTime | Skip(skipped: Step)
    | ValidateArtifact | CheckRestorable | CopyToRemote | LockForRestore | RestoreJobs | UnlockAfterRestore

  /** The answers of everything the program does not control. */
  datatype World = World(
    instances: Instances,
    found: bool,                          // the deployment was found
    dirs: set<nat>,                       // instances that have an artifact directory before the run
    unreachable: set<nat>,                // instances on which looking for one fails
    fails: (Call, Job) -> bool,           // scripts that fail
    makesDir: Place -> bool,              // jobs whose Backup got as far as creating the artifact directory
    log: Call -> seq<Event>,              // the schedule of each executor run but that of the downloads ...
    errors: Call -> seq<Error>,           // ... and the errors it returns
    removeFails: nat -> bool,             // removing the artifact directory fails
    sshFails: nat -> bool,                // cleaning up the connection fails
    directoryCreated: bool,               // the local backup directory could be created
    metadataWritten: bool,                // ... and the first metadata file written
    manifestSaved: bool,
    remote: seq<seq<TarEntry>>,           // content of the artifacts to download
    moves: seq<Move>,                     // the schedule of the downloads, operation by operation, and their faults
    finishWrite: WriteResult,             // the last write of the metadata file
    openable: bool,                       // the backup to restore could be opened
    files: Files, metadata: Option<MetadataFile>,  // that backup
    uploads: Place -> UploadFaults)

  /** The session, the artifact directories on the instances, the flags and the trace so far. */
  datatype State = State(
    deployment: bool,                     // session.deployment is set
    artifact: bool,                       // session.currentArtifact is set
    dirs: set<nat>,
    marked: set<nat>,                     // instances with artifactDirCreated
    files: Files, metadata: Option<MetadataFile>,  // the local backup
    trace: seq<TraceEvent>)

  /** A step returns, or reads a session field that is not set. */
  datatype StepResult = Returned(state: State, error: Outcome) | Panicked

  ghost function Initial(w: World): State {
    State(false, false, w.dirs, {}, w.files, w.metadata, [])
  }

  function Fail(kind: Kind): Outcome {
    Some(Failure(kind, ""))
  }

  function Verdict(ok: bool, kind: Kind): Outcome {
    if ok then None else Fail(kind)
  }

  // ---------------------------------------------------------------------------------------------
  // Calls on jobs

  function ScriptFor(call: Call): Script {
    match call
    case Lock(Backing) => PreBackupLock
    case Lock(Restoring) => PreRestoreLock
    case BackUp | Download => BackupScript
    case Unlock(Backing, _) => PostBackupUnlock
    case Unlock(Restoring, _) => PostRestoreUnlock
    case RestoreCall | Upload => RestoreScript
  }

  /** A job without the script succeeds at the call. */
  predicate CallSucceeds(w: World, call: Call, job: Job) {
    HasScript(ScriptFor(call), job) ==> !w.fails(call, job)
  }

  predicate AllCallsSucceed(w: World, call: Call, jobs: seq<Job>) {
    forall j | j in jobs :: CallSucceeds(w, call, j)
  }

  function OutcomeOf(w: World, call: Call): Job -> Outcome {
    j => Verdict(CallSucceeds(w, call, j), Other)
  }

  function Outcomes(w: World, call: Call, batches: seq<seq<Job>>): seq<seq<Outcome>> {
    if batches == [] then []
    else
      Outcomes(w, call, batches[..|batches| - 1]) + [Map(batches[|batches| - 1], OutcomeOf(w, call))]
  }

  lemma {:induction false} OutcomesAt(w: World, call: Call, batches: seq<seq<Job>>)
    ensures |Outcomes(w, call, batches)| == |batches|
    ensures forall b | 0 <= b < |batches| :: Outcomes(w, call, batches)[b] == Map(batches[b], OutcomeOf(w, call))
  {
    if batches != [] {
      OutcomesAt(w, call, batches[..|batches| - 1]);
    }
  }

  lemma OutcomesAllSucceed(w: World, call: Call, batches: seq<seq<Job>>)
    ensures AllSucceed(Outcomes(w, call, batches)) <==> AllCallsSucceed(w, call, Flatten(batches))
  {
    OutcomesAt(w, call, batches);
    var outcomes := Outcomes(w, call, batches);
    if AllSucceed(outcomes) {
      forall j | j in Flatten(batches) ensures CallSucceeds(w, call, j) {
        var b, i := FlattenWhere(batches, j);
        assert outcomes[b][i] == OutcomeOf(w, call)(batches[b][i]);
      }
    } else {
      var b, i :| 0 <= b < |outcomes| && 0 <= i < |outcomes[b]| && outcomes[b][i] != None;
      assert outcomes[b][i] == OutcomeOf(w, call)(batches[b][i]);
      FlattenMember(batches, b, i);
    }
  }

  /** Whichever executor ran the calls, what ConvertErrors makes of its errors is nil exactly when all calls
      succeeded. */
  lemma ExecutorVerdict(w: World, call: Call, batches: seq<seq<Job>>, log: seq<Event>, errors: seq<Error>)
    requires Executed(Outcomes(w, call, batches), log, errors)
    ensures Converted(errors).None? <==> AllCallsSucceed(w, call, Flatten(batches))
  {
    ExecutedErrors(Outcomes(w, call, batches), log, errors);
    SomeLeaf(w, call, batches, log, errors);
    OutcomesAllSucceed(w, call, batches);
  }

  lemma OutcomesPlain(w: World, call: Call, batches: seq<seq<Job>>, b: nat, e: Error)
    requires b < |batches| && b < |Outcomes(w, call, batches)| && Some(e) in Outcomes(w, call, batches)[b]
    ensures e.Failure?
  {
    OutcomesAt(w, call, batches);
  }

  lemma SomeLeaf(w: World, call: Call, batches: seq<seq<Job>>, log: seq<Event>, errors: seq<Error>)
    requires Executed(Outcomes(w, call, batches), log, errors)
    ensures Leaves(errors) == errors
  {
    OutcomesAt(w, call, batches);
    var outcomes := Outcomes(w, call, batches);
    ExecutedErrors(outcomes, log, errors);
    forall e | e in errors ensures e.Failure? {
      assert e in multiset(errors);
      assert e in multiset(Flatten(FailedEach(outcomes)));
      var b, i := FlattenWhere(FailedEach(outcomes), e);
      FailedMember(outcomes[b]);
      OutcomesPlain(w, call, batches, b, e);
    }
    PlainLeaves(errors);
  }

  /** The trace of making the call on every job of the batches, under the schedule of the world. */
  function CallTrace(w: World, call: Call, batches: seq<seq<Job>>): seq<TraceEvent> {
    TraceOf(call, batches, w.log(call))
  }

  function JobList(places: seq<Place>): seq<Job> {
    Map(places, JobAt)
  }

  function BackupBatches(w: World): seq<seq<Job>> {
    [JobList(JobsBeside(w.instances, BackupScript))]
  }

  function DownloadBatches(w: World): seq<seq<Job>> {
    [JobList(JobsWith(w.instances, BackupScript))]
  }

  function UploadBatches(w: World): seq<seq<Job>> {
    [JobList(JobsWith(w.instances, RestoreScript))]
  }

  /** What the downloads leave behind; a world must say what each artifact holds. */
  function Drained(w: World, metadata: Option<MetadataFile>): Drain {
    var keys := KeysToBackup(w.instances);
    if |w.remote| == |keys| then PlayAll(keys, w.remote, Start(keys, metadata), w.moves) else Start(keys, metadata)
  }

  /** The downloads that have begun and ended, in the order of the moves. */
  function DownloadLog(w: World, metadata: Option<MetadataFile>): seq<Event> {
    var keys := KeysToBackup(w.instances);
    if |w.remote| == |keys| then LogOf(keys, w.remote, Start(keys, metadata), w.moves) else []
  }

  function DownloadTrace(w: World, metadata: Option<MetadataFile>): seq<TraceEvent> {
    TraceOf(Download, DownloadBatches(w), DownloadLog(w, metadata))
  }

  /** The metadata file with which a backup starts; a failure to write it is not reported. */
  function FirstMetadata(w: World): Option<MetadataFile> {
    if w.metadataWritten then Some(NOTHING_RECORDED) else None
  }

  /** An executor carried out the call on all jobs of the batches. */
  ghost predicate CarriedOut(w: World, call: Call, batches: seq<seq<Job>>) {
    Executed(Outcomes(w, call, batches), w.log(call), w.errors(call))
  }

  ghost predicate LocksCarriedOut(w: World, activity: Activity) {
    var order := LockOrder(AllJobs(w.instances), activity);
    order.Some? ==>
      && CarriedOut(w, Lock(activity), order.value)
      && forall ok :: CarriedOut(w, Unlock(activity, ok), Reversed(order.value))
  }

  /** The executors keep the promise proved of them, and all downloads end. */
  ghost predicate Possible(w: World) {
    && LocksCarriedOut(w, Backing) && LocksCarriedOut(w, Restoring)
    && CarriedOut(w, BackUp, BackupBatches(w))
    && ValidLog(UploadBatches(w), w.log(Upload))
    && |w.remote| == |KeysToBackup(w.instances)|
    && Settled(Drained(w, FirstMetadata(w)))
  }

  lemma CarriedOutIsValid(w: World, call: Call, batches: seq<seq<Job>>)
    requires CarriedOut(w, call, batches)
    ensures ValidLog(batches, w.log(call))
  {
    OutcomesAt(w, call, batches);
    var outcomes := Outcomes(w, call, batches);
    forall e ensures InRange(batches, e) <==> InRange(outcomes, e) {
    }
  }

  // ---------------------------------------------------------------------------------------------
  // Checks, cleanup and restore

  /** CheckArtifactDir complains. */
  predicate DirProblem(w: World, dirs: set<nat>) {
    exists i | 0 <= i < |w.instances| :: i in w.unreachable || i in dirs
  }

  ghost function BackupableVerdict(w: World, s: State): Outcome {
    if !AnyWith(w.instances, BackupScript) then Fail(Other)
    else if DirProblem(w, s.dirs) then Fail(ArtifactDirError)
    else if Cyclic(AllJobs(w.instances), Backing) then Fail(Other)
    else None
  }

  predicate HasRestoreName(instance: Instance) {
    exists j | j in instance.jobs :: j.restoreName != ""
  }

  /** A restorable instance still carries the discontinued restore_name key. */
  predicate RestoreNameFound(w: World) {
    exists i | 0 <= i < |w.instances| :: HasJobWith(RestoreScript, w.instances[i]) && HasRestoreName(w.instances[i])
  }

  function NameOf(instance: Instance): InstanceName {
    InstanceName(instance.name, instance.index)
  }

  ghost predicate Restorable(w: World, s: State) {
    && !RestoreNameFound(w)
    && AnyWith(w.instances, RestoreScript)
    && s.metadata.Some? && MatchesDeployment(s.metadata.value, Map(w.instances, NameOf))
    && !DirProblem(w, s.dirs)
    && !Cyclic(AllJobs(w.instances), Restoring)
  }

  /** The removals Cleanup attempts among the first n instances. */
  function Removals(marked: set<nat>, n: nat): seq<TraceEvent> {
    if n == 0 then [] else Removals(marked, n - 1) + if n - 1 in marked then [DirRemoved(n - 1)] else []
  }

  predicate CleansUp(w: World, marked: set<nat>) {
    forall i | 0 <= i < |w.instances| :: !w.sshFails(i) && (i in marked ==> !w.removeFails(i))
  }

  /** instance.Restore runs the jobs of an instance in turn, whatever fails; instances.Restore stops after the first
      instance with a failure. */
  function RestoreTrace(w: World, n: nat): (r: (seq<TraceEvent>, bool))
    requires n <= |w.instances|
  {
    if n == 0 then ([], true)
    else
      var before := RestoreTrace(w, n - 1);
      if !before.1 || !HasJobWith(RestoreScript, w.instances[n - 1]) then before
      else (before.0 + JobsTrace(w.instances[n - 1].jobs), AllCallsSucceed(w, RestoreCall, w.instances[n - 1].jobs))
  }

  function JobsTrace(jobs: seq<Job>): seq<TraceEvent> {
    if jobs == [] then []
    else
      var last := jobs[|jobs| - 1];
      JobsTrace(jobs[..|jobs| - 1]) + [CallBegan(RestoreCall, last), CallEnded(RestoreCall, last)]
  }

  function UploadKey(w: World, p: Place): ArtifactKey {
    KeyToRestore(w.instances, p)
  }

  predicate UploadSucceeds(w: World, files: Files, metadata: Option<MetadataFile>, p: Place) {
    Uploaded(files, metadata, UploadKey(w, p), w.uploads(p))
  }

  predicate AllUploaded(w: World, files: Files, metadata: Option<MetadataFile>, places: seq<Place>) {
    forall p | p in places :: UploadSucceeds(w, files, metadata, p)
  }

  predicate MarksAt(w: World, files: Files, p: Place) {
    Marks(files, UploadKey(w, p), w.uploads(p))
  }

  predicate MakesDirectoryAt(w: World, files: Files, p: Place) {
    MakesDirectory(files, UploadKey(w, p), w.uploads(p))
  }

  function MarkedByUploads(w: World, files: Files): set<nat> {
    set p | p in JobsWith(w.instances, RestoreScript) && MarksAt(w, files, p) :: p.instance
  }

  function MadeByUploads(w: World, files: Files): set<nat> {
    set p | p in JobsWith(w.instances, RestoreScript) && MakesDirectoryAt(w, files, p) :: p.instance
  }

  function MadeByBackup(w: World): set<nat> {
    set p | p in JobsWith(w.instances, BackupScript) && w.makesDir(p) :: p.instance
  }

  // ---------------------------------------------------------------------------------------------
  // The steps

  ghost function RunLock(w: World, s: State, activity: Activity, kind: Kind): StepResult {
    match LockOrder(AllJobs(w.instances), activity)
    case None => Returned(s, Fail(kind))
    case Some(levels) =>
      Returned(s.(trace := Join(s.trace, CallTrace(w, Lock(activity), levels))),
               Verdict(AllCallsSucceed(w, Lock(activity), Flatten(levels)), kind))
  }

  /** Unlocking orders the same jobs again and goes through the levels backwards. */
  ghost function RunUnlock(w: World, s: State, activity: Activity, ok: bool): StepResult {
    match LockOrder(AllJobs(w.instances), activity)
    case None => Returned(s, Fail(UnlockError))
    case Some(levels) =>
      Returned(s.(trace := Join(s.trace, CallTrace(w, Unlock(activity, ok), Reversed(levels)))),
               Verdict(AllCallsSucceed(w, Unlock(activity, ok), Flatten(Reversed(levels))), UnlockError))
  }

  ghost function RunBackup(w: World, s: State): StepResult {
    Returned(s.(marked := s.marked + With(w.instances, BackupScript),
                dirs := s.dirs + MadeByBackup(w),
                trace := Join(s.trace, CallTrace(w, BackUp, BackupBatches(w)))),
             Verdict(AllCallsSucceed(w, BackUp, Flatten(BackupBatches(w))), BackupError))
  }

  ghost function RunDrain(w: World, s: State): StepResult {
    var drained := Drained(w, s.metadata);
    Returned(s.(files := drained.files, metadata := drained.metadata,
                trace := Join(s.trace, DownloadTrace(w, s.metadata))),
             Verdict(AllDone(drained), DrainError))
  }

  ghost function RunCleanUp(w: World, s: State): StepResult {
    Returned(s.(dirs := s.dirs - (set i | i in s.marked && !w.removeFails(i)),
                trace := Join(s.trace, Removals(s.marked, |w.instances|))),
             Verdict(CleansUp(w, s.marked), CleanupError))
  }

  /** A failure to save the finish time is not reported. */
  ghost function RunAddFinishTime(w: World, s: State): StepResult {
    if !s.artifact then Returned(s, None)
    else if s.metadata.None? then Returned(s, Fail(Other))
    else
      match w.finishWrite
      case Written => Returned(s, None)
      case Broken(leftover) => Returned(s.(metadata := leftover), None)
  }

  ghost function RunCopyToRemote(w: World, s: State): StepResult {
    Returned(s.(marked := s.marked + MarkedByUploads(w, s.files),
                dirs := s.dirs + MadeByUploads(w, s.files),
                trace := Join(s.trace, CallTrace(w, Upload, UploadBatches(w)))),
             Verdict(AllUploaded(w, s.files, s.metadata, JobsWith(w.instances, RestoreScript)), Other))
  }

  /** What a step reads from the session without checking it. */
  predicate ReadsDeployment(step: Step) {
    !(step.FindDeployment? || step.CreateArtifact? || step.AddFinishTime? || step.Skip? || step.ValidateArtifact?)
  }

  predicate ReadsArtifact(step: Step) {
    step.DrainArtifacts? || step.CheckRestorable? || step.CopyToRemote?
  }

  ghost function RunStep(w: World, step: Step, s: State): StepResult {
    if (ReadsDeployment(step) && !s.deployment) || (ReadsArtifact(step) && !s.artifact) then Panicked
    else
      match step
      case FindDeployment =>
        if w.found then Returned(s.(deployment := true, marked := {}), None) else Returned(s, Fail(Other))
      case CheckBackupable => Returned(s, BackupableVerdict(w, s))
      case CreateArtifact =>
        if !w.directoryCreated then Returned(s, Fail(Other))
        else
          Returned(s.(artifact := true, files := map[], metadata := FirstMetadata(w)), Verdict(w.manifestSaved, Other))
      case LockForBackup => RunLock(w, s, Backing, LockError)
      case BackUpJobs => RunBackup(w, s)
      case UnlockAfterBackup(ok) => RunUnlock(w, s, Backing, ok)
      case DrainArtifacts => RunDrain(w, s)
      case CleanUp => RunCleanUp(w, s)
      case AddFinishTime => RunAddFinishTime(w, s)
      case Skip(_) => Returned(s, None)
      case ValidateArtifact =>
        if !w.openable then Returned(s, Fail(Other))
        else Returned(s.(artifact := true), Verdict(s.metadata.Some? && AllIntact(s.files, s.metadata.value), Other))
      case CheckRestorable => Returned(s, Verdict(Restorable(w, s), Other))
      case CopyToRemote => RunCopyToRemote(w, s)
      case LockForRestore => RunLock(w, s, Restoring, Other)
      case RestoreJobs =>
        var (events, ok) := RestoreTrace(w, |w.instances|);
        Returned(s.(trace := Join(s.trace, events)), Verdict(ok, Other))
      case UnlockAfterRestore => RunUnlock(w, s, Restoring, false)
  }

  /** What each step does in the given world. */
  ghost function StepsIn(w: World): (Step, State) -> StepResult {
    (step, s) => RunStep(w, step, s)
  }
}
