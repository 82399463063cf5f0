/** The session object and its steps as the program runs them, proved against Session
    (orchestrator/session.go, deployment.go, instance.go, artifact_copier.go and the *_step.go files). */
module Steps {
  import opened Sequences
  import opened Jobs
  import opened LockOrderer
  import opened Errors
  import opened Executor
  import opened Metadata
  import opened BackupDirectory
  import opened Transfers
  import opened DrainLog
  import opened Deployment
  import opened Traces
  import opened Session

  /** instances.Jobs */
  method CollectJobs(instances: Instances) returns (jobs: seq<Job>)
    ensures jobs == AllJobs(instances)
    ensures forall j :: multiset(jobs)[j] == Standing(instances, j)
  {
    jobs := [];
    for i := 0 to |instances|
      invariant jobs == AllJobs(instances[..i])
    {
      assert Map(instances[..i + 1], JobsOf) == Map(instances[..i], JobsOf) + [instances[i].jobs];
      jobs := jobs + instances[i].jobs;
    }
    assert instances[..|instances|] == instances;
    forall j ensures multiset(jobs)[j] == Standing(instances, j) {
      AllJobsStanding(instances, j);
    }
  }

  /** newJobExecutables: one executable per job, level by level. */
  method NewJobExecutables(w: World, call: Call, levels: seq<seq<Job>>) returns (executables: seq<seq<Outcome>>)
    ensures executables == Outcomes(w, call, levels)
  {
    executables := [];
    for b := 0 to |levels|
      invariant executables == Outcomes(w, call, levels[..b])
    {
      var level := [];
      for i := 0 to |levels[b]|
        invariant |level| == i && forall k | 0 <= k < i :: level[k] == OutcomeOf(w, call)(levels[b][k])
      {
        level := level + [OutcomeOf(w, call)(levels[b][i])];
      }
      assert level == Map(levels[b], OutcomeOf(w, call));
      assert levels[..b + 1][..b] == levels[..b];
      executables := executables + [level];
    }
    assert levels[..|levels|] == levels;
  }

  /** The executor of the world, serial or parallel: it carries out exactly the executables it is given. */
  method Execute(w: World, call: Call, executables: seq<seq<Outcome>>) returns (errors: seq<Error>)
    requires Executed(executables, w.log(call), w.errors(call))
    ensures Executed(executables, w.log(call), errors)
  {
    return w.errors(call);
  }

  /** Runs the call on all jobs; ConvertErrors turns the errors of the executor into the error of the step. */
  method RunExecutables(w: World, call: Call, levels: seq<seq<Job>>, kind: Kind) returns (error: Outcome)
    requires CarriedOut(w, call, levels)
    ensures error == Verdict(AllCallsSucceed(w, call, Flatten(levels)), kind)
  {
    var executables := NewJobExecutables(w, call, levels);
    var errors := Execute(w, call, executables);
    var converted := ConvertErrors(errors);
    ExecutorVerdict(w, call, levels, w.log(call), errors);
    return if converted.None? then None else Fail(kind);
  }

  /** CheckArtifactDir */
  method CheckArtifactDir(w: World, dirs: set<nat>) returns (problem: bool)
    ensures problem <==> DirProblem(w, dirs)
  {
    problem := false;
    for i := 0 to |w.instances|
      invariant problem <==> exists k | 0 <= k < i :: k in w.unreachable || k in dirs
    {
      if i in w.unreachable {
        problem := true;
      } else if i in dirs {
        problem := true;
      }
    }
  }

  lemma WithStep(instances: Instances, i: nat)
    requires i < |instances|
    ensures With(instances[..i + 1], BackupScript) ==
            With(instances[..i], BackupScript) + if HasJobWith(BackupScript, instances[i]) then {i} else {}
  {
    forall k | 0 <= k < i ensures instances[..i + 1][k] == instances[..i][k] {
    }
  }

  /** The loop of deployment.Backup: which instances it marks and which jobs become executables. */
  method MarkBackupable(instances: Instances) returns (marked: set<nat>, places: seq<Place>)
    ensures marked == With(instances, BackupScript) && places == JobsBeside(instances, BackupScript)
  {
    marked, places := {}, [];
    for i := 0 to |instances|
      invariant marked == With(instances[..i], BackupScript)
      invariant places == JobsBeside(instances[..i], BackupScript)
    {
      WithStep(instances, i);
      assert instances[..i + 1][..i] == instances[..i];
      if HasJobWith(BackupScript, instances[i]) {
        marked := marked + {i};
        places := places + PlacesOn(i, instances[i].jobs);
      }
    }
    assert instances[..|instances|] == instances;
  }

  function MarkedAmong(w: World, files: Files, places: seq<Place>): set<nat> {
    set p | p in places && MarksAt(w, files, p) :: p.instance
  }

  lemma OneMoreUpload(w: World, files: Files, metadata: Option<MetadataFile>, places: seq<Place>, n: nat)
    requires n < |places|
    ensures MarkedAmong(w, files, places[..n + 1]) ==
            MarkedAmong(w, files, places[..n]) + if MarksAt(w, files, places[n]) then {places[n].instance} else {}
    ensures AllUploaded(w, files, metadata, places[..n + 1]) <==>
            AllUploaded(w, files, metadata, places[..n]) && UploadSucceeds(w, files, metadata, places[n])
  {
    assert places[..n + 1] == places[..n] + [places[n]];
  }

  /** The uploads, and which instances they mark.  They only read the directory, so their order does not matter. */
  method UploadEach(w: World, files: Files, metadata: Option<MetadataFile>) returns (ok: bool, marked: set<nat>)
    ensures ok <==> AllUploaded(w, files, metadata, JobsWith(w.instances, RestoreScript))
    ensures marked == MarkedByUploads(w, files)
  {
    var places := JobsWith(w.instances, RestoreScript);
    var directory := new Directory(metadata, files);
    ok, marked := true, {};
    for n := 0 to |places|
      invariant directory.metadata == metadata && directory.files == files
      invariant ok <==> AllUploaded(w, files, metadata, places[..n])
      invariant marked == MarkedAmong(w, files, places[..n])
    {
      OneMoreUpload(w, files, metadata, places, n);
      var failed, marks := UploadArtifact(directory, UploadKey(w, places[n]), w.uploads(places[n]));
      ok := ok && !failed;
      marked := if marks then marked + {places[n].instance} else marked;
    }
    assert places[..|places|] == places;
  }

  lemma OneMoreMove(keys: seq<ArtifactKey>, remote: seq<seq<TarEntry>>, s: Drain, moves: seq<Move>, m: nat)
    requires |s.downloads| == |keys| == |remote| && m < |moves|
    ensures var before := PlayAll(keys, remote, s, moves[..m]);
            var after := PlayAll(keys, remote, s, moves[..m + 1]);
            && after == Play(keys, remote, before, moves[m])
            && LogOf(keys, remote, s, moves[..m + 1]) ==
               LogOf(keys, remote, s, moves[..m]) + MoveEvents(before, after, moves[m].task)
  {
    assert moves[..m + 1][..m] == moves[..m];
  }

  /** DownloadBackupFromDeployment: the downloads take turns on the shared directory as the world schedules them. */
  method DownloadAll(w: World, directory: Directory) returns (downloads: seq<Progress>, log: seq<Event>)
    requires |w.remote| == |KeysToBackup(w.instances)| && directory.files == map[]
    modifies directory
    ensures Mirrors(directory, Drained(w, old(directory.metadata)))
    ensures downloads == Drained(w, old(directory.metadata)).downloads
    ensures log == DownloadLog(w, old(directory.metadata))
  {
    var keys := KeysToBackup(w.instances);
    downloads, log := seq(|keys|, _ => Creating), [];
    ghost var start := Start(keys, directory.metadata);
    for m := 0 to |w.moves|
      invariant Mirrors(directory, PlayAll(keys, w.remote, start, w.moves[..m]))
      invariant downloads == PlayAll(keys, w.remote, start, w.moves[..m]).downloads
      invariant log == LogOf(keys, w.remote, start, w.moves[..m])
    {
      OneMoreMove(keys, w.remote, start, w.moves, m);
      var i := w.moves[m].task;
      if i < |keys| {
        var p := Operate(directory, keys, w.remote, w.moves[m], PlayAll(keys, w.remote, start, w.moves[..m]),
                         downloads[i]);
        log := log + EventsOf(i, downloads[i], p);
        downloads := downloads[i := p];
      }
    }
    assert w.moves[..|w.moves|] == w.moves;
  }

  class SessionObject {
    var state: State

    constructor (w: World)
      ensures state == Initial(w)
    {
      state := State(false, false, w.dirs, {}, w.files, w.metadata, []);
    }

    /** PreBackupLock, PreRestoreLock */
    method LockJobs(w: World, activity: Activity, kind: Kind) returns (error: Outcome)
      requires LocksCarriedOut(w, activity)
      modifies this
      ensures Returned(state, error) == RunLock(w, old(state), activity, kind)
    {
      var jobs := CollectJobs(w.instances);
      var ordered := Order(jobs, activity);
      if ordered.None? {
        return Fail(kind);
      }
      error := RunExecutables(w, Lock(activity), ordered.value, kind);
      state := state.(trace := Join(state.trace, CallTrace(w, Lock(activity), ordered.value)));
    }

    /** PostBackupUnlock, PostRestoreUnlock */
    method UnlockJobs(w: World, activity: Activity, ok: bool) returns (error: Outcome)
      requires LocksCarriedOut(w, activity)
      modifies this
      ensures Returned(state, error) == RunUnlock(w, old(state), activity, ok)
    {
      var jobs := CollectJobs(w.instances);
      var ordered := Order(jobs, activity);
      if ordered.None? {
        return Fail(UnlockError);
      }
      var reversed := Reverse(ordered.value);
      error := RunExecutables(w, Unlock(activity, ok), reversed, UnlockError);
      state := state.(trace := Join(state.trace, CallTrace(w, Unlock(activity, ok), reversed)));
    }

    /** deployment.Backup: marks each backupable instance and runs all its jobs. */
    method BackUpAll(w: World) returns (error: Outcome)
      requires CarriedOut(w, BackUp, BackupBatches(w))
      modifies this
      ensures Returned(state, error) == RunBackup(w, old(state))
    {
      var marked, places := MarkBackupable(w.instances);
      error := RunExecutables(w, BackUp, [JobList(places)], BackupError);
      state := state.(marked := state.marked + marked, dirs := state.dirs + MadeByBackup(w),
                      trace := Join(state.trace, CallTrace(w, BackUp, [JobList(places)])));
    }

    /** instances.Cleanup: every instance in turn, whatever fails. */
    method CleanUpAll(w: World) returns (error: Outcome)
      modifies this
      ensures Returned(state, error) == RunCleanUp(w, old(state))
    {
      var failed, removals := false, [];
      for i := 0 to |w.instances|
        invariant state == old(state)
        invariant failed <==> exists k | 0 <= k < i :: w.sshFails(k) || (k in state.marked && w.removeFails(k))
        invariant removals == Removals(state.marked, i)
      {
        if i in state.marked {
          removals := removals + [DirRemoved(i)];
          if w.removeFails(i) {
            failed := true;
          }
        }
        if w.sshFails(i) {
          failed := true;
        }
      }
      state := state.(dirs := state.dirs - (set i | i in state.marked && !w.removeFails(i)),
                      trace := Join(state.trace, removals));
      return Verdict(!failed, CleanupError);
    }

    /** instances.Restore, instance.Restore */
    method RestoreAll(w: World) returns (error: Outcome)
      modifies this
      ensures var (events, ok) := RestoreTrace(w, |w.instances|);
              state == old(state).(trace := Join(old(state).trace, events)) && error == Verdict(ok, Other)
    {
      var events, ok := [], true;
      for i := 0 to |w.instances|
        invariant state == old(state) && (events, ok) == RestoreTrace(w, i)
      {
        if ok && HasJobWith(RestoreScript, w.instances[i]) {
          var jobs := w.instances[i].jobs;
          var begun := [];
          for k := 0 to |jobs|
            invariant begun == JobsTrace(jobs[..k])
            invariant ok <==> AllCallsSucceed(w, RestoreCall, jobs[..k])
          {
            assert jobs[..k + 1][..k] == jobs[..k] && jobs[..k + 1] == jobs[..k] + [jobs[k]];
            begun := begun + [CallBegan(RestoreCall, jobs[k]), CallEnded(RestoreCall, jobs[k])];
            ok := ok && CallSucceeds(w, RestoreCall, jobs[k]);
          }
          assert jobs[..|jobs|] == jobs;
          events := events + begun;
        }
      }
      state := state.(trace := Join(state.trace, events));
      return Verdict(ok, Other);
    }

    /** UploadBackupToDeployment: one upload per artifact to restore. */
    method UploadAll(w: World) returns (error: Outcome)
      modifies this
      ensures Returned(state, error) == RunCopyToRemote(w, old(state))
    {
      var ok, marked := UploadEach(w, state.files, state.metadata);
      state := state.(marked := state.marked + marked, dirs := state.dirs + MadeByUploads(w, state.files),
                      trace := Join(state.trace, CallTrace(w, Upload, UploadBatches(w))));
      return Verdict(ok, Other);
    }

    /** DrainStep.Run */
    method DrainAll(w: World) returns (error: Outcome)
      requires |w.remote| == |KeysToBackup(w.instances)|
      modifies this
      ensures Returned(state, error) == RunDrain(w, old(state))
    {
      var directory := new Directory(state.metadata, map[]);
      var downloads, log := DownloadAll(w, directory);
      state := state.(files := directory.files, metadata := directory.metadata,
                      trace := Join(state.trace, TraceOf(Download, DownloadBatches(w), log)));
      return Verdict(forall i | 0 <= i < |downloads| :: downloads[i].Done?, DrainError);
    }

    /** BackupableStep.Run */
    method CheckBackup(w: World) returns (error: Outcome)
      ensures error == BackupableVerdict(w, state)
    {
      if !AnyWith(w.instances, BackupScript) {
        return Fail(Other);
      }
      var problem := CheckArtifactDir(w, state.dirs);
      if problem {
        return Fail(ArtifactDirError);
      }
      var jobs := CollectJobs(w.instances);
      var ordered := Order(jobs, Backing);
      return Verdict(ordered.Some?, Other);
    }

    /** RestorableStep.Run */
    method CheckRestore(w: World) returns (error: Outcome)
      ensures error == Verdict(Restorable(w, state), Other)
    {
      for i := 0 to |w.instances|
        invariant forall k | 0 <= k < i ::
                    !(HasJobWith(RestoreScript, w.instances[k]) && HasRestoreName(w.instances[k]))
      {
        if HasJobWith(RestoreScript, w.instances[i]) && HasRestoreName(w.instances[i]) {
          return Fail(Other);
        }
      }
      if !AnyWith(w.instances, RestoreScript) {
        return Fail(Other);
      }
      var directory := new Directory(state.metadata, state.files);
      var matches := directory.DeploymentMatches(Map(w.instances, NameOf));
      if matches != Some(true) {
        return Fail(Other);
      }
      var problem := CheckArtifactDir(w, state.dirs);
      if problem {
        return Fail(Other);
      }
      var jobs := CollectJobs(w.instances);
      var ordered := Order(jobs, Restoring);
      return Verdict(ordered.Some?, Other);
    }

    /** Run of the steps that only a restore takes. */
    method RunRestoreStep(w: World, step: Step) returns (error: Outcome)
      requires LocksCarriedOut(w, Restoring) && !RunStep(w, step, state).Panicked?
      requires step.ValidateArtifact? || step.CheckRestorable? || step.CopyToRemote? || step.LockForRestore? ||
               step.RestoreJobs? || step.UnlockAfterRestore?
      modifies this
      ensures Returned(state, error) == RunStep(w, step, old(state))
    {
      match step {
        case ValidateArtifact =>
          if !w.openable {
            return Fail(Other);
          }
          state := state.(artifact := true);
          var directory := new Directory(state.metadata, state.files);
          var valid := directory.IsValid();
          return Verdict(valid, Other);
        case CheckRestorable =>
          error := CheckRestore(w);
        case CopyToRemote =>
          error := UploadAll(w);
        case LockForRestore =>
          error := LockJobs(w, Restoring, Other);
        case RestoreJobs =>
          error := RestoreAll(w);
        case UnlockAfterRestore =>
          error := UnlockJobs(w, Restoring, false);
      }
    }

    /** Run of any step.  The caller must know that the session fields the step reads are set. */
    method Run(w: World, step: Step) returns (error: Outcome)
      requires Possible(w) && !RunStep(w, step, state).Panicked?
      modifies this
      ensures Returned(state, error) == RunStep(w, step, old(state))
    {
      match step {
        case FindDeployment =>
          if !w.found {
            return Fail(Other);
          }
          state := state.(deployment := true, marked := {});
          return None;
        case CheckBackupable =>
          error := CheckBackup(w);
        case CreateArtifact =>
          if !w.directoryCreated {
            return Fail(Other);
          }
          state := state.(artifact := true, files := map[], metadata := FirstMetadata(w));
          return Verdict(w.manifestSaved, Other);
        case LockForBackup =>
          error := LockJobs(w, Backing, LockError);
        case BackUpJobs =>
          error := BackUpAll(w);
        case UnlockAfterBackup(ok) =>
          error := UnlockJobs(w, Backing, ok);
        case DrainArtifacts =>
          error := DrainAll(w);
        case CleanUp =>
          error := CleanUpAll(w);
        case AddFinishTime =>
          if !state.artifact {
            return None;
          }
          if state.metadata.None? {
            return Fail(Other);
          }
          if w.finishWrite.Broken? {
            state := state.(metadata := w.finishWrite.leftover);
          }
          return None;
        case Skip(_) =>
          return None;
        case _ =>
          error := RunRestoreStep(w, step);
      }
    }
  }
}
