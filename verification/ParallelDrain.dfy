/** The downloads of a drain as the executables of the parallel executor (orchestrator/artifact_copier.go over
    executor/parallel.go): a download performs its operations only while its goroutine executes, and its execution ends
    when it is over. */
module ParallelDrain {
  import opened Sequences
  import opened Errors
  import opened Executor
  import opened Metadata
  import opened BackupDirectory
  import opened Transfers
  import opened DrainLog
  import P = ParallelExecutor

  /** The artifacts, what they hold, the metadata file to begin with, and how each download will turn out. */
  datatype Setting = Setting(
    artifacts: seq<ArtifactKey>, remote: seq<seq<TarEntry>>, metadata: Option<MetadataFile>, outcomes: seq<Outcome>)

  ghost predicate Proper(t: Setting) {
    |t.artifacts| == |t.remote| == |t.outcomes|
  }

  /** The executor, the downloads, and the operations they performed so far. */
  datatype Joint = Joint(exec: P.State, drain: Drain, moves: seq<Move>)

  datatype JointStep = Schedule(step: P.Step) | Perform(move: Move)

  ghost function JointInit(t: Setting): Joint {
    Joint(P.Init([t.outcomes]), Start(t.artifacts, t.metadata), [])
  }

  /** The download is over, and turned out as said. */
  ghost predicate TurnedOut(t: Setting, drain: Drain, i: nat)
    requires Proper(t) && |drain.downloads| == |t.artifacts| && i < |t.artifacts|
  {
    Over(drain.downloads[i]) && (t.outcomes[i].None? <==> drain.downloads[i].Done?)
  }

  ghost predicate JointEnabled(t: Setting, max: nat, s: Joint, step: JointStep)
    requires Proper(t) && |s.drain.downloads| == |t.artifacts| && P.Shape([t.outcomes], s.exec)
  {
    match step
    case Schedule(step) =>
      P.Enabled([t.outcomes], max, s.exec, step) &&
      (step.End? && step.task < |t.artifacts| ==> TurnedOut(t, s.drain, step.task))
    case Perform(move) => P.At(s.exec, 0, move.task, P.Executing)
  }

  ghost function JointApply(t: Setting, max: nat, s: Joint, step: JointStep): (s': Joint)
    requires Proper(t) && |s.drain.downloads| == |t.artifacts| && P.Shape([t.outcomes], s.exec)
    requires JointEnabled(t, max, s, step)
    ensures |s'.drain.downloads| == |t.artifacts|
  {
    match step
    case Schedule(step) => s.(exec := P.Apply([t.outcomes], max, s.exec, step))
    case Perform(move) => s.(drain := Play(t.artifacts, t.remote, s.drain, move), moves := s.moves + [move])
  }

  ghost predicate JointNext(t: Setting, max: nat, s: Joint, s': Joint)
    requires Proper(t)
  {
    && |s.drain.downloads| == |t.artifacts| && P.Shape([t.outcomes], s.exec)
    && exists step :: JointEnabled(t, max, s, step) && s' == JointApply(t, max, s, step)
  }

  /** Any interleaving of the executor and of the operations of the downloads it executes. */
  ghost predicate JointBehaviour(t: Setting, max: nat, states: seq<Joint>)
    requires Proper(t)
  {
    && |states| > 0 && states[0] == JointInit(t)
    && forall n | 0 < n < |states| :: JointNext(t, max, states[n - 1], states[n])
  }

  // ---------------------------------------------------------------------------------------------
  // The invariant

  ghost predicate Fits(t: Setting, s: Joint, i: nat)
    requires Proper(t) && |s.drain.downloads| == |t.artifacts| && P.Shape([t.outcomes], s.exec) && i < |t.artifacts|
  {
    var phase := s.exec.batches[0].phases[i];
    && (phase.Unspawned? || phase.Ready? ==> s.drain.downloads[i].Creating?)
    && (phase.Sending? || phase.Releasing? || phase.Exited? ==> TurnedOut(t, s.drain, i))
  }

  ghost predicate JointInv(t: Setting, max: nat, s: Joint)
    requires Proper(t)
  {
    && |s.drain.downloads| == |t.artifacts| && P.Inv([t.outcomes], max, s.exec)
    && s.drain == PlayAll(t.artifacts, t.remote, Start(t.artifacts, t.metadata), s.moves)
    && forall i | 0 <= i < |t.artifacts| :: Fits(t, s, i)
  }

  lemma JointInitInv(t: Setting, max: nat)
    requires Proper(t)
    ensures JointInv(t, max, JointInit(t))
  {
    P.InitInv([t.outcomes], max);
  }

  /** A step of the executor moves the goroutine of a download at most one phase on. */
  lemma PhaseMovesOn(outcomes: seq<Outcome>, max: nat, s: P.State, step: P.Step, i: nat)
    requires P.Inv([outcomes], max, s) && P.Enabled([outcomes], max, s, step) && i < |outcomes|
    ensures var s' := P.Apply([outcomes], max, s, step);
            && P.Shape([outcomes], s')
            && var p, p' := s.batches[0].phases[i], s'.batches[0].phases[i];
               || p' == p
               || (p.Unspawned? && p'.Ready?)
               || (p.Ready? && p'.Executing?)
               || (p.Executing? && p'.Sending? && step.End? && step.task == i)
               || (p.Sending? && p'.Releasing?)
               || (p.Releasing? && p'.Exited?)
  {
    P.StepInv([outcomes], max, s, step);
    assert P.BatchInv([outcomes][0], max, s.batches[0], P.Spawned([outcomes], s, 0), P.Pending(s, 0));
  }

  lemma ScheduleInv(t: Setting, max: nat, s: Joint, step: P.Step)
    requires Proper(t) && JointInv(t, max, s) && JointEnabled(t, max, s, Schedule(step))
    ensures JointInv(t, max, JointApply(t, max, s, Schedule(step)))
  {
    var s' := JointApply(t, max, s, Schedule(step));
    P.StepInv([t.outcomes], max, s.exec, step);
    forall i | 0 <= i < |t.artifacts| ensures Fits(t, s', i) {
      assert Fits(t, s, i);
      PhaseMovesOn(t.outcomes, max, s.exec, step, i);
    }
  }

  lemma PerformInv(t: Setting, max: nat, s: Joint, move: Move)
    requires Proper(t) && JointInv(t, max, s) && JointEnabled(t, max, s, Perform(move))
    ensures JointInv(t, max, JointApply(t, max, s, Perform(move)))
  {
    var s' := JointApply(t, max, s, Perform(move));
    PlayLast(t.artifacts, t.remote, Start(t.artifacts, t.metadata), s.moves, move);
    forall i | 0 <= i < |t.artifacts| ensures Fits(t, s', i) {
      assert Fits(t, s, i);
    }
  }

  lemma {:induction false} AlwaysJointInv(t: Setting, max: nat, states: seq<Joint>, n: nat)
    requires Proper(t) && JointBehaviour(t, max, states) && n < |states|
    ensures JointInv(t, max, states[n])
  {
    if n == 0 {
      JointInitInv(t, max);
    } else {
      AlwaysJointInv(t, max, states, n - 1);
      assert JointNext(t, max, states[n - 1], states[n]);
      var step :| JointEnabled(t, max, states[n - 1], step) && states[n] == JointApply(t, max, states[n - 1], step);
      match step
      case Schedule(step) => ScheduleInv(t, max, states[n - 1], step);
      case Perform(move) => PerformInv(t, max, states[n - 1], move);
    }
  }

  // ---------------------------------------------------------------------------------------------
  // What it gives

  /** Every interleaving of the parallel executor over the downloads is a run of the drain machine. */
  lemma JointIsDrain(t: Setting, max: nat, states: seq<Joint>, n: nat)
    requires Proper(t) && JointBehaviour(t, max, states) && n < |states|
    ensures states[n].drain == PlayAll(t.artifacts, t.remote, Start(t.artifacts, t.metadata), states[n].moves)
  {
    AlwaysJointInv(t, max, states, n);
  }

  /** The downloads that have begun and are not over. */
  ghost function Underway(s: Drain): set<nat> {
    set i | 0 <= i < |s.downloads| && !s.downloads[i].Creating? && !Over(s.downloads[i])
  }

  lemma {:induction false} PairsCount(s: set<nat>, t: set<(nat, nat)>)
    requires forall i | i in s :: (0, i) in t
    ensures |s| <= |t|
  {
    if s != {} {
      var i :| i in s;
      PairsCount(s - {i}, t - {(0, i)});
    }
  }

  lemma UnderwayIsRunning(t: Setting, max: nat, s: Joint, i: nat)
    requires Proper(t) && JointInv(t, max, s) && i in Underway(s.drain)
    ensures (0, i) in P.Running(s.exec)
  {
    assert Fits(t, s, i);
  }

  /** In every state no more downloads are under way than the executor runs at once. */
  lemma FewDownloadsUnderway(t: Setting, max: nat, states: seq<Joint>, n: nat)
    requires Proper(t) && JointBehaviour(t, max, states) && n < |states|
    ensures |Underway(states[n].drain)| <= max
  {
    AlwaysJointInv(t, max, states, n);
    forall i | i in Underway(states[n].drain) ensures (0, i) in P.Running(states[n].exec) {
      UnderwayIsRunning(t, max, states[n], i);
    }
    PairsCount(Underway(states[n].drain), P.Running(states[n].exec));
    P.InvBoundsRunning([t.outcomes], max, states[n].exec);
  }

  lemma ReturnedTurnedOut(t: Setting, max: nat, s: Joint, i: nat)
    requires Proper(t) && JointInv(t, max, s) && s.exec.main.Returned? && i < |t.artifacts|
    ensures TurnedOut(t, s.drain, i)
  {
    P.ReturnedExecuted([t.outcomes], max, s.exec);
    assert InRange([t.outcomes], Ended(0, i));
    assert Ended(0, i) in s.exec.log && P.Logged(s.exec, Ended(0, i));
    assert Fits(t, s, i);
  }

  lemma ReturnedErrors(t: Setting, max: nat, s: Joint)
    requires Proper(t) && JointInv(t, max, s) && s.exec.main.Returned?
    ensures s.exec.errors == [] <==> AllSucceed([t.outcomes])
  {
    P.ReturnedExecuted([t.outcomes], max, s.exec);
    ExecutedErrors([t.outcomes], s.exec.log, s.exec.errors);
  }

  /** When the executor returns, all downloads are over, and it returns no error exactly when all of them succeeded. */
  lemma ReturnedIsSettled(t: Setting, max: nat, states: seq<Joint>, n: nat)
    requires Proper(t) && JointBehaviour(t, max, states) && n < |states| && states[n].exec.main.Returned?
    ensures Settled(states[n].drain)
    ensures states[n].exec.errors == [] <==> AllDone(states[n].drain)
  {
    AlwaysJointInv(t, max, states, n);
    forall i | 0 <= i < |t.artifacts|
      ensures TurnedOut(t, states[n].drain, i) && Over(states[n].drain.downloads[i])
    {
      ReturnedTurnedOut(t, max, states[n], i);
    }
    ReturnedErrors(t, max, states[n]);
    SucceededIsDone(t, states[n].drain);
  }

  lemma SucceededIsDone(t: Setting, drain: Drain)
    requires Proper(t) && |drain.downloads| == |t.artifacts|
    requires forall i | 0 <= i < |t.artifacts| :: TurnedOut(t, drain, i)
    ensures AllSucceed([t.outcomes]) <==> AllDone(drain)
  {
    if AllSucceed([t.outcomes]) {
      forall i | 0 <= i < |t.artifacts| ensures drain.downloads[i].Done? {
        assert TurnedOut(t, drain, i) && [t.outcomes][0][i] == None;
      }
    }
    if AllDone(drain) {
      forall i | 0 <= i < |t.outcomes| ensures t.outcomes[i] == None {
        assert TurnedOut(t, drain, i);
      }
    }
  }

  /** Nothing gets stuck: until everything is finished some step is possible, unless a download is over and did not turn
      out as said. */
  lemma JointNoDeadlock(t: Setting, max: nat, states: seq<Joint>, n: nat) returns (step: JointStep)
    requires Proper(t) && JointBehaviour(t, max, states) && n < |states| && max > 0
    requires !P.Finished(states[n].exec)
    requires forall i | 0 <= i < |t.artifacts| && |states[n].drain.downloads| == |t.artifacts| ::
               Over(states[n].drain.downloads[i]) ==> TurnedOut(t, states[n].drain, i)
    ensures |states[n].drain.downloads| == |t.artifacts| && P.Shape([t.outcomes], states[n].exec)
    ensures JointEnabled(t, max, states[n], step)
  {
    AlwaysJointInv(t, max, states, n);
    var s := states[n];
    var scheduled := P.NoDeadlock([t.outcomes], max, s.exec);
    if scheduled.End? && scheduled.task < |t.artifacts| && !Over(s.drain.downloads[scheduled.task]) {
      step := Perform(Move(scheduled.task, Fails));
    } else {
      step := Schedule(scheduled);
    }
  }

  // ---------------------------------------------------------------------------------------------
  // Such interleavings exist

  lemma OneMoreStep(t: Setting, max: nat, states: seq<Joint>, step: JointStep) returns (states': seq<Joint>)
    requires Proper(t) && JointBehaviour(t, max, states)
    requires var s := states[|states| - 1];
             && |s.drain.downloads| == |t.artifacts| && P.Shape([t.outcomes], s.exec) && JointEnabled(t, max, s, step)
    ensures JointBehaviour(t, max, states')
    ensures states' == states + [JointApply(t, max, states[|states| - 1], step)]
  {
    var s := states[|states| - 1];
    states' := states + [JointApply(t, max, s, step)];
    assert JointNext(t, max, s, JointApply(t, max, s, step));
    forall n | 0 < n < |states'| ensures JointNext(t, max, states'[n - 1], states'[n]) {
      assert n < |states| ==> JointNext(t, max, states[n - 1], states[n]);
    }
  }

  ghost predicate NoneDone(s: Drain) {
    forall i | 0 <= i < |s.downloads| :: !s.downloads[i].Done?
  }

  lemma FailedIsNotDone(t: Setting, s: Drain, i: nat)
    requires Proper(t) && |s.downloads| == |t.artifacts| && i < |t.artifacts| && NoneDone(s) && t.outcomes[i].Some?
    ensures var s' := Play(t.artifacts, t.remote, s, Move(i, Fails));
            NoneDone(s') && TurnedOut(t, s', i)
  {
    FailOne(t.artifacts, t.remote, s, i);
  }

  /** One step of the executor, after the download that it ends, if any, has failed. */
  lemma FollowStep(t: Setting, max: nat, states: seq<Joint>, step: P.Step) returns (states': seq<Joint>)
    requires Proper(t) && JointBehaviour(t, max, states) && forall i | 0 <= i < |t.outcomes| :: t.outcomes[i].Some?
    requires NoneDone(states[|states| - 1].drain)
    requires P.Shape([t.outcomes], states[|states| - 1].exec) &&
             P.Enabled([t.outcomes], max, states[|states| - 1].exec, step)
    ensures JointBehaviour(t, max, states') && NoneDone(states'[|states'| - 1].drain)
    ensures states'[|states'| - 1].exec == P.Apply([t.outcomes], max, states[|states| - 1].exec, step)
  {
    AlwaysJointInv(t, max, states, |states| - 1);
    states' := states;
    if step.End? {
      FailedIsNotDone(t, states[|states| - 1].drain, step.task);
      states' := OneMoreStep(t, max, states, Perform(Move(step.task, Fails)));
    }
    states' := OneMoreStep(t, max, states', Schedule(step));
  }

  /** Any run of the executor over downloads that are to fail is also one of the downloads: each fails before it ends.
      */
  lemma {:induction false} Follow(t: Setting, max: nat, run: seq<P.State>, k: nat) returns (states: seq<Joint>)
    requires Proper(t) && P.Behaviour([t.outcomes], max, run) && k < |run|
    requires forall i | 0 <= i < |t.outcomes| :: t.outcomes[i].Some?
    ensures JointBehaviour(t, max, states)
    ensures states[|states| - 1].exec == run[k] && NoneDone(states[|states| - 1].drain)
  {
    if k == 0 {
      states := [JointInit(t)];
    } else {
      states := Follow(t, max, run, k - 1);
      assert P.Next([t.outcomes], max, run[k - 1], run[k]);
      var step :| P.Enabled([t.outcomes], max, run[k - 1], step) &&
                  run[k] == P.Apply([t.outcomes], max, run[k - 1], step);
      states := FollowStep(t, max, states, step);
    }
  }

  /** For all artifacts there is an interleaving in which the executor runs their downloads and returns. */
  lemma JointRunExists(t: Setting, max: nat) returns (states: seq<Joint>)
    requires Proper(t) && max > 0 && forall i | 0 <= i < |t.outcomes| :: t.outcomes[i].Some?
    ensures JointBehaviour(t, max, states) && states[|states| - 1].exec.main.Returned?
  {
    P.CompleteRunExists([t.outcomes], max);
    var run :| P.CompleteRun([t.outcomes], max, run);
    states := Follow(t, max, run, |run| - 1);
  }
}
