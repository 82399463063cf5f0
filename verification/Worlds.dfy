/** Worlds whose executors are the serial or the parallel one: every deployment, failure pattern and artifact content
    has them, and in them everything proved of possible worlds holds. */
module Worlds {
  import opened Sequences
  import opened Jobs
  import opened LockGraph
  import opened Errors
  import opened Executor
  import opened Transfers
  import opened DrainLog
  import opened Deployment
  import opened Traces
  import opened Session
  import opened Locking
  import P = ParallelExecutor
  import D = ParallelDrain

  /** The jobs on which each call is made, batch by batch. */
  ghost function BatchesOf(w: World, call: Call): seq<seq<Job>> {
    match call
    case Lock(activity) => Levels(w, activity)
    case Unlock(activity, _) => Reversed(Levels(w, activity))
    case BackUp => BackupBatches(w)
    case Upload => UploadBatches(w)
    case Download => []
    case RestoreCall => []
  }

  ghost function OutcomesOf(w: World, call: Call): seq<seq<Outcome>> {
    Outcomes(w, call, BatchesOf(w, call))
  }

  /** The logs and errors are those of an executor that carried out every call. */
  ghost predicate PromiseKept(w: World, log: Call -> seq<Event>, errors: Call -> seq<Error>) {
    forall call :: Executed(OutcomesOf(w, call), log(call), errors(call))
  }

  /** The world with these logs and errors, in which the downloads that are not over yet fail in the end. */
  ghost function RunBy(w: World, log: Call -> seq<Event>, errors: Call -> seq<Error>): World {
    w.(log := log, errors := errors, moves := w.moves + FailAll(|KeysToBackup(w.instances)|))
  }

  // ---------------------------------------------------------------------------------------------
  // What possibility depends on

  lemma {:induction false} OutcomesSame(w: World, w': World, call: Call, batches: seq<seq<Job>>)
    requires w.fails == w'.fails
    ensures Outcomes(w, call, batches) == Outcomes(w', call, batches)
  {
    if batches != [] {
      var last := batches[|batches| - 1];
      OutcomesSame(w, w', call, batches[..|batches| - 1]);
      assert forall i | 0 <= i < |last| :: OutcomeOf(w, call)(last[i]) == OutcomeOf(w', call)(last[i]);
      assert Map(last, OutcomeOf(w, call)) == Map(last, OutcomeOf(w', call));
    }
  }

  lemma SameCarriedOut(w: World, w': World, call: Call, batches: seq<seq<Job>>)
    requires w.fails == w'.fails && w.log == w'.log && w.errors == w'.errors && CarriedOut(w, call, batches)
    ensures CarriedOut(w', call, batches)
  {
    OutcomesSame(w, w', call, batches);
  }

  lemma SameLocks(w: World, w': World, activity: Activity)
    requires w.fails == w'.fails && w.log == w'.log && w.errors == w'.errors && w.instances == w'.instances
    requires LocksCarriedOut(w, activity)
    ensures LocksCarriedOut(w', activity)
  {
    var order := LockOrder(AllJobs(w.instances), activity);
    if order.Some? {
      SameCarriedOut(w, w', Lock(activity), order.value);
      SameCarriedOut(w, w', Unlock(activity, true), Reversed(order.value));
      SameCarriedOut(w, w', Unlock(activity, false), Reversed(order.value));
    }
  }

  /** Whether a world is possible depends on the deployment, the scripts, the executors and the downloads only. */
  lemma SamePossible(w: World, w': World)
    requires w.fails == w'.fails && w.log == w'.log && w.errors == w'.errors && w.instances == w'.instances
    requires w.remote == w'.remote && w.moves == w'.moves && w.metadataWritten == w'.metadataWritten
    requires Possible(w)
    ensures Possible(w')
  {
    SameLocks(w, w', Backing);
    SameLocks(w, w', Restoring);
    SameCarriedOut(w, w', BackUp, BackupBatches(w));
  }

  // ---------------------------------------------------------------------------------------------
  // Executors that keep their promise make a world possible

  lemma KeptIsCarriedOut(w: World, log: Call -> seq<Event>, errors: Call -> seq<Error>, call: Call)
    requires PromiseKept(w, log, errors)
    ensures CarriedOut(RunBy(w, log, errors), call, BatchesOf(w, call))
  {
    OutcomesSame(w, RunBy(w, log, errors), call, BatchesOf(w, call));
    assert Executed(OutcomesOf(w, call), log(call), errors(call));
  }

  lemma KeptLocks(w: World, log: Call -> seq<Event>, errors: Call -> seq<Error>, activity: Activity)
    requires PromiseKept(w, log, errors)
    ensures LocksCarriedOut(RunBy(w, log, errors), activity)
  {
    KeptIsCarriedOut(w, log, errors, Lock(activity));
    KeptIsCarriedOut(w, log, errors, Unlock(activity, true));
    KeptIsCarriedOut(w, log, errors, Unlock(activity, false));
  }

  lemma KeptUploads(w: World, log: Call -> seq<Event>, errors: Call -> seq<Error>)
    requires PromiseKept(w, log, errors)
    ensures ValidLog(UploadBatches(w), log(Upload))
  {
    KeptIsCarriedOut(w, log, errors, Upload);
    CarriedOutIsValid(RunBy(w, log, errors), Upload, UploadBatches(w));
  }

  lemma DownloadsSettle(w: World, log: Call -> seq<Event>, errors: Call -> seq<Error>)
    requires |w.remote| == |KeysToBackup(w.instances)|
    ensures var drained := Drained(RunBy(w, log, errors), FirstMetadata(w));
            Settled(drained) && (Settled(Drained(w, FirstMetadata(w))) ==> drained == Drained(w, FirstMetadata(w)))
  {
    EveryDrainSettles(KeysToBackup(w.instances), w.remote, FirstMetadata(w), w.moves);
  }

  lemma KeptIsPossible(w: World, log: Call -> seq<Event>, errors: Call -> seq<Error>)
    requires PromiseKept(w, log, errors) && |w.remote| == |KeysToBackup(w.instances)|
    ensures Possible(RunBy(w, log, errors))
  {
    KeptLocks(w, log, errors, Backing);
    KeptLocks(w, log, errors, Restoring);
    KeptIsCarriedOut(w, log, errors, BackUp);
    KeptUploads(w, log, errors);
    DownloadsSettle(w, log, errors);
  }

  // ---------------------------------------------------------------------------------------------
  // The serial executor

  ghost function SerialLogOf(w: World): Call -> seq<Event> {
    call => SerialLog(OutcomesOf(w, call), |OutcomesOf(w, call)|, 0)
  }

  ghost function SerialErrorsOf(w: World): Call -> seq<Error> {
    call => Flatten(FailedEach(OutcomesOf(w, call)))
  }

  ghost function Serialised(w: World): World {
    RunBy(w, SerialLogOf(w), SerialErrorsOf(w))
  }

  /** Whatever fails, whatever the artifacts hold and however the downloads are scheduled, the world with the serial
      executor is possible; downloads that come to an end by themselves leave the same behind. */
  lemma EveryWorldIsPossible(w: World)
    requires |w.remote| == |KeysToBackup(w.instances)|
    ensures Possible(Serialised(w))
    ensures Settled(Drained(w, FirstMetadata(w))) ==>
              Drained(Serialised(w), FirstMetadata(w)) == Drained(w, FirstMetadata(w))
  {
    forall call ensures Executed(OutcomesOf(w, call), SerialLogOf(w)(call), SerialErrorsOf(w)(call)) {
      SerialIsValid(OutcomesOf(w, call));
    }
    KeptIsPossible(w, SerialLogOf(w), SerialErrorsOf(w));
    DownloadsSettle(w, SerialLogOf(w), SerialErrorsOf(w));
  }

  // ---------------------------------------------------------------------------------------------
  // The parallel executor

  ghost predicate HasReturned(states: seq<P.State>) {
    states != [] && states[|states| - 1].main.Returned?
  }

  /** For each call an interleaving of the parallel executor that has returned. */
  ghost predicate RunsInParallel(w: World, max: nat, runs: Call -> seq<P.State>) {
    forall call :: P.Behaviour(OutcomesOf(w, call), max, runs(call)) && HasReturned(runs(call))
  }

  ghost function LogAfter(runs: Call -> seq<P.State>): Call -> seq<Event> {
    call => var states := runs(call); if states == [] then [] else states[|states| - 1].log
  }

  ghost function ErrorsAfter(runs: Call -> seq<P.State>): Call -> seq<Error> {
    call => var states := runs(call); if states == [] then [] else states[|states| - 1].errors
  }

  ghost function Parallelised(w: World, runs: Call -> seq<P.State>): World {
    RunBy(w, LogAfter(runs), ErrorsAfter(runs))
  }

  lemma ParallelKeepsPromise(w: World, max: nat, runs: Call -> seq<P.State>)
    requires RunsInParallel(w, max, runs)
    ensures PromiseKept(w, LogAfter(runs), ErrorsAfter(runs))
  {
    forall call ensures Executed(OutcomesOf(w, call), LogAfter(runs)(call), ErrorsAfter(runs)(call)) {
      var states := runs(call);
      assert P.Behaviour(OutcomesOf(w, call), max, states) && HasReturned(states);
      P.ParallelMatchesSerial(OutcomesOf(w, call), max, states, |states| - 1);
    }
  }

  /** Whatever the interleavings of the parallel executor, the world they make is possible: everything proved of
      possible worlds holds of runs with that executor. */
  lemma ParallelIsPossible(w: World, max: nat, runs: Call -> seq<P.State>)
    requires RunsInParallel(w, max, runs) && |w.remote| == |KeysToBackup(w.instances)|
    ensures Possible(Parallelised(w, runs))
  {
    ParallelKeepsPromise(w, max, runs);
    KeptIsPossible(w, LogAfter(runs), ErrorsAfter(runs));
  }

  ghost function SomeRun(run: seq<seq<Outcome>>, max: nat): seq<P.State>
    requires max > 0
  {
    P.CompleteRunExists(run, max);
    var states :| P.CompleteRun(run, max, states);
    states
  }

  /** Such interleavings exist in every world. */
  lemma ParallelRunsExist(w: World, max: nat) returns (runs: Call -> seq<P.State>)
    requires max > 0
    ensures RunsInParallel(w, max, runs)
  {
    runs := call => SomeRun(OutcomesOf(w, call), max);
    forall call ensures P.Behaviour(OutcomesOf(w, call), max, runs(call)) && HasReturned(runs(call)) {
      assert P.CompleteRun(OutcomesOf(w, call), max, runs(call));
    }
  }

  /** The downloads of the world, as executables of the parallel executor. */
  ghost function DownloadSetting(w: World, outcomes: seq<Outcome>): D.Setting {
    D.Setting(KeysToBackup(w.instances), w.remote, FirstMetadata(w), outcomes)
  }

  /** Whatever the interleaving in which the parallel executor runs the downloads, the world with those operations
      leaves behind what they left, reports an error exactly when the executor does, and is possible. */
  lemma ParallelDownloads(w: World, max: nat, runs: Call -> seq<P.State>, outcomes: seq<Outcome>, states: seq<D.Joint>)
    requires D.Proper(DownloadSetting(w, outcomes))
    requires D.JointBehaviour(DownloadSetting(w, outcomes), max, states) && states[|states| - 1].exec.main.Returned?
    requires RunsInParallel(w.(moves := states[|states| - 1].moves), max, runs)
    ensures var last := states[|states| - 1];
            var w' := Parallelised(w.(moves := last.moves), runs);
            && Possible(w')
            && Drained(w', FirstMetadata(w')) == last.drain
            && (last.exec.errors == [] <==> AllDone(Drained(w', FirstMetadata(w'))))
  {
    var last := states[|states| - 1];
    var settled := w.(moves := last.moves);
    D.JointIsDrain(DownloadSetting(w, outcomes), max, states, |states| - 1);
    D.ReturnedIsSettled(DownloadSetting(w, outcomes), max, states, |states| - 1);
    ParallelIsPossible(settled, max, runs);
    DownloadsSettle(settled, LogAfter(runs), ErrorsAfter(runs));
  }

  // ---------------------------------------------------------------------------------------------
  // Nesting in every state of every interleaving

  lemma SameBarred(w: World, call: Call, batches: seq<seq<Job>>, log: seq<Event>)
    requires Barred(Outcomes(w, call, batches), log)
    ensures Barred(batches, log)
  {
    OutcomesAt(w, call, batches);
    forall e ensures InRange(batches, e) <==> InRange(Outcomes(w, call, batches), e) {
    }
  }

  lemma ParallelSeparates(w: World, call: Call, batches: seq<seq<Job>>, max: nat, states: seq<P.State>, n: nat, a: Job,
                          b: Job)
    requires P.Behaviour(Outcomes(w, call, batches), max, states) && n < |states|
    requires a in Flatten(batches) && Apart(batches, a, b)
    ensures EndsBeforeBegins(TraceOf(call, batches, states[n].log), call, a, b)
  {
    P.AlwaysBarred(Outcomes(w, call, batches), max, states, n);
    SameBarred(w, call, batches, states[n].log);
    BatchesSeparate(call, batches, states[n].log, a, b);
  }

  /** In every state of every interleaving: if a must be locked before b, b's lock has not begun before a's ended ... */
  lemma ParallelLocksNest(w: World, activity: Activity, max: nat, states: seq<P.State>, n: nat, a: Job, b: Job)
    requires !Cyclic(AllJobs(w.instances), activity) && LocksBefore(w, activity, a, b)
    requires P.Behaviour(Outcomes(w, Lock(activity), Levels(w, activity)), max, states) && n < |states|
    ensures EndsBeforeBegins(TraceOf(Lock(activity), Levels(w, activity), states[n].log), Lock(activity), a, b)
  {
    LevelsApart(w, activity, a, b);
    ParallelSeparates(w, Lock(activity), Levels(w, activity), max, states, n, a, b);
  }

  /** ... and a's unlock has not begun before b's ended. */
  lemma ParallelUnlocksNest(w: World, activity: Activity, ok: bool, max: nat, states: seq<P.State>, n: nat, a: Job,
                            b: Job)
    requires !Cyclic(AllJobs(w.instances), activity) && LocksBefore(w, activity, a, b)
    requires P.Behaviour(Outcomes(w, Unlock(activity, ok), Reversed(Levels(w, activity))), max, states) && n < |states|
    ensures EndsBeforeBegins(TraceOf(Unlock(activity, ok), Reversed(Levels(w, activity)), states[n].log),
                             Unlock(activity, ok), b, a)
  {
    LevelsApart(w, activity, a, b);
    ParallelSeparates(w, Unlock(activity, ok), Reversed(Levels(w, activity)), max, states, n, b, a);
  }
}
