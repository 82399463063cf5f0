/** The parallel executor (executor/parallel.go) as a step relation over all interleavings. Each batch has its own
    guard and errs channels; a goroutine of a finished batch may still hold a token of its old guard. */
module ParallelExecutor {
  import opened Sequences
  import opened Errors
  import opened Executor

  /** Where a goroutine stands: not spawned, spawned, inside Execute, about to send its result,
      about to take its token back, gone. */
  datatype Phase = Unspawned | Ready | Executing | Sending | Releasing | Exited

  /** Where the main goroutine stands in the current batch. */
  datatype Main = Acquiring(task: nat) | Spawning(task: nat) | Collecting | Returned

  /** One batch: its goroutines, the tokens in guard, the buffered results in errs, the results already received. */
  datatype Batch = Batch(phases: seq<Phase>, guard: nat, errs: seq<Outcome>, received: seq<Outcome>)

  datatype State = State(current: nat, main: Main, batches: seq<Batch>, errors: seq<Error>, log: seq<Event>)

  datatype Step =
    | Acquire | Spawn | Receive | NextBatch
    | Begin(batch: nat, task: nat) | End(batch: nat, task: nat)
    | Send(batch: nat, task: nat) | Release(batch: nat, task: nat)

  function Fresh(outcomes: seq<Outcome>): Batch {
    Batch(seq(|outcomes|, _ => Unspawned), 0, [], [])
  }

  function Entry(run: seq<seq<Outcome>>, b: nat): Main {
    if b >= |run| then Returned else if run[b] == [] then Collecting else Acquiring(0)
  }

  function Init(run: seq<seq<Outcome>>): State {
    State(0, Entry(run, 0), Map(run, Fresh), [], [])
  }

  ghost predicate Shape(run: seq<seq<Outcome>>, s: State) {
    && |s.batches| == |run|
    && s.current <= |run|
    && (s.main.Returned? <==> s.current == |run|)
    && (s.main.Acquiring? || s.main.Spawning? ==> s.main.task < |run[s.current]|)
    && forall b | 0 <= b < |run| :: |s.batches[b].phases| == |run[b]|
  }

  ghost predicate At(s: State, b: nat, i: nat, phase: Phase) {
    b < |s.batches| && i < |s.batches[b].phases| && s.batches[b].phases[i] == phase
  }

  ghost predicate Enabled(run: seq<seq<Outcome>>, max: nat, s: State, step: Step)
    requires Shape(run, s)
  {
    match step
    case Acquire => s.main.Acquiring? && s.batches[s.current].guard < max
    case Spawn => s.main.Spawning?
    case Receive =>
      s.main.Collecting? && |s.batches[s.current].received| < |run[s.current]| && s.batches[s.current].errs != []
    case NextBatch => s.main.Collecting? && |s.batches[s.current].received| >= |run[s.current]|
    case Begin(b, i) => At(s, b, i, Ready)
    case End(b, i) => At(s, b, i, Executing)
    case Send(b, i) => At(s, b, i, Sending) && |s.batches[b].errs| < |run[b]|
    case Release(b, i) => At(s, b, i, Releasing) && s.batches[b].guard > 0
  }

  ghost function MoveTo(s: State, b: nat, i: nat, phase: Phase): State
    requires b < |s.batches| && i < |s.batches[b].phases|
  {
    s.(batches := s.batches[b := s.batches[b].(phases := s.batches[b].phases[i := phase])])
  }

  ghost function Apply(run: seq<seq<Outcome>>, max: nat, s: State, step: Step): State
    requires Shape(run, s) && Enabled(run, max, s, step)
  {
    match step
    case Acquire =>
      var x := s.batches[s.current];
      s.(main := Spawning(s.main.task), batches := s.batches[s.current := x.(guard := x.guard + 1)])
    case Spawn =>
      var t := s.main.task;
      MoveTo(s, s.current, t, Ready).(main := if t + 1 < |run[s.current]| then Acquiring(t + 1) else Collecting)
    case Receive =>
      var x := s.batches[s.current];
      s.(batches := s.batches[s.current := x.(errs := x.errs[1..], received := x.received + [x.errs[0]])],
         errors := if x.errs[0].Some? then s.errors + [x.errs[0].value] else s.errors)
    case NextBatch =>
      s.(current := s.current + 1, main := Entry(run, s.current + 1))
    case Begin(b, i) =>
      MoveTo(s, b, i, Executing).(log := s.log + [Began(b, i)])
    case End(b, i) =>
      MoveTo(s, b, i, Sending).(log := s.log + [Ended(b, i)])
    case Send(b, i) =>
      var x := s.batches[b];
      s.(batches := s.batches[b := x.(phases := x.phases[i := Releasing], errs := x.errs + [run[b][i]])])
    case Release(b, i) =>
      var x := s.batches[b];
      s.(batches := s.batches[b := x.(phases := x.phases[i := Exited], guard := x.guard - 1)])
  }

  ghost predicate Next(run: seq<seq<Outcome>>, max: nat, s: State, s': State) {
    Shape(run, s) && exists step :: Enabled(run, max, s, step) && s' == Apply(run, max, s, step)
  }

  /** A run of the executor under some schedule: any sequence of steps from the start. */
  ghost predicate Behaviour(run: seq<seq<Outcome>>, max: nat, states: seq<State>) {
    && |states| > 0
    && states[0] == Init(run)
    && forall n | 0 < n < |states| :: Next(run, max, states[n - 1], states[n])
  }

  // ---------------------------------------------------------------------------------------------
  // Counting goroutines of one batch

  /** 1 for a goroutine that holds a token of the guard. */
  function Holds(p: Phase): nat {
    if p.Unspawned? || p.Exited? then 0 else 1
  }

  function Holding(ps: seq<Phase>): nat {
    if ps == [] then 0 else Holding(ps[..|ps| - 1]) + Holds(ps[|ps| - 1])
  }

  predicate HasSent(p: Phase) {
    p.Releasing? || p.Exited?
  }

  /** The outcomes of the goroutines that have sent theirs. */
  ghost function Sent(outcomes: seq<Outcome>, ps: seq<Phase>): multiset<Outcome>
    requires |outcomes| == |ps|
  {
    if ps == [] then multiset{}
    else
      var n := |ps| - 1;
      var before := Sent(outcomes[..n], ps[..n]);
      if HasSent(ps[n]) then before + multiset{outcomes[n]} else before
  }

  lemma {:induction false} HoldingUpdate(ps: seq<Phase>, i: nat, p: Phase)
    requires i < |ps|
    ensures Holding(ps[i := p]) + Holds(ps[i]) == Holding(ps) + Holds(p)
  {
    var n := |ps| - 1;
    if i == n {
      assert ps[i := p][..n] == ps[..n];
    } else {
      assert ps[i := p][..n] == ps[..n][i := p];
      HoldingUpdate(ps[..n], i, p);
    }
  }

  lemma Swap<T>(m: multiset<T>, x: T, y: T)
    ensures m + multiset{x} + multiset{y} == m + multiset{y} + multiset{x}
  {
  }

  lemma {:induction false} SentSame(outcomes: seq<Outcome>, ps: seq<Phase>, i: nat, p: Phase)
    requires |outcomes| == |ps| && i < |ps| && HasSent(p) == HasSent(ps[i])
    ensures Sent(outcomes, ps[i := p]) == Sent(outcomes, ps)
  {
    var n, ps' := |ps| - 1, ps[i := p];
    if i == n {
      assert ps'[..n] == ps[..n];
    } else {
      assert ps'[..n] == ps[..n][i := p] && ps'[n] == ps[n];
      SentSame(outcomes[..n], ps[..n], i, p);
    }
  }

  lemma {:induction false} SentOneMore(outcomes: seq<Outcome>, ps: seq<Phase>, i: nat, p: Phase)
    requires |outcomes| == |ps| && i < |ps| && HasSent(p) && !HasSent(ps[i])
    ensures Sent(outcomes, ps[i := p]) == Sent(outcomes, ps) + multiset{outcomes[i]}
  {
    var n, ps' := |ps| - 1, ps[i := p];
    if i == n {
      assert ps'[..n] == ps[..n];
    } else {
      assert ps'[..n] == ps[..n][i := p] && ps'[n] == ps[n];
      SentOneMore(outcomes[..n], ps[..n], i, p);
      Swap(Sent(outcomes[..n], ps[..n]), outcomes[i], outcomes[n]);
    }
  }

  lemma SentUpdate(outcomes: seq<Outcome>, ps: seq<Phase>, i: nat, p: Phase)
    requires |outcomes| == |ps| && i < |ps|
    requires HasSent(ps[i]) ==> HasSent(p)
    ensures Sent(outcomes, ps[i := p]) ==
            Sent(outcomes, ps) + if HasSent(p) && !HasSent(ps[i]) then multiset{outcomes[i]} else multiset{}
  {
    if HasSent(p) && !HasSent(ps[i]) {
      SentOneMore(outcomes, ps, i, p);
    } else {
      SentSame(outcomes, ps, i, p);
    }
  }

  lemma {:induction false} SentSize(outcomes: seq<Outcome>, ps: seq<Phase>)
    requires |outcomes| == |ps|
    ensures |Sent(outcomes, ps)| <= |ps|
    ensures |Sent(outcomes, ps)| == |ps| ==> forall i | 0 <= i < |ps| :: HasSent(ps[i])
    ensures (forall i | 0 <= i < |ps| :: HasSent(ps[i])) ==> Sent(outcomes, ps) == multiset(outcomes)
  {
    if ps != [] {
      var n := |ps| - 1;
      SentSize(outcomes[..n], ps[..n]);
      assert outcomes == outcomes[..n] + [outcomes[n]];
    }
  }

  lemma {:induction false} NobodyYet(outcomes: seq<Outcome>, ps: seq<Phase>)
    requires |outcomes| == |ps| && forall i | 0 <= i < |ps| :: ps[i].Unspawned?
    ensures Holding(ps) == 0 && Sent(outcomes, ps) == multiset{}
  {
    if ps != [] {
      var n := |ps| - 1;
      NobodyYet(outcomes[..n], ps[..n]);
    }
  }

  lemma {:induction false} SomeoneHolds(ps: seq<Phase>, i: nat)
    requires i < |ps| && Holds(ps[i]) == 1
    ensures Holding(ps) >= 1
  {
    if i < |ps| - 1 {
      SomeoneHolds(ps[..|ps| - 1], i);
    }
  }

  /** If every goroutine is either spawned and not gone, or not spawned, some spawned one holds a token. */
  lemma {:induction false} FindHolder(ps: seq<Phase>) returns (i: nat)
    requires Holding(ps) > 0
    ensures i < |ps| && Holds(ps[i]) == 1
  {
    var n := |ps| - 1;
    if Holds(ps[n]) == 1 {
      i := n;
    } else {
      i := FindHolder(ps[..n]);
    }
  }

  // ---------------------------------------------------------------------------------------------
  // The invariant

  /** One batch of which the first spawned goroutines exist and the main goroutine holds pending tokens. */
  ghost predicate BatchInv(outcomes: seq<Outcome>, max: nat, x: Batch, spawned: nat, pending: nat) {
    && |x.phases| == |outcomes|
    && (forall i | 0 <= i < |x.phases| :: x.phases[i].Unspawned? <==> i >= spawned)
    && x.guard == Holding(x.phases) + pending
    && x.guard <= max
    && multiset(x.errs) + multiset(x.received) == Sent(outcomes, x.phases)
  }

  ghost function Spawned(run: seq<seq<Outcome>>, s: State, b: nat): nat
    requires Shape(run, s) && b < |run|
  {
    if b < s.current then |run[b]|
    else if b > s.current then 0
    else if s.main.Collecting? then |run[b]|
    else s.main.task
  }

  ghost function Pending(s: State, b: nat): nat {
    if b == s.current && s.main.Spawning? then 1 else 0
  }

  /** Before its turn a batch has received nothing; after it, everything. */
  ghost predicate ReceivedInv(run: seq<seq<Outcome>>, s: State, b: nat)
    requires Shape(run, s) && b < |run|
  {
    && (b < s.current ==> |s.batches[b].received| == |run[b]|)
    && (b > s.current ==> s.batches[b].received == [])
  }

  ghost predicate Logged(s: State, e: Event) {
    && e.batch < |s.batches|
    && e.task < |s.batches[e.batch].phases|
    && var p := s.batches[e.batch].phases[e.task];
       if e.Began? then p.Executing? || p.Sending? || HasSent(p) else p.Sending? || HasSent(p)
  }

  ghost predicate LogInv(s: State) {
    Orderly(s.log) && forall e :: e in s.log <==> Logged(s, e)
  }

  function Reported(x: Batch): seq<Error> {
    Failed(x.received)
  }

  ghost predicate Inv(run: seq<seq<Outcome>>, max: nat, s: State) {
    && Shape(run, s)
    && (forall b | 0 <= b < |run| :: BatchInv(run[b], max, s.batches[b], Spawned(run, s, b), Pending(s, b)))
    && (forall b | 0 <= b < |run| :: ReceivedInv(run, s, b))
    && LogInv(s)
    && s.errors == Flatten(Map(s.batches, Reported))
  }

  lemma FreshInv(outcomes: seq<Outcome>, max: nat)
    ensures BatchInv(outcomes, max, Fresh(outcomes), 0, 0)
  {
    NobodyYet(outcomes, Fresh(outcomes).phases);
  }

  lemma InitInv(run: seq<seq<Outcome>>, max: nat)
    ensures Inv(run, max, Init(run))
  {
    var s := Init(run);
    forall b | 0 <= b < |run|
      ensures BatchInv(run[b], max, s.batches[b], Spawned(run, s, b), Pending(s, b))
      ensures ReceivedInv(run, s, b)
    {
      InitBatch(run, max, b);
    }
    InitErrors(run);
    InitLog(run);
  }

  lemma InitBatch(run: seq<seq<Outcome>>, max: nat, b: nat)
    requires b < |run|
    ensures var s := Init(run);
            Shape(run, s) && ReceivedInv(run, s, b) &&
            BatchInv(run[b], max, s.batches[b], Spawned(run, s, b), Pending(s, b))
  {
    FreshInv(run[b], max);
  }

  lemma InitErrors(run: seq<seq<Outcome>>)
    ensures Flatten(Map(Map(run, Fresh), Reported)) == []
  {
    AllEmpty(Map(Map(run, Fresh), Reported));
  }

  lemma InitLog(run: seq<seq<Outcome>>)
    ensures LogInv(Init(run))
  {
  }

  lemma {:induction false} AllEmpty<T>(ss: seq<seq<T>>)
    requires forall b | 0 <= b < |ss| :: ss[b] == []
    ensures Flatten(ss) == []
  {
    if ss != [] {
      AllEmpty(ss[..|ss| - 1]);
    }
  }

  /** Appending to the last non-empty part appends to the whole. */
  lemma {:induction false} FlattenAppend<T>(ss: seq<seq<T>>, b: nat, x: seq<T>)
    requires b < |ss| && forall c | b < c < |ss| :: ss[c] == []
    ensures Flatten(ss[b := ss[b] + x]) == Flatten(ss) + x
  {
    var n := |ss| - 1;
    if b == n {
      assert ss[b := ss[b] + x][..n] == ss[..n];
    } else {
      assert ss[b := ss[b] + x][..n] == ss[..n][b := ss[b] + x];
      FlattenAppend(ss[..n], b, x);
    }
  }

  /** Once all results of a batch are received, all its goroutines have sent theirs and nothing is buffered. */
  lemma AllReceived(outcomes: seq<Outcome>, max: nat, x: Batch, spawned: nat, pending: nat)
    requires BatchInv(outcomes, max, x, spawned, pending)
    ensures |x.errs| + |x.received| == |Sent(outcomes, x.phases)| <= |outcomes|
    ensures |x.received| == |outcomes| ==> forall i | 0 <= i < |outcomes| :: HasSent(x.phases[i])
    ensures |x.received| == |outcomes| ==> multiset(x.received) == multiset(outcomes)
  {
    SentSize(outcomes, x.phases);
    assert |multiset(x.errs) + multiset(x.received)| == |x.errs| + |x.received|;
    if |x.received| == |outcomes| {
      assert x.errs == [];
    }
  }

  /** A goroutine that runs belongs to the current batch: the barrier between batches. */
  lemma RunningIsCurrent(run: seq<seq<Outcome>>, max: nat, s: State, b: nat, i: nat)
    requires Inv(run, max, s) && b < |run| && i < |run[b]|
    requires !HasSent(s.batches[b].phases[i]) && !s.batches[b].phases[i].Unspawned?
    ensures b == s.current
  {
    assert BatchInv(run[b], max, s.batches[b], Spawned(run, s, b), Pending(s, b));
    assert ReceivedInv(run, s, b);
    AllReceived(run[b], max, s.batches[b], Spawned(run, s, b), Pending(s, b));
  }

  // ---------------------------------------------------------------------------------------------
  // Every step keeps the invariant: first inside one batch ...

  lemma SpawnBatch(outcomes: seq<Outcome>, max: nat, x: Batch, t: nat)
    requires BatchInv(outcomes, max, x, t, 1) && t < |outcomes|
    ensures BatchInv(outcomes, max, x.(phases := x.phases[t := Ready]), t + 1, 0)
  {
    HoldingUpdate(x.phases, t, Ready);
    SentUpdate(outcomes, x.phases, t, Ready);
  }

  lemma ReceiveBatch(outcomes: seq<Outcome>, max: nat, x: Batch, spawned: nat, pending: nat)
    requires BatchInv(outcomes, max, x, spawned, pending) && x.errs != []
    ensures BatchInv(outcomes, max, x.(errs := x.errs[1..], received := x.received + [x.errs[0]]), spawned, pending)
  {
    assert x.errs == [x.errs[0]] + x.errs[1..];
  }

  lemma ExecuteBatch(outcomes: seq<Outcome>, max: nat, x: Batch, spawned: nat, pending: nat, i: nat, p: Phase)
    requires BatchInv(outcomes, max, x, spawned, pending) && i < |x.phases|
    requires (x.phases[i].Ready? && p.Executing?) || (x.phases[i].Executing? && p.Sending?)
    ensures BatchInv(outcomes, max, x.(phases := x.phases[i := p]), spawned, pending)
  {
    HoldingUpdate(x.phases, i, p);
    SentUpdate(outcomes, x.phases, i, p);
  }

  lemma SendBatch(outcomes: seq<Outcome>, max: nat, x: Batch, spawned: nat, pending: nat, i: nat)
    requires BatchInv(outcomes, max, x, spawned, pending) && i < |x.phases| && x.phases[i].Sending?
    ensures BatchInv(outcomes, max, x.(phases := x.phases[i := Releasing], errs := x.errs + [outcomes[i]]), spawned,
                     pending)
  {
    HoldingUpdate(x.phases, i, Releasing);
    SentUpdate(outcomes, x.phases, i, Releasing);
  }

  lemma ReleaseBatch(outcomes: seq<Outcome>, max: nat, x: Batch, spawned: nat, pending: nat, i: nat)
    requires BatchInv(outcomes, max, x, spawned, pending) && i < |x.phases| && x.phases[i].Releasing?
    ensures x.guard > 0
    ensures BatchInv(outcomes, max, x.(phases := x.phases[i := Exited], guard := x.guard - 1), spawned, pending)
  {
    SomeoneHolds(x.phases, i);
    HoldingUpdate(x.phases, i, Exited);
    SentUpdate(outcomes, x.phases, i, Exited);
  }

  // ... then for the whole state.

  /** Replacing one batch, with the main goroutine at a possibly new place in the same batch. */
  lemma ReplaceBatch(run: seq<seq<Outcome>>, max: nat, s: State, s': State, b: nat)
    requires Inv(run, max, s) && Shape(run, s') && b < |run|
    requires s'.current == s.current && s'.batches == s.batches[b := s'.batches[b]]
    requires b != s.current ==> s'.main == s.main
    requires BatchInv(run[b], max, s'.batches[b], Spawned(run, s', b), Pending(s', b))
    requires s'.batches[b].received == s.batches[b].received || b == s.current
    requires LogInv(s')
    requires s'.errors == Flatten(Map(s'.batches, Reported))
    ensures Inv(run, max, s')
  {
    forall c | 0 <= c < |run|
      ensures BatchInv(run[c], max, s'.batches[c], Spawned(run, s', c), Pending(s', c))
      ensures ReceivedInv(run, s', c)
    {
      assert BatchInv(run[c], max, s.batches[c], Spawned(run, s, c), Pending(s, c));
      assert ReceivedInv(run, s, c);
    }
  }

  /** The log stays right when a goroutine moves between phases that log nothing new. */
  lemma SameLog(s: State, s': State, b: nat, i: nat)
    requires LogInv(s) && s'.log == s.log
    requires b < |s.batches| == |s'.batches| && i < |s.batches[b].phases| == |s'.batches[b].phases|
    requires s'.batches == s.batches[b := s'.batches[b]]
    requires s'.batches[b].phases == s.batches[b].phases[i := s'.batches[b].phases[i]]
    requires var p, p' := s.batches[b].phases[i], s'.batches[b].phases[i];
             (HasSent(p) || p.Sending? ==> HasSent(p')) && (p.Unspawned? ==> p'.Ready?) &&
             (p.Unspawned? || p.Sending? || p.Releasing?)
    ensures LogInv(s')
  {
    forall e ensures Logged(s', e) <==> Logged(s, e) {
    }
  }

  lemma SameReports(s: State, s': State, b: nat)
    requires b < |s.batches| == |s'.batches| && s'.batches == s.batches[b := s'.batches[b]]
    requires s'.batches[b].received == s.batches[b].received
    ensures Map(s'.batches, Reported) == Map(s.batches, Reported)
  {
  }

  lemma AcquireInv(run: seq<seq<Outcome>>, max: nat, s: State)
    requires Inv(run, max, s) && Enabled(run, max, s, Acquire)
    ensures Inv(run, max, Apply(run, max, s, Acquire))
  {
    var s' := Apply(run, max, s, Acquire);
    var b := s.current;
    assert BatchInv(run[b], max, s.batches[b], Spawned(run, s, b), Pending(s, b));
    SameReports(s, s', b);
    SamePhases(s, s');
    ReplaceBatch(run, max, s, s', b);
  }

  lemma SpawnInv(run: seq<seq<Outcome>>, max: nat, s: State)
    requires Inv(run, max, s) && Enabled(run, max, s, Spawn)
    ensures Inv(run, max, Apply(run, max, s, Spawn))
  {
    var s' := Apply(run, max, s, Spawn);
    var b := s.current;
    assert BatchInv(run[b], max, s.batches[b], Spawned(run, s, b), Pending(s, b));
    SpawnBatch(run[b], max, s.batches[b], s.main.task);
    SameReports(s, s', b);
    SameLog(s, s', b, s.main.task);
    ReplaceBatch(run, max, s, s', b);
  }

  /** Receiving a result appends its error, if any, to the errors of the current batch and of the whole run. */
  lemma ReceiveReports(run: seq<seq<Outcome>>, max: nat, s: State)
    requires Inv(run, max, s) && Enabled(run, max, s, Receive)
    ensures var s' := Apply(run, max, s, Receive);
            s'.errors == Flatten(Map(s'.batches, Reported))
  {
    var s' := Apply(run, max, s, Receive);
    var b, x := s.current, s.batches[s.current];
    var e := if x.errs[0].Some? then [x.errs[0].value] else [];
    var reports := Map(s.batches, Reported);
    assert (x.received + [x.errs[0]])[..|x.received|] == x.received;
    assert Failed(x.received + [x.errs[0]]) == Failed(x.received) + e;
    assert Map(s'.batches, Reported) == reports[b := reports[b] + e];
    forall c | b < c < |run| ensures reports[c] == [] {
      assert ReceivedInv(run, s, c);
    }
    FlattenAppend(reports, b, e);
  }

  lemma SamePhases(s: State, s': State)
    requires LogInv(s) && s'.log == s.log && |s'.batches| == |s.batches|
    requires forall b | 0 <= b < |s.batches| :: s'.batches[b].phases == s.batches[b].phases
    ensures LogInv(s')
  {
    forall e ensures Logged(s', e) <==> Logged(s, e) {
    }
  }

  lemma ReceiveInv(run: seq<seq<Outcome>>, max: nat, s: State)
    requires Inv(run, max, s) && Enabled(run, max, s, Receive)
    ensures Inv(run, max, Apply(run, max, s, Receive))
  {
    var s' := Apply(run, max, s, Receive);
    var b := s.current;
    assert BatchInv(run[b], max, s.batches[b], Spawned(run, s, b), Pending(s, b));
    ReceiveBatch(run[b], max, s.batches[b], Spawned(run, s, b), Pending(s, b));
    ReceiveReports(run, max, s);
    SamePhases(s, s');
    ReplaceBatch(run, max, s, s', b);
  }

  lemma NextBatchOne(run: seq<seq<Outcome>>, max: nat, s: State, c: nat)
    requires Inv(run, max, s) && Enabled(run, max, s, NextBatch) && c < |run|
    ensures var s' := Apply(run, max, s, NextBatch);
            Shape(run, s') && Spawned(run, s', c) == Spawned(run, s, c) && Pending(s', c) == Pending(s, c) &&
            ReceivedInv(run, s', c)
  {
    assert ReceivedInv(run, s, c);
    AllOfCurrent(run, max, s);
    NextBatchShape(run, max, s);
    SameSpawned(run, max, s, c);
  }

  lemma SameSpawned(run: seq<seq<Outcome>>, max: nat, s: State, c: nat)
    requires Shape(run, s) && Enabled(run, max, s, NextBatch) && c < |run|
    requires Shape(run, Apply(run, max, s, NextBatch))
    ensures var s' := Apply(run, max, s, NextBatch);
            Spawned(run, s', c) == Spawned(run, s, c) && Pending(s', c) == Pending(s, c)
  {
  }

  lemma NextBatchShape(run: seq<seq<Outcome>>, max: nat, s: State)
    requires Shape(run, s) && Enabled(run, max, s, NextBatch)
    ensures Shape(run, Apply(run, max, s, NextBatch))
  {
  }

  lemma AllOfCurrent(run: seq<seq<Outcome>>, max: nat, s: State)
    requires Inv(run, max, s) && Enabled(run, max, s, NextBatch)
    ensures |s.batches[s.current].received| == |run[s.current]|
  {
    var c := s.current;
    assert BatchInv(run[c], max, s.batches[c], Spawned(run, s, c), Pending(s, c));
    AllReceived(run[c], max, s.batches[c], Spawned(run, s, c), Pending(s, c));
  }

  lemma NextBatchKeeps(run: seq<seq<Outcome>>, max: nat, s: State, c: nat)
    requires Inv(run, max, s) && Enabled(run, max, s, NextBatch) && c < |run|
    ensures var s' := Apply(run, max, s, NextBatch);
            && Shape(run, s') && ReceivedInv(run, s', c)
            && BatchInv(run[c], max, s'.batches[c], Spawned(run, s', c), Pending(s', c))
  {
    NextBatchOne(run, max, s, c);
    assert BatchInv(run[c], max, s.batches[c], Spawned(run, s, c), Pending(s, c));
  }

  lemma NextBatchInv(run: seq<seq<Outcome>>, max: nat, s: State)
    requires Inv(run, max, s) && Enabled(run, max, s, NextBatch)
    ensures Inv(run, max, Apply(run, max, s, NextBatch))
  {
    var s' := Apply(run, max, s, NextBatch);
    SamePhases(s, s');
    NextBatchShape(run, max, s);
    forall c | 0 <= c < |run|
      ensures BatchInv(run[c], max, s'.batches[c], Spawned(run, s', c), Pending(s', c)) && ReceivedInv(run, s', c)
    {
      NextBatchKeeps(run, max, s, c);
    }
  }

  /** Whatever was logged so far belongs to the current batch or an earlier one. */
  lemma LoggedIsPast(run: seq<seq<Outcome>>, max: nat, s: State, e: Event)
    requires Inv(run, max, s) && e in s.log
    ensures e.batch <= s.current
  {
    assert BatchInv(run[e.batch], max, s.batches[e.batch], Spawned(run, s, e.batch), Pending(s, e.batch));
  }

  lemma BeginInv(run: seq<seq<Outcome>>, max: nat, s: State, b: nat, i: nat)
    requires Inv(run, max, s) && Enabled(run, max, s, Begin(b, i))
    ensures Inv(run, max, Apply(run, max, s, Begin(b, i)))
  {
    var s' := Apply(run, max, s, Begin(b, i));
    RunningIsCurrent(run, max, s, b, i);
    ExecuteBatch(run[b], max, s.batches[b], Spawned(run, s, b), Pending(s, b), i, Executing);
    SameReports(s, s', b);
    forall e | e in s.log ensures e.batch <= b {
      LoggedIsPast(run, max, s, e);
    }
    AppendEvent(s.log, Began(b, i));
    forall e ensures Logged(s', e) <==> Logged(s, e) || e == Began(b, i) {
    }
    ReplaceBatch(run, max, s, s', b);
  }

  lemma EndInv(run: seq<seq<Outcome>>, max: nat, s: State, b: nat, i: nat)
    requires Inv(run, max, s) && Enabled(run, max, s, End(b, i))
    ensures Inv(run, max, Apply(run, max, s, End(b, i)))
  {
    var s' := Apply(run, max, s, End(b, i));
    RunningIsCurrent(run, max, s, b, i);
    ExecuteBatch(run[b], max, s.batches[b], Spawned(run, s, b), Pending(s, b), i, Sending);
    SameReports(s, s', b);
    forall e | e in s.log ensures e.batch <= b {
      LoggedIsPast(run, max, s, e);
    }
    AppendEvent(s.log, Ended(b, i));
    forall e ensures Logged(s', e) <==> Logged(s, e) || e == Ended(b, i) {
    }
    ReplaceBatch(run, max, s, s', b);
  }

  lemma SendInv(run: seq<seq<Outcome>>, max: nat, s: State, b: nat, i: nat)
    requires Inv(run, max, s) && Enabled(run, max, s, Send(b, i))
    ensures Inv(run, max, Apply(run, max, s, Send(b, i)))
  {
    var s' := Apply(run, max, s, Send(b, i));
    assert BatchInv(run[b], max, s.batches[b], Spawned(run, s, b), Pending(s, b));
    SendBatch(run[b], max, s.batches[b], Spawned(run, s, b), Pending(s, b), i);
    SameReports(s, s', b);
    SameLog(s, s', b, i);
    ReplaceBatch(run, max, s, s', b);
  }

  lemma ReleaseInv(run: seq<seq<Outcome>>, max: nat, s: State, b: nat, i: nat)
    requires Inv(run, max, s) && Enabled(run, max, s, Release(b, i))
    ensures Inv(run, max, Apply(run, max, s, Release(b, i)))
  {
    var s' := Apply(run, max, s, Release(b, i));
    assert BatchInv(run[b], max, s.batches[b], Spawned(run, s, b), Pending(s, b));
    ReleaseBatch(run[b], max, s.batches[b], Spawned(run, s, b), Pending(s, b), i);
    SameReports(s, s', b);
    SameLog(s, s', b, i);
    ReplaceBatch(run, max, s, s', b);
  }

  lemma StepInv(run: seq<seq<Outcome>>, max: nat, s: State, step: Step)
    requires Inv(run, max, s) && Enabled(run, max, s, step)
    ensures Inv(run, max, Apply(run, max, s, step))
  {
    match step
    case Acquire => AcquireInv(run, max, s);
    case Spawn => SpawnInv(run, max, s);
    case Receive => ReceiveInv(run, max, s);
    case NextBatch => NextBatchInv(run, max, s);
    case Begin(b, i) => BeginInv(run, max, s, b, i);
    case End(b, i) => EndInv(run, max, s, b, i);
    case Send(b, i) => SendInv(run, max, s, b, i);
    case Release(b, i) => ReleaseInv(run, max, s, b, i);
  }

  /** The invariant holds in every state of every run. */
  lemma {:induction false} AlwaysInv(run: seq<seq<Outcome>>, max: nat, states: seq<State>, n: nat)
    requires Behaviour(run, max, states) && n < |states|
    ensures Inv(run, max, states[n])
  {
    if n == 0 {
      InitInv(run, max);
    } else {
      AlwaysInv(run, max, states, n - 1);
      assert Next(run, max, states[n - 1], states[n]);
      var step :| Enabled(run, max, states[n - 1], step) && states[n] == Apply(run, max, states[n - 1], step);
      StepInv(run, max, states[n - 1], step);
    }
  }

  // ---------------------------------------------------------------------------------------------
  // Safety in every reachable state

  ghost function Running(s: State): set<(nat, nat)> {
    set b, i | 0 <= b < |s.batches| && 0 <= i < |s.batches[b].phases| && s.batches[b].phases[i].Executing? :: (b, i)
  }

  ghost function RunningIn(b: nat, ps: seq<Phase>): set<(nat, nat)> {
    set i | 0 <= i < |ps| && ps[i].Executing? :: (b, i)
  }

  lemma {:induction false} RunningHolds(b: nat, ps: seq<Phase>)
    ensures |RunningIn(b, ps)| <= Holding(ps)
  {
    if ps == [] {
      assert RunningIn(b, ps) == {};
    } else {
      var n := |ps| - 1;
      RunningHolds(b, ps[..n]);
      assert RunningIn(b, ps) == RunningIn(b, ps[..n]) + if ps[n].Executing? then {(b, n)} else {};
    }
  }

  lemma InvBoundsRunning(run: seq<seq<Outcome>>, max: nat, s: State)
    requires Inv(run, max, s)
    ensures |Running(s)| <= max
    ensures forall x, y | x in Running(s) && y in Running(s) :: x.0 == y.0
  {
    forall x | x in Running(s) ensures x.0 == s.current {
      RunningIsCurrent(run, max, s, x.0, x.1);
    }
    if s.current < |run| {
      var b := s.current;
      assert BatchInv(run[b], max, s.batches[b], Spawned(run, s, b), Pending(s, b));
      RunningHolds(b, s.batches[b].phases);
      assert Running(s) == RunningIn(b, s.batches[b].phases);
    } else {
      assert Running(s) == {};
    }
  }

  /** At most max executables run at once, and only those of one batch. */
  lemma BoundedConcurrency(run: seq<seq<Outcome>>, max: nat, states: seq<State>, n: nat)
    requires Behaviour(run, max, states) && n < |states|
    ensures |Running(states[n])| <= max
    ensures forall x, y | x in Running(states[n]) && y in Running(states[n]) :: x.0 == y.0
  {
    AlwaysInv(run, max, states, n);
    InvBoundsRunning(run, max, states[n]);
  }

  /** No executable starts before every executable of the earlier batches has finished. */
  lemma Barrier(run: seq<seq<Outcome>>, max: nat, states: seq<State>, n: nat, b: nat, i: nat, c: nat, k: nat)
    requires Behaviour(run, max, states) && n < |states|
    requires c < b < |states[n].batches| && k < |states[n].batches[c].phases|
    requires i < |states[n].batches[b].phases| && !states[n].batches[b].phases[i].Unspawned?
    ensures HasSent(states[n].batches[c].phases[k])
  {
    var s := states[n];
    AlwaysInv(run, max, states, n);
    assert BatchInv(run[b], max, s.batches[b], Spawned(run, s, b), Pending(s, b));
    assert BatchInv(run[c], max, s.batches[c], Spawned(run, s, c), Pending(s, c));
    assert ReceivedInv(run, s, c);
    AllReceived(run[c], max, s.batches[c], Spawned(run, s, c), Pending(s, c));
  }

  // ---------------------------------------------------------------------------------------------
  // Progress

  /** A spawned goroutine is never blocked: its send has room, its token is there to take back. */
  lemma GoroutineEnabled(run: seq<seq<Outcome>>, max: nat, s: State, b: nat, i: nat) returns (step: Step)
    requires Inv(run, max, s) && b < |run| && i < |run[b]|
    requires Holds(s.batches[b].phases[i]) == 1
    ensures Enabled(run, max, s, step)
    ensures (step.Begin? || step.End? || step.Send? || step.Release?) && step.batch == b && step.task == i
  {
    var x := s.batches[b];
    assert BatchInv(run[b], max, x, Spawned(run, s, b), Pending(s, b));
    match x.phases[i]
    case Ready => step := Begin(b, i);
    case Executing => step := End(b, i);
    case Sending =>
      SentSize(run[b], x.phases);
      AllReceived(run[b], max, x, Spawned(run, s, b), Pending(s, b));
      step := Send(b, i);
    case Releasing =>
      SomeoneHolds(x.phases, i);
      step := Release(b, i);
  }

  /** In every state of every interleaving a goroutine that has been spawned and is not gone can take its next step: no
      send on errs and no release of a token ever blocks. */
  lemma NeverBlocks(run: seq<seq<Outcome>>, max: nat, states: seq<State>, n: nat, b: nat, i: nat) returns (step: Step)
    requires Behaviour(run, max, states) && n < |states| && b < |run| && i < |run[b]|
    requires At(states[n], b, i, Ready) || At(states[n], b, i, Executing) || At(states[n], b, i, Sending) ||
             At(states[n], b, i, Releasing)
    ensures Shape(run, states[n]) && Enabled(run, max, states[n], step)
    ensures (step.Begin? || step.End? || step.Send? || step.Release?) && step.batch == b && step.task == i
  {
    AlwaysInv(run, max, states, n);
    step := GoroutineEnabled(run, max, states[n], b, i);
  }

  /** No reachable state is a deadlock: until the executor has returned and every goroutine is gone, some step is
      possible. */
  lemma NoDeadlock(run: seq<seq<Outcome>>, max: nat, s: State) returns (step: Step)
    requires Inv(run, max, s) && max > 0 && !Finished(s)
    ensures Enabled(run, max, s, step)
  {
    if s.main.Returned? {
      var b, i :| 0 <= b < |run| && 0 <= i < |s.batches[b].phases| && !s.batches[b].phases[i].Exited?;
      assert BatchInv(run[b], max, s.batches[b], Spawned(run, s, b), Pending(s, b));
      step := GoroutineEnabled(run, max, s, b, i);
    } else {
      var b, x := s.current, s.batches[s.current];
      assert BatchInv(run[b], max, x, Spawned(run, s, b), Pending(s, b));
      if s.main.Spawning? {
        step := Spawn;
      } else if s.main.Acquiring? {
        if x.guard < max {
          step := Acquire;
        } else {
          var i := FindHolder(x.phases);
          step := GoroutineEnabled(run, max, s, b, i);
        }
      } else if |x.received| >= |run[b]| {
        step := NextBatch;
      } else if x.errs != [] {
        step := Receive;
      } else {
        AllReceived(run[b], max, x, Spawned(run, s, b), Pending(s, b));
        var i := FindUnsent(run[b], x.phases);
        step := GoroutineEnabled(run, max, s, b, i);
      }
    }
  }

  ghost predicate Finished(s: State) {
    s.main.Returned? && forall b, i | 0 <= b < |s.batches| && 0 <= i < |s.batches[b].phases| ::
      s.batches[b].phases[i].Exited?
  }

  lemma FindUnsent(outcomes: seq<Outcome>, ps: seq<Phase>) returns (i: nat)
    requires |outcomes| == |ps| && |Sent(outcomes, ps)| < |ps|
    ensures i < |ps| && !HasSent(ps[i])
  {
    SentSize(outcomes, ps);
    assert |multiset(outcomes)| == |outcomes|;
    i :| 0 <= i < |ps| && !HasSent(ps[i]);
  }

  // ---------------------------------------------------------------------------------------------
  // Termination under every schedule

  function Weight(p: Phase): nat {
    match p
    case Unspawned => 5
    case Ready => 4
    case Executing => 3
    case Sending => 2
    case Releasing => 1
    case Exited => 0
  }

  function Weights(ps: seq<Phase>): nat {
    if ps == [] then 0 else Weights(ps[..|ps| - 1]) + Weight(ps[|ps| - 1])
  }

  function BatchWeight(x: Batch): int {
    2 * Weights(x.phases) + |x.phases| - |x.received|
  }

  function Sum(xs: seq<int>): int {
    if xs == [] then 0 else Sum(xs[..|xs| - 1]) + xs[|xs| - 1]
  }

  /** An upper bound on the number of steps still to come. */
  function Measure(run: seq<seq<Outcome>>, s: State): int {
    Sum(Map(s.batches, BatchWeight)) + |run| - s.current + if s.main.Spawning? then 0 else 1
  }

  lemma {:induction false} WeightsUpdate(ps: seq<Phase>, i: nat, p: Phase)
    requires i < |ps|
    ensures Weights(ps[i := p]) + Weight(ps[i]) == Weights(ps) + Weight(p)
  {
    var n := |ps| - 1;
    if i == n {
      assert ps[i := p][..n] == ps[..n];
    } else {
      assert ps[i := p][..n] == ps[..n][i := p];
      WeightsUpdate(ps[..n], i, p);
    }
  }

  lemma {:induction false} SumUpdate(xs: seq<int>, i: nat, x: int)
    requires i < |xs|
    ensures Sum(xs[i := x]) == Sum(xs) - xs[i] + x
  {
    var n := |xs| - 1;
    if i == n {
      assert xs[i := x][..n] == xs[..n];
    } else {
      assert xs[i := x][..n] == xs[..n][i := x];
      SumUpdate(xs[..n], i, x);
    }
  }

  lemma {:induction false} SumNonNegative(xs: seq<int>)
    requires forall i | 0 <= i < |xs| :: xs[i] >= 0
    ensures Sum(xs) >= 0
  {
    if xs != [] {
      SumNonNegative(xs[..|xs| - 1]);
    }
  }

  lemma ReplaceWeight(s: State, s': State, b: nat)
    requires b < |s.batches| == |s'.batches| && s'.batches == s.batches[b := s'.batches[b]]
    ensures Sum(Map(s'.batches, BatchWeight)) ==
            Sum(Map(s.batches, BatchWeight)) - BatchWeight(s.batches[b]) + BatchWeight(s'.batches[b])
  {
    var ws := Map(s.batches, BatchWeight);
    assert Map(s'.batches, BatchWeight) == ws[b := BatchWeight(s'.batches[b])];
    SumUpdate(ws, b, BatchWeight(s'.batches[b]));
  }

  lemma PhaseLowers(run: seq<seq<Outcome>>, s: State, s': State, b: nat, i: nat)
    requires b < |s.batches| == |s'.batches| && s'.batches == s.batches[b := s'.batches[b]]
    requires i < |s.batches[b].phases| == |s'.batches[b].phases|
    requires s'.batches[b].phases == s.batches[b].phases[i := s'.batches[b].phases[i]]
    requires Weight(s'.batches[b].phases[i]) < Weight(s.batches[b].phases[i])
    requires s'.batches[b].received == s.batches[b].received
    requires s'.current == s.current && (s'.main == s.main || s.main.Spawning?)
    ensures Measure(run, s') < Measure(run, s)
  {
    ReplaceWeight(s, s', b);
    WeightsUpdate(s.batches[b].phases, i, s'.batches[b].phases[i]);
  }

  lemma MainLowers(run: seq<seq<Outcome>>, max: nat, s: State, step: Step)
    requires Inv(run, max, s) && Enabled(run, max, s, step) && (step.Acquire? || step.Receive? || step.NextBatch?)
    ensures Measure(run, Apply(run, max, s, step)) < Measure(run, s)
  {
    var s' := Apply(run, max, s, step);
    if step.NextBatch? {
      assert s'.batches == s.batches;
    } else {
      ReplaceWeight(s, s', s.current);
    }
  }

  lemma SpawnLowers(run: seq<seq<Outcome>>, max: nat, s: State)
    requires Inv(run, max, s) && Enabled(run, max, s, Spawn)
    ensures Measure(run, Apply(run, max, s, Spawn)) < Measure(run, s)
  {
    var b := s.current;
    assert BatchInv(run[b], max, s.batches[b], Spawned(run, s, b), Pending(s, b));
    PhaseLowers(run, s, Apply(run, max, s, Spawn), b, s.main.task);
  }

  lemma GoroutineLowers(run: seq<seq<Outcome>>, max: nat, s: State, step: Step)
    requires Shape(run, s) && Enabled(run, max, s, step) && (step.Begin? || step.End? || step.Send? || step.Release?)
    ensures Measure(run, Apply(run, max, s, step)) < Measure(run, s)
  {
    PhaseLowers(run, s, Apply(run, max, s, step), step.batch, step.task);
  }

  /** Every step lowers the measure. */
  lemma StepLowers(run: seq<seq<Outcome>>, max: nat, s: State, step: Step)
    requires Inv(run, max, s) && Enabled(run, max, s, step)
    ensures Measure(run, Apply(run, max, s, step)) < Measure(run, s)
  {
    if step.Acquire? || step.Receive? || step.NextBatch? {
      MainLowers(run, max, s, step);
    } else if step.Spawn? {
      SpawnLowers(run, max, s);
    } else {
      GoroutineLowers(run, max, s, step);
    }
  }

  lemma MeasureNonNegative(run: seq<seq<Outcome>>, max: nat, s: State)
    requires Inv(run, max, s)
    ensures Measure(run, s) >= 0
  {
    var ws := Map(s.batches, BatchWeight);
    forall b | 0 <= b < |ws| ensures ws[b] >= 0 {
      assert BatchInv(run[b], max, s.batches[b], Spawned(run, s, b), Pending(s, b));
      AllReceived(run[b], max, s.batches[b], Spawned(run, s, b), Pending(s, b));
    }
    SumNonNegative(ws);
  }

  lemma {:induction false} UnspawnedWeights(ps: seq<Phase>)
    requires forall i | 0 <= i < |ps| :: ps[i].Unspawned?
    ensures Weights(ps) == 5 * |ps|
  {
    if ps != [] {
      UnspawnedWeights(ps[..|ps| - 1]);
    }
  }

  lemma {:induction false} InitMeasure(run: seq<seq<Outcome>>)
    ensures Sum(Map(Map(run, Fresh), BatchWeight)) == 11 * |Flatten(run)|
  {
    if run != [] {
      var n := |run| - 1;
      InitMeasure(run[..n]);
      UnspawnedWeights(Fresh(run[n]).phases);
      assert Map(Map(run, Fresh), BatchWeight)[..n] == Map(Map(run[..n], Fresh), BatchWeight);
    }
  }

  lemma {:induction false} MeasureFalls(run: seq<seq<Outcome>>, max: nat, states: seq<State>, n: nat)
    requires Behaviour(run, max, states) && n < |states|
    ensures Measure(run, states[n]) + n <= Measure(run, states[0])
  {
    if n > 0 {
      MeasureFalls(run, max, states, n - 1);
      AlwaysInv(run, max, states, n - 1);
      assert Next(run, max, states[n - 1], states[n]);
      NextLowers(run, max, states[n - 1], states[n]);
    }
  }

  lemma NextLowers(run: seq<seq<Outcome>>, max: nat, s: State, s': State)
    requires Inv(run, max, s) && Next(run, max, s, s')
    ensures Measure(run, s') < Measure(run, s)
  {
    var step :| Enabled(run, max, s, step) && s' == Apply(run, max, s, step);
    StepLowers(run, max, s, step);
  }

  /** No schedule takes more than eleven steps per executable, one per batch and one more. */
  lemma Terminates(run: seq<seq<Outcome>>, max: nat, states: seq<State>)
    requires Behaviour(run, max, states)
    ensures |states| - 1 <= 11 * |Flatten(run)| + |run| + 1
  {
    var n := |states| - 1;
    MeasureFalls(run, max, states, n);
    AlwaysInv(run, max, states, n);
    MeasureNonNegative(run, max, states[n]);
    InitMeasure(run);
  }

  // ---------------------------------------------------------------------------------------------
  // The result

  /** When the executor returns, every executable has run exactly once, whatever failed, and the errors are
      those of the serial executor, permuted within each batch. */
  lemma ReturnedExecuted(run: seq<seq<Outcome>>, max: nat, s: State)
    requires Inv(run, max, s) && s.main.Returned?
    ensures Executed(run, s.log, s.errors)
  {
    forall b | 0 <= b < |run|
      ensures multiset(s.batches[b].received) == multiset(run[b])
      ensures forall i | 0 <= i < |run[b]| :: HasSent(s.batches[b].phases[i])
    {
      assert BatchInv(run[b], max, s.batches[b], Spawned(run, s, b), Pending(s, b));
      assert ReceivedInv(run, s, b);
      AllReceived(run[b], max, s.batches[b], Spawned(run, s, b), Pending(s, b));
    }
    forall e ensures e in s.log <==> InRange(run, e) {
    }
    var parts := Map(s.batches, Reported);
    forall b | 0 <= b < |run| ensures multiset(parts[b]) == multiset(Failed(run[b])) {
      FailedPermutation(s.batches[b].received, run[b]);
    }
    assert PermutedWithin(parts, FailedEach(run));
  }

  lemma {:induction false} FailedConcat(s: seq<Outcome>, t: seq<Outcome>)
    ensures Failed(s + t) == Failed(s) + Failed(t)
  {
    if t == [] {
      assert s + t == s;
    } else {
      assert (s + t)[..|s + t| - 1] == s + t[..|t| - 1];
      FailedConcat(s, t[..|t| - 1]);
    }
  }

  lemma FailedMiddle(a: seq<Outcome>, x: Outcome, b: seq<Outcome>)
    ensures multiset(Failed(a + [x] + b)) == multiset(Failed(a + b)) + multiset(Failed([x]))
  {
    FailedConcat(a, b);
    FailedConcat(a, [x]);
    FailedConcat(a + [x], b);
  }

  lemma {:induction false} FailedPermutation(s: seq<Outcome>, t: seq<Outcome>)
    requires multiset(s) == multiset(t)
    ensures multiset(Failed(s)) == multiset(Failed(t))
    decreases |s|
  {
    if s == [] {
      assert |multiset(s)| == |multiset(t)|;
    } else {
      var init, x := s[..|s| - 1], s[|s| - 1];
      assert s == init + [x] && s == init + [x] + [] && init + [] == init;
      var a, b := RemoveFromPermutation(init, x, t);
      FailedPermutation(init, a + b);
      FailedMiddle(init, x, []);
      FailedMiddle(a, x, b);
    }
  }

  /** Whatever the schedule, what Run returns is what the serial executor returns, permuted within each batch. */
  lemma ParallelMatchesSerial(run: seq<seq<Outcome>>, max: nat, states: seq<State>, n: nat)
    requires Behaviour(run, max, states) && n < |states| && states[n].main.Returned?
    ensures Executed(run, states[n].log, states[n].errors)
    ensures multiset(states[n].errors) == multiset(Flatten(FailedEach(run)))
  {
    AlwaysInv(run, max, states, n);
    ReturnedExecuted(run, max, states[n]);
    ExecutedErrors(run, states[n].log, states[n].errors);
  }

  /** Every run that cannot go on has returned, left no goroutine behind and kept the executors' promise. */
  lemma ParallelRunsToCompletion(run: seq<seq<Outcome>>, max: nat, states: seq<State>)
    requires Behaviour(run, max, states) && max > 0
    requires var last := states[|states| - 1];
             Shape(run, last) ==> forall step :: !Enabled(run, max, last, step)
    ensures var last := states[|states| - 1];
            Finished(last) && Executed(run, last.log, last.errors)
  {
    var last := states[|states| - 1];
    AlwaysInv(run, max, states, |states| - 1);
    if !Finished(last) {
      var _ := NoDeadlock(run, max, last);
    }
    ReturnedExecuted(run, max, last);
  }

  // ---------------------------------------------------------------------------------------------
  // Logs that are not complete, and runs that are

  /** In every state of every interleaving, no event of a batch has happened before all of every earlier batch ended. */
  lemma AlwaysBarred(run: seq<seq<Outcome>>, max: nat, states: seq<State>, n: nat)
    requires Behaviour(run, max, states) && n < |states|
    ensures Barred(run, states[n].log)
  {
    AlwaysInv(run, max, states, n);
    var s := states[n];
    forall e | e in s.log ensures InRange(run, e) {
      assert Logged(s, e);
    }
    forall e, f: Event | e in s.log && f.Ended? && InRange(run, f) && f.batch < e.batch ensures f in s.log {
      assert Logged(s, e);
      Barrier(run, max, states, n, e.batch, e.task, f.batch, f.task);
      assert Logged(s, f);
    }
  }

  /** From every state that meets the invariant some schedule leads to the end. */
  lemma RunOnwards(run: seq<seq<Outcome>>, max: nat, s: State) returns (states: seq<State>)
    requires Inv(run, max, s) && max > 0
    ensures |states| > 0 && states[0] == s && Finished(states[|states| - 1])
    ensures forall n | 0 < n < |states| :: Next(run, max, states[n - 1], states[n])
    decreases Measure(run, s)
  {
    if Finished(s) {
      states := [s];
    } else {
      var step := NoDeadlock(run, max, s);
      var s' := Apply(run, max, s, step);
      StepLowers(run, max, s, step);
      StepInv(run, max, s, step);
      MeasureNonNegative(run, max, s);
      MeasureNonNegative(run, max, s');
      var rest := RunOnwards(run, max, s');
      states := [s] + rest;
      assert Next(run, max, s, s');
      forall n | 0 < n < |states| ensures Next(run, max, states[n - 1], states[n]) {
        assert n == 1 || (states[n - 1] == rest[n - 2] && states[n] == rest[n - 1]);
      }
    }
  }

  ghost predicate CompleteRun(run: seq<seq<Outcome>>, max: nat, states: seq<State>) {
    Behaviour(run, max, states) && Finished(states[|states| - 1])
  }

  lemma CompleteRunExists(run: seq<seq<Outcome>>, max: nat)
    requires max > 0
    ensures exists states :: CompleteRun(run, max, states)
  {
    InitInv(run, max);
    var states := RunOnwards(run, max, Init(run));
    assert CompleteRun(run, max, states);
  }
}
