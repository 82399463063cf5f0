/** What running batches of executables means, and the serial executor (executor/serial.go).
    An executable is represented by the outcome its one execution will have; the log records the order of events. */
module Executor {
  import opened Sequences
  import opened Errors

  /** One executable began or ended; it is named by its batch and its position in that batch. */
  datatype Event = Began(batch: nat, task: nat) | Ended(batch: nat, task: nat)

  ghost predicate InRange<X>(batches: seq<seq<X>>, e: Event) {
    e.batch < |batches| && e.task < |batches[e.batch]|
  }

  /** Of two events, the earlier is another one, of no later batch, and not the end of what the later one begins. */
  ghost predicate InOrder(log: seq<Event>, p: nat, q: nat)
    requires p < q < |log|
  {
    && log[p] != log[q]
    && log[p].batch <= log[q].batch
    && !(log[q].Began? && log[p] == Ended(log[q].batch, log[q].task))
  }

  /** No event happens twice, batches do not overlap, and nothing ends before it begins. */
  ghost predicate Orderly(log: seq<Event>) {
    forall p, q | 0 <= p < q < |log| :: InOrder(log, p, q)
  }

  lemma OrderlyNoDuplicates(log: seq<Event>)
    requires Orderly(log)
    ensures NoDuplicates(log)
  {
    forall p, q | 0 <= p < q < |log| ensures log[p] != log[q] {
      assert InOrder(log, p, q);
    }
  }

  /** Every executable began once and ended once, after it began, and the batches did not overlap. */
  ghost predicate ValidLog<X>(batches: seq<seq<X>>, log: seq<Event>) {
    Orderly(log) && forall e :: e in log <==> InRange(batches, e)
  }

  /** An event that is new, of no earlier batch than those before, and begins nothing that has ended. */
  lemma AppendEvent(log: seq<Event>, e: Event)
    requires Orderly(log) && e !in log && forall d | d in log :: d.batch <= e.batch
    requires e.Began? ==> Ended(e.batch, e.task) !in log
    ensures Orderly(log + [e])
  {
    forall p, q | 0 <= p < q < |log + [e]| ensures InOrder(log + [e], p, q) {
      if q < |log| {
        assert InOrder(log, p, q);
      } else {
        assert log[p] in log;
      }
    }
  }

  /** The errors among some outcomes, in order. */
  function Failed(outcomes: seq<Outcome>): seq<Error> {
    if outcomes == [] then []
    else
      var rest := Failed(outcomes[..|outcomes| - 1]);
      match outcomes[|outcomes| - 1]
      case None => rest
      case Some(e) => rest + [e]
  }

  function FailedEach(batches: seq<seq<Outcome>>): seq<seq<Error>> {
    Map(batches, Failed)
  }

  ghost predicate PermutedWithin(parts: seq<seq<Error>>, wholes: seq<seq<Error>>) {
    |parts| == |wholes| && forall b | 0 <= b < |wholes| :: multiset(parts[b]) == multiset(wholes[b])
  }

  /** What both executors promise: a valid log, and the errors batch by batch, in some order within a batch. */
  ghost predicate Executed(batches: seq<seq<Outcome>>, log: seq<Event>, errors: seq<Error>) {
    ValidLog(batches, log) && exists parts :: Flatten(parts) == errors && PermutedWithin(parts, FailedEach(batches))
  }

  // ---------------------------------------------------------------------------------------------
  // Consequences of the promise

  lemma {:induction false} FailedMember(outcomes: seq<Outcome>)
    ensures forall e :: e in Failed(outcomes) <==> Some(e) in outcomes
  {
    if outcomes != [] {
      FailedMember(outcomes[..|outcomes| - 1]);
      assert outcomes == outcomes[..|outcomes| - 1] + [outcomes[|outcomes| - 1]];
    }
  }

  ghost predicate AllSucceed(batches: seq<seq<Outcome>>) {
    forall b, i | 0 <= b < |batches| && 0 <= i < |batches[b]| :: batches[b][i] == None
  }

  lemma NoneFailed(batches: seq<seq<Outcome>>)
    ensures Flatten(FailedEach(batches)) == [] <==> AllSucceed(batches)
  {
    var failed := FailedEach(batches);
    if Flatten(failed) != [] {
      var b, k := FlattenWhere(failed, Flatten(failed)[0]);
      FailedMember(batches[b]);
      assert failed[b][k] in Failed(batches[b]);
      var i :| 0 <= i < |batches[b]| && batches[b][i] == Some(failed[b][k]);
    } else {
      forall b, i | 0 <= b < |batches| && 0 <= i < |batches[b]|
        ensures batches[b][i] == None
      {
        FailedMember(batches[b]);
        if batches[b][i].Some? {
          var k :| 0 <= k < |failed[b]| && failed[b][k] == batches[b][i].value;
          FlattenMember(failed, b, k);
        }
      }
    }
  }

  /** The errors are exactly those of the outcomes that failed. */
  lemma ExecutedErrors(batches: seq<seq<Outcome>>, log: seq<Event>, errors: seq<Error>)
    requires Executed(batches, log, errors)
    ensures multiset(errors) == multiset(Flatten(FailedEach(batches)))
    ensures errors == [] <==> AllSucceed(batches)
  {
    var parts :| Flatten(parts) == errors && PermutedWithin(parts, FailedEach(batches));
    FlattenPermutation(parts, FailedEach(batches));
    assert |multiset(errors)| == |multiset(Flatten(FailedEach(batches)))|;
    NoneFailed(batches);
  }

  /** The positions of all executables, batch by batch. */
  function Positions<X>(batches: seq<seq<X>>): seq<(nat, nat)> {
    if batches == [] then []
    else
      var b := |batches| - 1;
      Positions(batches[..b]) + seq(|batches[b]|, i => (b, i))
  }

  lemma {:induction false} PositionsAll<X>(batches: seq<seq<X>>)
    ensures NoDuplicates(Positions(batches))
    ensures forall b: nat, i: nat :: (b, i) in Positions(batches) <==> b < |batches| && i < |batches[b]|
  {
    if batches != [] {
      var n := |batches| - 1;
      PositionsAll(batches[..n]);
      var last := seq(|batches[n]|, i => (n, i));
      forall b: nat, i: nat
        ensures (b, i) in Positions(batches) <==> b < |batches| && i < |batches[b]|
      {
        assert (b, i) in last <==> b == n && i < |batches[n]| by {
          if b == n && i < |batches[n]| {
            assert last[i] == (b, i);
          }
        }
      }
    }
  }

  /** The positions that began, in the order in which they did. */
  function Starts(log: seq<Event>): seq<(nat, nat)> {
    if log == [] then []
    else
      var rest := Starts(log[..|log| - 1]);
      match log[|log| - 1]
      case Began(b, i) => rest + [(b, i)]
      case Ended(_, _) => rest
  }

  lemma {:induction false} StartsMember(log: seq<Event>)
    ensures forall b: nat, i: nat :: (b, i) in Starts(log) <==> Began(b, i) in log
    ensures NoDuplicates(log) ==> NoDuplicates(Starts(log))
  {
    if log != [] {
      StartsMember(log[..|log| - 1]);
      assert log == log[..|log| - 1] + [log[|log| - 1]];
    }
  }

  /** Exactly once: what began is a permutation of all positions. */
  lemma EachStartsOnce<X>(batches: seq<seq<X>>, log: seq<Event>)
    requires ValidLog(batches, log)
    ensures multiset(Starts(log)) == multiset(Positions(batches))
  {
    OrderlyNoDuplicates(log);
    StartsMember(log);
    PositionsAll(batches);
    forall p
      ensures p in Starts(log) <==> p in Positions(batches)
    {
      assert p == (p.0, p.1);
      assert Began(p.0, p.1) in log <==> InRange(batches, Began(p.0, p.1));
    }
    SameMembersPermutation(Starts(log), Positions(batches));
  }

  /** A log, perhaps not complete, in which no event of a batch comes before all of every earlier batch has ended. */
  ghost predicate Barred<X>(batches: seq<seq<X>>, log: seq<Event>) {
    && Orderly(log)
    && (forall e | e in log :: InRange(batches, e))
    && forall e, f: Event | e in log && f.Ended? && InRange(batches, f) && f.batch < e.batch :: f in log
  }

  lemma ValidIsBarred<X>(batches: seq<seq<X>>, log: seq<Event>)
    requires ValidLog(batches, log)
    ensures Barred(batches, log)
  {
  }

  lemma EndedAt<X>(batches: seq<seq<X>>, log: seq<Event>, x: nat, i: nat, q: nat) returns (p: nat)
    requires Barred(batches, log) && q < |log| && x < log[q].batch && x < |batches| && i < |batches[x]|
    ensures p < q && log[p] == Ended(x, i)
  {
    assert log[q] in log && InRange(batches, Ended(x, i));
    p :| 0 <= p < |log| && log[p] == Ended(x, i);
    assert q < p ==> InOrder(log, q, p);
  }

  // ---------------------------------------------------------------------------------------------
  // The serial executor

  /** Events of a serial run up to, and without, position i of batch b. */
  ghost function SerialLog<X>(batches: seq<seq<X>>, b: nat, i: nat): seq<Event>
    requires (b < |batches| && i <= |batches[b]|) || (b == |batches| && i == 0)
    decreases b, i
  {
    if i > 0 then SerialLog(batches, b, i - 1) + [Began(b, i - 1), Ended(b, i - 1)]
    else if b > 0 then SerialLog(batches, b - 1, |batches[b - 1]|)
    else []
  }

  /** e precedes position i of batch b. */
  ghost predicate Earlier<X>(batches: seq<seq<X>>, b: nat, i: nat, e: Event) {
    InRange(batches, e) && (e.batch < b || (e.batch == b && e.task < i))
  }

  lemma {:induction false} SerialLogMember<X>(batches: seq<seq<X>>, b: nat, i: nat, e: Event)
    requires (b < |batches| && i <= |batches[b]|) || (b == |batches| && i == 0)
    ensures e in SerialLog(batches, b, i) <==> Earlier(batches, b, i, e)
    decreases b, i
  {
    if i > 0 {
      SerialLogMember(batches, b, i - 1, e);
      assert e in [Began(b, i - 1), Ended(b, i - 1)] <==> e.batch == b && e.task == i - 1;
    } else if b > 0 {
      SerialLogMember(batches, b - 1, |batches[b - 1]|, e);
    }
  }

  lemma {:induction false} SerialLogOrderly<X>(batches: seq<seq<X>>, b: nat, i: nat)
    requires (b < |batches| && i <= |batches[b]|) || (b == |batches| && i == 0)
    ensures Orderly(SerialLog(batches, b, i))
    decreases b, i
  {
    if i > 0 {
      var log := SerialLog(batches, b, i - 1);
      SerialLogOrderly(batches, b, i - 1);
      forall e ensures e in log <==> Earlier(batches, b, i - 1, e) {
        SerialLogMember(batches, b, i - 1, e);
      }
      AppendEvent(log, Began(b, i - 1));
      AppendEvent(log + [Began(b, i - 1)], Ended(b, i - 1));
      assert log + [Began(b, i - 1)] + [Ended(b, i - 1)] == log + [Began(b, i - 1), Ended(b, i - 1)];
    } else if b > 0 {
      SerialLogOrderly(batches, b - 1, |batches[b - 1]|);
    }
  }

  lemma FailedEachStep(batches: seq<seq<Outcome>>, b: nat)
    requires b < |batches|
    ensures Flatten(FailedEach(batches[..b + 1])) == Flatten(FailedEach(batches[..b])) + Failed(batches[b])
  {
    assert FailedEach(batches[..b + 1]) == FailedEach(batches[..b]) + [Failed(batches[b])];
  }

  lemma FailedStep(outcomes: seq<Outcome>, i: nat)
    requires i < |outcomes|
    ensures Failed(outcomes[..i + 1]) == Failed(outcomes[..i]) + (if outcomes[i].Some? then [outcomes[i].value] else [])
  {
    assert outcomes[..i + 1][..i] == outcomes[..i];
  }

  lemma SerialIsValid(batches: seq<seq<Outcome>>)
    ensures Executed(batches, SerialLog(batches, |batches|, 0), Flatten(FailedEach(batches)))
  {
    SerialLogOrderly(batches, |batches|, 0);
    forall e ensures e in SerialLog(batches, |batches|, 0) <==> InRange(batches, e) {
      SerialLogMember(batches, |batches|, 0, e);
    }
    assert PermutedWithin(FailedEach(batches), FailedEach(batches));
  }

  /** executor/serial.go: each executable of each batch in turn, whatever fails. */
  method RunSerially(batches: seq<seq<Outcome>>) returns (errors: seq<Error>, ghost log: seq<Event>)
    ensures errors == Flatten(FailedEach(batches))
    ensures Executed(batches, log, errors)
  {
    errors, log := [], [];
    for b := 0 to |batches|
      invariant errors == Flatten(FailedEach(batches[..b]))
      invariant log == SerialLog(batches, b, 0)
    {
      var batch := batches[b];
      ghost var earlier := errors;
      for i := 0 to |batch|
        invariant errors == earlier + Failed(batch[..i])
        invariant log == SerialLog(batches, b, i)
      {
        FailedStep(batch, i);
        log := log + [Began(b, i), Ended(b, i)];
        if batch[i].Some? {
          errors := errors + [batch[i].value];
        }
      }
      FailedEachStep(batches, b);
      assert batch[..|batch|] == batch;
    }
    assert batches[..|batches|] == batches;
    SerialIsValid(batches);
  }
}
