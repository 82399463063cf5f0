/** What a run does to the deployment, as a trace of calls on jobs and removals of artifact directories. */
module Traces {
  import opened Sequences
  import opened Jobs
  import opened Executor

  datatype Call =
    | Lock(activity: Activity) | BackUp | Unlock(activity: Activity, afterSuccess: bool)
    | RestoreCall | Download | Upload

  datatype TraceEvent = CallBegan(call: Call, job: Job) | CallEnded(call: Call, job: Job) | DirRemoved(instance: nat)

  predicate Holds(batches: seq<seq<Job>>, e: Event) {
    e.batch < |batches| && e.task < |batches[e.batch]|
  }

  function Label(call: Call, batches: seq<seq<Job>>, e: Event): TraceEvent
    requires Holds(batches, e)
  {
    var job := batches[e.batch][e.task];
    if e.Began? then CallBegan(call, job) else CallEnded(call, job)
  }

  /** The trace of one run of an executor that makes the same call on every job of every batch. */
  function TraceOf(call: Call, batches: seq<seq<Job>>, log: seq<Event>): seq<TraceEvent> {
    if log == [] then []
    else
      var last := log[|log| - 1];
      TraceOf(call, batches, log[..|log| - 1]) + if Holds(batches, last) then [Label(call, batches, last)] else []
  }

  lemma {:induction false} TraceOfAt(call: Call, batches: seq<seq<Job>>, log: seq<Event>)
    requires forall e | e in log :: Holds(batches, e)
    ensures |TraceOf(call, batches, log)| == |log|
    ensures forall p | 0 <= p < |log| :: TraceOf(call, batches, log)[p] == Label(call, batches, log[p])
  {
    if log != [] {
      TraceOfAt(call, batches, log[..|log| - 1]);
      assert log[|log| - 1] in log;
    }
  }

  lemma {:induction false} TraceOfOnly(call: Call, batches: seq<seq<Job>>, log: seq<Event>)
    ensures OnlyCalls(call, TraceOf(call, batches, log))
  {
    if log != [] {
      TraceOfOnly(call, batches, log[..|log| - 1]);
    }
  }

  /** The jobs on which the call was begun, in order. */
  ghost function Begun(call: Call, trace: seq<TraceEvent>): seq<Job> {
    if trace == [] then []
    else
      var rest := Begun(call, trace[..|trace| - 1]);
      var last := trace[|trace| - 1];
      if last.CallBegan? && last.call == call then rest + [last.job] else rest
  }

  /** The trace s followed by the trace t. */
  function Join(s: seq<TraceEvent>, t: seq<TraceEvent>): seq<TraceEvent> {
    if s == [] then t else if t == [] then s else s + t
  }

  lemma JoinIs(s: seq<TraceEvent>, t: seq<TraceEvent>)
    ensures Join(s, t) == s + t
  {
    if s == [] {
      assert s + t == t;
    } else if t == [] {
      assert s + t == s;
    }
  }

  lemma {:induction false} BegunConcat(call: Call, s: seq<TraceEvent>, t: seq<TraceEvent>)
    ensures Begun(call, s + t) == Begun(call, s) + Begun(call, t)
  {
    if t == [] {
      assert s + t == s;
    } else {
      assert (s + t)[..|s + t| - 1] == s + t[..|t| - 1];
      BegunConcat(call, s, t[..|t| - 1]);
    }
  }

  ghost predicate OnlyCalls(call: Call, trace: seq<TraceEvent>) {
    forall p | 0 <= p < |trace| :: !trace[p].DirRemoved? && trace[p].call == call
  }

  ghost predicate OnlyRemovals(trace: seq<TraceEvent>) {
    forall p | 0 <= p < |trace| :: trace[p].DirRemoved?
  }

  ghost predicate NoCalls(call: Call, trace: seq<TraceEvent>) {
    forall p | 0 <= p < |trace| :: trace[p].DirRemoved? || trace[p].call != call
  }

  /** The call was begun on each of the jobs, as often as it stands there, and on no other. */
  ghost predicate Once(call: Call, trace: seq<TraceEvent>, jobs: seq<Job>) {
    multiset(Begun(call, trace)) == multiset(jobs)
  }

  lemma {:induction false} NoneBegunOf(call: Call, trace: seq<TraceEvent>)
    requires NoCalls(call, trace)
    ensures Begun(call, trace) == []
  {
    if trace != [] {
      NoneBegunOf(call, trace[..|trace| - 1]);
    }
  }

  // ---------------------------------------------------------------------------------------------
  // Exactly once

  /** The job at a position, for positions that exist. */
  ghost function JobIn(batches: seq<seq<Job>>, default: Job): ((nat, nat)) -> Job {
    (p: (nat, nat)) => if p.0 < |batches| && p.1 < |batches[p.0]| then batches[p.0][p.1] else default
  }

  lemma {:induction false} BegunIsStarts(call: Call, batches: seq<seq<Job>>, log: seq<Event>, default: Job)
    requires forall e | e in log :: Holds(batches, e)
    ensures Begun(call, TraceOf(call, batches, log)) == Map(Starts(log), JobIn(batches, default))
  {
    if log != [] {
      var n := |log| - 1;
      BegunIsStarts(call, batches, log[..n], default);
      assert log[n] in log;
      var trace := TraceOf(call, batches, log);
      assert trace[..|trace| - 1] == TraceOf(call, batches, log[..n]);
      if log[n].Began? {
        MapConcat(Starts(log[..n]), [(log[n].batch, log[n].task)], JobIn(batches, default));
      }
    }
  }

  lemma {:induction false} PositionsAreJobs(batches: seq<seq<Job>>, all: seq<seq<Job>>, default: Job)
    requires |batches| <= |all| && batches == all[..|batches|]
    ensures Map(Positions(batches), JobIn(all, default)) == Flatten(batches)
  {
    if batches != [] {
      var b := |batches| - 1;
      PositionsAreJobs(batches[..b], all, default);
      var last: seq<(nat, nat)> := seq(|batches[b]|, i => (b, i));
      MapConcat(Positions(batches[..b]), last, JobIn(all, default));
      assert Map(last, JobIn(all, default)) == batches[b];
    }
  }

  /** The call was begun exactly once on every job of every batch. */
  lemma BegunOnEach(call: Call, batches: seq<seq<Job>>, log: seq<Event>)
    requires ValidLog(batches, log)
    ensures multiset(Begun(call, TraceOf(call, batches, log))) == multiset(Flatten(batches))
  {
    var default := Job("", "", "", {}, [], [], "", false, false);
    forall e | e in log ensures Holds(batches, e) {
      assert InRange(batches, e);
    }
    BegunIsStarts(call, batches, log, default);
    EachStartsOnce(batches, log);
    MapPermutation(Starts(log), Positions(batches), JobIn(batches, default));
    PositionsAreJobs(batches, batches, default);
  }

  // ---------------------------------------------------------------------------------------------
  // Order

  /** Every batch with a comes before every batch with b. */
  ghost predicate Apart(batches: seq<seq<Job>>, a: Job, b: Job) {
    forall x, y | 0 <= x < |batches| && 0 <= y < |batches| && a in batches[x] && b in batches[y] :: x < y
  }

  /** No call on b begins before a call on a has ended, nor does any call on a end later. */
  ghost predicate EndsBeforeBegins(trace: seq<TraceEvent>, call: Call, a: Job, b: Job) {
    forall q | 0 <= q < |trace| && trace[q] == CallBegan(call, b) ::
      && CallEnded(call, a) in trace[..q]
      && CallEnded(call, a) !in trace[q..]
  }

  /** Whatever stands in an earlier batch ends before whatever stands in a later one begins. */
  lemma BatchesSeparate(call: Call, batches: seq<seq<Job>>, log: seq<Event>, a: Job, b: Job)
    requires Barred(batches, log) && a in Flatten(batches) && Apart(batches, a, b)
    ensures EndsBeforeBegins(TraceOf(call, batches, log), call, a, b)
  {
    forall e | e in log ensures Holds(batches, e) {
      assert InRange(batches, e);
    }
    TraceOfAt(call, batches, log);
    var trace := TraceOf(call, batches, log);
    forall q | 0 <= q < |trace| && trace[q] == CallBegan(call, b)
      ensures CallEnded(call, a) in trace[..q] && CallEnded(call, a) !in trace[q..]
    {
      assert log[q] in log && batches[log[q].batch][log[q].task] == b;
      var x, i := FlattenWhere(batches, a);
      assert a in batches[x] && b in batches[log[q].batch];
      var p := EndedAt(batches, log, x, i, q);
      assert trace[..q][p] == CallEnded(call, a);
      forall r | q <= r < |trace| ensures trace[r] != CallEnded(call, a) {
        NotLater(call, batches, log, a, b, q, r);
      }
    }
  }

  lemma NotLater(call: Call, batches: seq<seq<Job>>, log: seq<Event>, a: Job, b: Job, q: nat, r: nat)
    requires Barred(batches, log) && Apart(batches, a, b) && q <= r < |log|
    requires Holds(batches, log[q]) && Holds(batches, log[r]) && Label(call, batches, log[q]) == CallBegan(call, b)
    ensures Label(call, batches, log[r]) != CallEnded(call, a)
  {
    assert q < r ==> InOrder(log, q, r);
    assert b in batches[log[q].batch];
    assert batches[log[r].batch][log[r].task] in batches[log[r].batch];
  }

  /** Joining traces keeps the order of calls if only one of them makes such calls. */
  lemma OrderedConcat(s: seq<TraceEvent>, t: seq<TraceEvent>, call: Call, a: Job, b: Job)
    requires EndsBeforeBegins(s, call, a, b) && EndsBeforeBegins(t, call, a, b)
    requires NoCalls(call, s) || NoCalls(call, t)
    ensures EndsBeforeBegins(s + t, call, a, b)
  {
    var trace, n := s + t, |s|;
    forall q | 0 <= q < |trace| && trace[q] == CallBegan(call, b)
      ensures CallEnded(call, a) in trace[..q] && CallEnded(call, a) !in trace[q..]
    {
      if q < n {
        assert trace[..q] == s[..q] && trace[q..] == s[q..] + t;
      } else {
        assert trace[..q] == s + t[..q - n] && trace[q..] == t[q - n..];
      }
    }
  }

  // ---------------------------------------------------------------------------------------------
  // Phases

  /** The phases a run goes through. */
  function Phase(e: TraceEvent): nat {
    match e
    case DirRemoved(_) => 5
    case CallBegan(call, _) => PhaseOf(call)
    case CallEnded(call, _) => PhaseOf(call)
  }

  function PhaseOf(call: Call): nat {
    match call
    case Upload => 0
    case Lock(_) => 1
    case BackUp => 2
    case RestoreCall => 2
    case Unlock(_, _) => 3
    case Download => 4
  }

  /** No phase begins before the one before it is over. */
  ghost predicate PhasesInOrder(trace: seq<TraceEvent>) {
    forall p, q | 0 <= p < q < |trace| :: Phase(trace[p]) <= Phase(trace[q])
  }

  ghost predicate PhasesBelow(trace: seq<TraceEvent>, n: nat) {
    forall p | 0 <= p < |trace| :: Phase(trace[p]) < n
  }

  lemma NextPhase(trace: seq<TraceEvent>, part: seq<TraceEvent>, n: nat)
    requires PhasesInOrder(trace) && PhasesBelow(trace, n)
    requires forall p | 0 <= p < |part| :: Phase(part[p]) == n
    ensures PhasesInOrder(trace + part) && PhasesBelow(trace + part, n + 1)
  {
  }

  // ---------------------------------------------------------------------------------------------
  // Traces in parts, each of which makes one kind of call or removes directories

  datatype Doing = Making(call: Call) | Removing

  datatype Parts = Nothing | Then(before: Parts, doing: Doing, events: seq<TraceEvent>)

  function Whole(parts: Parts): seq<TraceEvent> {
    match parts
    case Nothing => []
    case Then(before, _, events) => Join(Whole(before), events)
  }

  function PhaseAfter(parts: Parts): nat {
    match parts
    case Nothing => 0
    case Then(_, Making(call), _) => PhaseOf(call) + 1
    case Then(_, Removing, _) => 6
  }

  /** Each part does what it is said to do, and its phase is later than those before. */
  ghost predicate Tagged(parts: Parts) {
    match parts
    case Nothing => true
    case Then(before, Making(call), events) => Tagged(before) && PhaseAfter(before) <= PhaseOf(call) &&
      OnlyCalls(call, events)
    case Then(before, Removing, events) => Tagged(before) && PhaseAfter(before) <= 5 && OnlyRemovals(events)
  }

  lemma TaggedThen(before: Parts, call: Call, events: seq<TraceEvent>)
    requires Tagged(before) && PhaseAfter(before) <= PhaseOf(call) && OnlyCalls(call, events)
    ensures Tagged(Then(before, Making(call), events))
    ensures PhaseAfter(Then(before, Making(call), events)) == PhaseOf(call) + 1
  {
  }

  /** The part that makes the call. */
  ghost function PartFor(parts: Parts, call: Call): seq<TraceEvent> {
    match parts
    case Nothing => []
    case Then(before, doing, events) => if doing == Making(call) then events else PartFor(before, call)
  }

  lemma {:induction false} WholePhases(parts: Parts)
    requires Tagged(parts)
    ensures PhasesInOrder(Whole(parts)) && PhasesBelow(Whole(parts), PhaseAfter(parts))
  {
    if parts.Then? {
      WholePhases(parts.before);
      JoinIs(Whole(parts.before), parts.events);
      NextPhase(Whole(parts.before), parts.events, PhaseAfter(parts) - 1);
    }
  }

  lemma LaterCalls(parts: Parts, call: Call)
    requires Tagged(parts) && PhaseAfter(parts) <= PhaseOf(call)
    ensures NoCalls(call, Whole(parts))
  {
    WholePhases(parts);
  }

  /** What the whole trace begins of a call is begun in the part of that call ... */
  lemma {:induction false} WholeBegun(parts: Parts, call: Call)
    requires Tagged(parts)
    ensures Begun(call, Whole(parts)) == Begun(call, PartFor(parts, call))
  {
    if parts.Then? {
      var before := Whole(parts.before);
      JoinIs(before, parts.events);
      BegunConcat(call, before, parts.events);
      if parts.doing == Making(call) {
        LaterCalls(parts.before, call);
        NoneBegunOf(call, before);
      } else {
        WholeBegun(parts.before, call);
        NoneBegunOf(call, parts.events);
      }
    }
  }

  /** ... and ordered as in that part. */
  lemma {:induction false} WholeOrdered(parts: Parts, call: Call, x: Job, y: Job)
    requires Tagged(parts) && EndsBeforeBegins(PartFor(parts, call), call, x, y)
    ensures EndsBeforeBegins(Whole(parts), call, x, y)
  {
    if parts.Then? {
      JoinIs(Whole(parts.before), parts.events);
      if parts.doing == Making(call) {
        LaterCalls(parts.before, call);
      } else {
        WholeOrdered(parts.before, call, x, y);
      }
      OrderedConcat(Whole(parts.before), parts.events, call, x, y);
    }
  }

  /** Directories are removed in the last part only. */
  lemma WholeRemovals(parts: Parts, i: nat)
    requires Tagged(parts) && parts.Then? && parts.doing.Removing?
    ensures DirRemoved(i) in Whole(parts) <==> DirRemoved(i) in parts.events
  {
    WholePhases(parts.before);
    JoinIs(Whole(parts.before), parts.events);
  }
}
