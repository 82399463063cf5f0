/** The log of a drain: which downloads have begun and ended, as follows from the operations they performed. */
module DrainLog {
  import opened Sequences
  import opened Executor
  import opened Metadata
  import opened BackupDirectory
  import opened Transfers

  predicate Over(p: Progress) {
    p.Done? || p.DeleteFailed? || p.Failed?
  }

  /** All downloads have come to an end. */
  ghost predicate Settled(s: Drain) {
    forall i | 0 <= i < |s.downloads| :: Over(s.downloads[i])
  }

  /** A download begins with its first operation and ends with its last. */
  function EventsOf(i: nat, before: Progress, after: Progress): seq<Event> {
    (if before.Creating? && !after.Creating? then [Began(0, i)] else []) +
    (if !Over(before) && Over(after) then [Ended(0, i)] else [])
  }

  function MoveEvents(s: Drain, s': Drain, i: nat): seq<Event> {
    if i < |s.downloads| && i < |s'.downloads| then EventsOf(i, s.downloads[i], s'.downloads[i]) else []
  }

  function LogOf(artifacts: seq<ArtifactKey>, remote: seq<seq<TarEntry>>, s: Drain, moves: seq<Move>): seq<Event>
    requires |s.downloads| == |artifacts| == |remote|
  {
    if moves == [] then []
    else
      var init, last := moves[..|moves| - 1], moves[|moves| - 1];
      var before := PlayAll(artifacts, remote, s, init);
      LogOf(artifacts, remote, s, init) + MoveEvents(before, Play(artifacts, remote, before, last), last.task)
  }

  /** What must have been logged in a state. */
  ghost predicate Happened(s: Drain, e: Event) {
    && e.batch == 0 && e.task < |s.downloads|
    && if e.Began? then !s.downloads[e.task].Creating? else Over(s.downloads[e.task])
  }

  ghost predicate Logs(s: Drain, log: seq<Event>) {
    Orderly(log) && forall e :: e in log <==> Happened(s, e)
  }

  lemma ProgressGoesOn(artifacts: seq<ArtifactKey>, remote: seq<seq<TarEntry>>, s: Drain, move: Move)
    requires |s.downloads| == |artifacts| == |remote| && move.task < |artifacts|
    ensures var before, after := s.downloads[move.task], Play(artifacts, remote, s, move).downloads[move.task];
            && (after.Creating? ==> before.Creating?)
            && (Over(before) ==> after == before)
  {
  }

  lemma LogsStep(s: Drain, s': Drain, i: nat, log: seq<Event>)
    requires Logs(s, log) && |s.downloads| == |s'.downloads| && i < |s.downloads|
    requires forall j | 0 <= j < |s.downloads| && j != i :: s'.downloads[j] == s.downloads[j]
    requires s'.downloads[i].Creating? ==> s.downloads[i].Creating?
    requires Over(s.downloads[i]) ==> s'.downloads[i] == s.downloads[i]
    ensures Logs(s', log + EventsOf(i, s.downloads[i], s'.downloads[i]))
  {
    var before, after := s.downloads[i], s'.downloads[i];
    var log' := if before.Creating? && !after.Creating? then log + [Began(0, i)] else log;
    if before.Creating? && !after.Creating? {
      AppendEvent(log, Began(0, i));
    }
    if !Over(before) && Over(after) {
      AppendEvent(log', Ended(0, i));
      assert log + EventsOf(i, before, after) == log' + [Ended(0, i)];
    } else {
      assert log + EventsOf(i, before, after) == log';
    }
  }

  lemma {:induction false} AlwaysLogs(artifacts: seq<ArtifactKey>, remote: seq<seq<TarEntry>>,
                                      metadata: Option<MetadataFile>, moves: seq<Move>)
    requires |artifacts| == |remote|
    ensures var s := Start(artifacts, metadata);
            Logs(PlayAll(artifacts, remote, s, moves), LogOf(artifacts, remote, s, moves))
  {
    if moves != [] {
      var s, init, last := Start(artifacts, metadata), moves[..|moves| - 1], moves[|moves| - 1];
      var before := PlayAll(artifacts, remote, s, init);
      AlwaysLogs(artifacts, remote, metadata, init);
      if last.task < |artifacts| {
        ProgressGoesOn(artifacts, remote, before, last);
        LogsStep(before, Play(artifacts, remote, before, last), last.task, LogOf(artifacts, remote, s, init));
      } else {
        assert LogOf(artifacts, remote, s, moves) == LogOf(artifacts, remote, s, init);
      }
    }
  }

  /** When all downloads are over, each has begun once and ended once. */
  lemma SettledLogIsValid<X>(batch: seq<X>, artifacts: seq<ArtifactKey>, remote: seq<seq<TarEntry>>,
                             metadata: Option<MetadataFile>, moves: seq<Move>)
    requires |batch| == |artifacts| == |remote|
    requires Settled(PlayAll(artifacts, remote, Start(artifacts, metadata), moves))
    ensures ValidLog([batch], LogOf(artifacts, remote, Start(artifacts, metadata), moves))
  {
    AlwaysLogs(artifacts, remote, metadata, moves);
    var s := PlayAll(artifacts, remote, Start(artifacts, metadata), moves);
    forall e ensures Happened(s, e) <==> InRange([batch], e) {
    }
  }

  // ---------------------------------------------------------------------------------------------
  // Every drain can be brought to an end

  /** Each of the first n downloads is answered by a failure. */
  ghost function FailAll(n: nat): seq<Move> {
    if n == 0 then [] else FailAll(n - 1) + [Move(n - 1, Fails)]
  }

  lemma {:induction false} FailAllSettles(artifacts: seq<ArtifactKey>, remote: seq<seq<TarEntry>>, s: Drain, n: nat,
                                          i: nat)
    requires |s.downloads| == |artifacts| == |remote| && i < n <= |artifacts|
    ensures Over(PlayAll(artifacts, remote, s, FailAll(n)).downloads[i])
  {
    PlayLast(artifacts, remote, s, FailAll(n - 1), Move(n - 1, Fails));
    FailOne(artifacts, remote, PlayAll(artifacts, remote, s, FailAll(n - 1)), n - 1);
    if i < n - 1 {
      FailAllSettles(artifacts, remote, s, n - 1, i);
    }
  }

  lemma {:induction false} SettledStays(artifacts: seq<ArtifactKey>, remote: seq<seq<TarEntry>>, s: Drain, n: nat)
    requires |s.downloads| == |artifacts| == |remote| && n <= |artifacts| && Settled(s)
    ensures PlayAll(artifacts, remote, s, FailAll(n)) == s
  {
    if n > 0 {
      SettledStays(artifacts, remote, s, n - 1);
      PlayLast(artifacts, remote, s, FailAll(n - 1), Move(n - 1, Fails));
      FailOne(artifacts, remote, s, n - 1);
    }
  }

  lemma FailOne(artifacts: seq<ArtifactKey>, remote: seq<seq<TarEntry>>, s: Drain, i: nat)
    requires |s.downloads| == |artifacts| == |remote| && i < |artifacts|
    ensures var s' := Play(artifacts, remote, s, Move(i, Fails));
            Over(s'.downloads[i]) && (Over(s.downloads[i]) ==> s' == s)
  {
  }

  /** Whatever the moves so far, after them all downloads can be over; if they were over already, nothing changes. */
  lemma EveryDrainSettles(artifacts: seq<ArtifactKey>, remote: seq<seq<TarEntry>>, metadata: Option<MetadataFile>,
                          moves: seq<Move>)
    requires |artifacts| == |remote|
    ensures var s := PlayAll(artifacts, remote, Start(artifacts, metadata), moves);
            var s' := PlayAll(artifacts, remote, Start(artifacts, metadata), moves + FailAll(|artifacts|));
            Settled(s') && (Settled(s) ==> s' == s)
  {
    PlayConcat(artifacts, remote, Start(artifacts, metadata), moves, FailAll(|artifacts|));
    var s := PlayAll(artifacts, remote, Start(artifacts, metadata), moves);
    forall i | 0 <= i < |artifacts| ensures Over(PlayAll(artifacts, remote, s, FailAll(|artifacts|)).downloads[i]) {
      FailAllSettles(artifacts, remote, s, |artifacts|, i);
    }
    if Settled(s) {
      SettledStays(artifacts, remote, s, |artifacts|);
    }
  }
}
