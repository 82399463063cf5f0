/** The deployment: its instances, which jobs each activity touches and in what batches
    (orchestrator/deployment.go, instance.go, jobs.go, job_executables.go, reverse.go). */
module Deployment {
  import opened Sequences
  import opened Jobs
  import opened Metadata
  import opened Artifacts

  type Instances = seq<Instance>

  function JobsOf(instance: Instance): seq<Job> {
    instance.jobs
  }

  /** instances.Jobs: all jobs, instance by instance. */
  function AllJobs(instances: Instances): seq<Job> {
    Flatten(Map(instances, JobsOf))
  }

  predicate HasScript(script: Script, job: Job) {
    script in job.scripts
  }

  predicate HasJobWith(script: Script, instance: Instance) {
    exists j | j in instance.jobs :: HasScript(script, j)
  }

  /** An artifact to move: a job and the position of its instance. */
  datatype Place = Place(instance: nat, job: Job)

  function PlacesOn(i: nat, jobs: seq<Job>): (places: seq<Place>)
    ensures |places| == |jobs| && forall n | 0 <= n < |jobs| :: places[n] == Place(i, jobs[n])
  {
    seq(|jobs|, n requires 0 <= n < |jobs| => Place(i, jobs[n]))
  }

  function ScriptOf(script: Script): Job -> bool {
    j => HasScript(script, j)
  }

  /** All jobs of the instances that have some job with the script: what Backup turns into executables. */
  function JobsBeside(instances: Instances, script: Script): seq<Place> {
    if instances == [] then []
    else
      var n := |instances| - 1;
      JobsBeside(instances[..n], script) +
      if HasJobWith(script, instances[n]) then PlacesOn(n, instances[n].jobs) else []
  }

  /** The jobs with the script, instance by instance: the artifacts to download or to upload. */
  function JobsWith(instances: Instances, script: Script): seq<Place> {
    if instances == [] then []
    else
      var n := |instances| - 1;
      JobsWith(instances[..n], script) + PlacesOn(n, Filter(instances[n].jobs, ScriptOf(script)))
  }

  lemma {:induction false} JobsWithMember(instances: Instances, script: Script, p: Place)
    ensures p in JobsWith(instances, script) <==>
            p.instance < |instances| && p.job in instances[p.instance].jobs && HasScript(script, p.job)
  {
    if instances != [] {
      var n := |instances| - 1;
      JobsWithMember(instances[..n], script, p);
      FilterMember(instances[n].jobs, ScriptOf(script));
      var kept := Filter(instances[n].jobs, ScriptOf(script));
      assert p in PlacesOn(n, kept) <==> p.instance == n && p.job in kept by {
        if p.instance == n && p.job in kept {
          var k :| 0 <= k < |kept| && kept[k] == p.job;
          assert PlacesOn(n, kept)[k] == p;
        }
      }
    }
  }

  lemma {:induction false} JobsBesideMember(instances: Instances, script: Script, p: Place)
    ensures p in JobsBeside(instances, script) <==>
            p.instance < |instances| && p.job in instances[p.instance].jobs && HasJobWith(script, instances[p.instance])
  {
    if instances != [] {
      var n := |instances| - 1;
      JobsBesideMember(instances[..n], script, p);
      var jobs := instances[n].jobs;
      assert p in PlacesOn(n, jobs) <==> p.instance == n && p.job in jobs by {
        if p.instance == n && p.job in jobs {
          var k :| 0 <= k < |jobs| && jobs[k] == p.job;
          assert PlacesOn(n, jobs)[k] == p;
        }
      }
    }
  }

  /** IsBackupable, IsRestorable. */
  predicate AnyWith(instances: Instances, script: Script) {
    exists i | 0 <= i < |instances| :: HasJobWith(script, instances[i])
  }

  function With(instances: Instances, script: Script): set<nat> {
    set i | 0 <= i < |instances| && HasJobWith(script, instances[i])
  }

  function JobAt(p: Place): Job {
    p.job
  }

  function KeysToBackup(instances: Instances): seq<ArtifactKey> {
    KeysFor(instances, JobsWith(instances, BackupScript))
  }

  /** The identifiers under which the given jobs are backed up. */
  function KeysFor(instances: Instances, places: seq<Place>): (keys: seq<ArtifactKey>)
    ensures |keys| == |places|
  {
    seq(|places|, n requires 0 <= n < |places| =>
      if places[n].instance < |instances| then BackupKey(instances[places[n].instance], places[n].job) else Custom(""))
  }

  /** The identifier from which the job at p is restored. */
  function KeyToRestore(instances: Instances, p: Place): ArtifactKey {
    if p.instance < |instances| then RestoreKey(instances[p.instance], p.job) else Custom("")
  }

  // ---------------------------------------------------------------------------------------------
  // How often each job is touched

  /** How often the job stands among those of the instances. */
  ghost function Standing(instances: Instances, j: Job): nat {
    if instances == [] then 0
    else Standing(instances[..|instances| - 1], j) + multiset(instances[|instances| - 1].jobs)[j]
  }

  /** How often it stands beside, or is, a job with the script. */
  ghost function StandingBeside(instances: Instances, script: Script, j: Job): nat {
    if instances == [] then 0
    else
      var last := instances[|instances| - 1];
      StandingBeside(instances[..|instances| - 1], script, j) +
      if exists k | k in last.jobs :: script in k.scripts then multiset(last.jobs)[j] else 0
  }

  lemma {:induction false} StandsSomewhere(instances: Instances, j: Job)
    ensures Standing(instances, j) > 0 <==> exists i | 0 <= i < |instances| :: j in instances[i].jobs
  {
    if instances != [] {
      var n := |instances| - 1;
      StandsSomewhere(instances[..n], j);
      if i :| 0 <= i < |instances| && j in instances[i].jobs {
        assert i < n ==> instances[..n][i] == instances[i];
      }
    }
  }

  lemma AllJobsSnoc(instances: Instances)
    requires instances != []
    ensures AllJobs(instances) == AllJobs(instances[..|instances| - 1]) + instances[|instances| - 1].jobs
  {
    var init, last := instances[..|instances| - 1], instances[|instances| - 1];
    assert instances == init + [last];
    MapConcat(init, [last], JobsOf);
    assert Map([last], JobsOf) == [last.jobs];
    FlattenSnoc(Map(init, JobsOf), last.jobs);
  }

  /** All jobs of all instances are collected, each as often as it stands there. */
  lemma {:induction false} AllJobsStanding(instances: Instances, j: Job)
    ensures multiset(AllJobs(instances))[j] == Standing(instances, j)
    ensures j in AllJobs(instances) <==> exists i | 0 <= i < |instances| :: j in instances[i].jobs
  {
    if instances == [] {
      assert Map(instances, JobsOf) == [];
    } else {
      AllJobsSnoc(instances);
      AllJobsStanding(instances[..|instances| - 1], j);
    }
    StandsSomewhere(instances, j);
    assert j in AllJobs(instances) <==> j in multiset(AllJobs(instances));
  }

  lemma PlacesCount(i: nat, jobs: seq<Job>)
    ensures Map(PlacesOn(i, jobs), JobAt) == jobs
  {
  }

  /** An artifact is moved for each job with the script, as often as it stands there, and for no other. */
  lemma {:induction false} JobsWithStanding(instances: Instances, script: Script, j: Job)
    ensures multiset(Map(JobsWith(instances, script), JobAt))[j] == if script in j.scripts then Standing(instances, j)
            else 0
  {
    if instances != [] {
      var n := |instances| - 1;
      var kept := Filter(instances[n].jobs, ScriptOf(script));
      JobsWithStanding(instances[..n], script, j);
      MapConcat(JobsWith(instances[..n], script), PlacesOn(n, kept), JobAt);
      PlacesCount(n, kept);
      FilterCount(instances[n].jobs, ScriptOf(script), j);
    }
  }

  /** All jobs of an instance with such a job are backed up, each as often as it stands there, and no others. */
  lemma {:induction false} JobsBesideStanding(instances: Instances, script: Script, j: Job)
    ensures multiset(Map(JobsBeside(instances, script), JobAt))[j] == StandingBeside(instances, script, j)
  {
    if instances != [] {
      var n := |instances| - 1;
      var jobs := instances[n].jobs;
      JobsBesideStanding(instances[..n], script, j);
      HasJobWithIs(script, instances[n]);
      MapConcat(JobsBeside(instances[..n], script), if HasJobWith(script, instances[n]) then PlacesOn(n, jobs) else [],
                JobAt);
      PlacesCount(n, jobs);
    }
  }

  /** The identifiers backed up are those of the jobs with a backup script. */
  lemma KeysToBackupAre(instances: Instances, key: ArtifactKey)
    ensures key in KeysToBackup(instances) <==>
            exists i, j :: 0 <= i < |instances| && j in instances[i].jobs && BackupScript in j.scripts &&
                           BackupKey(instances[i], j) == key
  {
    var places := JobsWith(instances, BackupScript);
    if key in KeysToBackup(instances) {
      var n :| 0 <= n < |places| && KeysToBackup(instances)[n] == key;
      JobsWithMember(instances, BackupScript, places[n]);
      assert BackupKey(instances[places[n].instance], places[n].job) == key;
    }
    if i, j :| 0 <= i < |instances| && j in instances[i].jobs && BackupScript in j.scripts &&
               BackupKey(instances[i], j) == key {
      JobsWithMember(instances, BackupScript, Place(i, j));
      var n :| 0 <= n < |places| && places[n] == Place(i, j);
      assert KeysToBackup(instances)[n] == key;
    }
  }

  lemma HasJobWithIs(script: Script, instance: Instance)
    ensures HasJobWith(script, instance) <==> exists k | k in instance.jobs :: script in k.scripts
  {
    if k :| k in instance.jobs && script in k.scripts {
      assert HasScript(script, k);
    }
  }

  // ---------------------------------------------------------------------------------------------
  // Reversing the levels for unlocking

  ghost function Reversed<T>(s: seq<T>): seq<T> {
    if s == [] then [] else [s[|s| - 1]] + Reversed(s[..|s| - 1])
  }

  lemma {:induction false} ReversedAt<T>(s: seq<T>)
    ensures |Reversed(s)| == |s| && forall i | 0 <= i < |s| :: Reversed(s)[i] == s[|s| - 1 - i]
  {
    if s != [] {
      ReversedAt(s[..|s| - 1]);
    }
  }

  /** orchestrator/reverse.go: prepends each level in turn. */
  method Reverse(levels: seq<seq<Job>>) returns (reversed: seq<seq<Job>>)
    ensures reversed == Reversed(levels)
  {
    reversed := [];
    for i := 0 to |levels|
      invariant reversed == Reversed(levels[..i])
    {
      assert levels[..i + 1][..i] == levels[..i];
      reversed := [levels[i]] + reversed;
    }
    assert levels[..|levels|] == levels;
  }

  lemma {:induction false} ReversedPermutation(levels: seq<seq<Job>>)
    ensures multiset(Flatten(Reversed(levels))) == multiset(Flatten(levels))
  {
    if levels != [] {
      var init, last := levels[..|levels| - 1], levels[|levels| - 1];
      ReversedPermutation(init);
      FlattenConcat([last], Reversed(init));
      assert Flatten([last]) == Flatten([]) + last by { assert [last][..0] == []; }
    }
  }
}
