/** How artifacts are named, on the remote side and in the backup (instance/job.go, instance/artifact.go). */
module Artifacts {
  import opened Jobs
  import opened Metadata
  import opened BackupDirectory

  const SUFFIX := "backup-one-restore-all"

  function OneRestoreAllName(job: Job): string {
    job.name + "-" + job.release + "-" + SUFFIX
  }

  predicate HasNamedBackupArtifact(job: Job) {
    job.backupOneRestoreAll && job.onBootstrapNode
  }

  predicate HasNamedRestoreArtifact(job: Job) {
    job.backupOneRestoreAll || job.restoreName != ""
  }

  function RestoreArtifactName(job: Job): string {
    if job.backupOneRestoreAll then OneRestoreAllName(job) else job.restoreName
  }

  /** The identifier under which a job's backup is stored. */
  function BackupKey(instance: Instance, job: Job): ArtifactKey {
    if HasNamedBackupArtifact(job) then Custom(OneRestoreAllName(job))
    else Default(instance.name, instance.index, job.name)
  }

  /** The identifier from which a job is restored. */
  function RestoreKey(instance: Instance, job: Job): ArtifactKey {
    if HasNamedRestoreArtifact(job) then Custom(RestoreArtifactName(job))
    else Default(instance.name, instance.index, job.name)
  }

  /** A job is restored from what it backed up itself exactly when it is an ordinary job without a restore name,
      or it is the bootstrap job of a backup-one-restore-all pair. */
  lemma RestoresOwnBackupExactly(instance: Instance, job: Job)
    ensures RestoreKey(instance, job) == BackupKey(instance, job) <==>
            (!job.backupOneRestoreAll && job.restoreName == "") || (job.backupOneRestoreAll && job.onBootstrapNode)
  {
  }

  /** Every node of a backup-one-restore-all job is restored from what the bootstrap node backed up. */
  lemma RestoresBootstrapBackup(instance: Instance, job: Job, bootstrapInstance: Instance, bootstrap: Job)
    requires job.backupOneRestoreAll && bootstrap.backupOneRestoreAll && bootstrap.onBootstrapNode
    requires job.name == bootstrap.name && job.release == bootstrap.release
    ensures RestoreKey(instance, job) == BackupKey(bootstrapInstance, bootstrap)
    ensures FileName(RestoreKey(instance, job)) == FileName(BackupKey(bootstrapInstance, bootstrap))
  {
  }

  /** What a backup is stored under determines how the job is declared, and the other way round. */
  lemma BackupKeyIs(instance: Instance, job: Job, key: ArtifactKey)
    ensures BackupKey(instance, job) == key <==>
            match key
            case Custom(name) =>
              job.backupOneRestoreAll && job.onBootstrapNode &&
              name == job.name + "-" + job.release + "-" + SUFFIX
            case Default(instanceName, index, name) =>
              !(job.backupOneRestoreAll && job.onBootstrapNode) &&
              instanceName == instance.name && index == instance.index && name == job.name
  {
  }

  lemma RestoreKeyIs(instance: Instance, job: Job, key: ArtifactKey)
    ensures RestoreKey(instance, job) == key <==>
            match key
            case Custom(name) =>
              if job.backupOneRestoreAll then name == job.name + "-" + job.release + "-" + SUFFIX
              else job.restoreName != "" && name == job.restoreName
            case Default(instanceName, index, name) =>
              !job.backupOneRestoreAll && job.restoreName == "" &&
              instanceName == instance.name && index == instance.index && name == job.name
  {
  }

  // ---------------------------------------------------------------------------------------------
  // File names

  /** Which files are those of an identifier. */
  lemma FileNameIs(key: ArtifactKey, file: string)
    ensures FileName(key) == file <==>
            && |file| >= 4 && file[|file| - 4..] == ".tar"
            && file[..|file| - 4] ==
               match key case Custom(name) => name
                         case Default(instance, index, name) => instance + "-" + index + "-" + name
  {
    var stem := match key case Custom(name) => name
                          case Default(instance, index, name) => instance + "-" + index + "-" + name;
    assert FileName(key) == stem + ".tar";
    if |file| >= 4 {
      assert file == file[..|file| - 4] + file[|file| - 4..];
    }
    assert (stem + ".tar")[..|stem|] == stem && (stem + ".tar")[|stem|..] == ".tar";
  }

  lemma FirstDash(a: string, x: string)
    requires '-' !in a
    ensures var s := a + "-" + x;
            s[|a|] == '-' && s[..|a|] == a && s[|a| + 1..] == x && forall i | 0 <= i < |a| :: s[i] != '-'
  {
    forall i | 0 <= i < |a| ensures (a + "-" + x)[i] != '-' {
      assert (a + "-" + x)[i] == a[i] && a[i] in a;
    }
  }

  lemma SplitAtDash(a: string, x: string, b: string, y: string)
    requires a + "-" + x == b + "-" + y && '-' !in a && '-' !in b
    ensures a == b && x == y
  {
    FirstDash(a, x);
    FirstDash(b, y);
    assert |a| == |b|;
  }

  lemma DropSuffix(a: string, b: string, suffix: string)
    requires a + suffix == b + suffix
    ensures a == b
  {
    assert |a| == |b|;
    assert (a + suffix)[..|a|] == a && (b + suffix)[..|b|] == b;
  }

  ghost predicate Dashless(key: ArtifactKey) {
    key.Default? ==> '-' !in key.instance && '-' !in key.index
  }

  /** Without dashes in instance names and indexes, default file names are told apart; job names are free. */
  lemma DefaultFileNamesInjective(key: ArtifactKey, other: ArtifactKey)
    requires key.Default? && other.Default? && Dashless(key) && Dashless(other)
    requires FileName(key) == FileName(other)
    ensures key == other
  {
    var tail, tail' := key.index + "-" + key.name, other.index + "-" + other.name;
    assert FileName(key) == key.instance + "-" + tail + ".tar";
    assert FileName(other) == other.instance + "-" + tail' + ".tar";
    DropSuffix(key.instance + "-" + tail, other.instance + "-" + tail', ".tar");
    SplitAtDash(key.instance, tail, other.instance, tail');
    SplitAtDash(key.index, key.name, other.index, other.name);
  }

  lemma CustomFileNamesInjective(key: ArtifactKey, other: ArtifactKey)
    requires key.Custom? && other.Custom? && FileName(key) == FileName(other)
    ensures key == other
  {
    DropSuffix(key.name, other.name, ".tar");
  }

  /** The condition is needed: a dash in an instance name or index always gives the file name to another identifier
      too. */
  lemma DashCollides(key: ArtifactKey) returns (other: ArtifactKey)
    requires key.Default? && !Dashless(key)
    ensures other.Default? && other != key && FileName(other) == FileName(key)
  {
    if '-' in key.instance {
      var left, right := CutAtDash(key.instance);
      other := Default(left, right, key.index + "-" + key.name);
    } else {
      var left, right := CutAtDash(key.index);
      other := Default(key.instance, left, right + "-" + key.name);
    }
  }

  lemma CutAtDash(s: string) returns (left: string, right: string)
    requires '-' in s
    ensures s == left + "-" + right && left != s
  {
    var d :| 0 <= d < |s| && s[d] == '-';
    left, right := s[..d], s[d + 1..];
    assert |left| < |s|;
  }

  /** A file name cut at its first two dashes. */
  lemma CutAtFirstDash(s: string) returns (left: string, right: string)
    requires '-' in s
    ensures s == left + "-" + right && '-' !in left
    decreases |s|
  {
    if s[0] == '-' {
      left, right := "", s[1..];
    } else {
      assert s == [s[0]] + s[1..];
      var rest;
      rest, right := CutAtFirstDash(s[1..]);
      left := [s[0]] + rest;
    }
  }

  /** The dashless identifier that has the same file as the given one. */
  lemma DashlessTwin(key: ArtifactKey) returns (other: ArtifactKey)
    requires key.Default?
    ensures other.Default? && Dashless(other) && FileName(other) == FileName(key)
  {
    var s := key.instance + "-" + (key.index + "-" + key.name);
    assert s[|key.instance|] == '-';
    var first, rest := CutAtFirstDash(s);
    DashAfterFirst(first, rest, key.instance, key.index, key.name);
    var second, name := CutAtFirstDash(rest);
    other := Default(first, second, name);
    assert FileName(key) == s + ".tar";
    assert FileName(other) == first + "-" + (second + "-" + name) + ".tar";
  }

  lemma DashAfterFirst(first: string, rest: string, a: string, b: string, c: string)
    requires first + "-" + rest == a + "-" + (b + "-" + c) && '-' !in first
    ensures '-' in rest
  {
    var s := first + "-" + rest;
    assert s[|a|] == '-' && s[|a| + 1 + |b|] == '-';
    FirstDash(first, rest);
    assert |a| >= |first|;
    assert rest[|a| + |b| - |first|] == s[|a| + 1 + |b|];
  }

  /** A default identifier shares its file with no other dashless one exactly when it is dashless itself. */
  lemma DashlessExactly(key: ArtifactKey)
    requires key.Default?
    ensures Dashless(key) <==>
            forall other: ArtifactKey | other.Default? && Dashless(other) && FileName(other) == FileName(key) ::
              other == key
  {
    if Dashless(key) {
      forall other: ArtifactKey | other.Default? && Dashless(other) && FileName(other) == FileName(key)
        ensures other == key
      {
        DefaultFileNamesInjective(other, key);
      }
    } else {
      var other := DashlessTwin(key);
      assert other != key;
    }
  }

  predicate EndsWith(s: string, t: string) {
    |t| <= |s| && s[|s| - |t|..] == t
  }

  /** The job name makes a default artifact read like the custom one of a backup-one-restore-all job. */
  predicate LooksCustom(name: string) {
    name == SUFFIX || EndsWith(name, "-" + SUFFIX)
  }

  /** Names that keep files apart: custom ones are those of backup-one-restore-all jobs; default ones have no dash in
      instance name or index, and a job name that does not look like the end of a custom one. */
  ghost predicate WellNamed(key: ArtifactKey) {
    match key
    case Custom(name) => exists job :: name == OneRestoreAllName(job)
    case Default(_, _, name) => Dashless(key) && !LooksCustom(name)
  }

  /** The only dash before the name of a default artifact is the one after the instance name. */
  lemma OneDashBefore(a: string, b: string)
    requires '-' !in a && '-' !in b
    ensures forall i | 0 <= i < |a + "-" + b| && i != |a| :: (a + "-" + b)[i] != '-'
  {
    forall i | 0 <= i < |a + "-" + b| && i != |a| ensures (a + "-" + b)[i] != '-' {
      if i < |a| {
        assert (a + "-" + b)[i] == a[i] && a[i] in a;
      } else {
        assert (a + "-" + b)[i] == b[i - |a| - 1] && b[i - |a| - 1] in b;
      }
    }
  }

  /** A custom name that reads like a default one makes the name of that job look custom. */
  lemma CustomLikeDefault(name: string, release: string, tail: string, instance: string, index: string, job: string)
    requires '-' !in instance && '-' !in index
    requires name + "-" + release + "-" + tail == instance + "-" + index + "-" + job
    ensures job == tail || EndsWith(job, "-" + tail)
  {
    var s, first, second := name + "-" + release + "-" + tail, |name|, |name| + 1 + |release|;
    var head := instance + "-" + index;
    assert s[first] == '-' && s[second] == '-';
    assert s == head + "-" + job;
    OneDashBefore(instance, index);
    assert second >= |head|;
    assert s[second + 1..] == tail && s[|head| + 1..] == job;
    if second > |head| {
      assert s[second..] == "-" + tail;
      assert job[second - |head| - 1..] == s[second..];
    }
  }

  /** Some backup-one-restore-all job has the same file. */
  ghost predicate SharesCustomFile(key: ArtifactKey) {
    exists job :: FileName(Custom(OneRestoreAllName(job))) == FileName(key)
  }

  lemma LooksCustomShares(instance: string, index: string, name: string) returns (job: Job)
    requires LooksCustom(name)
    ensures OneRestoreAllName(job) == instance + "-" + index + "-" + name
  {
    if name == SUFFIX {
      job := Job(instance, index, "", {}, [], [], "", true, true);
    } else {
      var start := name[..|name| - |SUFFIX| - 1];
      assert name == start + ("-" + SUFFIX);
      job := Job(instance, index + "-" + start, "", {}, [], [], "", true, true);
      assert OneRestoreAllName(job) == instance + "-" + index + "-" + (start + ("-" + SUFFIX));
    }
  }

  /** A dashless default artifact shares its file with the custom artifact of some job exactly when its job name is the
      suffix of such names, or ends with a dash and that suffix. */
  lemma CustomCollidesExactly(key: ArtifactKey)
    requires key.Default? && Dashless(key)
    ensures SharesCustomFile(key) <==> LooksCustom(key.name)
  {
    if LooksCustom(key.name) {
      var job := LooksCustomShares(key.instance, key.index, key.name);
      assert FileName(Custom(OneRestoreAllName(job))) == FileName(key);
    }
    if SharesCustomFile(key) {
      var job :| FileName(Custom(OneRestoreAllName(job))) == FileName(key);
      DropSuffix(OneRestoreAllName(job), key.instance + "-" + key.index + "-" + key.name, ".tar");
      CustomLikeDefault(job.name, job.release, SUFFIX, key.instance, key.index, key.name);
    }
  }

  lemma CustomIsNotDefault(custom: ArtifactKey, default: ArtifactKey)
    requires custom.Custom? && default.Default? && WellNamed(custom) && WellNamed(default)
    ensures FileName(custom) != FileName(default)
  {
    var job :| custom.name == OneRestoreAllName(job);
    CustomCollidesExactly(default);
    assert FileName(Custom(OneRestoreAllName(job))) != FileName(default);
  }

  /** Well-named artifacts have different files. */
  lemma WellNamedFilesDiffer(key: ArtifactKey, other: ArtifactKey)
    requires WellNamed(key) && WellNamed(other) && FileName(key) == FileName(other)
    ensures key == other
  {
    match (key, other)
    case (Custom(_), Custom(_)) => CustomFileNamesInjective(key, other);
    case (Default(_, _, _), Default(_, _, _)) => DefaultFileNamesInjective(key, other);
    case (Custom(_), Default(_, _, _)) => CustomIsNotDefault(key, other);
    case (Default(_, _, _), Custom(_)) => CustomIsNotDefault(other, key);
  }

  /** Such a pair. */
  lemma CustomCollidesWithDefault()
    ensures var job := Job("redis", "0", "redis/0", {}, [], [], "", true, true);
            FileName(Custom(OneRestoreAllName(job))) == FileName(Default("redis", "0", SUFFIX))
  {
  }

  lemma BackupKeyWellNamed(instance: Instance, job: Job)
    requires '-' !in instance.name && '-' !in instance.index && !LooksCustom(job.name)
    ensures WellNamed(BackupKey(instance, job))
    ensures job.restoreName == "" || job.backupOneRestoreAll ==> WellNamed(RestoreKey(instance, job))
  {
  }

  /** An artifact never overwrites the metadata or the manifest. */
  lemma ArtifactIsNotMetadata(key: ArtifactKey)
    ensures FileName(key) != "metadata" && FileName(key) != "manifest.yml"
  {
    var f := FileName(key);
    assert f[|f| - 4] == '.' && f[|f| - 3] == 't';
    assert "metadata"[4] == 'd' && "manifest.yml"[9] == 'y';
  }
}
