/** The local backup directory: the metadata file and one tar file per artifact (backup/backup_directory.go). */
module BackupDirectory {
  import opened Sequences
  import opened Checksums
  import opened Metadata

  function FileName(key: ArtifactKey): string {
    match key
    case Custom(name) => name + ".tar"
    case Default(instance, index, name) => instance + "-" + index + "-" + name + ".tar"
  }

  /** A SHA-256 digest is never the empty string. */
  type Digest = d: string | d != "" witness "0"

  datatype TarEntry = TarEntry(name: string, directory: bool, digest: Digest)

  /** What reading a tar file yields: its entries, or an error part of the way through. */
  datatype LocalFile = Tar(entries: seq<TarEntry>) | Unreadable

  /** The digests of the files in a tar; a later entry of the same name replaces an earlier one. */
  function TarChecksum(entries: seq<TarEntry>): Checksum {
    if entries == [] then map[]
    else
      var rest := TarChecksum(entries[..|entries| - 1]);
      var last := entries[|entries| - 1];
      if last.directory then rest else rest[last.name := last.digest]
  }

  /** The last file of its name; directories do not count. */
  ghost predicate LastFile(entries: seq<TarEntry>, i: nat) {
    && i < |entries| && !entries[i].directory
    && forall k | i < k < |entries| && entries[k].name == entries[i].name :: entries[k].directory
  }

  ghost predicate HasFile(entries: seq<TarEntry>, name: string) {
    exists i | 0 <= i < |entries| :: !entries[i].directory && entries[i].name == name
  }

  /** The names are those of the files, and each digest is that of the last file of the name. */
  ghost predicate SumsUp(entries: seq<TarEntry>, c: Checksum) {
    && (forall name :: name in c <==> HasFile(entries, name))
    && forall i | 0 <= i < |entries| && LastFile(entries, i) ::
         entries[i].name in c && c[entries[i].name] == entries[i].digest
  }

  lemma HasFileSnoc(entries: seq<TarEntry>, name: string)
    requires entries != []
    ensures var n := |entries| - 1;
            HasFile(entries, name) <==>
            HasFile(entries[..n], name) || (!entries[n].directory && entries[n].name == name)
  {
    var n := |entries| - 1;
    if i :| 0 <= i < n && !entries[..n][i].directory && entries[..n][i].name == name {
      assert entries[i] == entries[..n][i];
    }
    if i :| 0 <= i < |entries| && !entries[i].directory && entries[i].name == name {
      assert i < n ==> entries[..n][i] == entries[i];
    }
  }

  lemma {:induction false} TarChecksumNames(entries: seq<TarEntry>, name: string)
    ensures name in TarChecksum(entries) <==> HasFile(entries, name)
  {
    if entries != [] {
      TarChecksumNames(entries[..|entries| - 1], name);
      HasFileSnoc(entries, name);
    }
  }

  lemma {:induction false} TarChecksumDigest(entries: seq<TarEntry>, i: nat)
    requires LastFile(entries, i)
    ensures entries[i].name in TarChecksum(entries) && TarChecksum(entries)[entries[i].name] == entries[i].digest
  {
    var n := |entries| - 1;
    if i < n {
      assert entries[n].name == entries[i].name ==> entries[n].directory;
      assert entries[..n][i] == entries[i];
      TarChecksumDigest(entries[..n], i);
    }
  }

  lemma TarChecksumSumsUp(entries: seq<TarEntry>)
    ensures SumsUp(entries, TarChecksum(entries))
  {
    forall name ensures name in TarChecksum(entries) <==> HasFile(entries, name) {
      TarChecksumNames(entries, name);
    }
    forall i | 0 <= i < |entries| && LastFile(entries, i)
      ensures entries[i].name in TarChecksum(entries) && TarChecksum(entries)[entries[i].name] == entries[i].digest
    {
      TarChecksumDigest(entries, i);
    }
  }

  lemma {:induction false} SomeLastFile(entries: seq<TarEntry>, name: string) returns (i: nat)
    requires HasFile(entries, name)
    ensures LastFile(entries, i) && entries[i].name == name
  {
    var n := |entries| - 1;
    if !entries[n].directory && entries[n].name == name {
      i := n;
    } else {
      var k :| 0 <= k < |entries| && !entries[k].directory && entries[k].name == name;
      assert entries[..n][k] == entries[k];
      i := SomeLastFile(entries[..n], name);
    }
  }

  /** Only one checksum sums up given entries. */
  lemma OnlyOneSumsUp(entries: seq<TarEntry>, c: Checksum)
    requires SumsUp(entries, c)
    ensures c == TarChecksum(entries)
  {
    TarChecksumSumsUp(entries);
    forall name | name in c ensures name in TarChecksum(entries) && c[name] == TarChecksum(entries)[name] {
      var i := SomeLastFile(entries, name);
    }
    assert c.Keys == TarChecksum(entries).Keys;
  }

  lemma {:induction false} TarChecksumNoEmptyDigest(entries: seq<TarEntry>)
    ensures NoEmptyDigest(TarChecksum(entries))
  {
    if entries != [] {
      TarChecksumNoEmptyDigest(entries[..|entries| - 1]);
    }
  }

  type Files = map<string, LocalFile>

  /** The checksum recomputed from the file of an artifact; None when it cannot be read. */
  function Recomputed(files: Files, key: ArtifactKey): Option<Checksum> {
    if FileName(key) in files && files[FileName(key)].Tar? then Some(TarChecksum(files[FileName(key)].entries))
    else None
  }

  // ---------------------------------------------------------------------------------------------
  // What Valid means

  /** A failure to read a custom artifact is ignored: its checksum counts as the empty map. */
  ghost predicate CustomIntact(files: Files, a: ArtifactMetadata) {
    match Recomputed(files, Custom(a.name))
    case Some(c) => Agree(c, a.checksum)
    case None => Agree(map[], a.checksum)
  }

  ghost predicate DefaultIntact(files: Files, e: InstanceEntry, a: ArtifactMetadata) {
    match Recomputed(files, Default(e.name, e.index, a.name))
    case Some(c) => Agree(c, a.checksum)
    case None => false
  }

  ghost predicate AllIntact(files: Files, metadata: MetadataFile) {
    && (forall a | a in metadata.customArtifacts :: CustomIntact(files, a))
    && (forall e, a | e in metadata.instances && a in e.artifacts :: DefaultIntact(files, e, a))
  }

  /** The directory holds exactly what was recorded. */
  ghost predicate HoldsRecords(files: Files, metadata: MetadataFile) {
    forall key, checksum | Recorded(metadata, key, checksum) :: Recomputed(files, key) == Some(checksum)
  }

  /** The one gap in Valid: an unreadable custom artifact that was recorded with no files in it. */
  ghost predicate UnreadableAndEmpty(files: Files, metadata: MetadataFile) {
    exists a | a in metadata.customArtifacts :: Recomputed(files, Custom(a.name)) == None && a.checksum == map[]
  }

  lemma CustomIntactExactly(files: Files, a: ArtifactMetadata)
    ensures CustomIntact(files, a) <==>
            Recomputed(files, Custom(a.name)) == Some(a.checksum) ||
            (Recomputed(files, Custom(a.name)) == None && a.checksum == map[])
  {
    match Recomputed(files, Custom(a.name))
    case Some(c) =>
      TarChecksumNoEmptyDigest(files[FileName(Custom(a.name))].entries);
      AgreeIsEqual(c, a.checksum);
    case None =>
      AgreeIsEqual(map[], a.checksum);
  }

  lemma DefaultIntactExactly(files: Files, e: InstanceEntry, a: ArtifactMetadata)
    ensures DefaultIntact(files, e, a) <==> Recomputed(files, Default(e.name, e.index, a.name)) == Some(a.checksum)
  {
    var key := Default(e.name, e.index, a.name);
    match Recomputed(files, key)
    case Some(c) =>
      TarChecksumNoEmptyDigest(files[FileName(key)].entries);
      AgreeIsEqual(c, a.checksum);
    case None =>
  }

  /** Valid accepts a directory that holds what was recorded ... */
  lemma HoldsIsIntact(files: Files, metadata: MetadataFile)
    requires HoldsRecords(files, metadata)
    ensures AllIntact(files, metadata)
  {
    forall a | a in metadata.customArtifacts ensures CustomIntact(files, a) {
      assert Recorded(metadata, Custom(a.name), a.checksum);
      CustomIntactExactly(files, a);
    }
    forall e, a | e in metadata.instances && a in e.artifacts ensures DefaultIntact(files, e, a) {
      assert Recorded(metadata, Default(e.name, e.index, a.name), a.checksum) by {
        assert RecordedNamed(e.artifacts, a.name, a.checksum);
      }
      DefaultIntactExactly(files, e, a);
    }
  }

  /** ... and only such a directory, except for the one gap. */
  lemma IntactHolds(files: Files, metadata: MetadataFile)
    requires AllIntact(files, metadata) && !UnreadableAndEmpty(files, metadata)
    ensures HoldsRecords(files, metadata)
  {
    forall key, checksum | Recorded(metadata, key, checksum)
      ensures Recomputed(files, key) == Some(checksum)
    {
      match key
      case Custom(name) =>
        CustomIntactExactly(files, ArtifactMetadata(name, checksum));
        assert CustomIntact(files, ArtifactMetadata(name, checksum));
      case Default(instance, index, name) =>
        var e :| e in metadata.instances && e.name == instance && e.index == index &&
          RecordedNamed(e.artifacts, name, checksum);
        DefaultIntactExactly(files, e, ArtifactMetadata(name, checksum));
        assert DefaultIntact(files, e, ArtifactMetadata(name, checksum));
    }
  }

  /** Valid says that every recorded artifact is there with its recorded digests exactly when no custom artifact
      is at once unreadable and recorded as empty. */
  lemma ValidExactly(files: Files, metadata: MetadataFile)
    ensures HoldsRecords(files, metadata) <==> AllIntact(files, metadata) && !UnreadableAndEmpty(files, metadata)
  {
    if AllIntact(files, metadata) && !UnreadableAndEmpty(files, metadata) {
      IntactHolds(files, metadata);
    }
    if HoldsRecords(files, metadata) {
      HoldsIsIntact(files, metadata);
      forall a | a in metadata.customArtifacts ensures Recomputed(files, Custom(a.name)).Some? {
        assert Recorded(metadata, Custom(a.name), a.checksum);
      }
    }
  }

  /** The gap is real: a backup of one custom artifact without files, whatever its name, is valid without its file. */
  lemma LostEmptyArtifactIsValid(name: string)
    ensures var metadata := MetadataFile([], [ArtifactMetadata(name, map[])]);
            AllIntact(map[], metadata) && !HoldsRecords(map[], metadata)
  {
    var a := ArtifactMetadata(name, map[]);
    var metadata := MetadataFile([], [a]);
    assert a in metadata.customArtifacts;
    assert Recorded(metadata, Custom(name), map[]);
    CustomIntactExactly(map[], a);
  }

  // ---------------------------------------------------------------------------------------------
  // The metadata in memory, with an object per instance that is found, shared and appended to

  class InstanceMetadata {
    const name: string
    const index: string
    var artifacts: seq<ArtifactMetadata>

    constructor (name: string, index: string, artifacts: seq<ArtifactMetadata>)
      ensures this.name == name && this.index == index && this.artifacts == artifacts
    {
      this.name, this.index, this.artifacts := name, index, artifacts;
    }

    function Value(): InstanceEntry
      reads this
    {
      InstanceEntry(name, index, artifacts)
    }
  }

  ghost function Entries(ms: seq<InstanceMetadata>): (entries: seq<InstanceEntry>)
    reads ms
    ensures |entries| == |ms| && forall i | 0 <= i < |ms| :: entries[i] == ms[i].Value()
  {
    seq(|ms|, i requires 0 <= i < |ms| reads ms => ms[i].Value())
  }

  /** Where AddTo appends: at the first matching entry, or at a new one at the end. */
  lemma {:induction false} AddToAt(entries: seq<InstanceEntry>, name: string, index: string, a: ArtifactMetadata,
                                   p: nat)
    requires p <= |entries|
    requires forall i | 0 <= i < p :: !(entries[i].name == name && entries[i].index == index)
    requires p < |entries| ==> entries[p].name == name && entries[p].index == index
    ensures AddTo(entries, name, index, a) ==
            if p < |entries| then entries[p := entries[p].(artifacts := entries[p].artifacts + [a])]
            else entries + [InstanceEntry(name, index, [a])]
  {
    if p > 0 {
      AddToAt(entries[1..], name, index, a, p - 1);
      assert entries == [entries[0]] + entries[1..];
    }
  }

  class MetadataObject {
    var instances: seq<InstanceMetadata>
    var customArtifacts: seq<ArtifactMetadata>

    ghost predicate Valid()
      reads this
    {
      forall i, j | 0 <= i < j < |instances| :: instances[i] != instances[j]
    }

    ghost function Value(): MetadataFile
      reads this, instances
    {
      MetadataFile(Entries(instances), customArtifacts)
    }

    constructor (customArtifacts: seq<ArtifactMetadata>)
      ensures Valid() && instances == [] && this.customArtifacts == customArtifacts
    {
      instances, this.customArtifacts := [], customArtifacts;
    }

    /** metadata.go findOrCreateInstanceMetadata: the object itself, at its position in the list. */
    method FindOrCreateInstanceMetadata(name: string, index: string) returns (found: InstanceMetadata, ghost p: nat)
      requires Valid()
      modifies this`instances
      ensures Valid()
      ensures found in old(instances) || fresh(found)
      ensures p < |instances| && instances[p] == found
      ensures var before := old(Entries(instances));
              && p <= |before|
              && (forall i | 0 <= i < p :: !(before[i].name == name && before[i].index == index))
              && (p < |before| ==> before[p].name == name && before[p].index == index && Entries(instances) == before)
              && (p == |before| ==> Entries(instances) == before + [InstanceEntry(name, index, [])])
    {
      for i := 0 to |instances|
        invariant instances == old(instances)
        invariant forall k | 0 <= k < i :: !(instances[k].name == name && instances[k].index == index)
      {
        if instances[i].name == name && instances[i].index == index {
          return instances[i], i;
        }
      }
      found := new InstanceMetadata(name, index, []);
      instances := instances + [found];
      p := |instances| - 1;
    }

    /** metadata.go save: the value that goes to the file. */
    method Save() returns (file: MetadataFile)
      ensures file == Value()
    {
      var entries := [];
      for i := 0 to |instances|
        invariant |entries| == i && forall k | 0 <= k < i :: entries[k] == instances[k].Value()
      {
        entries := entries + [instances[i].Value()];
      }
      assert entries == Entries(instances);
      return MetadataFile(entries, customArtifacts);
    }

    method AppendToInstance(instance: string, index: string, a: ArtifactMetadata)
      requires Valid()
      modifies this`instances, instances
      ensures Valid()
      ensures Entries(instances) == AddTo(old(Entries(instances)), instance, index, a)
    {
      ghost var before := Entries(instances);
      var entry, p := FindOrCreateInstanceMetadata(instance, index);
      AddToAt(before, instance, index, a, p);
      ghost var during := Entries(instances);
      entry.artifacts := entry.artifacts + [a];
      assert Entries(instances) == during[p := during[p].(artifacts := during[p].artifacts + [a])];
      if p == |before| {
        assert during[p].artifacts + [a] == [a];
        assert during[p := InstanceEntry(instance, index, [a])] == before + [InstanceEntry(instance, index, [a])];
      }
    }

    /** Record one artifact in the object. */
    method Append(key: ArtifactKey, checksum: Checksum)
      requires Valid()
      modifies this, instances
      ensures Valid() && Value() == Add(old(Value()), key, checksum)
    {
      match key {
        case Custom(name) =>
          customArtifacts := customArtifacts + [ArtifactMetadata(name, checksum)];
        case Default(instance, index, name) =>
          AppendToInstance(instance, index, ArtifactMetadata(name, checksum));
      }
    }
  }

  /** metadata.go readMetadata: fresh objects for the value in the file. */
  method ReadMetadata(file: MetadataFile) returns (metadata: MetadataObject)
    ensures fresh(metadata) && fresh(set m | m in metadata.instances) && metadata.Valid() && metadata.Value() == file
  {
    metadata := new MetadataObject(file.customArtifacts);
    for i := 0 to |file.instances|
      invariant fresh(metadata) && fresh(set m | m in metadata.instances) && metadata.Valid()
      invariant |metadata.instances| == i && metadata.customArtifacts == file.customArtifacts
      invariant forall k | 0 <= k < i :: metadata.instances[k].Value() == file.instances[k]
    {
      var e := file.instances[i];
      var m := new InstanceMetadata(e.name, e.index, e.artifacts);
      metadata.instances := metadata.instances + [m];
    }
    assert Entries(metadata.instances) == file.instances;
  }

  // ---------------------------------------------------------------------------------------------
  // The directory

  /** How a write of the metadata file went; a failed one may leave anything behind. */
  datatype WriteResult = Written | Broken(leftover: Option<MetadataFile>)

  datatype InstanceName = InstanceName(name: string, index: string)

  ghost predicate MatchesDeployment(metadata: MetadataFile, deployment: seq<InstanceName>) {
    forall e | e in metadata.instances :: InstanceName(e.name, e.index) in deployment
  }

  class Directory {
    /** None: there is no metadata file, or it cannot be parsed. */
    var metadata: Option<MetadataFile>
    var files: Files

    constructor (metadata: Option<MetadataFile>, files: Files)
      ensures this.metadata == metadata && this.files == files
    {
      this.metadata, this.files := metadata, files;
    }

    method AddChecksum(key: ArtifactKey, checksum: Checksum, write: WriteResult) returns (failed: bool)
      modifies this`metadata
      ensures failed <==> old(metadata).None? || write.Broken?
      ensures metadata == if old(metadata).None? then None
                          else if write.Broken? then write.leftover
                          else Some(Add(old(metadata).value, key, checksum))
    {
      if metadata.None? {
        return true;
      }
      var inMemory := ReadMetadata(metadata.value);
      inMemory.Append(key, checksum);
      var file := inMemory.Save();
      match write
      case Written =>
        metadata := Some(file);
        failed := false;
      case Broken(leftover) =>
        metadata := leftover;
        failed := true;
    }

    /** A checksum that is not recorded reads as the empty map; only an unreadable metadata file is an error. */
    method FetchChecksum(key: ArtifactKey) returns (checksum: Option<Checksum>)
      ensures checksum == if metadata.None? then None
                          else match Lookup(metadata.value, key)
                               case Some(c) => Some(c)
                               case None => Some(map[])
    {
      if metadata.None? {
        return None;
      }
      match key {
        case Custom(name) =>
          var found := FindNamed(metadata.value.customArtifacts, name);
          if found.Some? {
            return found;
          }
        case Default(instance, index, name) =>
          var instances := metadata.value.instances;
          for i := 0 to |instances|
            invariant FirstIn(instances, instance, index, name) == FirstIn(instances[i..], instance, index, name)
          {
            assert instances[i..][1..] == instances[i + 1..];
            if instances[i].index == index && instances[i].name == instance {
              var found := FindNamed(instances[i].artifacts, name);
              if found.Some? {
                return found;
              }
            }
          }
          assert instances[|instances|..] == [];
      }
      return Some(map[]);
    }

    method CalculateChecksum(key: ArtifactKey) returns (checksum: Option<Checksum>)
      ensures checksum == Recomputed(files, key)
      ensures checksum.None? <==> FileName(key) !in files || files[FileName(key)].Unreadable?
      ensures checksum.Some? ==> SumsUp(files[FileName(key)].entries, checksum.value)
    {
      if FileName(key) !in files || files[FileName(key)].Unreadable? {
        return None;
      }
      var entries := files[FileName(key)].entries;
      var sums: Checksum := map[];
      for i := 0 to |entries|
        invariant sums == TarChecksum(entries[..i])
      {
        assert entries[..i + 1][..i] == entries[..i];
        if entries[i].directory {
          continue;
        }
        sums := sums[entries[i].name := entries[i].digest];
      }
      assert entries[..|entries|] == entries;
      TarChecksumSumsUp(entries);
      return Some(sums);
    }

    /** Compares the file of an artifact with a recorded checksum; a file that cannot be read counts as empty. */
    method Compare(key: ArtifactKey, recorded: Checksum) returns (read: bool, matched: bool)
      ensures read <==> Recomputed(files, key).Some?
      ensures matched <==> Agree(match Recomputed(files, key) case Some(c) => c case None => map[], recorded)
    {
      var actual := CalculateChecksum(key);
      read := actual.Some?;
      var mismatched;
      matched, mismatched := Match(if read then actual.value else map[], recorded);
    }

    method IsValid() returns (valid: bool)
      ensures valid <==> metadata.Some? && AllIntact(files, metadata.value)
    {
      if metadata.None? {
        return false;
      }
      var custom := metadata.value.customArtifacts;
      for i := 0 to |custom|
        invariant forall k | 0 <= k < i :: CustomIntact(files, custom[k])
      {
        var _, matched := Compare(Custom(custom[i].name), custom[i].checksum);
        assert matched <==> CustomIntact(files, custom[i]);
        if !matched {
          return false;
        }
      }
      var instances := metadata.value.instances;
      for i := 0 to |instances|
        invariant forall k, a | 0 <= k < i && a in instances[k].artifacts :: DefaultIntact(files, instances[k], a)
      {
        var artifacts := instances[i].artifacts;
        for n := 0 to |artifacts|
          invariant forall k | 0 <= k < n :: DefaultIntact(files, instances[i], artifacts[k])
        {
          var read, matched := Compare(Default(instances[i].name, instances[i].index, artifacts[n].name),
                                       artifacts[n].checksum);
          assert read && matched <==> DefaultIntact(files, instances[i], artifacts[n]);
          if !read || !matched {
            return false;
          }
        }
      }
      return true;
    }

    /** None: the metadata cannot be read. */
    method DeploymentMatches(deployment: seq<InstanceName>) returns (matches: Option<bool>)
      ensures matches == if metadata.None? then None else Some(MatchesDeployment(metadata.value, deployment))
    {
      if metadata.None? {
        return None;
      }
      var instances := metadata.value.instances;
      for i := 0 to |instances|
        invariant forall k | 0 <= k < i :: InstanceName(instances[k].name, instances[k].index) in deployment
      {
        var present := false;
        for n := 0 to |deployment|
          invariant present <==> InstanceName(instances[i].name, instances[i].index) in deployment[..n]
        {
          assert deployment[..n + 1] == deployment[..n] + [deployment[n]];
          if deployment[n].index == instances[i].index && deployment[n].name == instances[i].name {
            present := true;
          }
        }
        assert deployment[..|deployment|] == deployment;
        if !present {
          return Some(false);
        }
      }
      return Some(true);
    }
  }

  method FindNamed(artifacts: seq<ArtifactMetadata>, name: string) returns (found: Option<Checksum>)
    ensures found == FirstNamed(artifacts, name)
  {
    for i := 0 to |artifacts|
      invariant FirstNamed(artifacts, name) == FirstNamed(artifacts[i..], name)
    {
      assert artifacts[i..][1..] == artifacts[i + 1..];
      if artifacts[i].name == name {
        return Some(artifacts[i].checksum);
      }
    }
    assert artifacts[|artifacts|..] == [];
    return None;
  }
}
