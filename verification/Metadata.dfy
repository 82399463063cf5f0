/** The metadata file of a backup (backup/metadata.go): values as stored, and what they record. */
module Metadata {
  import opened Sequences
  import opened Checksums

  datatype ArtifactMetadata = ArtifactMetadata(name: string, checksum: Checksum)
  datatype InstanceEntry = InstanceEntry(name: string, index: string, artifacts: seq<ArtifactMetadata>)
  datatype MetadataFile = MetadataFile(instances: seq<InstanceEntry>, customArtifacts: seq<ArtifactMetadata>)

  const NOTHING_RECORDED := MetadataFile([], [])

  /** What the metadata knows of an artifact identifier. */
  datatype ArtifactKey = Custom(name: string) | Default(instance: string, index: string, name: string)

  /** The first artifact of that name. */
  function FirstNamed(artifacts: seq<ArtifactMetadata>, name: string): Option<Checksum> {
    if artifacts == [] then None
    else if artifacts[0].name == name then Some(artifacts[0].checksum)
    else FirstNamed(artifacts[1..], name)
  }

  function FirstIn(instances: seq<InstanceEntry>, instance: string, index: string, name: string): Option<Checksum> {
    if instances == [] then None
    else if instances[0].name == instance && instances[0].index == index &&
            FirstNamed(instances[0].artifacts, name).Some?
      then FirstNamed(instances[0].artifacts, name)
    else FirstIn(instances[1..], instance, index, name)
  }

  /** What FetchChecksum finds. */
  function Lookup(file: MetadataFile, key: ArtifactKey): Option<Checksum> {
    match key
    case Custom(name) => FirstNamed(file.customArtifacts, name)
    case Default(instance, index, name) => FirstIn(file.instances, instance, index, name)
  }

  /** Append to the first entry of the instance, or create it at the end. */
  function AddTo(instances: seq<InstanceEntry>, instance: string, index: string,
                 a: ArtifactMetadata): seq<InstanceEntry> {
    if instances == [] then [InstanceEntry(instance, index, [a])]
    else if instances[0].name == instance && instances[0].index == index
      then [instances[0].(artifacts := instances[0].artifacts + [a])] + instances[1..]
    else [instances[0]] + AddTo(instances[1..], instance, index, a)
  }

  /** What AddChecksum writes. */
  function Add(file: MetadataFile, key: ArtifactKey, checksum: Checksum): MetadataFile {
    match key
    case Custom(name) =>
      file.(customArtifacts := file.customArtifacts + [ArtifactMetadata(name, checksum)])
    case Default(instance, index, name) =>
      file.(instances := AddTo(file.instances, instance, index, ArtifactMetadata(name, checksum)))
  }

  /** At most one entry per instance name and index. */
  ghost predicate OneEntryEach(instances: seq<InstanceEntry>) {
    forall i, j | 0 <= i < j < |instances| ::
      !(instances[i].name == instances[j].name && instances[i].index == instances[j].index)
  }

  lemma {:induction false} AddToNames(instances: seq<InstanceEntry>, instance: string, index: string,
                                      a: ArtifactMetadata)
    ensures var added := AddTo(instances, instance, index, a);
            && |instances| <= |added| <= |instances| + 1
            && (forall i | 0 <= i < |instances| ::
                  added[i].name == instances[i].name && added[i].index == instances[i].index)
            && (|added| > |instances| ==> added[|instances|].name == instance && added[|instances|].index == index)
            && (|added| > |instances| ==>
                forall i | 0 <= i < |instances| :: !(instances[i].name == instance && instances[i].index == index))
  {
    if instances != [] && !(instances[0].name == instance && instances[0].index == index) {
      AddToNames(instances[1..], instance, index, a);
      assert forall i | 0 < i < |instances| :: instances[1..][i - 1] == instances[i];
    }
  }

  lemma AddKeepsOneEntryEach(file: MetadataFile, key: ArtifactKey, checksum: Checksum)
    requires OneEntryEach(file.instances)
    ensures OneEntryEach(Add(file, key, checksum).instances)
  {
    if key.Default? {
      AddToNames(file.instances, key.instance, key.index, ArtifactMetadata(key.name, checksum));
    }
  }

  lemma {:induction false} FirstNamedAppend(artifacts: seq<ArtifactMetadata>, a: ArtifactMetadata, name: string)
    ensures FirstNamed(artifacts + [a], name) ==
            if FirstNamed(artifacts, name).Some? then FirstNamed(artifacts, name)
            else if a.name == name then Some(a.checksum) else None
  {
    if artifacts != [] {
      assert (artifacts + [a])[1..] == artifacts[1..] + [a];
      FirstNamedAppend(artifacts[1..], a, name);
    }
  }

  lemma {:induction false} FirstInOther(instances: seq<InstanceEntry>, instance: string, index: string, name: string)
    requires forall i | 0 <= i < |instances| :: !(instances[i].name == instance && instances[i].index == index)
    ensures FirstIn(instances, instance, index, name) == None
  {
    if instances != [] {
      FirstInOther(instances[1..], instance, index, name);
    }
  }

  /** Adding for one instance and looking up for any: the first write wins. */
  lemma {:induction false} FirstInAddTo(instances: seq<InstanceEntry>, instance: string, index: string,
                                        a: ArtifactMetadata,
                                        instance': string, index': string, name': string)
    requires OneEntryEach(instances)
    ensures FirstIn(AddTo(instances, instance, index, a), instance', index', name') ==
            if FirstIn(instances, instance', index', name').None? &&
               instance' == instance && index' == index && name' == a.name
            then Some(a.checksum) else FirstIn(instances, instance', index', name')
  {
    var added := AddTo(instances, instance, index, a);
    if instances == [] {
      assert FirstNamed([a][1..], name') == None && FirstIn(added[1..], instance', index', name') == None;
    } else if instances[0].name == instance && instances[0].index == index {
      FirstNamedAppend(instances[0].artifacts, a, name');
      assert added[1..] == instances[1..];
      if instance' == instance && index' == index {
        FirstInOther(instances[1..], instance', index', name');
      }
    } else {
      assert added[1..] == AddTo(instances[1..], instance, index, a);
      FirstInAddTo(instances[1..], instance, index, a, instance', index', name');
    }
  }

  /** One AddChecksum as FetchChecksum observes it: the first write wins, other identifiers are untouched. */
  lemma LookupAfterAdd(file: MetadataFile, key: ArtifactKey, checksum: Checksum, key': ArtifactKey)
    requires OneEntryEach(file.instances)
    ensures Lookup(Add(file, key, checksum), key') ==
            if key' == key && Lookup(file, key).None? then Some(checksum) else Lookup(file, key')
  {
    match key
    case Custom(name) =>
      if key'.Custom? {
        FirstNamedAppend(file.customArtifacts, ArtifactMetadata(name, checksum), key'.name);
      }
    case Default(instance, index, name) =>
      if key'.Default? {
        FirstInAddTo(file.instances, instance, index, ArtifactMetadata(name, checksum), key'.instance, key'.index,
                     key'.name);
      }
  }

  // ---------------------------------------------------------------------------------------------
  // Sequences of writes, in the order in which the goroutines took the mutex

  datatype Write = Write(key: ArtifactKey, checksum: Checksum)

  function AddAll(writes: seq<Write>): MetadataFile {
    if writes == [] then NOTHING_RECORDED
    else Add(AddAll(writes[..|writes| - 1]), writes[|writes| - 1].key, writes[|writes| - 1].checksum)
  }

  /** The specification: the map from identifier to the checksum written first. */
  function FirstWrites(writes: seq<Write>): map<ArtifactKey, Checksum> {
    if writes == [] then map[]
    else
      var before := FirstWrites(writes[..|writes| - 1]);
      var last := writes[|writes| - 1];
      if last.key in before then before else before[last.key := last.checksum]
  }

  /** Any sequence of writes refines the first-write-wins map, with one entry per instance. */
  lemma {:induction false} WritesRefineMap(writes: seq<Write>, key: ArtifactKey)
    ensures OneEntryEach(AddAll(writes).instances)
    ensures Lookup(AddAll(writes), key) ==
            if key in FirstWrites(writes) then Some(FirstWrites(writes)[key]) else None
  {
    if writes != [] {
      var before, last := writes[..|writes| - 1], writes[|writes| - 1];
      WritesRefineMap(before, key);
      WritesRefineMap(before, last.key);
      AddKeepsOneEntryEach(AddAll(before), last.key, last.checksum);
      LookupAfterAdd(AddAll(before), last.key, last.checksum, key);
    }
  }

  ghost predicate DistinctKeys(writes: seq<Write>) {
    forall i, j | 0 <= i < j < |writes| :: writes[i].key != writes[j].key
  }

  lemma {:induction false} FirstWriteOf(writes: seq<Write>, i: nat)
    requires DistinctKeys(writes) && i < |writes|
    ensures writes[i].key in FirstWrites(writes) && FirstWrites(writes)[writes[i].key] == writes[i].checksum
  {
    var before := writes[..|writes| - 1];
    if i < |writes| - 1 {
      FirstWriteOf(before, i);
    } else {
      OnlyWritten(before, writes[i].key);
    }
  }

  lemma {:induction false} OnlyWritten(writes: seq<Write>, key: ArtifactKey)
    ensures key in FirstWrites(writes) <==> exists i | 0 <= i < |writes| :: writes[i].key == key
  {
    if writes != [] {
      OnlyWritten(writes[..|writes| - 1], key);
    }
  }

  lemma SameKeysWritten(writes: seq<Write>, other: seq<Write>, key: ArtifactKey)
    requires multiset(writes) == multiset(other)
    ensures key in FirstWrites(writes) ==> key in FirstWrites(other)
  {
    OnlyWritten(writes, key);
    OnlyWritten(other, key);
    if i :| 0 <= i < |writes| && writes[i].key == key {
      assert writes[i] in multiset(other);
    }
  }

  /** With distinct identifiers, the order in which the mutex was taken does not show. */
  lemma MutexOrderIrrelevant(writes: seq<Write>, other: seq<Write>, key: ArtifactKey)
    requires DistinctKeys(writes) && DistinctKeys(other) && multiset(writes) == multiset(other)
    ensures Lookup(AddAll(writes), key) == Lookup(AddAll(other), key)
  {
    WritesRefineMap(writes, key);
    WritesRefineMap(other, key);
    SameKeysWritten(writes, other, key);
    SameKeysWritten(other, writes, key);
    OnlyWritten(writes, key);
    if i :| 0 <= i < |writes| && writes[i].key == key {
      assert writes[i] in multiset(other);
      var j :| 0 <= j < |other| && other[j] == writes[i];
      FirstWriteOf(writes, i);
      FirstWriteOf(other, j);
    }
  }

  // ---------------------------------------------------------------------------------------------
  // What is recorded at all

  ghost predicate RecordedNamed(artifacts: seq<ArtifactMetadata>, name: string, checksum: Checksum) {
    ArtifactMetadata(name, checksum) in artifacts
  }

  ghost predicate Recorded(file: MetadataFile, key: ArtifactKey, checksum: Checksum) {
    match key
    case Custom(name) => RecordedNamed(file.customArtifacts, name, checksum)
    case Default(instance, index, name) =>
      exists e | e in file.instances :: e.name == instance && e.index == index &&
        RecordedNamed(e.artifacts, name, checksum)
  }

  lemma {:induction false} RecordedAddTo(instances: seq<InstanceEntry>, instance: string, index: string,
                                         a: ArtifactMetadata,
                                         e: InstanceEntry)
    ensures e in AddTo(instances, instance, index, a) ==>
              e in instances || (e.name == instance && e.index == index &&
                (e.artifacts == [a] ||
                 exists e' | e' in instances :: e' == e.(artifacts := e'.artifacts) &&
                   e.artifacts == e'.artifacts + [a]))
    ensures e in instances ==>
              e in AddTo(instances, instance, index, a) ||
              e.(artifacts := e.artifacts + [a]) in AddTo(instances, instance, index, a)
    ensures exists e' | e' in AddTo(instances, instance, index, a) ::
              e'.name == instance && e'.index == index && a in e'.artifacts
  {
    var added := AddTo(instances, instance, index, a);
    if instances == [] {
      assert added[0] in added;
    } else {
      assert instances == [instances[0]] + instances[1..];
      assert added[0] in added;
      if !(instances[0].name == instance && instances[0].index == index) {
        RecordedAddTo(instances[1..], instance, index, a, e);
        assert added == [instances[0]] + AddTo(instances[1..], instance, index, a);
      }
    }
  }

  /** An AddChecksum records its pair and keeps every other. */
  lemma RecordedAfterAdd(file: MetadataFile, key: ArtifactKey, checksum: Checksum, key': ArtifactKey,
                         checksum': Checksum)
    ensures Recorded(Add(file, key, checksum), key', checksum') <==>
            Recorded(file, key', checksum') || (key' == key && checksum' == checksum)
  {
    if key.Default? && key'.Default? {
      RecordedDefault(file, key, checksum, key', checksum');
      RecordedDefaultBack(file, key, checksum, key', checksum');
    }
  }

  lemma RecordedDefault(file: MetadataFile, key: ArtifactKey, checksum: Checksum, key': ArtifactKey,
                        checksum': Checksum)
    requires key.Default? && key'.Default?
    ensures Recorded(Add(file, key, checksum), key', checksum') ==>
            Recorded(file, key', checksum') || (key' == key && checksum' == checksum)
  {
    var a := ArtifactMetadata(key.name, checksum);
    if e :| e in Add(file, key, checksum).instances &&
            e.name == key'.instance && e.index == key'.index && RecordedNamed(e.artifacts, key'.name, checksum') {
      RecordedAddTo(file.instances, key.instance, key.index, a, e);
    }
  }

  lemma RecordedDefaultBack(file: MetadataFile, key: ArtifactKey, checksum: Checksum, key': ArtifactKey,
                            checksum': Checksum)
    requires key.Default? && key'.Default?
    ensures Recorded(file, key', checksum') || (key' == key && checksum' == checksum) ==>
            Recorded(Add(file, key, checksum), key', checksum')
  {
    var a := ArtifactMetadata(key.name, checksum);
    if e :| e in file.instances && e.name == key'.instance && e.index == key'.index &&
            RecordedNamed(e.artifacts, key'.name, checksum') {
      RecordedAddTo(file.instances, key.instance, key.index, a, e);
    } else {
      RecordedAddTo(file.instances, key.instance, key.index, a, InstanceEntry("", "", []));
    }
  }

  /** What a lookup finds was recorded. */
  lemma {:induction false} FirstNamedRecorded(artifacts: seq<ArtifactMetadata>, name: string)
    ensures FirstNamed(artifacts, name).Some? ==> RecordedNamed(artifacts, name, FirstNamed(artifacts, name).value)
  {
    if artifacts != [] {
      FirstNamedRecorded(artifacts[1..], name);
    }
  }

  lemma {:induction false} FirstInRecorded(instances: seq<InstanceEntry>, instance: string, index: string, name: string)
    ensures FirstIn(instances, instance, index, name).Some? ==>
            exists e | e in instances :: e.name == instance && e.index == index &&
                                         RecordedNamed(e.artifacts, name,
                                                       FirstIn(instances, instance, index, name).value)
  {
    if instances != [] {
      FirstNamedRecorded(instances[0].artifacts, name);
      FirstInRecorded(instances[1..], instance, index, name);
      assert instances[0] in instances;
    }
  }

  lemma LookupIsRecorded(file: MetadataFile, key: ArtifactKey)
    ensures Lookup(file, key).Some? ==> Recorded(file, key, Lookup(file, key).value)
  {
    match key
    case Custom(name) => FirstNamedRecorded(file.customArtifacts, name);
    case Default(instance, index, name) => FirstInRecorded(file.instances, instance, index, name);
  }

  lemma {:induction false} NamedIsFound(artifacts: seq<ArtifactMetadata>, name: string, checksum: Checksum)
    requires RecordedNamed(artifacts, name, checksum)
    ensures FirstNamed(artifacts, name).Some?
  {
    if artifacts[0].name != name {
      assert artifacts == [artifacts[0]] + artifacts[1..];
      NamedIsFound(artifacts[1..], name, checksum);
    }
  }

  lemma {:induction false} EntryIsFound(instances: seq<InstanceEntry>, e: InstanceEntry, name: string,
                                        checksum: Checksum)
    requires e in instances && RecordedNamed(e.artifacts, name, checksum)
    ensures FirstIn(instances, e.name, e.index, name).Some?
  {
    if e == instances[0] {
      NamedIsFound(e.artifacts, name, checksum);
    } else {
      assert instances == [instances[0]] + instances[1..];
      EntryIsFound(instances[1..], e, name, checksum);
    }
  }

  /** What was recorded is found by a lookup. */
  lemma RecordedIsFound(file: MetadataFile, key: ArtifactKey, checksum: Checksum)
    requires Recorded(file, key, checksum)
    ensures Lookup(file, key).Some?
  {
    match key
    case Custom(name) => NamedIsFound(file.customArtifacts, name, checksum);
    case Default(instance, index, name) =>
      var e :| e in file.instances && e.name == instance && e.index == index &&
        RecordedNamed(e.artifacts, name, checksum);
      EntryIsFound(file.instances, e, name, checksum);
  }
}
