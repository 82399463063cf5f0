/** Checksum maps and their comparison (orchestrator/checksum.go). */
module Checksums {
  import opened Sequences

  /** File name to digest. */
  type Checksum = map<string, string>

  /** Reading a key that is missing gives the empty string. */
  function Read(c: Checksum, key: string): string {
    if key in c then c[key] else ""
  }

  /** What Match decides. */
  predicate Agree(b: Checksum, other: Checksum) {
    |b| == |other| && forall key | key in b :: b[key] == Read(other, key)
  }

  method GetMismatchedFiles(b: Checksum, other: Checksum) returns (files: seq<string>)
    ensures NoDuplicates(files)
    ensures forall f :: f in files <==> f in b && b[f] != Read(other, f)
  {
    files := [];
    var keys := b.Keys;
    while keys != {}
      invariant keys <= b.Keys
      invariant NoDuplicates(files)
      invariant forall f :: f in files <==> f in b && f !in keys && b[f] != Read(other, f)
    {
      var key :| key in keys;
      keys := keys - {key};
      if b[key] != Read(other, key) {
        files := files + [key];
      }
    }
  }

  method Match(b: Checksum, other: Checksum) returns (matched: bool, files: seq<string>)
    ensures matched <==> Agree(b, other)
    ensures matched ==> files == []
    ensures !matched ==> forall f :: f in files <==> f in b && b[f] != Read(other, f)
  {
    if |b| != |other| {
      files := GetMismatchedFiles(b, other);
      return false, files;
    }
    var keys := b.Keys;
    while keys != {}
      invariant keys <= b.Keys
      invariant forall key | key in b && key !in keys :: b[key] == Read(other, key)
    {
      var key :| key in keys;
      if b[key] != Read(other, key) {
        files := GetMismatchedFiles(b, other);
        return false, files;
      }
      keys := keys - {key};
    }
    return true, [];
  }

  ghost predicate NoEmptyDigest(b: Checksum) {
    forall key | key in b :: b[key] != ""
  }

  lemma SameSizeSubset<T>(a: set<T>, b: set<T>)
    requires a <= b && |a| == |b|
    ensures a == b
  {
    SubsetSize(a, b);
    assert b == a + (b - a);
  }

  lemma AgreeIsEqual(b: Checksum, other: Checksum)
    requires NoEmptyDigest(b)
    ensures Agree(b, other) <==> b == other
  {
    if Agree(b, other) {
      forall key | key in b ensures key in other {
        assert b[key] == Read(other, key);
      }
      assert |b.Keys| == |other.Keys|;
      SameSizeSubset(b.Keys, other.Keys);
    }
  }

  lemma {:induction false} LongerThanAll(keys: set<string>) returns (n: nat)
    ensures forall key | key in keys :: |key| < n
    decreases |keys|
  {
    if keys == {} {
      n := 0;
    } else {
      var key :| key in keys;
      var m := LongerThanAll(keys - {key});
      n := if |key| < m then m else |key| + 1;
    }
  }

  /** An empty digest in the receiver lets a different map match. */
  lemma EmptyDigestFools(b: Checksum, key: string) returns (other: Checksum)
    requires key in b && b[key] == ""
    ensures Agree(b, other) && other != b
  {
    var n := LongerThanAll(b.Keys);
    var unused := seq(n, _ => 'x');
    assert |unused| == n;
    var rest := b - {key};
    assert rest.Keys == b.Keys - {key};
    other := rest[unused := "0"];
    assert other.Keys == rest.Keys + {unused};
    assert |other.Keys| == |b.Keys|;
    assert unused in other && unused !in b;
  }

  /** Match is equality of the maps, against every other map, exactly when the receiver has no empty digest. */
  lemma MatchIsEqualityExactly(b: Checksum)
    ensures NoEmptyDigest(b) <==> forall other :: Agree(b, other) <==> b == other
  {
    if NoEmptyDigest(b) {
      forall other ensures Agree(b, other) <==> b == other {
        AgreeIsEqual(b, other);
      }
    } else {
      var key :| key in b && b[key] == "";
      var other := EmptyDigestFools(b, key);
    }
  }
}
