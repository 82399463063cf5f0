/** Errors, their flattening and the exit code (orchestrator/error.go). */
module Errors {
  import opened Sequences

  /** The error types the exit code tells apart; Other is every error without a type of its own. */
  datatype Kind = LockError | BackupError | UnlockError | CleanupError | ArtifactDirError | DrainError | Other

  datatype Error = Failure(kind: Kind, message: string) | Composite(errors: seq<Error>)

  type Outcome = Option<Error>

  /** The leaves of a list of errors, left to right. */
  function Leaves(errs: seq<Error>): seq<Error>
    decreases errs
  {
    if errs == [] then []
    else
      var last := errs[|errs| - 1];
      Leaves(errs[..|errs| - 1]) + if last.Composite? then Leaves(last.errors) else [last]
  }

  lemma LeavesStep(errs: seq<Error>, i: nat)
    requires i < |errs|
    ensures Leaves(errs[..i + 1]) ==
            Leaves(errs[..i]) + (if errs[i].Composite? then Leaves(errs[i].errors) else [errs[i]])
  {
    assert errs[..i + 1][..i] == errs[..i];
  }

  method FlattenErrors(errs: seq<Error>) returns (flattened: seq<Error>)
    ensures flattened == Leaves(errs)
    decreases errs
  {
    flattened := [];
    for i := 0 to |errs|
      invariant flattened == Leaves(errs[..i])
    {
      LeavesStep(errs, i);
      if errs[i].Composite? {
        var inner := FlattenErrors(errs[i].errors);
        flattened := flattened + inner;
      } else {
        flattened := flattened + [errs[i]];
      }
    }
    assert errs[..|errs|] == errs;
  }

  function Converted(errs: seq<Error>): Outcome {
    if Leaves(errs) == [] then None else Some(Composite(Leaves(errs)))
  }

  method ConvertErrors(errs: seq<Error>) returns (converted: Outcome)
    ensures converted == Converted(errs)
    ensures converted.Some? ==> converted.value.Composite? && Plain(converted.value.errors)
  {
    var flattened := FlattenErrors(errs);
    LeavesArePlain(errs);
    return if |flattened| == 0 then None else Some(Composite(flattened));
  }

  ghost predicate Plain(errs: seq<Error>) {
    forall e | e in errs :: e.Failure?
  }

  lemma {:induction false} LeavesArePlain(errs: seq<Error>)
    ensures Plain(Leaves(errs))
    decreases errs
  {
    if errs != [] {
      LeavesArePlain(errs[..|errs| - 1]);
      if errs[|errs| - 1].Composite? {
        LeavesArePlain(errs[|errs| - 1].errors);
      }
    }
  }

  /** A list without composites is its own list of leaves. */
  lemma {:induction false} PlainLeaves(errs: seq<Error>)
    requires Plain(errs)
    ensures Leaves(errs) == errs
  {
    if errs != [] {
      PlainLeaves(errs[..|errs| - 1]);
      assert errs[|errs| - 1] in errs;
    }
  }

  lemma {:induction false} LeavesConcat(a: seq<Error>, b: seq<Error>)
    ensures Leaves(a + b) == Leaves(a) + Leaves(b)
    decreases |b|
  {
    if b == [] {
      assert a + b == a;
    } else {
      assert (a + b)[..|a + b| - 1] == a + b[..|b| - 1];
      LeavesConcat(a, b[..|b| - 1]);
    }
  }

  /** Converting what was already converted changes nothing. */
  lemma ConvertedIdempotent(errs: seq<Error>)
    requires Converted(errs).Some?
    ensures Converted([Converted(errs).value]) == Converted(errs)
  {
    LeavesArePlain(errs);
    PlainLeaves(Leaves(errs));
    var c := Converted(errs).value;
    assert Leaves([c][..0]) == [];
    assert Leaves([c]) == Leaves(c.errors);
  }

  /** The laws that any flattening must obey: keep a plain error, open a composite, go left to right. */
  ghost predicate Flattens(f: seq<Error> -> seq<Error>) {
    && f([]) == []
    && (forall e: Error :: f([e]) == if e.Composite? then f(e.errors) else [e])
    && (forall a, b :: f(a + b) == f(a) + f(b))
  }

  /** Leaves obeys those laws, and nothing else does. */
  lemma LeavesFlattens()
    ensures Flattens(Leaves)
  {
    forall e: Error ensures Leaves([e]) == if e.Composite? then Leaves(e.errors) else [e] {
      assert Leaves([e][..0]) == [];
    }
    forall a, b ensures Leaves(a + b) == Leaves(a) + Leaves(b) {
      LeavesConcat(a, b);
    }
  }

  lemma {:induction false} OnlyLeavesFlattens(f: seq<Error> -> seq<Error>, errs: seq<Error>)
    requires Flattens(f)
    ensures f(errs) == Leaves(errs)
    decreases errs
  {
    if errs != [] {
      var init, last := errs[..|errs| - 1], errs[|errs| - 1];
      assert errs == init + [last];
      OnlyLeavesFlattens(f, init);
      if last.Composite? {
        OnlyLeavesFlattens(f, last.errors);
      }
    }
  }

  // ---------------------------------------------------------------------------------------------
  // The exit code

  function Bit(e: Error): bv8 {
    if e.Failure? && e.kind == LockError then 4
    else if e.Failure? && e.kind == UnlockError then 8
    else if e.Failure? && e.kind == CleanupError then 16
    else 1
  }

  function ExitCode(errs: seq<Error>): bv8 {
    if errs == [] then 0 else ExitCode(errs[..|errs| - 1]) | Bit(errs[|errs| - 1])
  }

  method BuildExitCode(errs: seq<Error>) returns (code: bv8)
    ensures code == ExitCode(errs)
  {
    code := 0;
    for i := 0 to |errs|
      invariant code == ExitCode(errs[..i])
    {
      assert errs[..i + 1][..i] == errs[..i];
      match errs[i] {
        case Failure(LockError, _) => code := code | 4;
        case Failure(UnlockError, _) => code := code | 8;
        case Failure(CleanupError, _) => code := code | 16;
        case _ => code := code | 1;
      }
    }
    assert errs[..|errs|] == errs;
  }

  ghost predicate SomeBit(errs: seq<Error>, bit: bv8) {
    exists e | e in errs :: Bit(e) == bit
  }

  predicate IsBit(bit: bv8) {
    bit == 1 || bit == 4 || bit == 8 || bit == 16
  }

  lemma OrBit(code: bv8, b: bv8, bit: bv8)
    requires IsBit(b) && IsBit(bit)
    ensures (code | b) & bit == bit <==> code & bit == bit || b == bit
  {
  }

  lemma OrRest(code: bv8, b: bv8)
    requires IsBit(b)
    ensures code | b != 0
    ensures code & 0xE2 == 0 ==> (code | b) & 0xE2 == 0
  {
  }

  /** Each bit says whether an error of its class occurred. */
  lemma {:induction false} ExitCodeBit(errs: seq<Error>, bit: bv8)
    requires IsBit(bit)
    ensures ExitCode(errs) & bit == bit <==> SomeBit(errs, bit)
  {
    if errs != [] {
      var init, last := errs[..|errs| - 1], errs[|errs| - 1];
      ExitCodeBit(init, bit);
      OrBit(ExitCode(init), Bit(last), bit);
      assert errs == init + [last] && last in errs;
    }
  }

  lemma {:induction false} ExitCodeRest(errs: seq<Error>)
    ensures ExitCode(errs) == 0 <==> errs == []
    ensures ExitCode(errs) & 0xE2 == 0
  {
    if errs != [] {
      ExitCodeRest(errs[..|errs| - 1]);
      OrRest(ExitCode(errs[..|errs| - 1]), Bit(errs[|errs| - 1]));
    }
  }

  ghost predicate SomeOf(errs: seq<Error>, kind: Kind) {
    exists e | e in errs :: e.Failure? && e.kind == kind
  }

  /** Some error is none of the three that have a bit of their own. */
  ghost predicate SomeOther(errs: seq<Error>) {
    exists e | e in errs :: e.Composite? || (e.kind != LockError && e.kind != UnlockError && e.kind != CleanupError)
  }

  /** The code is zero only without errors, each bit says whether an error of its class occurred, and there are no
      others. */
  lemma {:induction false} ExitCodeBits(errs: seq<Error>)
    ensures ExitCode(errs) == 0 <==> errs == []
    ensures ExitCode(errs) & 1 == 1 <==> SomeOther(errs)
    ensures ExitCode(errs) & 4 == 4 <==> SomeOf(errs, LockError)
    ensures ExitCode(errs) & 8 == 8 <==> SomeOf(errs, UnlockError)
    ensures ExitCode(errs) & 16 == 16 <==> SomeOf(errs, CleanupError)
    ensures ExitCode(errs) & 0xE2 == 0
  {
    ExitCodeRest(errs);
    ExitCodeBit(errs, 1);
    ExitCodeBit(errs, 4);
    ExitCodeBit(errs, 8);
    ExitCodeBit(errs, 16);
    BitsMean(errs);
  }

  lemma BitsMean(errs: seq<Error>)
    ensures SomeBit(errs, 1) <==> SomeOther(errs)
    ensures SomeBit(errs, 4) <==> SomeOf(errs, LockError)
    ensures SomeBit(errs, 8) <==> SomeOf(errs, UnlockError)
    ensures SomeBit(errs, 16) <==> SomeOf(errs, CleanupError)
  {
    forall e | e in errs
      ensures Bit(e) == 1 <==> e.Composite? || (e.kind != LockError && e.kind != UnlockError && e.kind != CleanupError)
      ensures Bit(e) == 4 <==> e.Failure? && e.kind == LockError
      ensures Bit(e) == 8 <==> e.Failure? && e.kind == UnlockError
      ensures Bit(e) == 16 <==> e.Failure? && e.kind == CleanupError
    {
    }
  }
}
