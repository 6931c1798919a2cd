/** Sequence numbers on disk: what crashes alone preserve, what survived errors allow, and where durability ends. */
module Sequencing {
  import opened Wrappers
  import opened Model
  import opened Files
  import opened Durability

  ghost predicate Increasing(cs: seq<PersistentState>) {
    forall i, j :: 0 <= i < j < |cs| ==> cs[i].sequence < cs[j].sequence
  }

  /** The discipline of a process that has only ever been cut off by crashes. */
  ghost predicate Disciplined(f: Files, m: PersistentState) {
    && Sound(f)
    && Base(f).sequence <= m.sequence
    && Increasing(Candidates(WalChunks(f)))
    && NoneAbove(Candidates(WalChunks(f)), m.sequence)
    && forall i :: 0 <= i < |Candidates(WalChunks(f))| && Candidates(WalChunks(f))[i].sequence == Base(f).sequence
                   ==> Candidates(WalChunks(f))[i] == Base(f)
  }

  /** Two decodable states with one sequence number are one state. */
  lemma EqualSequenceEqualState(f: Files, m: PersistentState, i: nat, j: nat)
    requires Disciplined(f, m) && i < |Decodable(f)| && j < |Decodable(f)|
    requires Decodable(f)[i].sequence == Decodable(f)[j].sequence
    ensures Decodable(f)[i] == Decodable(f)[j]
  {
    var start, cs := OneOf(SnapshotState(f)), Candidates(WalChunks(f));
    assert forall k :: 0 <= k < |start| ==> Decodable(f)[k] == Base(f);
    assert forall k :: |start| <= k < |Decodable(f)| ==> Decodable(f)[k] == cs[k - |start|];
  }

  /** What decodes in the WAL at any instant: what did before, its finished lines, those and the new one, or nothing. */
  lemma InstantShapes(f: Files, next: PersistentState, stage: Stage)
    ensures var cs, lines := Candidates(WalChunks(At(f, next, stage))), ScanWal(WalChunks(f)).lines;
            cs == Candidates(WalChunks(f)) || cs == lines || cs == lines + [next] || cs == []
  {
    ScanLine(WalChunks(f), next);
  }

  lemma InstantCandidates(f: Files, m: PersistentState, next: PersistentState, stage: Stage)
    requires Disciplined(f, m) && next.sequence == m.sequence + 1
    ensures var cs := Candidates(WalChunks(At(f, next, stage)));
            && Increasing(cs)
            && forall i :: 0 <= i < |cs| ==> cs[i] in Candidates(WalChunks(f)) || cs[i] == next
  {
    InstantShapes(f, next, stage);
    FinishedLines(f, m);
    IncreasingSnoc(ScanWal(WalChunks(f)).lines, next);
  }

  lemma FinishedLines(f: Files, m: PersistentState)
    requires Disciplined(f, m)
    ensures var lines := ScanWal(WalChunks(f)).lines;
            && Increasing(lines)
            && forall i :: 0 <= i < |lines| ==>
                             lines[i].sequence <= m.sequence && lines[i] in Candidates(WalChunks(f))
  {
    var lines, cs := ScanWal(WalChunks(f)).lines, Candidates(WalChunks(f));
    forall i | 0 <= i < |lines| ensures lines[i] == cs[i] {
    }
  }

  lemma IncreasingSnoc(lines: seq<PersistentState>, next: PersistentState)
    requires Increasing(lines) && forall i :: 0 <= i < |lines| ==> lines[i].sequence < next.sequence
    ensures Increasing(lines + [next])
  {
  }

  /** Every update writes strictly above everything valid on disk. */
  lemma UpdateWritesAbove(f: Files, m: PersistentState, next: PersistentState)
    requires Disciplined(f, m) && next.sequence == m.sequence + 1
    ensures forall i :: 0 <= i < |Decodable(f)| ==> Decodable(f)[i].sequence < next.sequence
  {
    var start, cs := OneOf(SnapshotState(f)), Candidates(WalChunks(f));
    forall i | 0 <= i < |Decodable(f)| ensures Decodable(f)[i].sequence < next.sequence {
      assert Decodable(f)[i] == if i < |start| then Base(f) else cs[i - |start|];
    }
  }

  lemma AcknowledgedKeepsDiscipline(f: Files, m: PersistentState, next: PersistentState, removed: bool)
    requires Disciplined(f, m) && next.sequence == m.sequence + 1
    ensures Disciplined(After(f, next, Acknowledged(removed)), next)
  {
    var stage := if removed then WalRemoved else Replaced;
    InstantCandidates(f, m, next, stage);
    BelowOrNew(f, m, next, Candidates(WalChunks(At(f, next, stage))));
  }

  lemma BelowOrNew(f: Files, m: PersistentState, next: PersistentState, cs: seq<PersistentState>)
    requires NoneAbove(Candidates(WalChunks(f)), m.sequence) && next.sequence == m.sequence + 1
    requires forall i :: 0 <= i < |cs| ==> cs[i] in Candidates(WalChunks(f)) || cs[i] == next
    ensures NoneAbove(cs, next.sequence)
    ensures forall i :: 0 <= i < |cs| && cs[i].sequence == next.sequence ==> cs[i] == next
  {
  }

  /** A crash at any instant of an update leaves the discipline intact for the state load then recovers. */
  lemma CrashKeepsDiscipline(f: Files, m: PersistentState, next: PersistentState, stage: Stage)
    requires Disciplined(f, m) && next.sequence == m.sequence + 1
    ensures var g := At(f, next, stage); Load(g).Ok? && Disciplined(g, Load(g).value)
  {
    var g := At(f, next, stage);
    InstantCandidates(f, m, next, stage);
    BelowOrNew(f, m, next, Candidates(WalChunks(g)));
    InstantBase(f, next, stage);
    var fromWal, i := LoadSource(g);
    LevelWithBase(f, m, next, g, Candidates(WalChunks(g)));
  }

  lemma InstantBase(f: Files, next: PersistentState, stage: Stage)
    requires Sound(f)
    ensures Sound(At(f, next, stage)) && Base(At(f, next, stage)) in {Base(f), next}
  {
  }

  lemma LevelWithBase(f: Files, m: PersistentState, next: PersistentState, g: Files, cs: seq<PersistentState>)
    requires Disciplined(f, m) && next.sequence == m.sequence + 1 && Base(g) in {Base(f), next}
    requires forall i :: 0 <= i < |cs| ==> cs[i] in Candidates(WalChunks(f)) || cs[i] == next
    ensures forall j :: 0 <= j < |cs| && cs[j].sequence == Base(g).sequence ==> cs[j] == Base(g)
  {
    forall j | 0 <= j < |cs| && cs[j].sequence == Base(g).sequence ensures cs[j] == Base(g) {
      if cs[j] != next {
        var k :| 0 <= k < |Candidates(WalChunks(f))| && Candidates(WalChunks(f))[k] == cs[j];
      }
    }
  }

  // ----- survived errors -----

  /** After an update that failed with its line already written, the next acknowledged update still wins the tie. */
  lemma RetryWinsTie(R: Relation, f: Files, m: PersistentState, failed: PersistentState, next: PersistentState,
                     e: Fault, removed: bool)
    requires Preorder(R) && Begins(R, f, m, failed) && e.ErrorAt? && e.Covered(f, m.sequence)
    requires R(m, next) && next.sequence == m.sequence + 1
    ensures Load(After(After(f, failed, e), next, Acknowledged(removed))) == Ok(next)
  {
    ErrorKeepsInv(R, f, m, failed, e);
    AcknowledgedKeepsInv(R, After(f, failed, e), m, next, removed);
  }

  /**
   Beyond the covered faults: a partial WAL write survived after a failed update makes an acknowledged update vanish.
   */
  lemma PartialWriteLosesUpdate(m: PersistentState, failed: PersistentState, torn: PersistentState,
                                next: PersistentState)
    requires failed.sequence == next.sequence == m.sequence + 1 && failed != next
    ensures var f := Files(Some(Whole(m)), None, None);
            var g := After(After(f, failed, ErrorAt(WalWritten, true)), torn, ErrorAt(WalTorn, true));
            Load(After(g, next, Acknowledged(false))) == Ok(failed)
  {
    var f := Files(Some(Whole(m)), None, None);
    var f1 := After(f, failed, ErrorAt(WalWritten, true));
    var g := After(f1, torn, ErrorAt(WalTorn, true));
    ScanLine([], failed);
    assert [] + [Record(failed), Newline] == [Record(failed), Newline];
    assert ScanWal(WalChunks(f1)) == Scan([failed], []);
    ScanLine(WalChunks(f1), torn);
    assert ScanWal(WalChunks(g)) == Scan([failed], [Torn]);
    BehindTear(g, failed, next);
  }

  /** Behind a torn tail the acknowledged line does not decode, and an older one level with it wins. */
  lemma BehindTear(g: Files, failed: PersistentState, next: PersistentState)
    requires ScanWal(WalChunks(g)) == Scan([failed], [Torn]) && failed.sequence == next.sequence
    ensures Load(After(g, next, Acknowledged(false))) == Ok(failed)
  {
    var h := After(g, next, Acknowledged(false));
    ScanLine(WalChunks(g), next);
    assert ScanWal(WalChunks(h)) == Scan([failed], []);
    assert [failed][..0] == [];
    assert Best(Some(next), []) == Some(next);
    assert Best(Some(next), [failed]) == Some(failed);
  }

  /** The last line, if any, whose state carries the given sequence number. */
  function LastAt(lines: seq<PersistentState>, n: nat): Option<PersistentState> {
    if lines == [] then None
    else if lines[|lines| - 1].sequence == n then Some(lines[|lines| - 1])
    else LastAt(lines[..|lines| - 1], n)
  }

  /** Whether the acknowledged update is what a load will see, told from the files before it. */
  predicate TieIsSafe(f: Files, m: PersistentState, next: PersistentState, removed: bool) {
    || removed
    || ScanWal(WalChunks(f)).tail == []
    || LastAt(ScanWal(WalChunks(f)).lines, m.sequence + 1) in {None, Some(next)}
  }

  lemma {:induction false} BestWithCeiling(x: PersistentState, lines: seq<PersistentState>)
    requires NoneAbove(lines, x.sequence)
    ensures Best(Some(x), lines) == Some(if LastAt(lines, x.sequence).Some? then LastAt(lines, x.sequence).value else x)
  {
    if lines != [] {
      var init := lines[..|lines| - 1];
      assert forall i :: 0 <= i < |init| ==> init[i] == lines[i];
      BestWithCeiling(x, init);
      LastAtSequence(init, x.sequence);
    }
  }

  lemma {:induction false} LastAtSequence(lines: seq<PersistentState>, n: nat)
    ensures LastAt(lines, n).Some? ==> LastAt(lines, n).value.sequence == n
  {
    if lines != [] { LastAtSequence(lines[..|lines| - 1], n); }
  }

  /**
   Exactly when an acknowledged update is durable, with partial writes allowed: the WAL is removed, or its
   tail is clean, or no other line is level with the update.
   */
  lemma AcknowledgedDurableIff(f: Files, m: PersistentState, next: PersistentState, removed: bool)
    requires NoneAbove(ScanWal(WalChunks(f)).lines, m.sequence + 1) && next.sequence == m.sequence + 1
    ensures Load(After(f, next, Acknowledged(removed))) == Ok(next) <==> TieIsSafe(f, m, next, removed)
  {
    if removed {
      RemovedIsDurable(f, next);
    } else if ScanWal(WalChunks(f)).tail == [] {
      CleanTailIsDurable(f, next);
    } else {
      TornTailLoads(f, next);
    }
  }

  lemma RemovedIsDurable(f: Files, next: PersistentState)
    ensures Load(After(f, next, Acknowledged(true))) == Ok(next)
  {
    var g := After(f, next, Acknowledged(true));
    assert WalChunks(g) == [] && Candidates([]) == [];
  }

  lemma CleanTailIsDurable(f: Files, next: PersistentState)
    requires NoneAbove(ScanWal(WalChunks(f)).lines, next.sequence) && ScanWal(WalChunks(f)).tail == []
    ensures Load(After(f, next, Acknowledged(false))) == Ok(next)
  {
    var lines := ScanWal(WalChunks(f)).lines;
    ScanLine(WalChunks(f), next);
    LastAtSnoc(lines, next);
    KeptWalLoads(After(f, next, Acknowledged(false)), next, lines + [next]);
  }

  lemma TornTailLoads(f: Files, next: PersistentState)
    requires NoneAbove(ScanWal(WalChunks(f)).lines, next.sequence) && ScanWal(WalChunks(f)).tail != []
    ensures var last := LastAt(ScanWal(WalChunks(f)).lines, next.sequence);
            Load(After(f, next, Acknowledged(false))) == Ok(if last.Some? then last.value else next)
  {
    ScanLine(WalChunks(f), next);
    KeptWalLoads(After(f, next, Acknowledged(false)), next, ScanWal(WalChunks(f)).lines);
  }

  /** With the WAL still there, a line level with the new snapshot wins over it. */
  lemma KeptWalLoads(g: Files, next: PersistentState, lines: seq<PersistentState>)
    requires g.snapshot == Some(Whole(next)) && ScanWal(WalChunks(g)) == Scan(lines, [])
    requires NoneAbove(lines, next.sequence)
    ensures var last := LastAt(lines, next.sequence);
            Load(g) == Ok(if last.Some? then last.value else next)
  {
    assert Candidates(WalChunks(g)) == lines;
    BestWithCeiling(next, lines);
  }

  lemma LastAtSnoc(lines: seq<PersistentState>, x: PersistentState)
    ensures LastAt(lines + [x], x.sequence) == Some(x)
  {
  }
}
