/**
 The files implement an atomic durable register: whatever the crash, load gives the last acknowledged
 state or one that descends from it. "Descends" is any preorder `R` that contains every update made.
 */
module Durability {
  import opened Wrappers
  import opened Model
  import opened Files

  type Relation = (PersistentState, PersistentState) -> bool

  ghost predicate Preorder(R: Relation) {
    && (forall a :: R(a, a))
    && (forall a, b, c :: R(a, b) && R(b, c) ==> R(a, c))
    && (forall a, b :: R(a, b) ==> a.sequence <= b.sequence)
  }

  /** The state the snapshot file stands for. */
  function Base(f: Files): PersistentState {
    if SnapshotState(f).Some? then SnapshotState(f).value else EmptyState()
  }

  ghost predicate Sound(f: Files) {
    f.snapshot != Some(Garbage)
  }

  /** Candidates above the base descend from it; of those level with it the last is the base itself. */
  ghost predicate Rooted(R: Relation, base: PersistentState, cs: seq<PersistentState>) {
    && (forall i :: 0 <= i < |cs| && cs[i].sequence > base.sequence ==> R(base, cs[i]))
    && LastLevel(cs, base)
  }

  /** Every state of the WAL that decodes is the base's or descends from it. */
  ghost predicate WalInv(R: Relation, base: PersistentState, wal: seq<Chunk>) {
    && Rooted(R, base, ScanWal(wal).lines)
    && (var last := Decode(ScanWal(wal).tail);
        last.Some? ==> last.value.sequence > base.sequence && R(base, last.value))
  }

  ghost predicate FilesInv(R: Relation, f: Files) {
    Sound(f) && WalInv(R, Base(f), WalChunks(f))
  }

  /** The memory image: it descends from the base, at most one failed update is ahead of it, none behind a torn tail. */
  ghost predicate MemoryInv(R: Relation, f: Files, m: PersistentState) {
    && R(Base(f), m)
    && NoneAbove(Candidates(WalChunks(f)), m.sequence + 1)
    && (ScanWal(WalChunks(f)).tail != [] ==> NoneAbove(ScanWal(WalChunks(f)).lines, m.sequence))
  }

  // ----- appending -----

  lemma ScanAppend(wal: seq<Chunk>, c: Chunk)
    ensures ScanWal(wal + [c]) == ScanChunk(ScanWal(wal), c)
  {
    assert (wal + [c])[..|wal + [c]| - 1] == wal;
  }

  /** The WAL's decodable lines at each instant of an append. */
  lemma ScanLine(wal: seq<Chunk>, next: PersistentState)
    ensures ScanWal(wal + [Torn]) == Scan(ScanWal(wal).lines, ScanWal(wal).tail + [Torn])
    ensures ScanWal(wal + [Record(next)]) == Scan(ScanWal(wal).lines, ScanWal(wal).tail + [Record(next)])
    ensures ScanWal(wal + [Record(next), Newline]) ==
            Scan(if ScanWal(wal).tail == [] then ScanWal(wal).lines + [next] else ScanWal(wal).lines, [])
  {
    ScanAppend(wal, Torn);
    ScanAppend(wal, Record(next));
    ScanAppend(wal + [Record(next)], Newline);
    assert wal + [Record(next), Newline] == (wal + [Record(next)]) + [Newline];
    var tail := ScanWal(wal).tail;
    assert tail == [] ==> tail + [Record(next)] == [Record(next)];
  }

  // ----- recovery -----

  lemma HighestOverall(start: seq<PersistentState>, cs: seq<PersistentState>, i: nat)
    requires LastHighest(start + cs, i)
    ensures NoneAbove(cs, (start + cs)[i].sequence)
    ensures i >= |start| ==> LastHighest(cs, i - |start|) && cs[i - |start|] == (start + cs)[i]
    ensures forall j :: 0 <= j < |start| ==> start[j].sequence <= (start + cs)[i].sequence
  {
    var all := start + cs;
    forall j | 0 <= j < |cs| ensures cs[j].sequence <= all[i].sequence
                                     && (i < |start| + j ==> cs[j].sequence < all[i].sequence) {
      assert all[|start| + j] == cs[j];
    }
    forall j | 0 <= j < |start| ensures start[j].sequence <= all[i].sequence {
      assert all[j] == start[j];
    }
  }

  /** With a readable snapshot load succeeds, and picks the base or the last of the highest WAL states. */
  lemma LoadSource(f: Files) returns (fromWal: bool, i: nat)
    requires Sound(f)
    ensures Load(f).Ok? && NoneAbove(Candidates(WalChunks(f)), Load(f).value.sequence)
    ensures !fromWal ==> Load(f).value == Base(f)
    ensures fromWal ==> LastHighest(Candidates(WalChunks(f)), i) && Load(f).value == Candidates(WalChunks(f))[i]
                        && Load(f).value.sequence >= Base(f).sequence
  {
    var start, cs := OneOf(SnapshotState(f)), Candidates(WalChunks(f));
    i := LoadPicks(f);
    fromWal := Decodable(f) != [] && i >= |start|;
    if Decodable(f) != [] {
      HighestOverall(start, cs, i);
      assert start != [] ==> start[0] == Base(f);
    }
    i := if fromWal then i - |start| else 0;
  }

  /** Load succeeds, with the base or a descendant of it, and leaves nothing on disk ahead of what it returns. */
  lemma LoadDescends(R: Relation, f: Files)
    requires Preorder(R) && FilesInv(R, f)
    ensures Load(f).Ok?
    ensures R(Base(f), Load(f).value) && MemoryInv(R, f, Load(f).value)
    ensures NoneAbove(Candidates(WalChunks(f)), Load(f).value.sequence)
  {
    var fromWal, i := LoadSource(f);
    if fromWal {
      PickedDescends(R, f, i);
    }
  }

  lemma PickedDescends(R: Relation, f: Files, i: nat)
    requires Preorder(R) && FilesInv(R, f)
    requires LastHighest(Candidates(WalChunks(f)), i) && Candidates(WalChunks(f))[i].sequence >= Base(f).sequence
    ensures R(Base(f), Candidates(WalChunks(f))[i])
  {
    var cs, lines := Candidates(WalChunks(f)), ScanWal(WalChunks(f)).lines;
    assert forall j :: 0 <= j < |lines| ==> cs[j] == lines[j];
    if i < |lines| {
      forall j | i < j < |lines| ensures lines[j].sequence < cs[i].sequence { assert cs[j].sequence < cs[i].sequence; }
    }
  }

  // ----- one update -----

  ghost predicate Begins(R: Relation, f: Files, m: PersistentState, next: PersistentState) {
    FilesInv(R, f) && MemoryInv(R, f, m) && R(m, next) && next.sequence == m.sequence + 1
  }

  lemma LinesAreCandidates(wal: seq<Chunk>, n: nat)
    requires NoneAbove(Candidates(wal), n)
    ensures NoneAbove(ScanWal(wal).lines, n)
  {
    var cs, lines := Candidates(wal), ScanWal(wal).lines;
    assert forall i :: 0 <= i < |lines| ==> cs[i] == lines[i];
  }

  /** Of the states level with `x`, the last is `x` itself. */
  ghost predicate LastLevel(cs: seq<PersistentState>, x: PersistentState) {
    forall i ::
      0 <= i < |cs| && cs[i].sequence == x.sequence && (forall j :: i < j < |cs| ==> cs[j].sequence != x.sequence) ==>
        cs[i] == x
  }

  /** With the new line in the WAL, nothing valid is above it, and what is level with it stands before it. */
  lemma NewLineOnTop(R: Relation, f: Files, m: PersistentState, next: PersistentState)
    requires Preorder(R) && Begins(R, f, m, next)
    ensures NoneAbove(ScanWal(WalChunks(f) + [Record(next), Newline]).lines, next.sequence)
    ensures LastLevel(ScanWal(WalChunks(f) + [Record(next), Newline]).lines, next)
  {
    var wal := WalChunks(f);
    ScanLine(wal, next);
    LinesAreCandidates(wal, m.sequence + 1);
    LevelWithNew(ScanWal(wal).lines, next);
  }

  lemma LevelWithNew(lines: seq<PersistentState>, next: PersistentState)
    ensures LastLevel(lines + [next], next)
    ensures next.sequence > 0 && NoneAbove(lines, next.sequence - 1) ==> LastLevel(lines, next)
  {
    assert (lines + [next])[|lines|] == next;
  }

  lemma TornKeepsWal(R: Relation, base: PersistentState, wal: seq<Chunk>)
    requires WalInv(R, base, wal)
    ensures WalInv(R, base, wal + [Torn])
  {
    ScanAppend(wal, Torn);
  }

  lemma UnterminatedKeepsWal(R: Relation, base: PersistentState, wal: seq<Chunk>, next: PersistentState)
    requires WalInv(R, base, wal) && R(base, next) && next.sequence > base.sequence
    ensures WalInv(R, base, wal + [Record(next)])
  {
    ScanAppend(wal, Record(next));
  }

  lemma LineKeepsWal(R: Relation, base: PersistentState, wal: seq<Chunk>, next: PersistentState)
    requires WalInv(R, base, wal) && R(base, next) && next.sequence > base.sequence
    ensures WalInv(R, base, wal + [Record(next), Newline])
  {
    ScanLine(wal, next);
    if ScanWal(wal).tail == [] { RootedSnoc(R, base, ScanWal(wal).lines, next); }
  }

  /** Before the snapshot is replaced the base stays, and at most one finished line is added above it. */
  lemma AppendKeepsFiles(R: Relation, f: Files, m: PersistentState, next: PersistentState, stage: Stage)
    requires Preorder(R) && Begins(R, f, m, next) && stage != Replaced && stage != WalRemoved
    ensures FilesInv(R, At(f, next, stage)) && Base(At(f, next, stage)) == Base(f)
  {
    assert R(Base(f), m) && R(m, next) && R(Base(f), next);
    match stage
    case Untouched =>
    case WalOpened =>
    case WalTorn => TornKeepsWal(R, Base(f), WalChunks(f));
    case WalUnterminated => UnterminatedKeepsWal(R, Base(f), WalChunks(f), next);
    case _ => LineKeepsWal(R, Base(f), WalChunks(f), next);
  }

  /** Once it is replaced the base is the new state, and nothing in the WAL is above it. */
  lemma ReplaceKeepsFiles(R: Relation, f: Files, m: PersistentState, next: PersistentState, stage: Stage)
    requires Preorder(R) && Begins(R, f, m, next) && (stage == Replaced || stage == WalRemoved)
    ensures FilesInv(R, At(f, next, stage)) && Base(At(f, next, stage)) == next
  {
    ScanLine(WalChunks(f), next);
    NewLineOnTop(R, f, m, next);
  }

  /** Every instant of an update leaves files from which recovery works, on a base that has only moved forward. */
  lemma InstantKeepsFiles(R: Relation, f: Files, m: PersistentState, next: PersistentState, stage: Stage)
    requires Preorder(R) && Begins(R, f, m, next)
    ensures FilesInv(R, At(f, next, stage)) && R(Base(f), Base(At(f, next, stage)))
    ensures Base(At(f, next, stage)) in {Base(f), next}
  {
    assert R(Base(f), m) && R(m, next);
    if stage == Replaced || stage == WalRemoved {
      ReplaceKeepsFiles(R, f, m, next, stage);
    } else {
      AppendKeepsFiles(R, f, m, next, stage);
    }
  }

  lemma RootedSnoc(R: Relation, base: PersistentState, lines: seq<PersistentState>, next: PersistentState)
    requires Rooted(R, base, lines) && R(base, next) && next.sequence > base.sequence
    ensures Rooted(R, base, lines + [next])
  {
    var ls := lines + [next];
    forall i | 0 <= i < |ls| && ls[i].sequence == base.sequence
               && (forall j :: i < j < |ls| ==> ls[j].sequence != base.sequence)
      ensures ls[i] == base
    {
      assert lines[i] == ls[i];
      forall j | i < j < |lines| ensures lines[j].sequence != base.sequence { assert ls[j] == lines[j]; }
    }
  }

  /** An update that is acknowledged is what load returns from then on. */
  lemma AcknowledgedKeepsInv(R: Relation, f: Files, m: PersistentState, next: PersistentState, removed: bool)
    requires Preorder(R) && Begins(R, f, m, next)
    ensures var g := After(f, next, Acknowledged(removed));
            FilesInv(R, g) && MemoryInv(R, g, next) && Base(g) == next && Load(g) == Ok(next)
  {
    var g := After(f, next, Acknowledged(removed));
    InstantKeepsFiles(R, f, m, next, if removed then WalRemoved else Replaced);
    NewLineOnTop(R, f, m, next);
    ScanLine(WalChunks(f), next);
    assert NoneAbove(Candidates(WalChunks(g)), next.sequence);
    AcknowledgedLoads(R, g);
  }

  /** Then nothing valid on disk is above it, so the files descend from it by any relation at all. */
  lemma AcknowledgedIsTop(R: Relation, S: Relation, f: Files, m: PersistentState, next: PersistentState, removed: bool)
    requires Preorder(R) && Preorder(S) && Begins(R, f, m, next)
    ensures var g := After(f, next, Acknowledged(removed)); FilesInv(S, g) && MemoryInv(S, g, next) && Base(g) == next
  {
    var g := After(f, next, Acknowledged(removed));
    NewLineOnTop(R, f, m, next);
    ScanLine(WalChunks(f), next);
    TopFollows(S, g, next);
  }

  lemma TopFollows(S: Relation, g: Files, x: PersistentState)
    requires Preorder(S) && g.snapshot == Some(Whole(x)) && ScanWal(WalChunks(g)).tail == []
    requires NoneAbove(ScanWal(WalChunks(g)).lines, x.sequence) && LastLevel(ScanWal(WalChunks(g)).lines, x)
    ensures FilesInv(S, g) && MemoryInv(S, g, x) && Base(g) == x
  {
    assert S(x, x);
  }

  lemma AcknowledgedLoads(R: Relation, g: Files)
    requires Preorder(R) && FilesInv(R, g) && SnapshotState(g).Some? && ScanWal(WalChunks(g)).tail == []
    requires NoneAbove(Candidates(WalChunks(g)), Base(g).sequence)
    ensures Load(g) == Ok(Base(g))
  {
    var i := LoadPicks(g);
    var lines, all := ScanWal(WalChunks(g)).lines, Decodable(g);
    assert all == [Base(g)] + lines;
    if i > 0 {
      assert all[0].sequence <= all[i].sequence;
      assert lines[i - 1] == all[i];
      forall j | i - 1 < j < |lines| ensures lines[j].sequence != Base(g).sequence { assert all[j + 1] == lines[j]; }
    }
  }

  lemma TornKeepsMemory(wal: seq<Chunk>, n: nat, next: PersistentState)
    requires NoneAbove(ScanWal(wal).lines, n) && next.sequence == n + 1
    ensures NoneAbove(Candidates(wal + [Torn]), n + 1) && ScanWal(wal + [Torn]).lines == ScanWal(wal).lines
    ensures NoneAbove(Candidates(wal + [Record(next)]), n + 1)
    ensures ScanWal(wal + [Record(next)]).lines == ScanWal(wal).lines
  {
    ScanLine(wal, next);
    var lines, tail := ScanWal(wal).lines, ScanWal(wal).tail;
    assert Candidates(wal + [Torn]) == lines;
    assert Candidates(wal + [Record(next)]) == lines + if tail == [] then [next] else [];
  }

  lemma WrittenKeepsMemory(wal: seq<Chunk>, n: nat, next: PersistentState)
    requires NoneAbove(Candidates(wal), n + 1) && next.sequence == n + 1
    ensures ScanWal(wal + [Record(next), Newline]).tail == []
    ensures NoneAbove(Candidates(wal + [Record(next), Newline]), n + 1)
  {
    ScanLine(wal, next);
    LinesAreCandidates(wal, n + 1);
    var lines, tail := ScanWal(wal).lines, ScanWal(wal).tail;
    assert Candidates(wal + [Record(next), Newline]) == lines + if tail == [] then [next] else [];
  }

  /** What may have been added to the WAL is at most one line, level with the update. */
  lemma ErrorKeepsMemory(R: Relation, f: Files, m: PersistentState, next: PersistentState, fault: Fault)
    requires Begins(R, f, m, next) && fault.ErrorAt? && fault.Covered(f, m.sequence)
    ensures var wal := WalChunks(After(f, next, fault));
            && NoneAbove(Candidates(wal), m.sequence + 1)
            && (ScanWal(wal).tail != [] ==> NoneAbove(ScanWal(wal).lines, m.sequence))
  {
    if fault.stage == WalTorn || fault.stage == WalUnterminated {
      TornKeepsMemory(WalChunks(f), m.sequence, next);
    } else if fault.stage != Untouched && fault.stage != WalOpened {
      WrittenKeepsMemory(WalChunks(f), m.sequence, next);
    }
  }

  /** An update that fails with an error leaves the process where it was, even if its line is already in the WAL. */
  lemma ErrorKeepsInv(R: Relation, f: Files, m: PersistentState, next: PersistentState, fault: Fault)
    requires Preorder(R) && Begins(R, f, m, next) && fault.ErrorAt? && fault.Covered(f, m.sequence)
    ensures var g := After(f, next, fault); FilesInv(R, g) && MemoryInv(R, g, m) && Base(g) == Base(f)
  {
    var g := After(f, next, fault);
    InstantKeepsFiles(R, f, m, next, fault.stage);
    assert WalChunks(g) == WalChunks(At(f, next, fault.stage)) && g.snapshot == At(f, next, fault.stage).snapshot;
    ErrorKeepsMemory(R, f, m, next, fault);
  }

  /** However an update ends, the invariant holds again for the memory image the process is left with. */
  lemma UpdateKeepsInv(R: Relation, f: Files, m: PersistentState, next: PersistentState, fault: Fault)
    requires Preorder(R) && Begins(R, f, m, next) && fault.Covered(f, m.sequence)
    ensures FilesInv(R, After(f, next, fault)) && R(Base(f), Base(After(f, next, fault)))
    ensures fault.Acknowledged? ==>
              && MemoryInv(R, After(f, next, fault), next) && Base(After(f, next, fault)) == next
              && Load(After(f, next, fault)) == Ok(next)
    ensures fault.ErrorAt? ==> MemoryInv(R, After(f, next, fault), m) && Base(After(f, next, fault)) == Base(f)
  {
    match fault
    case Acknowledged(removed) =>
      AcknowledgedKeepsInv(R, f, m, next, removed);
      assert R(Base(f), m) && R(m, next);
    case CrashAt(stage) => InstantKeepsFiles(R, f, m, next, stage);
    case ErrorAt(_, _) => ErrorKeepsInv(R, f, m, next, fault);
  }
}
