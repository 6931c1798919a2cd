/**
 The files of core/store.go and what load makes of them.

 A WAL is bytes appended by successive updates, of which a crash may leave a proper part. It is modelled
 as the chunks written: a whole encoded record, a newline, or torn bytes. A line decodes exactly when it
 is one whole record; a torn tail therefore spoils the record the next append writes behind it.
 */
module Files {
  import opened Wrappers
  import opened Model

  datatype Chunk = Record(state: PersistentState) | Newline | Torn

  /** A snapshot or temporary file: a checksummed envelope, or bytes that do not decode. */
  datatype Content = Whole(state: PersistentState) | Garbage

  datatype Files = Files(snapshot: Option<Content>, wal: Option<seq<Chunk>>, tmp: Option<Content>)

  function NoFiles(): Files { Files(None, None, None) }

  function Decode(line: seq<Chunk>): Option<PersistentState> {
    if |line| == 1 && line[0].Record? then Some(line[0].state) else None
  }

  /** The states of the newline-terminated lines that decode, in file order, and the unterminated rest. */
  datatype Scan = Scan(lines: seq<PersistentState>, tail: seq<Chunk>)

  function ScanChunk(s: Scan, c: Chunk): Scan {
    if c.Newline? then Scan(if Decode(s.tail).Some? then s.lines + [Decode(s.tail).value] else s.lines, [])
    else Scan(s.lines, s.tail + [c])
  }

  function ScanWal(wal: seq<Chunk>): Scan {
    if wal == [] then Scan([], []) else ScanChunk(ScanWal(wal[..|wal| - 1]), wal[|wal| - 1])
  }

  /** bufio.Scanner also yields the last line when no newline ends it. */
  function Candidates(wal: seq<Chunk>): seq<PersistentState> {
    var s := ScanWal(wal);
    if Decode(s.tail).Some? then s.lines + [Decode(s.tail).value] else s.lines
  }

  function WalChunks(f: Files): seq<Chunk> {
    if f.wal.Some? then f.wal.value else []
  }

  /** The running choice of load: a candidate replaces the best so far unless its sequence is lower. */
  function Best(start: Option<PersistentState>, cs: seq<PersistentState>): Option<PersistentState> {
    if cs == [] then start
    else
      var best, c := Best(start, cs[..|cs| - 1]), cs[|cs| - 1];
      if best.None? || c.sequence >= best.value.sequence then Some(c) else best
  }

  datatype LoadError = CorruptSnapshot | NothingValid

  function SnapshotState(f: Files): Option<PersistentState> {
    if f.snapshot.Some? && f.snapshot.value.Whole? then Some(f.snapshot.value.state) else None
  }

  function Load(f: Files): Result<PersistentState, LoadError> {
    if f.snapshot == Some(Garbage) && f.wal.None? then Err(CorruptSnapshot)
    else
      var best := Best(SnapshotState(f), Candidates(WalChunks(f)));
      if best.Some? then Ok(best.value)
      else if f.snapshot.Some? then Err(NothingValid)
      else Ok(EmptyState())
  }

  // ----- what load picks -----

  /** Position `i` holds the highest sequence and none after it reaches as high. */
  ghost predicate LastHighest(cs: seq<PersistentState>, i: nat) {
    && i < |cs|
    && (forall j :: 0 <= j < |cs| ==> cs[j].sequence <= cs[i].sequence)
    && (forall j :: i < j < |cs| ==> cs[j].sequence < cs[i].sequence)
  }

  function OneOf(start: Option<PersistentState>): seq<PersistentState> {
    if start.Some? then [start.value] else []
  }

  /** Every state that decodes: the snapshot's, then the WAL's in file order. */
  function Decodable(f: Files): seq<PersistentState> {
    OneOf(SnapshotState(f)) + Candidates(WalChunks(f))
  }

  lemma {:induction false} BestIsLastHighest(start: Option<PersistentState>, cs: seq<PersistentState>) returns (i: nat)
    ensures if OneOf(start) + cs == [] then Best(start, cs).None?
            else LastHighest(OneOf(start) + cs, i) && Best(start, cs) == Some((OneOf(start) + cs)[i])
  {
    i := 0;
    if cs != [] {
      var init, c := cs[..|cs| - 1], cs[|cs| - 1];
      i := BestIsLastHighest(start, init);
      var before, all := OneOf(start) + init, OneOf(start) + cs;
      assert all == before + [c];
      if before == [] || c.sequence >= before[i].sequence {
        i := |before|;
      }
    }
  }

  /** Load returns the last of the highest-numbered states that decode; the empty state only when nothing is there. */
  lemma LoadPicks(f: Files) returns (i: nat)
    ensures Decodable(f) != [] ==> LastHighest(Decodable(f), i) && Load(f) == Ok(Decodable(f)[i])
    ensures Decodable(f) == [] ==> if f.snapshot.None? then Load(f) == Ok(EmptyState()) else Load(f).Err?
  {
    i := BestIsLastHighest(SnapshotState(f), Candidates(WalChunks(f)));
  }

  predicate NoneAbove(cs: seq<PersistentState>, n: nat) {
    forall i :: 0 <= i < |cs| ==> cs[i].sequence <= n
  }

  // ----- the instants of persist -----

  datatype Stage =
    | Untouched | WalOpened | WalTorn | WalUnterminated | WalWritten
    | TmpPartial | TmpWritten | Replaced | WalRemoved

  /** The files at each instant of persist(next) started on `f`. */
  function At(f: Files, next: PersistentState, stage: Stage): Files {
    var line := [Record(next), Newline];
    match stage
    case Untouched => f
    case WalOpened => f.(wal := Some(WalChunks(f)))
    case WalTorn => f.(wal := Some(WalChunks(f) + [Torn]))
    case WalUnterminated => f.(wal := Some(WalChunks(f) + [Record(next)]))
    case WalWritten => f.(wal := Some(WalChunks(f) + line))
    case TmpPartial => f.(wal := Some(WalChunks(f) + line), tmp := Some(Garbage))
    case TmpWritten => f.(wal := Some(WalChunks(f) + line), tmp := Some(Whole(next)))
    case Replaced => f.(wal := Some(WalChunks(f) + line), tmp := None, snapshot := Some(Whole(next)))
    case WalRemoved => f.(wal := None, tmp := None, snapshot := Some(Whole(next)))
  }

  /** How one call of persist ends: acknowledged, cut off by a crash, or failed with an error the process survives. */
  datatype Fault = Acknowledged(walRemoved: bool) | CrashAt(stage: Stage) | ErrorAt(stage: Stage, tmpRemoved: bool) {
    /**
     Nothing fails after the replacement. A survived error may leave part of a line behind as long as no finished
     line stands above sequence `n`, the one in memory.
     */
    predicate Covered(f: Files, n: nat) {
      ErrorAt? ==>
        && stage != Replaced && stage != WalRemoved
        && (stage == WalTorn || stage == WalUnterminated ==> NoneAbove(ScanWal(WalChunks(f)).lines, n))
    }
  }

  function After(f: Files, next: PersistentState, fault: Fault): Files {
    match fault
    case Acknowledged(removed) => At(f, next, if removed then WalRemoved else Replaced)
    case CrashAt(stage) => At(f, next, stage)
    case ErrorAt(stage, removed) => if removed then At(f, next, stage).(tmp := None) else At(f, next, stage)
  }
}
