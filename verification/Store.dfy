/** The Store of core/store.go over the files of one state directory. */
module StoreModule {
  import opened Wrappers
  import opened Model
  import opened Transactions
  import opened Files
  import opened Durability

  /** What a call that touches the disk comes back with; after Killed the process is gone. */
  datatype Io = Done | Failed | Killed

  datatype Outcome = Saved | NotSaved | Cut

  function OutcomeOf(fault: Fault): Outcome {
    match fault
    case Acknowledged(_) => Saved
    case ErrorAt(_, _) => NotSaved
    case CrashAt(_) => Cut
  }

  /** No finished line of the WAL is level with the state or above it. */
  predicate Clear(f: Files, s: PersistentState) {
    var lines := ScanWal(WalChunks(f)).lines;
    forall i :: 0 <= i < |lines| ==> lines[i].sequence < s.sequence
  }

  /**
   The state directory. Any call may fail or be the last the process makes, an append also after part of its line.
   Only with `tornErrors` may the process survive such a tear when the WAL holds a finished line that is level with
   the one being written, or above it.
   */
  class Disk {
    var files: Files
    const tornErrors: bool

    constructor (files: Files, tornErrors: bool)
      ensures this.files == files && this.tornErrors == tornErrors
    {
      this.files := files;
      this.tornErrors := tornErrors;
    }

    /** OpenFile(O_APPEND) and Write of one encoded state and its newline. */
    method AppendLine(s: PersistentState) returns (io: Io, ghost stage: Stage)
      modifies `files
      ensures stage in {Untouched, WalOpened, WalTorn, WalUnterminated, WalWritten} && files == At(old(files), s, stage)
      ensures io == Done ==> stage == WalWritten
      ensures io == Failed ==> stage != WalWritten
      ensures io == Failed && !tornErrors && (stage == WalTorn || stage == WalUnterminated) ==> Clear(old(files), s)
    {
      var wal := if files.wal.Some? then files.wal.value else [];
      var survivable := tornErrors || Clear(files, s);
      io, stage := Done, Untouched;
      if * { return Killed, Untouched; }
      if * { return Failed, Untouched; }
      files := files.(wal := Some(wal));
      if * { return Killed, WalOpened; }
      if * { return Failed, WalOpened; }
      if * {
        files := files.(wal := Some(wal + [Torn]));
        io, stage := if survivable then Failed else Killed, WalTorn;
        if * { io := Killed; }
        return;
      }
      if * {
        files := files.(wal := Some(wal + [Record(s)]));
        io, stage := if survivable then Failed else Killed, WalUnterminated;
        if * { io := Killed; }
        return;
      }
      files := files.(wal := Some(wal + [Record(s), Newline]));
      stage := WalWritten;
      if * { io := Killed; }
    }

    /** Sync or Close: nothing changes in the file, but either may fail. */
    method Flush() returns (io: Io)
    {
      io := Done;
      if * { io := Failed; }
      if * { io := Killed; }
    }

    /** OpenFile(O_TRUNC), Write, Sync and Close of the temporary snapshot. */
    method WriteTmp(s: PersistentState) returns (io: Io)
      modifies `files
      ensures files in {old(files), old(files).(tmp := Some(Garbage)), old(files).(tmp := Some(Whole(s)))}
      ensures io == Done ==> files == old(files).(tmp := Some(Whole(s)))
    {
      io := Done;
      if * { return Killed; }
      if * { return Failed; }
      files := files.(tmp := Some(Garbage));
      if * { return Killed; }
      if * { return Failed; }
      files := files.(tmp := Some(Whole(s)));
      if * { return Killed; }
      if * { return Failed; }
    }

    method RemoveTmp() returns (removed: bool)
      modifies `files
      ensures files == if removed then old(files).(tmp := None) else old(files)
    {
      removed := false;
      if * {
        files := files.(tmp := None);
        removed := true;
      }
    }

    /** Rename of the temporary file over the snapshot, which is atomic. */
    method Replace() returns (io: Io)
      modifies `files
      ensures files in {old(files), old(files).(snapshot := old(files).tmp, tmp := None)}
      ensures io == Done ==> files == old(files).(snapshot := old(files).tmp, tmp := None)
      ensures io == Failed ==> files == old(files)
    {
      io := Done;
      if * { return Killed; }
      if * { return Failed; }
      files := files.(snapshot := files.tmp, tmp := None);
      if * { io := Killed; }
    }

    /** Best effort: a failure is not reported. */
    method RemoveWal() returns (removed: bool, io: Io)
      modifies `files
      ensures files == if removed then old(files).(wal := None) else old(files)
      ensures io != Failed
    {
      removed, io := false, Done;
      if * {
        files := files.(wal := None);
        removed := true;
      }
      if * { io := Killed; }
    }
  }

  class Store {
    const disk: Disk
    var state: PersistentState

    constructor (disk: Disk, state: PersistentState)
      ensures this.disk == disk && this.state == state
    {
      this.disk := disk;
      this.state := state;
    }

    /** load: the snapshot, then every line of the WAL, keeping the best so far. */
    static method ReadBest(f: Files) returns (r: Result<PersistentState, LoadError>)
      ensures r == Load(f)
    {
      var best: Option<PersistentState> := None;
      if f.snapshot.Some? {
        if f.snapshot.value.Whole? {
          best := Some(f.snapshot.value.state);
        } else if f.wal.None? {
          return Err(CorruptSnapshot);
        }
      }
      ghost var start := best;
      var wal := if f.wal.Some? then f.wal.value else [];
      var line: seq<Chunk> := [];
      for i := 0 to |wal|
        invariant line == ScanWal(wal[..i]).tail
        invariant best == Best(start, ScanWal(wal[..i]).lines)
      {
        assert wal[..i + 1][..i] == wal[..i];
        if wal[i].Newline? {
          best := Consider(start, ScanWal(wal[..i]).lines, best, line);
          line := [];
        } else {
          line := line + [wal[i]];
        }
      }
      assert wal[..|wal|] == wal;
      best := Consider(start, ScanWal(wal).lines, best, line);
      if best.None? {
        if f.snapshot.Some? { return Err(NothingValid); }
        return Ok(EmptyState());
      }
      r := Ok(best.value);
    }

    /** One scanned line: decoded, and kept unless its sequence is lower. */
    static method Consider(ghost start: Option<PersistentState>, ghost seen: seq<PersistentState>,
                           best: Option<PersistentState>, line: seq<Chunk>)
      returns (r: Option<PersistentState>)
      requires best == Best(start, seen)
      ensures r == Best(start, if Decode(line).Some? then seen + [Decode(line).value] else seen)
    {
      r := best;
      if |line| == 1 && line[0].Record? {
        var candidate := line[0].state;
        assert (seen + [candidate])[..|seen|] == seen;
        if best.None? || candidate.sequence >= best.value.sequence {
          r := Some(candidate);
        }
      }
    }

    /** persist: WAL line, temporary snapshot, replacement, best-effort removal of the WAL. */
    method Persist(next: PersistentState) returns (o: Outcome, ghost fault: Fault)
      requires next.sequence > 0
      modifies disk`files
      ensures disk.files == After(old(disk.files), next, fault) && o == OutcomeOf(fault)
      ensures !disk.tornErrors ==> fault.Covered(old(disk.files), next.sequence - 1)
    {
      var io, stage := disk.AppendLine(next);
      if io == Killed { return Cut, CrashAt(stage); }
      if io == Failed { return NotSaved, ErrorAt(stage, false); }
      io := disk.Flush();
      if io == Killed { return Cut, CrashAt(WalWritten); }
      if io == Failed { return NotSaved, ErrorAt(WalWritten, false); }
      ghost var written := disk.files;
      io := disk.WriteTmp(next);
      stage := if disk.files == written then WalWritten
      else if disk.files.tmp == Some(Garbage) then TmpPartial else TmpWritten;
      if io == Killed { return Cut, CrashAt(stage); }
      if io == Failed {
        var cleaned := disk.RemoveTmp();
        return NotSaved, ErrorAt(stage, cleaned);
      }
      stage := TmpWritten;
      io := disk.Replace();
      if io == Killed {
        return Cut, CrashAt(if disk.files == At(old(disk.files), next, TmpWritten) then TmpWritten else Replaced);
      }
      if io == Failed {
        var cleaned := disk.RemoveTmp();
        return NotSaved, ErrorAt(TmpWritten, cleaned);
      }
      var removed;
      removed, io := disk.RemoveWal();
      if io == Killed { return Cut, CrashAt(if removed then WalRemoved else Replaced); }
      o, fault := Saved, Acknowledged(removed);
    }

    /** Update, given what the closure made of a clone of the state: stamp, persist, then swap. */
    method Update(next: PersistentState) returns (o: Outcome, ghost fault: Fault)
      modifies `state, disk`files
      ensures disk.files == After(old(disk.files), Stamp(next), fault) && o == OutcomeOf(fault)
      ensures state == if o == Saved then Stamp(next) else old(state)
      ensures !disk.tornErrors ==> fault.Covered(old(disk.files), next.sequence)
    {
      o, fault := Persist(next.(sequence := next.sequence + 1));
      if o == Saved {
        state := next.(sequence := next.sequence + 1);
      }
    }
  }
}
