/** Sequence numbers along runs in which the process may crash anywhere but no update fails with an error. */
module CrashRuns {
  import opened Wrappers
  import opened Model
  import opened Transactions
  import opened Files
  import opened Durability
  import opened Sequencing
  import opened Machine

  ghost predicate CrashOnly(run: seq<Event>) {
    forall i :: 0 <= i < |run| && run[i].Committed? ==> !run[i].fault.ErrorAt?
  }

  /** The state the process works on, or the one the next process will start from. */
  function Present(w: World): PersistentState {
    if w.pc == Down then (if Load(w.files).Ok? then Load(w.files).value else EmptyState()) else w.mem
  }

  ghost predicate DisciplinedWorld(w: World) {
    Disciplined(w.files, Present(w)) && (w.pc == Down ==> Load(w.files).Ok?)
  }

  /** A crash between two updates. */
  lemma CrashAtRest(f: Files, m: PersistentState)
    requires Disciplined(f, m)
    ensures Load(f).Ok? && Disciplined(f, Load(f).value)
  {
    CrashKeepsDiscipline(f, m, Stamp(m), Untouched);
  }

  lemma CommitKeepsDiscipline(p: Params, w: World, tx: Tx, fault: Fault)
    requires DisciplinedWorld(w) && CommitStep(p, w, tx, fault).Some? && !fault.ErrorAt?
    ensures DisciplinedWorld(CommitStep(p, w, tx, fault).value)
  {
    var next := NextState(p, w.mem, tx);
    StampsNext(p, w.mem, tx);
    match fault
    case Acknowledged(removed) => AcknowledgedKeepsDiscipline(w.files, w.mem, next, removed);
    case CrashAt(stage) => CrashKeepsDiscipline(w.files, w.mem, next, stage);
  }

  lemma StepKeepsDiscipline(p: Params, w: World, e: Event)
    requires DisciplinedWorld(w) && Step(p, w, e).Some? && (e.Committed? ==> !e.fault.ErrorAt?)
    ensures DisciplinedWorld(Step(p, w, e).value)
  {
    match e
    case Committed(tx, fault) => CommitKeepsDiscipline(p, w, tx, fault);
    case Crashed => CrashAtRest(w.files, w.mem);
    case _ =>
  }

  lemma InitIsDisciplined()
    ensures DisciplinedWorld(Init())
  {
  }

  lemma PrefixIsCrashOnly(run: seq<Event>)
    requires run != [] && CrashOnly(run)
    ensures CrashOnly(run[..|run| - 1])
  {
  }

  lemma {:induction false} RunsAreDisciplined(p: Params, run: seq<Event>)
    requires IsRun(p, run) && CrashOnly(run)
    ensures DisciplinedWorld(Exec(p, run).value)
  {
    if run == [] {
      InitIsDisciplined();
    } else {
      PrefixIsCrashOnly(run);
      RunsAreDisciplined(p, run[..|run| - 1]);
      StepKeepsDiscipline(p, Exec(p, run[..|run| - 1]).value, run[|run| - 1]);
    }
  }

  /** With crash faults only: states on disk with equal sequence are equal, and each update writes above them all. */
  lemma CrashOnlySequences(p: Params, run: seq<Event>)
    requires IsRun(p, run) && CrashOnly(run)
    ensures var on := Decodable(Exec(p, run).value.files);
            && (forall i, j :: 0 <= i < |on| && 0 <= j < |on| && on[i].sequence == on[j].sequence ==> on[i] == on[j])
            && forall tx :: CommitStep(p, Exec(p, run).value, tx, Acknowledged(true)).Some? ==>
                              forall i :: 0 <= i < |on| ==>
                                            on[i].sequence < Stamp(Apply(p, Exec(p, run).value.mem, tx).value).sequence
  {
    var w := Exec(p, run).value;
    var on := Decodable(w.files);
    RunsAreDisciplined(p, run);
    forall i, j | 0 <= i < |on| && 0 <= j < |on| && on[i].sequence == on[j].sequence ensures on[i] == on[j] {
      EqualSequenceEqualState(w.files, Present(w), i, j);
    }
    forall tx | CommitStep(p, w, tx, Acknowledged(true)).Some?
      ensures forall i :: 0 <= i < |on| ==> on[i].sequence < NextState(p, w.mem, tx).sequence
    {
      StampsNext(p, w.mem, tx);
      UpdateWritesAbove(w.files, w.mem, NextState(p, w.mem, tx));
    }
  }
}
