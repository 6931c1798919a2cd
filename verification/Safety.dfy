/** The main results, each about every run of the machine. */
module Safety {
  import opened Wrappers
  import opened Model
  import opened Adapters
  import opened Transactions
  import opened StateInvariant
  import opened Preservation
  import opened Files
  import opened Durability
  import opened Machine
  import opened Lineage

  // ----- at most one send per cycle -----

  /** No two sends of the run have a cycle in common. */
  ghost predicate AtMostOncePerCycle(run: seq<Event>) {
    forall i, j :: 0 <= i < j < |run| && run[i].Dispatched? && run[j].Dispatched? ==>
                     DisjointCycles(run[i].attempt, run[j].attempt)
  }

  ghost predicate DisjointCycles(a: ProbeAttempt, b: ProbeAttempt) {
    forall c :: !(c in a.cycleIds && c in b.cycleIds)
  }

  /** All that has been sent is fenced in the acknowledged state; what is about to be sent never was. */
  ghost predicate SendsFenced(run: seq<Event>, w: World) {
    && (forall i :: 0 <= i < |run| && run[i].Dispatched? ==> FencedIn(w.acked, run[i].attempt))
    && (w.pc.Armed? || w.pc.Fenced? ==>
          forall i :: 0 <= i < |run| && run[i].Dispatched? ==> DisjointCycles(run[i].attempt, w.pc.attempt))
  }

  lemma FencedStays(s: PersistentState, t: PersistentState, a: ProbeAttempt)
    requires FencedIn(s, a) && Extends(s, t)
    ensures FencedIn(t, a)
  {
  }

  /** A fenced cycle makes the Prepared transaction return an error. */
  lemma PreparedIsFresh(p: Params, s: PersistentState, a: ProbeAttempt, sent: ProbeAttempt)
    requires FencedIn(s, sent) && Apply(p, s, Prepare(a)).Some?
    ensures DisjointCycles(sent, a)
  {
    assert !AnyFenced(a.cycleIds, s.ledger);
  }

  lemma SentStaysFenced(p: Params, run: seq<Event>, w: World, e: Event)
    requires p.cfg.Valid() && WorldInv(p, w) && SendsFenced(run, w) && Step(p, w, e).Some?
    ensures forall i :: 0 <= i < |run + [e]| && (run + [e])[i].Dispatched? ==>
                          FencedIn(Step(p, w, e).value.acked, (run + [e])[i].attempt)
  {
    var v, all := Step(p, w, e).value, run + [e];
    StepKeepsInv(p, w, e);
    forall i | 0 <= i < |all| && all[i].Dispatched? ensures FencedIn(v.acked, all[i].attempt) {
      if i < |run| {
        assert all[i] == run[i];
        FencedStays(w.acked, v.acked, run[i].attempt);
      } else {
        assert all[i] == e;
      }
    }
  }

  /** Preparing an attempt establishes that none of its cycles was sent for. */
  lemma PreparedWasNeverSent(p: Params, run: seq<Event>, w: World, a: ProbeAttempt)
    requires p.cfg.Valid() && WorldInv(p, w) && SendsFenced(run, w) && w.pc != Down && Apply(p, w.mem, Prepare(a)).Some?
    ensures forall i :: 0 <= i < |run| && run[i].Dispatched? ==> DisjointCycles(run[i].attempt, a)
  {
    MemoryIsGood(p, w);
    forall i | 0 <= i < |run| && run[i].Dispatched? ensures DisjointCycles(run[i].attempt, a) {
      FencedStays(w.acked, w.mem, run[i].attempt);
      PreparedIsFresh(p, w.mem, a, run[i].attempt);
    }
  }

  /** The machine is between Prepare and Send only just after preparing or fencing that attempt. */
  lemma ArmedOrFencedBy(p: Params, w: World, e: Event)
    requires Step(p, w, e).Some? && (Step(p, w, e).value.pc.Armed? || Step(p, w, e).value.pc.Fenced?)
    ensures e.Committed? && w.pc != Down
    ensures || (e.tx == Prepare(Step(p, w, e).value.pc.attempt) && Apply(p, w.mem, e.tx).Some?)
            || w.pc == Armed(Step(p, w, e).value.pc.attempt)
  {
  }

  lemma SendsFencedStep(p: Params, run: seq<Event>, w: World, e: Event)
    requires p.cfg.Valid() && WorldInv(p, w) && SendsFenced(run, w) && Step(p, w, e).Some?
    ensures SendsFenced(run + [e], Step(p, w, e).value)
  {
    var pc := Step(p, w, e).value.pc;
    SentStaysFenced(p, run, w, e);
    if pc.Armed? || pc.Fenced? {
      ArmedOrFencedBy(p, w, e);
      if e.tx == Prepare(pc.attempt) { PreparedWasNeverSent(p, run, w, pc.attempt); }
      forall i | 0 <= i < |run + [e]|
                 && (run + [e])[i].Dispatched? ensures DisjointCycles((run + [e])[i].attempt, pc.attempt) {
        assert (run + [e])[i] == run[i];
      }
    }
  }

  lemma {:induction false} SendsAreFenced(p: Params, run: seq<Event>)
    requires p.cfg.Valid() && IsRun(p, run)
    ensures SendsFenced(run, Exec(p, run).value)
  {
    if run != [] {
      var init := run[..|run| - 1];
      SendsAreFenced(p, init);
      ReachableInv(p, init);
      assert run == init + [run[|run| - 1]];
      SendsFencedStep(p, init, Exec(p, init).value, run[|run| - 1]);
    }
  }

  /** Whatever the reads, results, clock, crashes and restarts, no cycle is ever sent for twice. */
  lemma {:induction false} AtMostOnce(p: Params, run: seq<Event>)
    requires p.cfg.Valid() && IsRun(p, run)
    ensures AtMostOncePerCycle(run)
  {
    if run != [] {
      var init, e := run[..|run| - 1], run[|run| - 1];
      AtMostOnce(p, init);
      SendsAreFenced(p, init);
      forall i, j | 0 <= i < j < |run| && run[i].Dispatched?
                    && run[j].Dispatched? ensures DisjointCycles(run[i].attempt, run[j].attempt) {
        assert run[i] == init[i];
        if j < |init| { assert run[j] == init[j]; }
      }
    }
  }

  // ----- durability -----

  /**
   Load of the files a run leaves behind: a good state that keeps the fences, attempts and activations acknowledged.
   */
  lemma RecoveryExtendsAcknowledged(p: Params, run: seq<Event>)
    requires p.cfg.Valid() && IsRun(p, run)
    ensures var w := Exec(p, run).value;
            Load(w.files).Ok? && StateInv(p, Load(w.files).value) && Extends(w.acked, Load(w.files).value)
  {
    var w := Exec(p, run).value;
    ReachableInv(p, run);
    LoadIsAcknowledgedOrTried(p, run);
    SinceExtends(p, run, LastAck(run), w.acked, Load(w.files).value);
  }

  /** Once sent, an attempt's cycles are in the ledger of whatever state any later load returns. */
  lemma FenceSurvives(p: Params, run: seq<Event>, i: nat)
    requires p.cfg.Valid() && IsRun(p, run) && i < |run| && run[i].Dispatched?
    ensures Load(Exec(p, run).value.files).Ok? && FencedIn(Load(Exec(p, run).value.files).value, run[i].attempt)
  {
    SendsAreFenced(p, run);
    RecoveryExtendsAcknowledged(p, run);
    FencedStays(Exec(p, run).value.acked, Load(Exec(p, run).value.files).value, run[i].attempt);
  }

  /** The same in the middle of any update the run could go on to make. */
  lemma FenceSurvivesMidUpdate(p: Params, run: seq<Event>, i: nat, tx: Tx, stage: Stage)
    requires p.cfg.Valid() && IsRun(p, run) && i < |run| && run[i].Dispatched?
    requires var w := Exec(p, run).value; w.pc != Down && Allowed(p, w, tx) && Apply(p, w.mem, tx).Some?
    ensures var w := Exec(p, run).value;
            var files := At(w.files, NextState(p, w.mem, tx), stage);
            Load(files).Ok? && FencedIn(Load(files).value, run[i].attempt)
  {
    var e := Committed(tx, CrashAt(stage));
    ExecSnoc(p, run, e);
    assert (run + [e])[i] == run[i];
    FenceSurvives(p, run + [e], i);
  }

  /** The moment an update is acknowledged, load returns exactly the state in memory. */
  lemma AcknowledgedIsLoaded(p: Params, run: seq<Event>, tx: Tx, removed: bool)
    requires p.cfg.Valid() && IsRun(p, run + [Committed(tx, Acknowledged(removed))])
    ensures var w := Exec(p, run + [Committed(tx, Acknowledged(removed))]).value;
            Load(w.files) == Ok(w.mem) && w.acked == w.mem
  {
    var all := run + [Committed(tx, Acknowledged(removed))];
    assert all[..|all| - 1] == run;
    var w := Exec(p, run).value;
    ReachableInv(p, run);
    ForwardIsPreorder(p);
    CommitBegins(p, w, tx);
    UpdateKeepsInv(Forward(p), w.files, w.mem, NextState(p, w.mem, tx), Acknowledged(removed));
  }

  /** What has been acknowledged is never undone along a run. */
  lemma {:induction false} AcknowledgedOnlyExtends(p: Params, run: seq<Event>, n: nat)
    requires p.cfg.Valid() && IsRun(p, run) && n <= |run|
    ensures IsRun(p, run[..n]) && Extends(Exec(p, run[..n]).value.acked, Exec(p, run).value.acked)
  {
    PrefixIsRun(p, run, n);
    if n == |run| {
      assert run[..n] == run;
      ExtendsReflexive(Exec(p, run).value.acked);
    } else {
      var init := run[..|run| - 1];
      AcknowledgedOnlyExtends(p, init, n);
      assert init[..n] == run[..n];
      ReachableInv(p, init);
      StepKeepsInv(p, Exec(p, init).value, run[|run| - 1]);
      ExtendsTransitive(Exec(p, run[..n]).value.acked, Exec(p, init).value.acked, Exec(p, run).value.acked);
    }
  }

  // ----- coherence of the working state -----

  /** In every reachable world the memory image is coherent and descends from what was acknowledged. */
  lemma ReachableStateIsGood(p: Params, run: seq<Event>)
    requires p.cfg.Valid() && IsRun(p, run) && Exec(p, run).value.pc != Down
    ensures StateInv(p, Exec(p, run).value.mem) && Extends(Exec(p, run).value.acked, Exec(p, run).value.mem)
  {
    ReachableInv(p, run);
    MemoryIsGood(p, Exec(p, run).value);
  }

  /** A fenced cycle has one owner: the attempt the entry names, alone among those past Prepared. */
  lemma FencedCycleHasOneOwner(p: Params, s: PersistentState, c: CycleId)
    requires StateInv(p, s)
    ensures c in s.ledger <==> exists id :: Owns(s, id, c)
    ensures forall i, j :: Owns(s, i, c) && Owns(s, j, c) ==> i == j
    ensures c in s.ledger ==> forall id :: Owns(s, id, c) <==> id == s.ledger[c].attemptId
  {
    if c in s.ledger {
      assert Owns(s, s.ledger[c].attemptId, c);
    }
  }

  /** A Prepared attempt holds no fence. */
  lemma PreparedOwnsNothing(p: Params, s: PersistentState, id: AttemptId)
    requires StateInv(p, s) && id in s.attempts && s.attempts[id].phase == Prepared
    ensures forall c :: c in s.ledger ==> s.ledger[c].attemptId != id
  {
    forall c | c in s.ledger ensures s.ledger[c].attemptId != id {
      assert Owns(s, s.ledger[c].attemptId, c);
    }
  }
}
