/** Where the record of a send comes from: nothing says "sent" that a request without an error does not stand behind. */
module Origins {
  import opened Wrappers
  import opened Model
  import opened Transactions
  import opened StateInvariant
  import opened Preservation
  import opened Files
  import opened Durability
  import opened Machine
  import opened Lineage

  /** The run sent for the attempt, and the request came back without an error. */
  ghost predicate WentOut(run: seq<Event>, id: AttemptId) {
    exists i :: 0 <= i < |run| && run[i].Dispatched? && run[i].attempt.id == id && run[i].error.None?
  }

  /** All that the state records as sent went out. */
  ghost predicate Honest(run: seq<Event>, s: PersistentState) {
    && (forall id :: id in s.attempts && (s.attempts[id].phase == Sent || s.attempts[id].sentAt != ZERO_TIME) ==>
                       WentOut(run, id))
    && (forall c :: c in s.ledger && s.ledger[c].outcome == ResultSent ==> WentOut(run, s.ledger[c].attemptId))
  }

  /** The machine remembers an answer only until the next event. */
  lemma AnswerIsLastEvent(p: Params, run: seq<Event>)
    requires IsRun(p, run) && Exec(p, run).value.answer.Some?
    ensures run != [] && run[|run| - 1].Dispatched?
    ensures Exec(p, run).value.answer.value == (run[|run| - 1].attempt.id, run[|run| - 1].error)
  {
    assert run != [];
  }

  /** Marking a send as sent needs the answer to it. */
  lemma SentWentOut(p: Params, run: seq<Event>, i: nat)
    requires IsRun(p, run) && i < |run| && run[i].Committed? && run[i].tx.SendOutcome? && run[i].tx.phase == Sent
    ensures WentOut(run, run[i].tx.id)
  {
    PrefixIsRun(p, run, i);
    PrefixIsRun(p, run, i + 1);
    assert run[..i + 1][..i] == run[..i] && run[..i + 1][i] == run[i];
    AnswerIsLastEvent(p, run[..i]);
    assert run[i - 1] == run[..i][i - 1];
  }

  /** What a transaction records as sent, it was told of, or found recorded. */
  lemma RecordsOnly(p: Params, w: World, tx: Tx)
    requires Allowed(p, w, tx) && Apply(p, w.mem, tx).Some?
    ensures var t := NextState(p, w.mem, tx);
            && (forall id :: id in t.attempts
                             && (t.attempts[id].phase == Sent || t.attempts[id].sentAt != ZERO_TIME) ==>
                               || (tx.SendOutcome? && tx.phase == Sent && tx.id == id)
                               || (id in w.mem.attempts
                                   && (w.mem.attempts[id].phase == Sent || w.mem.attempts[id].sentAt != ZERO_TIME)))
  {
  }

  lemma LedgerRecordsOnly(p: Params, w: World, tx: Tx)
    requires StateInv(p, w.mem) && Allowed(p, w, tx) && Apply(p, w.mem, tx).Some?
    ensures var t := NextState(p, w.mem, tx);
            && (forall c :: c in t.ledger && t.ledger[c].outcome == ResultSent ==>
                              && c in w.mem.ledger && t.ledger[c].attemptId == w.mem.ledger[c].attemptId
                              && (|| (tx.SendOutcome? && tx.phase == Sent && tx.id == t.ledger[c].attemptId)
                                  || w.mem.ledger[c].outcome == ResultSent))
  {
    if tx.SendOutcome? { OutcomeRecordsOnly(p, w, tx); }
  }

  lemma OutcomeRecordsOnly(p: Params, w: World, tx: Tx)
    requires StateInv(p, w.mem) && tx.SendOutcome? && Allowed(p, w, tx)
    ensures var t := NextState(p, w.mem, tx);
            && (forall c :: c in t.ledger && t.ledger[c].outcome == ResultSent ==>
                              && c in w.mem.ledger && t.ledger[c].attemptId == w.mem.ledger[c].attemptId
                              && (|| (tx.phase == Sent && tx.id == t.ledger[c].attemptId)
                                  || w.mem.ledger[c].outcome == ResultSent))
  {
    forall c | c in w.mem.attempts[tx.id].cycleIds ensures c in w.mem.ledger && w.mem.ledger[c].attemptId == tx.id {
      assert Owns(w.mem, tx.id, c);
    }
  }

  lemma TryKeepsHonest(p: Params, run: seq<Event>, i: nat, s: PersistentState, t: PersistentState)
    requires p.cfg.Valid() && IsRun(p, run) && Tries(p, run, i, s, t) && StateInv(p, s) && Honest(run, s)
    ensures Honest(run, t)
  {
    var w := Exec(p, run[..i]).value;
    PrefixIsRun(p, run, i + 1);
    assert run[..i + 1][..i] == run[..i] && run[..i + 1][i] == run[i];
    assert Step(p, w, run[i]).Some?;
    RecordsOnly(p, w, run[i].tx);
    LedgerRecordsOnly(p, w, run[i].tx);
    if run[i].tx.SendOutcome? && run[i].tx.phase == Sent { SentWentOut(p, run, i); }
  }

  lemma {:induction false} PathKeepsHonest(p: Params, run: seq<Event>, path: seq<PersistentState>)
    requires p.cfg.Valid() && IsRun(p, run) && Linked(p, run, 0, path) && StateInv(p, path[0]) && Honest(run, path[0])
    ensures StateInv(p, path[|path| - 1]) && Honest(run, path[|path| - 1])
  {
    var m := |path| - 1;
    if m > 0 {
      PathKeepsHonest(p, run, path[..m]);
      var i :| 0 <= i && Tries(p, run, i, path[m - 1], path[m]);
      TryKeepsHonest(p, run, i, path[m - 1], path[m]);
      ApplyPreserves(p, path[m - 1], run[i].tx);
    }
  }

  // ----- everything a run has written was tried from the empty state -----

  ghost predicate AllTried(p: Params, run: seq<Event>, w: World) {
    Follows(Since(p, run, 0), w) && Since(p, run, 0)(EmptyState(), w.acked)
  }

  lemma {:induction false} RunsAreTried(p: Params, run: seq<Event>)
    requires IsRun(p, run)
    ensures AllTried(p, run, Exec(p, run).value)
  {
    var S := Since(p, run, 0);
    SinceIsPreorder(p, run, 0);
    if run == [] {
      InitFollows(S);
    } else {
      var init, e := run[..|run| - 1], run[|run| - 1];
      assert run == init + [e];
      RunsAreTried(p, init);
      forall a, b | Since(p, init, 0)(a, b) ensures S(a, b) { SinceGrows(p, init, e, 0, a, b); }
      FollowsMore(Since(p, init, 0), S, Exec(p, init).value);
      LastIsTried(p, init, e, 0);
      StepFollows(S, p, Exec(p, init).value, e);
      AckedIsTried(S, p, Exec(p, init).value, e);
    }
  }

  lemma AckedIsTried(S: Relation, p: Params, w: World, e: Event)
    requires Preorder(S) && Follows(S, w) && Step(p, w, e).Some? && Descends(S, p, w, e) && S(EmptyState(), w.acked)
    ensures S(EmptyState(), Step(p, w, e).value.acked)
  {
    if e.Committed? && e.fault.Acknowledged? {
      MemoryFollows(S, w);
      assert S(EmptyState(), w.mem);
    }
  }

  lemma ReachedIsHonest(p: Params, run: seq<Event>, s: PersistentState)
    requires p.cfg.Valid() && IsRun(p, run) && Since(p, run, 0)(EmptyState(), s)
    ensures Honest(run, s)
  {
    var path :| Leads(p, run, 0, path, EmptyState(), s);
    EmptyStateInv(p);
    PathKeepsHonest(p, run, path);
  }

  /**
   After every run, in memory, in what was acknowledged and in what load gives: a cycle noted as sent, an attempt of
   phase Sent and a time of sending each stand for a request that the run made earlier and that returned no error.
   */
  lemma RecordedMeansSent(p: Params, run: seq<Event>)
    requires p.cfg.Valid() && IsRun(p, run)
    ensures var w := Exec(p, run).value;
            && Honest(run, w.acked) && (w.pc != Down ==> Honest(run, w.mem))
            && Load(w.files).Ok? && Honest(run, Load(w.files).value)
  {
    var w, S := Exec(p, run).value, Since(p, run, 0);
    RunsAreTried(p, run);
    SinceIsPreorder(p, run, 0);
    ReachedIsHonest(p, run, w.acked);
    if w.pc != Down {
      MemoryFollows(S, w);
      assert S(EmptyState(), w.mem);
      ReachedIsHonest(p, run, w.mem);
    }
    LoadFollows(S, w);
    assert S(EmptyState(), Load(w.files).value);
    ReachedIsHonest(p, run, Load(w.files).value);
  }
}
