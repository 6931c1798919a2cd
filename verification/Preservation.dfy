/** Every transaction keeps the state invariant and only ever extends what is durable. */
module Preservation {
  import opened Wrappers
  import opened Model
  import opened Adapters
  import opened Normalize
  import opened Transactions
  import opened StateInvariant

  // ----- one-way facts -----

  ghost predicate AttemptExtends(a: ProbeAttempt, b: ProbeAttempt) {
    && b.id == a.id && b.instanceKey == a.instanceKey && b.windowKeys == a.windowKeys && b.cycleIds == a.cycleIds
    && a.phase.Rank() <= b.phase.Rank()
  }

  ghost predicate LedgerKept(s: PersistentState, t: PersistentState) {
    forall c :: c in s.ledger ==>
                  && c in t.ledger && t.ledger[c].attemptId == s.ledger[c].attemptId
                  && t.ledger[c].sendingAt == s.ledger[c].sendingAt
  }

  ghost predicate AttemptsKept(s: PersistentState, t: PersistentState) {
    forall id :: id in s.attempts && s.attempts[id].phase != Prepared ==>
                   id in t.attempts && AttemptExtends(s.attempts[id], t.attempts[id])
  }

  ghost predicate WindowsKept(s: PersistentState, t: PersistentState) {
    forall k :: k in s.windows ==>
                  && k in t.windows
                  && (s.windows[k].lastActivation != ZERO_TIME ==> t.windows[k].lastActivation != ZERO_TIME)
  }

  /**
   Nothing durable about sends is undone: fences stay, phases advance, only Prepared attempts may go, windows stay.
   */
  ghost predicate Extends(s: PersistentState, t: PersistentState) {
    s.sequence <= t.sequence && LedgerKept(s, t) && AttemptsKept(s, t) && WindowsKept(s, t)
  }

  lemma ExtendsReflexive(s: PersistentState)
    ensures Extends(s, s)
  {
  }

  lemma ExtendsTransitive(s: PersistentState, t: PersistentState, u: PersistentState)
    requires Extends(s, t) && Extends(t, u)
    ensures Extends(s, u)
  {
    forall id | id in s.attempts && s.attempts[id].phase != Prepared
      ensures id in u.attempts && AttemptExtends(s.attempts[id], u.attempts[id])
    {
      assert AttemptExtends(s.attempts[id], t.attempts[id]);
    }
  }

  // ----- the pieces of the invariant under a change of the window table -----

  lemma AttemptOkMonotone(ws: map<WindowKey, WindowRecord>, vs: map<WindowKey, WindowRecord>, id: AttemptId,
                          a: ProbeAttempt)
    requires AttemptOk(ws, id, a) && forall k :: k in ws ==> k in vs
    ensures AttemptOk(vs, id, a)
  {
  }

  lemma LedgerPiecesEvolve(p: Params, s: PersistentState, t: PersistentState)
    requires p.cfg.Valid() && WindowsOk(s.windows) && Activated(s)
    requires WindowsEvolve(s.windows, t.windows) && t.ledger.Keys == s.ledger.Keys
    ensures WindowsOk(t.windows) && Activated(t)
  {
    forall k | k in t.windows ensures WindowOk(k, t.windows[k]) {
      if k in s.windows { assert Evolves(k, s.windows[k], t.windows[k]); }
    }
    forall c | c in t.ledger ensures c in s.ledger && c.Window() in t.windows
                                     && t.windows[c.Window()].lastActivation != ZERO_TIME {
      assert c in s.ledger.Keys;
      assert Evolves(c.Window(), s.windows[c.Window()], t.windows[c.Window()]);
    }
  }

  /** The attempts already there are still well-formed over a table that keeps its keys. */
  lemma AttemptsStayOk(s: PersistentState, vs: map<WindowKey, WindowRecord>)
    requires AttemptsOk(s) && forall k :: k in s.windows ==> k in vs
    ensures forall id :: id in s.attempts ==> AttemptOk(vs, id, s.attempts[id])
  {
    forall id | id in s.attempts ensures AttemptOk(vs, id, s.attempts[id]) {
      AttemptOkMonotone(s.windows, vs, id, s.attempts[id]);
    }
  }

  lemma EvolvedWindowsKept(p: Params, s: PersistentState, t: PersistentState)
    requires WindowsEvolve(s.windows, t.windows)
    ensures WindowsKept(s, t)
  {
    forall k | k in s.windows
      ensures k in t.windows && (s.windows[k].lastActivation != ZERO_TIME ==> t.windows[k].lastActivation != ZERO_TIME)
    {
      assert Evolves(k, s.windows[k], t.windows[k]);
    }
  }

  /** Transactions that only edit windows. */
  lemma WindowsOnly(p: Params, s: PersistentState, vs: map<WindowKey, WindowRecord>)
    requires p.cfg.Valid() && StateInv(p, s) && WindowsEvolve(s.windows, vs) && ActiveKeptOrCleared(s.windows, vs)
    ensures StateInv(p, s.(windows := vs)) && Extends(s, s.(windows := vs))
  {
    var t := s.(windows := vs);
    LedgerPiecesEvolve(p, s, t);
    EvolvedWindowsKept(p, s, t);
    AttemptsStayOk(s, vs);
    assert forall id, c :: Owns(t, id, c) <==> Owns(s, id, c);
    assert Coherent(t);
  }

  // ----- reconcile -----

  /** What the table holds once the windows in `ws` have been reconciled into it. */
  ghost predicate UpsertedTable(p: Params, s: PersistentState, cred: Credential, instance: InstanceKey,
                                ws: seq<QuotaWindow>, now: Time,
                                vs: map<WindowKey, WindowRecord>)
  {
    && vs.Keys == s.windows.Keys + SeenKeys(instance, ws)
    && (forall i :: 0 <= i < |ws| ==>
                      WindowKey(instance, ws[i].bucketId) in vs
                      && vs[WindowKey(instance, ws[i].bucketId)] == Reconciled(p, s, cred, instance, now, ws[i]).record)
    && (forall k :: k in s.windows && k !in SeenKeys(instance, ws) ==> vs[k] == s.windows[k])
  }

  /** What putting records in under distinct keys leaves. */
  ghost predicate Put(table: map<WindowKey, WindowRecord>, keys: seq<WindowKey>, records: seq<WindowRecord>,
                      vs: map<WindowKey, WindowRecord>)
    requires |keys| == |records|
  {
    && (forall k :: k in vs <==> k in table || k in keys)
    && (forall i :: 0 <= i < |keys| ==> keys[i] in vs && vs[keys[i]] == records[i])
    && (forall k :: k in table && k !in keys ==> k in vs && vs[k] == table[k])
  }

  lemma PutOne(table: map<WindowKey, WindowRecord>, keys: seq<WindowKey>, records: seq<WindowRecord>,
               vs: map<WindowKey, WindowRecord>,
               k: WindowKey, r: WindowRecord)
    requires |keys| == |records| && Put(table, keys, records, vs) && k !in keys
    ensures Put(table, keys + [k], records + [r], vs[k := r])
  {
  }

  lemma {:induction false} PutAllAt(table: map<WindowKey, WindowRecord>, keys: seq<WindowKey>,
                                    records: seq<WindowRecord>)
    requires |keys| == |records| && DistinctKeys(keys)
    ensures Put(table, keys, records, PutAll(table, keys, records))
  {
    if keys != [] {
      var n := |keys| - 1;
      PutAllAt(table, keys[..n], records[..n]);
      assert keys == keys[..n] + [keys[n]] && records == records[..n] + [records[n]];
      PutOne(table, keys[..n], records[..n], PutAll(table, keys[..n], records[..n]), keys[n], records[n]);
    }
  }

  lemma KeysSeenExact(instance: InstanceKey, ws: seq<QuotaWindow>)
    ensures forall k :: k in KeysSeen(instance, ws) <==> k in SeenKeys(instance, ws)
  {
    forall w | w in ws ensures WindowKey(instance, w.bucketId) in KeysSeen(instance, ws) {
      var i :| 0 <= i < |ws| && ws[i] == w;
      assert KeysSeen(instance, ws)[i] == WindowKey(instance, w.bucketId);
    }
    forall k | k in KeysSeen(instance, ws) ensures k in SeenKeys(instance, ws) {
      var i :| 0 <= i < |ws| && KeysSeen(instance, ws)[i] == k;
      assert ws[i] in ws;
    }
  }

  lemma UpsertedAt(p: Params, s: PersistentState, cred: Credential, instance: InstanceKey, ws: seq<QuotaWindow>,
                   now: Time)
    requires DistinctBuckets(ws)
    ensures UpsertedTable(p, s, cred, instance, ws, now, Upserted(p, s, cred, instance, ws, now))
  {
    var keys, records := KeysSeen(instance, ws), RecordsSeen(p, s, cred, instance, ws, now);
    var vs := Upserted(p, s, cred, instance, ws, now);
    PutAllAt(s.windows, keys, records);
    KeysSeenExact(instance, ws);
    forall i | 0 <= i < |ws|
      ensures WindowKey(instance, ws[i].bucketId) in vs
      ensures vs[WindowKey(instance, ws[i].bucketId)] == Reconciled(p, s, cred, instance, now, ws[i]).record
    {
      assert keys[i] == WindowKey(instance, ws[i].bucketId) && vs[keys[i]] == records[i];
    }
  }

  lemma ReconciledEvolves(p: Params, s: PersistentState, cred: Credential, instance: InstanceKey, now: Time,
                          w: QuotaWindow)
    requires p.cfg.Valid() && WindowsOk(s.windows)
    ensures var k, y := WindowKey(instance, w.bucketId), Reconciled(p, s, cred, instance, now, w).record;
            if k in s.windows then
              Evolves(k, s.windows[k], y) && y.activeAttempt in {s.windows[k].activeAttempt, None}
            else
              WindowOk(k, y) && y.activeAttempt.None?
  {
    var k := WindowKey(instance, w.bucketId);
    if k in s.windows {
      RevisitEvolves(p, k, s.windows[k], s.windows[k].baseline.cycleId in s.ledger, now, Attributed(cred, w));
    }
  }

  lemma UpsertedEvolves(p: Params, s: PersistentState, cred: Credential, instance: InstanceKey, ws: seq<QuotaWindow>,
                        now: Time)
    requires p.cfg.Valid() && WindowsOk(s.windows) && DistinctBuckets(ws)
    ensures WindowsEvolve(s.windows, Upserted(p, s, cred, instance, ws, now))
    ensures ActiveKeptOrCleared(s.windows, Upserted(p, s, cred, instance, ws, now))
  {
    var vs := Upserted(p, s, cred, instance, ws, now);
    UpsertedAt(p, s, cred, instance, ws, now);
    forall k | k in vs
      ensures if k in s.windows then Evolves(k, s.windows[k], vs[k])
                                     && vs[k].activeAttempt in {s.windows[k].activeAttempt, None}
              else WindowOk(k, vs[k]) && vs[k].activeAttempt.None?
    {
      if k in SeenKeys(instance, ws) {
        var w :| w in ws && k == WindowKey(instance, w.bucketId);
        var i :| 0 <= i < |ws| && ws[i] == w;
        ReconciledEvolves(p, s, cred, instance, now, ws[i]);
      } else {
        assert k in s.windows;
      }
    }
    assert forall k :: k in s.windows ==> k in vs;
  }

  lemma EvolvesTransitive(k: WindowKey, x: WindowRecord, y: WindowRecord, z: WindowRecord)
    requires Evolves(k, x, y) && Evolves(k, y, z)
    ensures Evolves(k, x, z)
  {
  }

  lemma ReconciledTableEvolves(p: Params, s: PersistentState, vs: map<WindowKey, WindowRecord>,
                               us: map<WindowKey, WindowRecord>)
    requires p.cfg.Valid() && WindowsOk(s.windows) && WindowsEvolve(s.windows, vs) && WindowsEvolve(vs, us)
             && us.Keys == vs.Keys
    requires ActiveKeptOrCleared(s.windows, vs) && ActiveKeptOrCleared(vs, us)
    ensures WindowsEvolve(s.windows, us) && ActiveKeptOrCleared(s.windows, us)
  {
    forall k | k in s.windows ensures k in us && Evolves(k, s.windows[k], us[k]) {
      assert k in vs && k in us.Keys;
      EvolvesTransitive(k, s.windows[k], vs[k], us[k]);
    }
    forall k | k in us && k !in s.windows ensures WindowOk(k, us[k]) && us[k].activeAttempt.None? {
      assert k in vs.Keys;
      assert Evolves(k, vs[k], us[k]);
    }
  }

  lemma EvolvedWindowsOk(p: Params, ws: map<WindowKey, WindowRecord>, vs: map<WindowKey, WindowRecord>)
    requires WindowsOk(ws) && WindowsEvolve(ws, vs)
    ensures WindowsOk(vs)
  {
    forall k | k in vs ensures WindowOk(k, vs[k]) {
      if k in ws { assert Evolves(k, ws[k], vs[k]); }
    }
  }

  lemma ReconcilePreserves(p: Params, s: PersistentState, cred: Credential, instance: InstanceKey,
                           ws: seq<QuotaWindow>, now: Time)
    requires p.cfg.Valid() && StateInv(p, s) && Normalized(ws)
    ensures var t := Apply(p, s, Reconcile(cred, instance, ws, now)).value; StateInv(p, t) && Extends(s, t)
  {
    var vs := Upserted(p, s, cred, instance, ws, now);
    var sel := Unseen(instance, SeenKeys(instance, ws));
    var us := TouchedWhere(p, vs, sel, Absent(now));
    assert WindowsEvolve(s.windows, us) && ActiveKeptOrCleared(s.windows, us) by {
      NormalizedIsAcceptable(ws);
      UpsertedEvolves(p, s, cred, instance, ws, now);
      EvolvedWindowsOk(p, s.windows, vs);
      TouchedWhereEvolves(p, vs, sel, Absent(now));
      ReconciledTableEvolves(p, s, vs, us);
    }
    WindowsOnly(p, s, us);
  }

  lemma TouchedPreserves(p: Params, s: PersistentState, keys: seq<WindowKey>, e: Edit)
    requires p.cfg.Valid() && StateInv(p, s) && EditSafe(e) && !e.Claim?
    ensures var t := s.(windows := Touched(p, s.windows, keys, e)); StateInv(p, t) && Extends(s, t)
  {
    TouchedEvolves(p, s.windows, keys, e);
    WindowsOnly(p, s, Touched(p, s.windows, keys, e));
  }

  lemma TouchedWherePreserves(p: Params, s: PersistentState, sel: Selector, e: Edit)
    requires p.cfg.Valid() && StateInv(p, s) && EditSafe(e) && !e.Claim?
    ensures var t := s.(windows := TouchedWhere(p, s.windows, sel, e)); StateInv(p, t) && Extends(s, t)
  {
    TouchedWhereEvolves(p, s.windows, sel, e);
    WindowsOnly(p, s, TouchedWhere(p, s.windows, sel, e));
  }

  // ----- the transactions on attempts -----

  /** A new attempt that owns no cycle leaves the ledger coherent. */
  lemma PreparedCoheres(p: Params, s: PersistentState, a: ProbeAttempt, t: PersistentState)
    requires Coherent(s) && a.phase == Prepared && a.id !in s.attempts
    requires t.attempts == s.attempts[a.id := a] && t.ledger == s.ledger
    ensures Coherent(t) && LedgerKept(s, t) && AttemptsKept(s, t)
  {
    assert forall id, c :: Owns(t, id, c) <==> Owns(s, id, c);
  }

  lemma PreparePreserves(p: Params, s: PersistentState, a: ProbeAttempt)
    requires p.cfg.Valid() && StateInv(p, s) && Enabled(s, Prepare(a)) && Apply(p, s, Prepare(a)).Some?
    ensures var t := Apply(p, s, Prepare(a)).value; StateInv(p, t) && Extends(s, t) && Claimed(t, a)
  {
    var t := Apply(p, s, Prepare(a)).value;
    TouchedEvolves(p, s.windows, a.windowKeys, Claim(a.id));
    LedgerPiecesEvolve(p, s, t);
    EvolvedWindowsKept(p, s, t);
    PreparedCoheres(p, s, a, t);
    forall id | id in t.attempts ensures AttemptOk(t.windows, id, t.attempts[id]) {
      AttemptOkMonotone(s.windows, t.windows, id, t.attempts[id]);
    }
    forall i | 0 <= i < |a.windowKeys| ensures t.windows[a.windowKeys[i]].baseline.cycleId == a.cycleIds[i]
                                               && a.cycleIds[i] !in t.ledger {
      assert a.cycleIds[i] in a.cycleIds;
    }
  }

  /** The windows of a fenced attempt keep their baselines and are marked as activated. */
  lemma SendingWindows(p: Params, s: PersistentState, a: ProbeAttempt, now: Time, c: CycleId)
    requires Unfenced(s, a) && c in a.cycleIds
    ensures var vs := Touched(p, s.windows, a.windowKeys, MarkSending(now));
            c.Window() in vs && vs[c.Window()].lastActivation == now && vs[c.Window()].baseline.cycleId == c
  {
    NewCycle(s, a, c);
  }

  lemma FenceLedgerPieces(p: Params, s: PersistentState, a: ProbeAttempt, now: Time)
    requires p.cfg.Valid() && StateInv(p, s) && Claimed(s, a) && now != ZERO_TIME
    ensures var t := Apply(p, s, Fence(a, now)).value;
            WindowsOk(t.windows) && Activated(t)
  {
    var t := Apply(p, s, Fence(a, now)).value;
    TouchedEvolves(p, s.windows, a.windowKeys, MarkSending(now));
    var mid := s.(windows := t.windows);
    LedgerPiecesEvolve(p, s, mid);
    forall c | c in t.ledger && c !in s.ledger
      ensures c.Window() in t.windows && t.windows[c.Window()].lastActivation == now
              && t.windows[c.Window()].baseline.cycleId == c
    {
      SendingWindows(p, s, a, now, c);
    }
  }

  lemma NewCycle(s: PersistentState, a: ProbeAttempt, c: CycleId)
    requires Unfenced(s, a) && c in a.cycleIds
    ensures c.Window() in a.windowKeys && c.Window() in s.windows && s.windows[c.Window()].baseline.cycleId == c
            && c !in s.ledger
  {
    var i :| 0 <= i < |a.cycleIds| && a.cycleIds[i] == c;
    assert a.windowKeys[i] == c.Window();
  }

  lemma FenceCoheres(s: PersistentState, a: ProbeAttempt, now: Time, t: PersistentState)
    requires AttemptsOk(s) && Coherent(s) && Claimed(s, a)
    requires t.attempts == s.attempts[a.id := a.(phase := Sending, sendingAt := now)]
    requires t.ledger == FencedLedger(s.ledger, a.cycleIds, a.id, now)
    ensures Coherent(t) && LedgerKept(s, t) && AttemptsKept(s, t)
  {
    forall c | c in a.cycleIds ensures c !in s.ledger { NewCycle(s, a, c); }
    forall id, c | Owns(t, id, c) ensures c in t.ledger && t.ledger[c].attemptId == id {
      if id != a.id { assert Owns(s, id, c); }
    }
    forall c | c in t.ledger ensures t.ledger[c].cycleId == c && Owns(t, t.ledger[c].attemptId, c) {
      if c in s.ledger { assert Owns(s, s.ledger[c].attemptId, c); }
    }
  }

  lemma FencePreserves(p: Params, s: PersistentState, a: ProbeAttempt, now: Time)
    requires p.cfg.Valid() && StateInv(p, s) && Enabled(s, Fence(a, now))
    ensures var t := Apply(p, s, Fence(a, now)).value; StateInv(p, t) && Extends(s, t)
  {
    var t := Apply(p, s, Fence(a, now)).value;
    FenceLedgerPieces(p, s, a, now);
    TouchedEvolves(p, s.windows, a.windowKeys, MarkSending(now));
    FenceCoheres(s, a, now, t);
    EvolvedWindowsKept(p, s, t);
    AttemptsStayOk(s, t.windows);
  }

  /** Outcome and verification advance one attempt past Prepared and edit its windows. */
  lemma AdvancePreserves(p: Params, s: PersistentState, id: AttemptId, b: ProbeAttempt, t: PersistentState)
    requires p.cfg.Valid() && StateInv(p, s) && id in s.attempts && s.attempts[id].phase != Prepared
    requires AttemptExtends(s.attempts[id], b) && b.phase != Prepared
    requires t.sequence == s.sequence && t.attempts == s.attempts[id := b]
    requires WindowsEvolve(s.windows, t.windows) && ActiveKeptOrCleared(s.windows, t.windows)
    requires t.ledger.Keys == s.ledger.Keys && LedgerKept(s, t)
    requires forall c :: c in t.ledger ==> t.ledger[c].cycleId == c
    ensures StateInv(p, t) && Extends(s, t)
  {
    LedgerPiecesEvolve(p, s, t);
    EvolvedWindowsKept(p, s, t);
    AttemptsStayOk(s, t.windows);
    assert forall i, c :: Owns(t, i, c) <==> Owns(s, i, c);
    forall c | c in t.ledger ensures Owns(t, t.ledger[c].attemptId, c) {
      assert c in s.ledger.Keys;
      assert Owns(s, s.ledger[c].attemptId, c);
    }
    forall i, c | Owns(t, i, c) ensures c in t.ledger && t.ledger[c].attemptId == i {
      assert Owns(s, i, c);
      assert c in s.ledger;
    }
  }

  lemma DropKeepsRest(p: Params, s: PersistentState, id: AttemptId, t: PersistentState)
    requires p.cfg.Valid() && StateInv(p, s) && id in s.attempts && s.attempts[id].phase == Prepared
    requires t.sequence == s.sequence && t.attempts == s.attempts - {id} && t.ledger == s.ledger
    requires WindowsEvolve(s.windows, t.windows) && ActiveKeptOrCleared(s.windows, t.windows)
    requires forall k :: k in t.windows && k in s.attempts[id].windowKeys ==> t.windows[k].activeAttempt.None?
    ensures StateInv(p, t) && Extends(s, t)
  {
    LedgerPiecesEvolve(p, s, t);
    EvolvedWindowsKept(p, s, t);
    AttemptsStayOk(s, t.windows);
    assert forall i, c :: Owns(t, i, c) <==> Owns(s, i, c);
    assert Coherent(t);
  }

  lemma DropPreserves(p: Params, s: PersistentState, id: AttemptId, now: Time)
    requires p.cfg.Valid() && StateInv(p, s) && Enabled(s, DropPrepared(id, now))
    ensures var t := Apply(p, s, DropPrepared(id, now)).value; StateInv(p, t) && Extends(s, t)
  {
    var t := Apply(p, s, DropPrepared(id, now)).value;
    TouchedEvolves(p, s.windows, s.attempts[id].windowKeys, Requeue(now));
    DropKeepsRest(p, s, id, t);
  }

  lemma Indexes(ws: seq<QuotaWindow>)
    requires Normalized(ws)
    ensures Indexed(ByBucket(ws))
  {
    NormalizedIsAcceptable(ws);
    ByBucketFaithful(ws);
  }

  // ----- the main result -----

  /** Any transaction the controller can start keeps the invariant and extends the state. */
  lemma ApplyPreserves(p: Params, s: PersistentState, tx: Tx)
    requires p.cfg.Valid() && StateInv(p, s) && Enabled(s, tx) && Apply(p, s, tx).Some?
    ensures StateInv(p, Stamp(Apply(p, s, tx).value)) && Extends(s, Stamp(Apply(p, s, tx).value))
  {
    var t := Apply(p, s, tx).value;
    ApplyPreservesUnstamped(p, s, tx);
    StampKeeps(p, s, t);
  }

  lemma StampKeeps(p: Params, s: PersistentState, t: PersistentState)
    requires StateInv(p, t) && Extends(s, t)
    ensures StateInv(p, Stamp(t)) && Extends(s, Stamp(t))
  {
    var u := Stamp(t);
    assert forall id, c :: Owns(u, id, c) <==> Owns(t, id, c);
    assert Coherent(u);
  }

  lemma OutcomePreserves(p: Params, s: PersistentState, tx: Tx)
    requires p.cfg.Valid() && StateInv(p, s) && tx.SendOutcome? && Enabled(s, tx)
    ensures StateInv(p, Apply(p, s, tx).value) && Extends(s, Apply(p, s, tx).value)
  {
    var a := s.attempts[tx.id];
    TouchedEvolves(p, s.windows, a.windowKeys, MarkOutcome(tx.phase, a.suppressUntil, tx.now));
    NotedExtends(a, tx.phase, tx.sentAt, tx.error);
    NotedKeeps(s.ledger, a.cycleIds, tx.result);
    AdvancePreserves(p, s, tx.id, NotedAttempt(a, tx.phase, tx.sentAt, tx.error), Apply(p, s, tx).value);
  }

  lemma NotedExtends(a: ProbeAttempt, phase: AttemptPhase, sentAt: Time, cause: Option<Note>)
    requires 1 <= a.phase.Rank() <= phase.Rank() && phase != Completed
    ensures AttemptExtends(a, NotedAttempt(a, phase, sentAt, cause))
            && NotedAttempt(a, phase, sentAt, cause).phase == phase
  {
  }

  lemma NotedKeeps(ledger: map<CycleId, LedgerEntry>, cycles: seq<CycleId>, result: SendResult)
    ensures NotedLedger(ledger, cycles, result).Keys == ledger.Keys
    ensures forall c :: c in ledger ==> NotedLedger(ledger, cycles, result)[c].cycleId == ledger[c].cycleId
                                        && NotedLedger(ledger, cycles, result)[c].attemptId == ledger[c].attemptId
  {
  }

  lemma VerifyPreserves(p: Params, s: PersistentState, tx: Tx)
    requires p.cfg.Valid() && StateInv(p, s) && tx.VerifyAttempt? && Enabled(s, tx)
    ensures StateInv(p, Apply(p, s, tx).value) && Extends(s, Apply(p, s, tx).value)
  {
    Indexes(tx.windows);
    var a := s.attempts[tx.id];
    TouchedEvolves(p, s.windows, a.windowKeys, Verify(ByBucket(tx.windows), tx.now));
    AdvancePreserves(p, s, tx.id, a.(phase := Completed), Apply(p, s, tx).value);
  }

  lemma ApplyPreservesUnstamped(p: Params, s: PersistentState, tx: Tx)
    requires p.cfg.Valid() && StateInv(p, s) && Enabled(s, tx) && Apply(p, s, tx).Some?
    ensures StateInv(p, Apply(p, s, tx).value) && Extends(s, Apply(p, s, tx).value)
  {
    match tx
    case RetireReplaced(authId, current) => TouchedWherePreserves(p, s, ReplacedBy(authId, current), Retire);
    case MarkCredential(authId, state, note) => TouchedWherePreserves(p, s, OfCredential(authId), Block(state, note));
    case ReadFailure(instance, cause, now) => TouchedWherePreserves(p, s, OfInstance(instance), ReadFailed(cause, now));
    case Reconcile(cred, instance, ws, now) => ReconcilePreserves(p, s, cred, instance, ws, now);
    case GroupFailure(keys, cause, now) => TouchedPreserves(p, s, keys, GroupFailed(cause, now));
    case PrecheckGroup(_, keys, ws, now) =>
      Indexes(ws);
      TouchedPreserves(p, s, keys, Precheck(ByBucket(ws), now));
    case DryRun(keys, now) => TouchedPreserves(p, s, keys, DryRunOnly(now));
    case Prepare(a) => PreparePreserves(p, s, a);
    case Fence(a, now) => FencePreserves(p, s, a, now);
    case SendOutcome(_, _, _, _, _, _) => OutcomePreserves(p, s, tx);
    case VerifyAttempt(_, _, _) => VerifyPreserves(p, s, tx);
    case DropPrepared(id, now) => DropPreserves(p, s, id, now);
  }
}
