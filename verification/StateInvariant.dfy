/** What every committed state satisfies, and what no transaction ever takes back. */
module StateInvariant {
  import opened Wrappers
  import opened Model
  import opened Adapters
  import opened Normalize
  import opened Transactions

  // ----- referential integrity -----

  ghost predicate WindowOk(k: WindowKey, x: WindowRecord) {
    && x.key == k && x.instanceKey == k.instance && x.bucketId == k.bucketId
    && x.baseline.cycleId == CycleId(k.instance, k.bucketId, x.baseline.resetAt)
  }

  ghost predicate WindowsOk(ws: map<WindowKey, WindowRecord>) {
    forall k :: k in ws ==> WindowOk(k, ws[k])
  }

  ghost predicate DistinctKeys(keys: seq<WindowKey>) {
    forall i, j :: 0 <= i < j < |keys| ==> keys[i] != keys[j]
  }

  ghost predicate AttemptOk(ws: map<WindowKey, WindowRecord>, id: AttemptId, a: ProbeAttempt) {
    && a.id == id
    && |a.cycleIds| == |a.windowKeys|
    && DistinctKeys(a.windowKeys)
    && forall i :: 0 <= i < |a.windowKeys| ==>
                     && a.windowKeys[i] in ws
                     && a.windowKeys[i].instance == a.instanceKey
                     && a.cycleIds[i].Window() == a.windowKeys[i]
  }

  ghost predicate AttemptsOk(s: PersistentState) {
    forall id :: id in s.attempts ==> AttemptOk(s.windows, id, s.attempts[id])
  }

  /** A non-empty ActiveAttemptID names an attempt that lists the window. */
  ghost predicate ActiveOk(s: PersistentState) {
    forall k :: k in s.windows && s.windows[k].activeAttempt.Some? ==>
                  && s.windows[k].activeAttempt.value in s.attempts
                  && k in s.attempts[s.windows[k].activeAttempt.value].windowKeys
  }

  // ----- attempt and ledger coherence -----

  /** The attempt has reached Sending or later and lists the cycle. */
  ghost predicate Owns(s: PersistentState, id: AttemptId, c: CycleId) {
    id in s.attempts && s.attempts[id].phase != Prepared && c in s.attempts[id].cycleIds
  }

  ghost predicate Coherent(s: PersistentState) {
    && (forall c :: c in s.ledger ==> s.ledger[c].cycleId == c && Owns(s, s.ledger[c].attemptId, c))
    && (forall id, c :: Owns(s, id, c) ==> c in s.ledger && s.ledger[c].attemptId == id)
  }

  /** Every fenced cycle's window still exists and remembers that it was activated. */
  ghost predicate Activated(s: PersistentState) {
    forall c :: c in s.ledger ==> c.Window() in s.windows && s.windows[c.Window()].lastActivation != ZERO_TIME
  }

  ghost predicate StateInv(p: Params, s: PersistentState) {
    && WindowsOk(s.windows) && AttemptsOk(s) && ActiveOk(s)
    && Coherent(s) && Activated(s)
  }

  lemma EmptyStateInv(p: Params)
    ensures StateInv(p, EmptyState())
  {
  }

  // ----- what a transaction may find and do -----

  /** The window keys exist, each once, so no read-modify-write of them can create a record. */
  ghost predicate Selectable(s: PersistentState, keys: seq<WindowKey>) {
    DistinctKeys(keys) && forall k :: k in keys ==> k in s.windows
  }

  /** The attempt's cycles are the present baselines of its windows and none of them has been fenced. */
  ghost predicate Unfenced(s: PersistentState, a: ProbeAttempt) {
    && AttemptOk(s.windows, a.id, a)
    && forall i :: 0 <= i < |a.windowKeys| ==>
                     s.windows[a.windowKeys[i]].baseline.cycleId == a.cycleIds[i] && a.cycleIds[i] !in s.ledger
  }

  /** The situation between the Prepared and the Sending transaction. */
  ghost predicate Claimed(s: PersistentState, a: ProbeAttempt) {
    a.phase == Prepared && a.id in s.attempts && s.attempts[a.id] == a && Unfenced(s, a)
  }

  /** What the control flow of the controller guarantees when it starts a transaction. */
  ghost predicate Enabled(s: PersistentState, tx: Tx) {
    match tx
    case RetireReplaced(_, _) => true
    case MarkCredential(_, _, _) => true
    case ReadFailure(_, _, _) => true
    case Reconcile(_, _, ws, _) => Normalized(ws)
    case GroupFailure(keys, _, _) => Selectable(s, keys)
    case PrecheckGroup(instance, keys, ws, _) =>
      Selectable(s, keys) && Normalized(ws) && forall k :: k in keys ==> k.instance == instance
    case DryRun(keys, _) => Selectable(s, keys)
    case Prepare(a) =>
      && a.phase == Prepared && a.sentAt == ZERO_TIME && a.id !in s.attempts
      && AttemptOk(s.windows, a.id, a)
      && forall i :: 0 <= i < |a.windowKeys| ==>
                       s.windows[a.windowKeys[i]].baseline.cycleId == a.cycleIds[i]
    case Fence(a, now) => Claimed(s, a) && now != ZERO_TIME
    case SendOutcome(id, phase, _, _, _, _) =>
      id in s.attempts && (phase == Sent || phase == Unknown) && 1 <= s.attempts[id].phase.Rank() <= phase.Rank()
    case VerifyAttempt(id, ws, _) => id in s.attempts && 2 <= s.attempts[id].phase.Rank() <= 3 && Normalized(ws)
    case DropPrepared(id, _) => id in s.attempts && s.attempts[id].phase == Prepared
  }

  /** How one window record may change in one transaction. */
  ghost predicate Evolves(k: WindowKey, x: WindowRecord, y: WindowRecord) {
    && (WindowOk(k, x) ==> WindowOk(k, y))
    && y.authId == x.authId
    && (x.lastActivation != ZERO_TIME ==> y.lastActivation != ZERO_TIME)
  }

  ghost predicate WindowsEvolve(ws: map<WindowKey, WindowRecord>, vs: map<WindowKey, WindowRecord>) {
    && (forall k :: k in ws ==> k in vs && Evolves(k, ws[k], vs[k]))
    && (forall k :: k in vs && k !in ws ==> WindowOk(k, vs[k]) && vs[k].activeAttempt.None?)
  }

  /** The edited table keeps or clears every ActiveAttemptID. */
  ghost predicate ActiveKeptOrCleared(ws: map<WindowKey, WindowRecord>, vs: map<WindowKey, WindowRecord>) {
    && (forall k :: k in ws && k in vs && vs[k].activeAttempt.Some? ==> vs[k].activeAttempt == ws[k].activeAttempt)
    && (forall k :: k in vs && k !in ws ==> vs[k].activeAttempt.None?)
  }

  /** Windows reported under the bucket they are indexed by. */
  ghost predicate Indexed(byBucket: map<string, QuotaWindow>) {
    forall b :: b in byBucket ==> byBucket[b].bucketId == b
  }

  ghost predicate EditSafe(e: Edit) {
    match e
    case MarkSending(now) => now != ZERO_TIME
    case Precheck(byBucket, _) => Indexed(byBucket)
    case Verify(byBucket, _) => Indexed(byBucket)
    case _ => true
  }

  lemma EditEvolves(p: Params, k: WindowKey, x: WindowRecord, e: Edit)
    requires p.cfg.Valid() && WindowOk(k, x) && EditSafe(e)
    ensures Evolves(k, x, EditRecord(p, e, x))
    ensures !e.Claim? ==> EditRecord(p, e, x).activeAttempt in {x.activeAttempt, None}
  {
  }

  lemma RevisitEvolves(p: Params, k: WindowKey, x: WindowRecord, fenced: bool, now: Time, o: QuotaWindow)
    requires p.cfg.Valid() && WindowOk(k, x) && o.bucketId == k.bucketId
    ensures Evolves(k, x, Revisit(p, k.instance, fenced, now, x, o).record)
    ensures Revisit(p, k.instance, fenced, now, x, o).record.activeAttempt in {x.activeAttempt, None}
  {
  }

  lemma TouchedEvolves(p: Params, ws: map<WindowKey, WindowRecord>, keys: seq<WindowKey>, e: Edit)
    requires p.cfg.Valid() && WindowsOk(ws) && EditSafe(e)
    ensures WindowsEvolve(ws, Touched(p, ws, keys, e))
    ensures !e.Claim? ==> ActiveKeptOrCleared(ws, Touched(p, ws, keys, e))
  {
    forall k | k in ws
      ensures Evolves(k, ws[k], Touched(p, ws, keys, e)[k])
      ensures !e.Claim? ==> Touched(p, ws, keys, e)[k].activeAttempt in {ws[k].activeAttempt, None}
    {
      EditEvolves(p, k, ws[k], e);
    }
  }

  lemma TouchedWhereEvolves(p: Params, ws: map<WindowKey, WindowRecord>, sel: Selector, e: Edit)
    requires p.cfg.Valid() && WindowsOk(ws) && EditSafe(e) && !e.Claim?
    ensures WindowsEvolve(ws, TouchedWhere(p, ws, sel, e))
    ensures ActiveKeptOrCleared(ws, TouchedWhere(p, ws, sel, e))
  {
    forall k | k in ws
      ensures Evolves(k, ws[k], TouchedWhere(p, ws, sel, e)[k])
      ensures TouchedWhere(p, ws, sel, e)[k].activeAttempt in {ws[k].activeAttempt, None}
    {
      EditEvolves(p, k, ws[k], e);
    }
  }
}
