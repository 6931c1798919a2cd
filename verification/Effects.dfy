/** What one transaction leaves alone, and when it has its windows looked at again. */
module Effects {
  import opened Wrappers
  import opened Model
  import opened Adapters
  import opened Normalize
  import opened Transactions
  import opened StateInvariant
  import opened Preservation
  import opened Machine
  import opened Grouping

  /** Between the two states nothing changed but the windows in `ks`, their cycles, and the attempts in `mine`. */
  ghost predicate Frame(s: PersistentState, t: PersistentState, ks: set<WindowKey>, mine: set<AttemptId>) {
    && t.windows.Keys == s.windows.Keys
    && (forall k :: k in s.windows && k !in ks ==> t.windows[k] == s.windows[k])
    && (forall c :: c in s.ledger && c.Window() !in ks ==> c in t.ledger && t.ledger[c] == s.ledger[c])
    && (forall c :: c in t.ledger && c !in s.ledger ==> c.Window() in ks)
    && (forall id :: id in s.attempts && id !in mine ==> id in t.attempts && t.attempts[id] == s.attempts[id])
    && (forall id :: id in t.attempts ==> id in s.attempts || id in mine)
  }

  lemma FrameTransitive(s: PersistentState, t: PersistentState, u: PersistentState, ks: set<WindowKey>,
                        mine: set<AttemptId>)
    requires Frame(s, t, ks, mine) && Frame(t, u, ks, mine)
    ensures Frame(s, u, ks, mine)
  {
    assert forall k :: k in s.windows ==> k in t.windows.Keys;
  }

  lemma FrameWeaken(s: PersistentState, t: PersistentState, ks: set<WindowKey>, mine: set<AttemptId>,
                    ks': set<WindowKey>, mine': set<AttemptId>)
    requires Frame(s, t, ks, mine) && ks <= ks' && mine <= mine'
    ensures Frame(s, t, ks', mine')
  {
  }

  function KeySet(keys: seq<WindowKey>): set<WindowKey> { set k | k in keys }

  /** The windows a transaction on named windows or on an attempt works on. */
  function Named(s: PersistentState, tx: Tx): set<WindowKey> {
    match tx
    case GroupFailure(keys, _, _) => KeySet(keys)
    case PrecheckGroup(_, keys, _, _) => KeySet(keys)
    case DryRun(keys, _) => KeySet(keys)
    case Prepare(a) => KeySet(a.windowKeys)
    case Fence(a, _) => KeySet(a.windowKeys)
    case SendOutcome(id, _, _, _, _, _) => if id in s.attempts then KeySet(s.attempts[id].windowKeys) else {}
    case VerifyAttempt(id, _, _) => if id in s.attempts then KeySet(s.attempts[id].windowKeys) else {}
    case DropPrepared(id, _) => if id in s.attempts then KeySet(s.attempts[id].windowKeys) else {}
    case _ => {}
  }

  function Handled(tx: Tx): set<AttemptId> {
    match tx
    case Prepare(a) => {a.id}
    case Fence(a, _) => {a.id}
    case SendOutcome(id, _, _, _, _, _) => {id}
    case VerifyAttempt(id, _, _) => {id}
    case DropPrepared(id, _) => {id}
    case _ => {}
  }

  predicate IsNamed(tx: Tx) {
    !tx.RetireReplaced? && !tx.MarkCredential? && !tx.ReadFailure? && !tx.Reconcile?
  }

  lemma CyclesOfAttempt(ws: map<WindowKey, WindowRecord>, a: ProbeAttempt, c: CycleId)
    requires AttemptOk(ws, a.id, a) && c in a.cycleIds
    ensures c.Window() in KeySet(a.windowKeys)
  {
    var i :| 0 <= i < |a.cycleIds| && a.cycleIds[i] == c;
    assert a.windowKeys[i] == c.Window();
  }

  lemma TouchedFrame(p: Params, ws: map<WindowKey, WindowRecord>, keys: seq<WindowKey>, e: Edit)
    ensures Touched(p, ws, keys, e).Keys == ws.Keys
    ensures forall k :: k in ws && k !in KeySet(keys) ==> Touched(p, ws, keys, e)[k] == ws[k]
  {
  }

  /** Transactions that only edit the windows of a list. */
  lemma GroupFrame(p: Params, s: PersistentState, tx: Tx)
    requires tx.GroupFailure? || tx.PrecheckGroup? || tx.DryRun?
    ensures Frame(s, NextState(p, s, tx), Named(s, tx), Handled(tx))
  {
    match tx
    case GroupFailure(keys, cause, now) => TouchedFrame(p, s.windows, keys, GroupFailed(cause, now));
    case PrecheckGroup(_, keys, ws, now) => TouchedFrame(p, s.windows, keys, Precheck(ByBucket(ws), now));
    case DryRun(keys, now) => TouchedFrame(p, s.windows, keys, DryRunOnly(now));
  }

  lemma PrepareFrame(p: Params, s: PersistentState, a: ProbeAttempt)
    requires Apply(p, s, Prepare(a)).Some?
    ensures Frame(s, NextState(p, s, Prepare(a)), KeySet(a.windowKeys), {a.id})
  {
    TouchedFrame(p, s.windows, a.windowKeys, Claim(a.id));
  }

  lemma OutcomeFrame(p: Params, s: PersistentState, tx: Tx)
    requires AttemptsOk(s) && tx.SendOutcome? && tx.id in s.attempts
    ensures Frame(s, NextState(p, s, tx), Named(s, tx), Handled(tx))
  {
    var a := s.attempts[tx.id];
    TouchedFrame(p, s.windows, a.windowKeys, MarkOutcome(tx.phase, a.suppressUntil, tx.now));
    assert AttemptOk(s.windows, tx.id, a);
    forall c | c in a.cycleIds ensures c.Window() in KeySet(a.windowKeys) { CyclesOfAttempt(s.windows, a, c); }
  }

  lemma SettlingFrame(p: Params, s: PersistentState, tx: Tx)
    requires (tx.VerifyAttempt? || tx.DropPrepared?) && tx.id in s.attempts
    ensures Frame(s, NextState(p, s, tx), Named(s, tx), Handled(tx))
  {
    var keys := s.attempts[tx.id].windowKeys;
    match tx
    case VerifyAttempt(_, ws, now) => TouchedFrame(p, s.windows, keys, Verify(ByBucket(ws), now));
    case DropPrepared(_, now) => TouchedFrame(p, s.windows, keys, Requeue(now));
  }

  /** A transaction on named windows changes those windows, their cycles and its own attempt, and nothing else. */
  lemma NamedFrame(p: Params, s: PersistentState, tx: Tx)
    requires StateInv(p, s) && Enabled(s, tx) && IsNamed(tx) && Apply(p, s, tx).Some?
    ensures Frame(s, NextState(p, s, tx), Named(s, tx), Handled(tx))
  {
    match tx
    case Prepare(a) => PrepareFrame(p, s, a);
    case Fence(a, now) => FenceFrame(p, s, a, now);
    case SendOutcome(_, _, _, _, _, _) => OutcomeFrame(p, s, tx);
    case VerifyAttempt(_, _, _) => SettlingFrame(p, s, tx);
    case DropPrepared(_, _) => SettlingFrame(p, s, tx);
    case _ => GroupFrame(p, s, tx);
  }

  lemma FenceFrame(p: Params, s: PersistentState, a: ProbeAttempt, now: Time)
    requires StateInv(p, s) && Claimed(s, a)
    ensures Frame(s, NextState(p, s, Fence(a, now)), KeySet(a.windowKeys), {a.id})
  {
    TouchedFrame(p, s.windows, a.windowKeys, MarkSending(now));
    forall c | c in a.cycleIds ensures c.Window() in KeySet(a.windowKeys) { CyclesOfAttempt(s.windows, a, c); }
  }

  // ----- being looked at again -----

  /** A time at which the scheduler will look at the window again. */
  predicate Scheduled(x: WindowRecord) { x.nextCheck > 0 }

  /** The edits that end the work on a window leave it scheduled. */
  lemma EditSchedules(p: Params, e: Edit, x: WindowRecord)
    requires p.cfg.Valid()
    requires match e
             case ReadFailed(_, now) => now > 0
             case GroupFailed(_, now) => now > 0
             case DryRunOnly(now) => now > 0
             case Absent(now) => now > 0
             case Requeue(now) => now > 0
             case Verify(_, now) => now > 0
             case MarkOutcome(_, suppressUntil, _) => suppressUntil > 0
             case _ => false
    ensures Scheduled(EditRecord(p, e, x))
  {
  }

  /** What such an edit does to the named windows is what the transaction does to them. */
  lemma TouchedSchedules(p: Params, ws: map<WindowKey, WindowRecord>, keys: seq<WindowKey>, e: Edit)
    requires forall k :: k in keys ==> k in ws && Scheduled(EditRecord(p, e, ws[k]))
    ensures forall k :: k in KeySet(keys) ==> k in Touched(p, ws, keys, e) && Scheduled(Touched(p, ws, keys, e)[k])
  {
  }

  /** The transactions that end the work on a group leave all its windows scheduled. */
  lemma NamedSchedules(p: Params, s: PersistentState, tx: Tx)
    requires p.cfg.Valid() && StateInv(p, s) && Enabled(s, tx) && Apply(p, s, tx).Some?
    requires match tx
             case GroupFailure(_, _, now) => now > 0
             case DryRun(_, now) => now > 0
             case SendOutcome(id, _, _, _, _, _) => s.attempts[id].suppressUntil > 0
             case VerifyAttempt(_, _, now) => now > 0
             case DropPrepared(_, now) => now > 0
             case _ => false
    ensures var t := NextState(p, s, tx); forall k :: k in Named(s, tx) ==> k in t.windows && Scheduled(t.windows[k])
  {
    match tx
    case GroupFailure(keys, cause, now) =>
      forall k | k in keys ensures Scheduled(EditRecord(p, GroupFailed(cause, now), s.windows[k])) {
        EditSchedules(p, GroupFailed(cause, now), s.windows[k]);
      }
      TouchedSchedules(p, s.windows, keys, GroupFailed(cause, now));
    case DryRun(keys, now) =>
      forall k | k in keys ensures Scheduled(EditRecord(p, DryRunOnly(now), s.windows[k])) {
        EditSchedules(p, DryRunOnly(now), s.windows[k]);
      }
      TouchedSchedules(p, s.windows, keys, DryRunOnly(now));
    case SendOutcome(id, phase, _, _, _, now) =>
      AttemptSchedules(p, s, id, MarkOutcome(phase, s.attempts[id].suppressUntil, now));
    case VerifyAttempt(id, ws, now) => AttemptSchedules(p, s, id, Verify(ByBucket(ws), now));
    case DropPrepared(id, now) => AttemptSchedules(p, s, id, Requeue(now));
  }

  lemma AttemptSchedules(p: Params, s: PersistentState, id: AttemptId, e: Edit)
    requires p.cfg.Valid() && AttemptsOk(s) && id in s.attempts
    requires match e
             case Requeue(now) => now > 0
             case Verify(_, now) => now > 0
             case MarkOutcome(_, suppressUntil, _) => suppressUntil > 0
             case _ => false
    ensures var vs := Touched(p, s.windows, s.attempts[id].windowKeys, e);
            forall k :: k in KeySet(s.attempts[id].windowKeys) ==> k in vs && Scheduled(vs[k])
  {
    var keys := s.attempts[id].windowKeys;
    assert AttemptOk(s.windows, id, s.attempts[id]);
    forall k | k in keys ensures k in s.windows && Scheduled(EditRecord(p, e, s.windows[k])) {
      EditSchedules(p, e, s.windows[k]);
    }
    TouchedSchedules(p, s.windows, keys, e);
  }

  /** A precheck leaves a window scheduled unless it confirms it as still lazy. */
  lemma PrecheckSchedules(p: Params, byBucket: map<string, QuotaWindow>, now: Time, x: WindowRecord)
    requires p.cfg.Valid() && now > 0
    ensures var y := EditRecord(p, Precheck(byBucket, now), x);
            Scheduled(y) || (y.state == LazyDetected && y.baseline == x.baseline && x.bucketId in byBucket
                             && StillLazy(p, x, byBucket[x.bucketId]))
    ensures EditRecord(p, Precheck(byBucket, now), x).state == LazyDetected ==>
              !Scheduled(EditRecord(p, Precheck(byBucket, now), x))
  {
  }

  // ----- candidates of a group -----

  /**
   A record the controller may go on to activate: as stored, unfenced, and cleared unless it still needs its precheck.
   */
  ghost predicate Candidate(s: PersistentState, cleared: map<WindowKey, CycleId>, instance: InstanceKey,
                            r: WindowRecord)
  {
    && r.key in s.windows && s.windows[r.key] == r && r.key.instance == instance
    && r.baseline.cycleId !in s.ledger
    && (r.state == PendingPrecheck
        || (r.state == LazyDetected && r.key in cleared && cleared[r.key] == r.baseline.cycleId))
  }

  ghost predicate GroupReady(s: PersistentState, cleared: map<WindowKey, CycleId>, instance: InstanceKey,
                             rs: seq<WindowRecord>)
  {
    DistinctRecords(rs) && forall r :: r in rs ==> Candidate(s, cleared, instance, r)
  }

  function KeysOf(rs: seq<WindowRecord>): seq<WindowKey> {
    seq(|rs|, i requires 0 <= i < |rs| => rs[i].key)
  }

  function CyclesOf(rs: seq<WindowRecord>): seq<CycleId> {
    seq(|rs|, i requires 0 <= i < |rs| => rs[i].baseline.cycleId)
  }

  lemma KeysOfMembers(rs: seq<WindowRecord>, k: WindowKey)
    ensures k in KeysOf(rs) <==> exists r :: r in rs && r.key == k
  {
    if k in KeysOf(rs) {
      var i :| 0 <= i < |KeysOf(rs)| && KeysOf(rs)[i] == k;
      assert rs[i] in rs;
    }
    forall r | r in rs && r.key == k ensures k in KeysOf(rs) {
      var i :| 0 <= i < |rs| && rs[i] == r;
      assert KeysOf(rs)[i] == k;
    }
  }

  lemma CandidatesSelectable(s: PersistentState, cleared: map<WindowKey, CycleId>, instance: InstanceKey,
                             rs: seq<WindowRecord>)
    requires GroupReady(s, cleared, instance, rs)
    ensures Selectable(s, KeysOf(rs)) && forall k :: k in KeysOf(rs) ==> k.instance == instance
  {
    forall k | k in KeysOf(rs) ensures k in s.windows && k.instance == instance {
      KeysOfMembers(rs, k);
    }
  }

  /** Candidates of other groups remain candidates. */
  lemma CandidatesKept(s: PersistentState, t: PersistentState, ks: set<WindowKey>, mine: set<AttemptId>,
                       cleared: map<WindowKey, CycleId>, cleared': map<WindowKey, CycleId>,
                       instance: InstanceKey, rs: seq<WindowRecord>)
    requires WindowsOk(s.windows) && GroupReady(s, cleared, instance, rs) && Frame(s, t, ks, mine)
    requires forall r :: r in rs ==> r.key !in ks
    requires forall k :: k in cleared && k !in ks ==> k in cleared' && cleared'[k] == cleared[k]
    ensures GroupReady(t, cleared', instance, rs)
  {
    forall r | r in rs ensures Candidate(t, cleared', instance, r) {
      assert WindowOk(r.key, s.windows[r.key]);
      assert r.key in t.windows.Keys;
    }
  }

  // ----- reconcile -----

  lemma ReconciledTable(p: Params, s: PersistentState, cred: Credential, instance: InstanceKey, ws: seq<QuotaWindow>,
                        now: Time, k: WindowKey)
    requires StateInv(p, s) && Normalized(ws)
    ensures var t := NextState(p, s, Reconcile(cred, instance, ws, now));
            && (k in t.windows <==> k in s.windows || k in SeenKeys(instance, ws))
            && (forall i :: 0 <= i < |ws| && k == WindowKey(instance, ws[i].bucketId) ==>
                              t.windows[k] == Reconciled(p, s, cred, instance, now, ws[i]).record)
            && (k in s.windows && k !in SeenKeys(instance, ws) ==>
                  t.windows[k] == if k.instance == instance then EditRecord(p, Absent(now), s.windows[k])
                  else s.windows[k])
  {
    NormalizedIsAcceptable(ws);
    UpsertedAt(p, s, cred, instance, ws, now);
    assert k in s.windows ==> WindowOk(k, s.windows[k]);
    forall i | 0 <= i < |ws| && k == WindowKey(instance, ws[i].bucketId) ensures k in SeenKeys(instance, ws) {
      assert ws[i] in ws;
    }
  }

  /** The joining records are the stored ones, unfenced, and cleared unless they still need a precheck. */
  lemma ReconcileYieldsCandidates(p: Params, s: PersistentState, cred: Credential, instance: InstanceKey,
                                  ws: seq<QuotaWindow>, now: Time,
                                  cleared: map<WindowKey, CycleId>)
    requires p.cfg.Valid() && StateInv(p, s) && Normalized(ws) && now > 0
    requires forall k :: k in Clears(p, s, Reconcile(cred, instance, ws, now)) ==>
                           k in cleared && cleared[k] == Clears(p, s, Reconcile(cred, instance, ws, now))[k]
    ensures GroupReady(NextState(p, s, Reconcile(cred, instance, ws, now)), cleared, instance,
                       Joining(p, s, cred, instance, ws, now))
  {
    NormalizedIsAcceptable(ws);
    JoiningExact(p, s, cred, instance, ws, now);
    var t, rs := NextState(p, s, Reconcile(cred, instance, ws, now)), Joining(p, s, cred, instance, ws, now);
    assert t.ledger == s.ledger;
    forall r | r in rs ensures Candidate(t, cleared, instance, r) {
      var i: nat :| JoinsFrom(p, s, cred, instance, ws, now, r, i);
      ReconciledKey(p, s, cred, instance, now, ws[i]);
      ReconciledTable(p, s, cred, instance, ws, now, r.key);
      assert ws[i] in ws;
      assert r.key in SeenKeys(instance, ws);
      VerifyOnlyIsAbsorbing(p, s, cred, instance, now, ws[i]);
      JoinsIff(p, s, cred, instance, now, ws[i]);
      if r.state == LazyDetected { LazyNeedsDurableBaseline(p, s, cred, instance, ws, now, i); }
    }
  }

  /** The window of an observed bucket is scheduled or joins. */
  lemma SeenSchedulesOrJoins(p: Params, s: PersistentState, cred: Credential, instance: InstanceKey,
                             ws: seq<QuotaWindow>, now: Time, i: nat)
    requires p.cfg.Valid() && WindowsOk(s.windows) && DistinctBuckets(ws) && now > 0 && i < |ws|
    ensures var r := Reconciled(p, s, cred, instance, now, ws[i]).record;
            || Scheduled(r)
            || r in Joining(p, s, cred, instance, ws, now)
  {
    JoiningExact(p, s, cred, instance, ws, now);
    JoinsIff(p, s, cred, instance, now, ws[i]);
    var v := Reconciled(p, s, cred, instance, now, ws[i]);
    if v.joins { assert JoinsFrom(p, s, cred, instance, ws, now, v.record, i); }
  }

  /** After reconciling, each window of the instance is scheduled or joins a group; those of others are untouched. */
  lemma ReconcileSchedulesOrGroups(p: Params, s: PersistentState, cred: Credential, instance: InstanceKey,
                                   ws: seq<QuotaWindow>, now: Time, k: WindowKey)
    requires p.cfg.Valid() && StateInv(p, s) && Normalized(ws) && now > 0
    requires k in Apply(p, s, Reconcile(cred, instance, ws, now)).value.windows
    ensures var t := NextState(p, s, Reconcile(cred, instance, ws, now));
            if k.instance == instance then Scheduled(t.windows[k])
                                           || t.windows[k] in Joining(p, s, cred, instance, ws, now)
            else k in s.windows && t.windows[k] == s.windows[k]
  {
    ReconciledTable(p, s, cred, instance, ws, now, k);
    if k in SeenKeys(instance, ws) {
      var w :| w in ws && k == WindowKey(instance, w.bucketId);
      var i :| 0 <= i < |ws| && ws[i] == w;
      NormalizedIsAcceptable(ws);
      SeenSchedulesOrJoins(p, s, cred, instance, ws, now, i);
    } else if k.instance == instance {
      EditSchedules(p, Absent(now), s.windows[k]);
    }
  }
}
