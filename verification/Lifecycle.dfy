/** How baselines and attempts may move, over one transaction and over runs. */
module Lifecycle {
  import opened Wrappers
  import opened Model
  import opened Adapters
  import opened Normalize
  import opened Transactions
  import opened StateInvariant
  import opened Preservation
  import opened Files
  import opened Machine
  import opened Safety
  import opened Grouping
  import opened Effects

  // ----- baselines -----

  /** The provider rolled the window over, as this read shows. */
  ghost predicate RolloverSeen(p: Params, s: PersistentState, k: WindowKey, ws: seq<QuotaWindow>)
    requires k in s.windows
  {
    k.bucketId in ByBucket(ws) && RolledOver(p, s.windows[k].baseline, ByBucket(ws)[k.bucketId])
  }

  /** The adapter confirmed the activation from this read. */
  ghost predicate ConfirmationSeen(p: Params, s: PersistentState, k: WindowKey, ws: seq<QuotaWindow>)
    requires k in s.windows
  {
    k.bucketId in ByBucket(ws) && p.For(k.instance).verify(s.windows[k].baseline, ByBucket(ws)[k.bucketId]).confirmed
  }

  ghost predicate MayMoveBaseline(p: Params, s: PersistentState, tx: Tx, k: WindowKey)
    requires k in s.windows
  {
    match tx
    case Reconcile(_, instance, ws, _) =>
      k.instance == instance && (RolloverSeen(p, s, k, ws) || s.windows[k].lastActivation == ZERO_TIME)
    case PrecheckGroup(_, keys, ws, _) => k in keys && RolloverSeen(p, s, k, ws)
    case VerifyAttempt(id, ws, _) => id in s.attempts && k in s.attempts[id].windowKeys && ConfirmationSeen(p, s, k, ws)
    case _ => false
  }

  /** The windows of the read a transaction judges. */
  function Reported(tx: Tx): map<string, QuotaWindow> {
    match tx
    case Reconcile(_, _, ws, _) => ByBucket(ws)
    case PrecheckGroup(_, _, ws, _) => ByBucket(ws)
    case VerifyAttempt(_, ws, _) => ByBucket(ws)
    case _ => map[]
  }

  /** The window's baseline may move, and `b` is the one its reported bucket gives. */
  ghost predicate MovesTo(p: Params, s: PersistentState, tx: Tx, k: WindowKey, b: Baseline)
    requires k in s.windows
  {
    && MayMoveBaseline(p, s, tx, k)
    && k.bucketId in Reported(tx) && b == BaselineFrom(k.instance, Reported(tx)[k.bucketId])
  }

  /** The edits that can give a record another baseline, and what they need to have been told. */
  ghost predicate EditMayMove(p: Params, e: Edit, k: WindowKey, b: Baseline, c: Baseline) {
    match e
    case Precheck(byBucket, _) =>
      && k.bucketId in byBucket && RolledOver(p, b, byBucket[k.bucketId])
      && c == BaselineFrom(k.instance, byBucket[k.bucketId])
    case Verify(byBucket, _) =>
      && k.bucketId in byBucket && p.For(k.instance).verify(b, byBucket[k.bucketId]).confirmed
      && c == BaselineFrom(k.instance, byBucket[k.bucketId])
    case _ => false
  }

  lemma EditMovesBaseline(p: Params, e: Edit, k: WindowKey, x: WindowRecord)
    requires WindowOk(k, x) && EditRecord(p, e, x).baseline != x.baseline
    ensures EditMayMove(p, e, k, x.baseline, EditRecord(p, e, x).baseline)
  {
  }

  lemma TouchedMoves(p: Params, ws: map<WindowKey, WindowRecord>, keys: seq<WindowKey>, e: Edit, k: WindowKey)
    requires k in ws && WindowOk(k, ws[k])
    ensures k in Touched(p, ws, keys, e)
    ensures Touched(p, ws, keys, e)[k].baseline != ws[k].baseline ==>
              && k in keys
              && EditMayMove(p, e, k, ws[k].baseline, Touched(p, ws, keys, e)[k].baseline)
  {
    if EditRecord(p, e, ws[k]).baseline != ws[k].baseline { EditMovesBaseline(p, e, k, ws[k]); }
  }

  lemma TouchedWhereMoves(p: Params, ws: map<WindowKey, WindowRecord>, sel: Selector, e: Edit, k: WindowKey)
    requires k in ws && WindowOk(k, ws[k])
    ensures k in TouchedWhere(p, ws, sel, e)
    ensures TouchedWhere(p, ws, sel, e)[k].baseline != ws[k].baseline ==>
              EditMayMove(p, e, k, ws[k].baseline, TouchedWhere(p, ws, sel, e)[k].baseline)
  {
    if EditRecord(p, e, ws[k]).baseline != ws[k].baseline { EditMovesBaseline(p, e, k, ws[k]); }
  }

  ghost predicate KeepsBaseline(p: Params, s: PersistentState, tx: Tx, k: WindowKey) {
    Apply(p, s, tx).Some? && k in s.windows && k in Apply(p, s, tx).value.windows
    && (Apply(p, s, tx).value.windows[k].baseline != s.windows[k].baseline ==>
          MovesTo(p, s, tx, k, Apply(p, s, tx).value.windows[k].baseline))
  }

  lemma WholeTableKeepsBaseline(p: Params, s: PersistentState, tx: Tx, k: WindowKey)
    requires k in s.windows && WindowOk(k, s.windows[k])
             && (tx.RetireReplaced? || tx.MarkCredential? || tx.ReadFailure?)
    ensures KeepsBaseline(p, s, tx, k)
  {
    match tx
    case RetireReplaced(authId, current) => TouchedWhereMoves(p, s.windows, ReplacedBy(authId, current), Retire, k);
    case MarkCredential(authId, state, note) =>
      TouchedWhereMoves(p, s.windows, OfCredential(authId), Block(state, note), k);
    case ReadFailure(instance, cause, now) =>
      TouchedWhereMoves(p, s.windows, OfInstance(instance), ReadFailed(cause, now), k);
  }

  lemma GroupKeepsBaseline(p: Params, s: PersistentState, tx: Tx, k: WindowKey)
    requires k in s.windows && WindowOk(k, s.windows[k]) && (tx.GroupFailure? || tx.PrecheckGroup? || tx.DryRun?)
    ensures KeepsBaseline(p, s, tx, k)
  {
    match tx
    case GroupFailure(keys, cause, now) => TouchedMoves(p, s.windows, keys, GroupFailed(cause, now), k);
    case PrecheckGroup(_, keys, ws, now) => TouchedMoves(p, s.windows, keys, Precheck(ByBucket(ws), now), k);
    case DryRun(keys, now) => TouchedMoves(p, s.windows, keys, DryRunOnly(now), k);
  }

  lemma SendingKeepsBaseline(p: Params, s: PersistentState, tx: Tx, k: WindowKey)
    requires k in s.windows && WindowOk(k, s.windows[k]) && Apply(p, s, tx).Some?
             && (tx.Prepare? || tx.Fence? || tx.SendOutcome?)
    ensures KeepsBaseline(p, s, tx, k)
  {
    match tx
    case Prepare(a) => TouchedMoves(p, s.windows, a.windowKeys, Claim(a.id), k);
    case Fence(a, now) => TouchedMoves(p, s.windows, a.windowKeys, MarkSending(now), k);
    case SendOutcome(id, phase, _, _, _, now) =>
      TouchedMoves(p, s.windows, s.attempts[id].windowKeys, MarkOutcome(phase, s.attempts[id].suppressUntil, now), k);
  }

  lemma SettlingKeepsBaseline(p: Params, s: PersistentState, tx: Tx, k: WindowKey)
    requires k in s.windows && WindowOk(k, s.windows[k]) && Apply(p, s, tx).Some?
             && (tx.VerifyAttempt? || tx.DropPrepared?)
    ensures KeepsBaseline(p, s, tx, k)
  {
    if tx.id in s.attempts {
      match tx
      case VerifyAttempt(id, ws, now) =>
        TouchedMoves(p, s.windows, s.attempts[id].windowKeys, Verify(ByBucket(ws), now), k);
      case DropPrepared(id, now) => TouchedMoves(p, s.windows, s.attempts[id].windowKeys, Requeue(now), k);
    }
  }

  lemma RevisitMovesBaseline(p: Params, k: WindowKey, x: WindowRecord, fenced: bool, now: Time, cred: Credential,
                             w: QuotaWindow)
    requires WindowOk(k, x)
    requires Revisit(p, k.instance, fenced, now, x, Attributed(cred, w)).record.baseline != x.baseline
    ensures RolledOver(p, x.baseline, w) || x.lastActivation == ZERO_TIME
    ensures Revisit(p, k.instance, fenced, now, x, Attributed(cred, w)).record.baseline == BaselineFrom(k.instance, w)
  {
  }

  lemma ReconcileKeepsBaseline(p: Params, s: PersistentState, tx: Tx, k: WindowKey)
    requires StateInv(p, s) && tx.Reconcile? && Enabled(s, tx) && k in s.windows
    ensures KeepsBaseline(p, s, tx, k)
  {
    var cred, instance, ws, now := tx.cred, tx.instance, tx.windows, tx.now;
    assert WindowOk(k, s.windows[k]);
    ReconciledTable(p, s, cred, instance, ws, now, k);
    if k in SeenKeys(instance, ws) {
      var w :| w in ws && k == WindowKey(instance, w.bucketId);
      var i :| 0 <= i < |ws| && ws[i] == w;
      NormalizedIsAcceptable(ws);
      ByBucketFaithful(ws);
      assert ByBucket(ws)[k.bucketId] == w;
      SeenKeepsBaseline(p, s, tx, k, w);
    } else {
      EditKeepsAbsent(p, now, s.windows[k]);
    }
  }

  lemma EditKeepsAbsent(p: Params, now: Time, x: WindowRecord)
    ensures EditRecord(p, Absent(now), x).baseline == x.baseline
  {
  }

  /** The observed bucket's window. */
  lemma SeenKeepsBaseline(p: Params, s: PersistentState, tx: Tx, k: WindowKey, w: QuotaWindow)
    requires tx.Reconcile? && k in s.windows && WindowOk(k, s.windows[k]) && k == WindowKey(tx.instance, w.bucketId)
    requires k.bucketId in ByBucket(tx.windows) && ByBucket(tx.windows)[k.bucketId] == w
    requires var t := Apply(p, s, tx).value;
             && k in t.windows
             && t.windows[k] == Reconciled(p, s, tx.cred, tx.instance, tx.now, w).record
    ensures KeepsBaseline(p, s, tx, k)
  {
    var x, fenced := s.windows[k], s.windows[k].baseline.cycleId in s.ledger;
    if Revisit(p, k.instance, fenced, tx.now, x, Attributed(tx.cred, w)).record.baseline != x.baseline {
      RevisitMovesBaseline(p, k, x, fenced, tx.now, tx.cred, w);
      assert RolloverSeen(p, s, k, tx.windows) || x.lastActivation == ZERO_TIME;
    }
  }

  lemma TransactionKeepsBaseline(p: Params, s: PersistentState, tx: Tx, k: WindowKey)
    requires StateInv(p, s) && Enabled(s, tx) && Apply(p, s, tx).Some? && k in s.windows
    ensures KeepsBaseline(p, s, tx, k)
  {
    assert WindowOk(k, s.windows[k]);
    if tx.Reconcile? { ReconcileKeepsBaseline(p, s, tx, k); }
    else if tx.RetireReplaced? || tx.MarkCredential? || tx.ReadFailure? { WholeTableKeepsBaseline(p, s, tx, k); }
    else if tx.GroupFailure? || tx.PrecheckGroup? || tx.DryRun? { GroupKeepsBaseline(p, s, tx, k); }
    else if tx.Prepare? || tx.Fence? || tx.SendOutcome? { SendingKeepsBaseline(p, s, tx, k); }
    else { SettlingKeepsBaseline(p, s, tx, k); }
  }

  /**
   A baseline moves only on a rollover or a confirmation, or while the window has never been activated, and then to
   what the read reports of its bucket.
   */
  lemma BaselineMovesOnlyBy(p: Params, s: PersistentState, tx: Tx, k: WindowKey)
    requires StateInv(p, s) && Enabled(s, tx) && Apply(p, s, tx).Some? && k in s.windows
    ensures var t := NextState(p, s, tx);
            k in t.windows
            && (t.windows[k].baseline != s.windows[k].baseline ==> MovesTo(p, s, tx, k, t.windows[k].baseline))
  {
    TransactionKeepsBaseline(p, s, tx, k);
  }

  /** While its baseline's cycle is fenced, only a rollover or a confirmation gives a window a new baseline. */
  lemma FencedBaselineMovesOnlyBy(p: Params, s: PersistentState, tx: Tx, k: WindowKey)
    requires StateInv(p, s) && Enabled(s, tx) && Apply(p, s, tx).Some?
    requires k in s.windows && s.windows[k].baseline.cycleId in s.ledger
    ensures var t := NextState(p, s, tx);
            k in t.windows
            && (t.windows[k].baseline != s.windows[k].baseline ==>
                  || ((tx.Reconcile? || tx.PrecheckGroup?) && RolloverSeen(p, s, k, tx.windows))
                  || (tx.VerifyAttempt? && ConfirmationSeen(p, s, k, tx.windows)))
  {
    BaselineMovesOnlyBy(p, s, tx, k);
    assert WindowOk(k, s.windows[k]);
    assert s.windows[k].baseline.cycleId.Window() == k;
  }

  // ----- attempts along a run -----

  /** Past Prepared an attempt is never deleted and its phase never goes back; Completed is final. */
  lemma PhasesOnlyAdvance(p: Params, run: seq<Event>, n: nat, id: AttemptId)
    requires p.cfg.Valid() && IsRun(p, run) && n <= |run| && IsRun(p, run[..n])
    requires var s := Exec(p, run[..n]).value.acked; id in s.attempts && s.attempts[id].phase != Prepared
    ensures var s, t := Exec(p, run[..n]).value.acked, Exec(p, run).value.acked;
            && id in t.attempts && t.attempts[id].cycleIds == s.attempts[id].cycleIds
            && s.attempts[id].phase.Rank() <= t.attempts[id].phase.Rank()
            && (s.attempts[id].phase == Completed ==> t.attempts[id].phase == Completed)
  {
    AcknowledgedOnlyExtends(p, run, n);
    var s, t := Exec(p, run[..n]).value.acked, Exec(p, run).value.acked;
    assert AttemptExtends(s.attempts[id], t.attempts[id]);
  }

  /** A transaction takes an attempt out of the table only while it is Prepared. */
  lemma OnlyPreparedDeleted(p: Params, s: PersistentState, tx: Tx, id: AttemptId)
    requires p.cfg.Valid() && StateInv(p, s) && Enabled(s, tx) && Apply(p, s, tx).Some?
    requires id in s.attempts && id !in NextState(p, s, tx).attempts
    ensures s.attempts[id].phase == Prepared && tx.DropPrepared? && tx.id == id
  {
    ApplyPreserves(p, s, tx);
  }
}
