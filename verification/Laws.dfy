/**
 What each transaction leaves behind, told of the stored records themselves: which windows, attempts and ledger entries
 changed, and what they now say. `Leaves` is proved of every transaction the controller commits.
 */
module Laws {
  import opened Wrappers
  import opened Model
  import opened Adapters
  import opened Normalize
  import opened Transactions
  import opened StateInvariant
  import opened Preservation
  import opened Machine
  import opened Grouping
  import opened Effects

  // ----- baselines and deadlines -----

  /** The baseline is the one this read of the bucket gives. */
  ghost predicate Reports(b: Baseline, k: WindowKey, w: QuotaWindow) {
    && b.resetAt == w.resetAt && b.windowDuration == w.windowDuration
    && b.usedPercent == w.usedPercent && b.observedAt == w.observedAt
    && b.cycleId == CycleId(k.instance, k.bucketId, w.resetAt)
  }

  /** The check is set for the reset and its grace, or for now if they have passed. */
  ghost predicate ChecksAtReset(p: Params, y: WindowRecord, now: Time) {
    && (y.nextCheck == now || y.nextCheck == y.baseline.resetAt + p.cfg.resetGrace)
    && y.nextCheck >= now && y.nextCheck >= y.baseline.resetAt + p.cfg.resetGrace
  }

  /** Nothing of the window's history changed: its baseline, its last activation, who it belongs to. */
  ghost predicate HistoryKept(x: WindowRecord, y: WindowRecord) {
    && y.baseline == x.baseline && y.lastActivation == x.lastActivation
    && y.key == x.key && y.instanceKey == x.instanceKey && y.bucketId == x.bucketId
    && y.authId == x.authId && y.provider == x.provider && y.activationGroup == x.activationGroup
  }

  // ----- whole tables -----

  /** The credential's windows are marked and no longer looked at, all else is as it was. */
  ghost predicate CredentialMarked(s: PersistentState, t: PersistentState, authId: string, state: ProbeState,
                                   note: Note)
  {
    && t.windows.Keys == s.windows.Keys && t.attempts == s.attempts && t.ledger == s.ledger
    && forall k :: k in s.windows ==>
                     if s.windows[k].authId == authId then Marked(s.windows[k], t.windows[k], state, note)
                     else t.windows[k] == s.windows[k]
  }

  ghost predicate Marked(x: WindowRecord, y: WindowRecord, state: ProbeState, note: Note) {
    && y.state == state && y.lastResult == note && y.nextCheck == ZERO_TIME && HistoryKept(x, y)
    && y.activeAttempt == x.activeAttempt && y.retryCount == x.retryCount
  }

  ghost predicate OthersRetired(s: PersistentState, t: PersistentState, authId: string, current: InstanceKey) {
    && t.windows.Keys == s.windows.Keys && t.attempts == s.attempts && t.ledger == s.ledger
    && forall k :: k in s.windows ==>
                     if s.windows[k].authId == authId && s.windows[k].instanceKey != current
                     then Marked(s.windows[k], t.windows[k], Disabled, CredentialReplaced)
                     else t.windows[k] == s.windows[k]
  }

  ghost predicate Retries(p: Params, x: WindowRecord, y: WindowRecord, cause: Note, delay: Duration, now: Time) {
    && y.state == RetryWait && y.lastResult == cause && y.retryCount == x.retryCount + 1
    && y.nextCheck == now + delay && HistoryKept(x, y) && y.activeAttempt == x.activeAttempt
  }

  ghost predicate ReadFailureNoted(p: Params, s: PersistentState, t: PersistentState, instance: InstanceKey,
                                   cause: Note, now: Time)
  {
    && t.windows.Keys == s.windows.Keys && t.attempts == s.attempts && t.ledger == s.ledger
    && forall k :: k in s.windows ==>
                     if s.windows[k].instanceKey == instance
                     then Retries(p, s.windows[k], t.windows[k], cause, p.cfg.RetryDelay(s.windows[k].retryCount), now)
                     else t.windows[k] == s.windows[k]
  }

  // ----- reconciling a read -----

  /** A window seen for the first time. */
  ghost predicate FirstTaken(p: Params, y: WindowRecord, k: WindowKey, w: QuotaWindow, able: bool, now: Time) {
    && Reports(y.baseline, k, w) && y.lastActivation == ZERO_TIME && y.activeAttempt.None? && y.retryCount == 0
    && (y.activationDisabled <==> !able)
    && (if !able then y.state == Unsupported && ChecksAtReset(p, y, now)
        else if w.lazyHint || now >= w.resetAt + p.cfg.resetGrace then
          y.state == PendingPrecheck && y.nextCheck == ZERO_TIME
        else y.state == WaitingReset && ChecksAtReset(p, y, now))
  }

  /** An untouched window still waiting whose read is lazy takes the read's baseline and asks for a precheck. */
  ghost predicate Migrates(x: WindowRecord, w: QuotaWindow) {
    x.state == WaitingReset && w.lazyHint && x.lastActivation == ZERO_TIME
  }

  /** The provider has moved the reset past the skew, and the window is in use. */
  ghost predicate HasRolled(p: Params, x: WindowRecord, w: QuotaWindow) {
    !w.lazyHint && w.resetAt > x.baseline.resetAt + p.cfg.skew
  }

  /** A capable window that neither migrates nor rolls keeps its baseline and is judged by it. */
  ghost predicate KeptTaken(p: Params, x: WindowRecord, y: WindowRecord, w: QuotaWindow, fenced: bool, now: Time) {
    && HistoryKept(x, y) && y.activeAttempt == x.activeAttempt
    && (if now < x.baseline.resetAt + p.cfg.resetGrace then
          y.state == WaitingReset && ChecksAtReset(p, y, now) && y.retryCount == x.retryCount
        else if fenced then
          y.state == SentUnknown && y.nextCheck == now + p.cfg.interval && y.retryCount == x.retryCount
        else if w.lazyHint || (x.baseline.resetAt - p.cfg.skew <= w.resetAt <= x.baseline.resetAt + p.cfg.skew) then
          y.state == LazyDetected && y.nextCheck == ZERO_TIME && y.retryCount == x.retryCount
        else
          Retries(p, x, y, AmbiguousTransition, p.cfg.RetryDelay(x.retryCount), now))
  }

  /** A window known before. */
  ghost predicate KnownTaken(p: Params, x: WindowRecord, y: WindowRecord, k: WindowKey, w: QuotaWindow, able: bool,
                             fenced: bool, now: Time)
  {
    if !able then
      && y.state == Unsupported && y.activationDisabled && HistoryKept(x, y) && y.nextCheck == now + p.cfg.interval
      && y.activeAttempt == x.activeAttempt && y.retryCount == x.retryCount
    else if Migrates(x, w) then
      && y.state == PendingPrecheck && Reports(y.baseline, k, w) && y.nextCheck == ZERO_TIME
      && y.activeAttempt == x.activeAttempt && y.retryCount == x.retryCount
    else if HasRolled(p, x, w) then
      && y.state == NormalReset && Reports(y.baseline, k, w) && y.activeAttempt.None? && y.retryCount == 0
      && y.lastActivation == x.lastActivation && ChecksAtReset(p, y, now)
    else
      KeptTaken(p, x, y, w, fenced, now)
  }

  lemma FirstIsTaken(p: Params, cred: Credential, instance: InstanceKey, now: Time, w: QuotaWindow)
    ensures FirstTaken(p, FirstObservation(p, cred, instance, now, Attributed(cred, w)).record,
                       WindowKey(instance, w.bucketId), w, p.For(instance).Can(Attributed(cred, w)), now)
  {
  }

  lemma KnownIsTaken(p: Params, cred: Credential, k: WindowKey, fenced: bool, now: Time, x: WindowRecord,
                     w: QuotaWindow)
    requires WindowOk(k, x) && k.bucketId == w.bucketId
    ensures KnownTaken(p, x, Revisit(p, k.instance, fenced, now, x, Attributed(cred, w)).record, k, w,
                       p.For(k.instance).Can(Attributed(cred, w)), fenced, now)
  {
  }

  /** What reconciling the read leaves of a window that it reported. */
  ghost predicate ReadTaken(p: Params, s: PersistentState, t: PersistentState, cred: Credential, k: WindowKey,
                            w: QuotaWindow, now: Time)
  {
    && k in t.windows && t.windows[k].latest == Attributed(cred, w)
    && var able := p.For(k.instance).Can(Attributed(cred, w));
    if k in s.windows then
      KnownTaken(p, s.windows[k], t.windows[k], k, w, able, s.windows[k].baseline.cycleId in s.ledger, now)
    else FirstTaken(p, t.windows[k], k, w, able, now)
  }

  /** And of one of the instance that it did not report. */
  ghost predicate AbsentTaken(p: Params, x: WindowRecord, y: WindowRecord, now: Time) {
    && y.state == RetryWait && y.nextCheck == now + p.cfg.interval && HistoryKept(x, y)
    && y.activeAttempt == x.activeAttempt && y.retryCount == x.retryCount
  }

  ghost predicate ReadReconciled(p: Params, s: PersistentState, t: PersistentState, cred: Credential,
                                 instance: InstanceKey, ws: seq<QuotaWindow>, now: Time)
  {
    && t.attempts == s.attempts && t.ledger == s.ledger
    && (forall w :: w in ws ==> ReadTaken(p, s, t, cred, WindowKey(instance, w.bucketId), w, now))
    && (forall k :: k in t.windows ==> k in s.windows || exists w :: w in ws && k == WindowKey(instance, w.bucketId))
    && (forall k :: k in s.windows ==>
                      && k in t.windows
                      && (k.instance != instance ==> t.windows[k] == s.windows[k])
                      && (k.instance == instance && (forall w :: w in ws ==> w.bucketId != k.bucketId) ==>
                            AbsentTaken(p, s.windows[k], t.windows[k], now)))
  }

  // ----- groups -----

  ghost predicate GroupFailureNoted(p: Params, s: PersistentState, t: PersistentState, keys: seq<WindowKey>,
                                    cause: Note, now: Time)
  {
    && t.windows.Keys == s.windows.Keys && t.attempts == s.attempts && t.ledger == s.ledger
    && forall k :: k in s.windows ==>
                     if k in keys
                     then Retries(p, s.windows[k], t.windows[k], cause,
                                  p.cfg.RetryDelay(s.windows[k].retryCount + 1), now)
                     else t.windows[k] == s.windows[k]
  }

  ghost predicate DryRunNoted(p: Params, s: PersistentState, t: PersistentState, keys: seq<WindowKey>, now: Time) {
    && t.windows.Keys == s.windows.Keys && t.attempts == s.attempts && t.ledger == s.ledger
    && forall k :: k in s.windows ==>
                     if k in keys
                     then && t.windows[k].state == LazyDetected && t.windows[k].lastResult == WouldActivate
                          && t.windows[k].nextCheck == now + p.cfg.interval && HistoryKept(s.windows[k], t.windows[k])
                          && t.windows[k].activeAttempt == s.windows[k].activeAttempt
                     else t.windows[k] == s.windows[k]
  }

  /** What the second read leaves of a window of the group. */
  ghost predicate PrecheckTaken(p: Params, x: WindowRecord, y: WindowRecord, k: WindowKey,
                                byBucket: map<string, QuotaWindow>, now: Time)
  {
    if k.bucketId !in byBucket then
      Retries(p, x, y, PrecheckMissingBucket, p.cfg.RetryDelay(x.retryCount + 1), now)
    else
      var w := byBucket[k.bucketId];
      && y.latest == w && y.activeAttempt == x.activeAttempt
      && (if !p.For(k.instance).Can(w) || w.activationGroup != x.activationGroup then
            y.state == Unsupported && y.activationDisabled && HistoryKept(x, y) && y.nextCheck == now + p.cfg.interval
          else if HasRolled(p, x, w) then
            && y.state == NormalReset && Reports(y.baseline, k, w) && y.retryCount == 0
            && y.lastActivation == x.lastActivation && ChecksAtReset(p, y, now)
          else if w.lazyHint || (x.baseline.resetAt - p.cfg.skew <= w.resetAt <= x.baseline.resetAt + p.cfg.skew) then
            y.state == LazyDetected && HistoryKept(x, y) && y.nextCheck == ZERO_TIME && y.retryCount == x.retryCount
          else
            Retries(p, x, y, AmbiguousDuringPrecheck, p.cfg.RetryDelay(x.retryCount + 1), now))
  }

  ghost predicate GroupPrechecked(p: Params, s: PersistentState, t: PersistentState, keys: seq<WindowKey>,
                                  ws: seq<QuotaWindow>, now: Time)
  {
    && t.windows.Keys == s.windows.Keys && t.attempts == s.attempts && t.ledger == s.ledger
    && forall k :: k in s.windows ==>
                     if k in keys then PrecheckTaken(p, s.windows[k], t.windows[k], k, ByBucket(ws), now)
                     else t.windows[k] == s.windows[k]
  }

  lemma PrecheckIsTaken(p: Params, k: WindowKey, x: WindowRecord, byBucket: map<string, QuotaWindow>, now: Time)
    requires WindowOk(k, x) && Indexed(byBucket)
    ensures PrecheckTaken(p, x, EditRecord(p, Precheck(byBucket, now), x), k, byBucket, now)
  {
  }

  // ----- attempts -----

  ghost predicate PreparedLeft(s: PersistentState, t: PersistentState, a: ProbeAttempt) {
    && t.windows.Keys == s.windows.Keys && t.ledger == s.ledger && t.attempts == s.attempts[a.id := a]
    && forall k :: k in s.windows ==>
                     if k in a.windowKeys
                     then && t.windows[k].state == PendingPrecheck && t.windows[k].activeAttempt == Some(a.id)
                          && HistoryKept(s.windows[k], t.windows[k])
                     else t.windows[k] == s.windows[k]
  }

  /** The attempt is Sending, each of its cycles has an entry that names it, each of its windows has been activated. */
  ghost predicate FenceLeft(s: PersistentState, t: PersistentState, a: ProbeAttempt, now: Time) {
    && t.windows.Keys == s.windows.Keys
    && t.attempts.Keys == s.attempts.Keys + {a.id}
    && (forall id :: id in s.attempts && id != a.id ==> t.attempts[id] == s.attempts[id])
    && t.attempts[a.id] == a.(phase := Sending, sendingAt := now)
    && (forall c :: c in t.ledger <==> c in s.ledger || c in a.cycleIds)
    && (forall c :: c in t.ledger ==>
                      if c in a.cycleIds then t.ledger[c] == LedgerEntry(c, a.id, now, ResultUnknown)
                      else t.ledger[c] == s.ledger[c])
    && (forall k :: k in s.windows ==>
                      if k in a.windowKeys
                      then && t.windows[k].state == ActivationSending && t.windows[k].lastActivation == now
                           && t.windows[k].baseline == s.windows[k].baseline
                           && t.windows[k].activeAttempt == s.windows[k].activeAttempt
                      else t.windows[k] == s.windows[k])
  }

  /** The attempt as it was, but for its phase, its time of sending if one is given, and its error if there is one. */
  ghost predicate OutcomeIn(a: ProbeAttempt, b: ProbeAttempt, phase: AttemptPhase, sentAt: Time, error: Option<Note>) {
    && b.phase == phase
    && b.sentAt == (if sentAt != ZERO_TIME then sentAt else a.sentAt)
    && b.lastError == (match error case Some(e) => e case None => a.lastError)
    && b.id == a.id && b.instanceKey == a.instanceKey && b.provider == a.provider && b.authId == a.authId
    && b.activationGroup == a.activationGroup && b.windowKeys == a.windowKeys && b.cycleIds == a.cycleIds
    && b.createdAt == a.createdAt && b.sendingAt == a.sendingAt
    && b.verifyNotBefore == a.verifyNotBefore && b.suppressUntil == a.suppressUntil
  }

  /** The outcome is in the attempt, in the entry of each of its cycles, and on each of its windows; nowhere else. */
  ghost predicate OutcomeLeft(s: PersistentState, t: PersistentState, id: AttemptId, phase: AttemptPhase,
                              result: SendResult, sentAt: Time, error: Option<Note>)
  {
    && id in s.attempts && t.windows.Keys == s.windows.Keys && t.attempts.Keys == s.attempts.Keys
    && t.ledger.Keys == s.ledger.Keys
    && (forall i :: i in s.attempts && i != id ==> t.attempts[i] == s.attempts[i])
    && OutcomeIn(s.attempts[id], t.attempts[id], phase, sentAt, error)
    && (forall c :: c in s.ledger ==>
                      if c in s.attempts[id].cycleIds
                      then && t.ledger[c].outcome == result && t.ledger[c].attemptId == s.ledger[c].attemptId
                           && t.ledger[c].sendingAt == s.ledger[c].sendingAt
                      else t.ledger[c] == s.ledger[c])
    && (forall k :: k in s.windows ==>
                      if k in s.attempts[id].windowKeys
                      then && t.windows[k].state == (if phase == Sent then ActivationSent else SentUnknown)
                           && t.windows[k].nextCheck == s.attempts[id].suppressUntil
                           && HistoryKept(s.windows[k], t.windows[k])
                           && t.windows[k].activeAttempt == s.windows[k].activeAttempt
                      else t.windows[k] == s.windows[k])
  }

  /** What the verification read leaves of a window of the attempt. */
  ghost predicate VerifyTaken(p: Params, x: WindowRecord, y: WindowRecord, k: WindowKey,
                              byBucket: map<string, QuotaWindow>, now: Time)
  {
    if k.bucketId !in byBucket then
      && y.state == RetryWait && y.lastResult == VerifyMissingBucket && y.nextCheck == now + p.cfg.interval
      && HistoryKept(x, y) && y.activeAttempt == x.activeAttempt && y.retryCount == x.retryCount
    else
      var w := byBucket[k.bucketId];
      && y.latest == w && y.activeAttempt.None? && y.lastActivation == x.lastActivation
      && (if p.For(k.instance).verify(x.baseline, w).confirmed then
            y.state == Confirmed && Reports(y.baseline, k, w) && y.retryCount == 0 && ChecksAtReset(p, y, now)
          else
            y.state == RetryWait && y.baseline == x.baseline && y.nextCheck == now + p.cfg.interval)
  }

  ghost predicate VerifyLeft(p: Params, s: PersistentState, t: PersistentState, id: AttemptId, ws: seq<QuotaWindow>,
                             now: Time)
  {
    && id in s.attempts && t.windows.Keys == s.windows.Keys && t.ledger == s.ledger
    && t.attempts == s.attempts[id := s.attempts[id].(phase := Completed)]
    && forall k :: k in s.windows ==>
                     if k in s.attempts[id].windowKeys
                     then VerifyTaken(p, s.windows[k], t.windows[k], k, ByBucket(ws), now)
                     else t.windows[k] == s.windows[k]
  }

  lemma VerifyIsTaken(p: Params, k: WindowKey, x: WindowRecord, byBucket: map<string, QuotaWindow>, now: Time)
    requires WindowOk(k, x) && Indexed(byBucket)
    ensures VerifyTaken(p, x, EditRecord(p, Verify(byBucket, now), x), k, byBucket, now)
  {
  }

  ghost predicate DropLeft(s: PersistentState, t: PersistentState, id: AttemptId, now: Time) {
    && id in s.attempts && t.windows.Keys == s.windows.Keys && t.ledger == s.ledger
    && t.attempts == s.attempts - {id}
    && forall k :: k in s.windows ==>
                     if k in s.attempts[id].windowKeys
                     then && t.windows[k].state == PendingPrecheck && t.windows[k].activeAttempt.None?
                          && t.windows[k].nextCheck == now && HistoryKept(s.windows[k], t.windows[k])
                     else t.windows[k] == s.windows[k]
  }

  // ----- every transaction -----

  ghost predicate Leaves(p: Params, s: PersistentState, tx: Tx, t: PersistentState) {
    && t.sequence == s.sequence + 1
    && match tx
       case RetireReplaced(authId, current) => OthersRetired(s, t, authId, current)
       case MarkCredential(authId, state, note) => CredentialMarked(s, t, authId, state, note)
       case ReadFailure(instance, cause, now) => ReadFailureNoted(p, s, t, instance, cause, now)
       case Reconcile(cred, instance, ws, now) => ReadReconciled(p, s, t, cred, instance, ws, now)
       case GroupFailure(keys, cause, now) => GroupFailureNoted(p, s, t, keys, cause, now)
       case PrecheckGroup(_, keys, ws, now) => GroupPrechecked(p, s, t, keys, ws, now)
       case DryRun(keys, now) => DryRunNoted(p, s, t, keys, now)
       case Prepare(a) => PreparedLeft(s, t, a)
       case Fence(a, now) => FenceLeft(s, t, a, now)
       case SendOutcome(id, phase, result, sentAt, error, _) => OutcomeLeft(s, t, id, phase, result, sentAt, error)
       case VerifyAttempt(id, ws, now) => VerifyLeft(p, s, t, id, ws, now)
       case DropPrepared(id, now) => DropLeft(s, t, id, now)
  }

  lemma RetireLeaves(p: Params, s: PersistentState, tx: Tx)
    requires tx.RetireReplaced?
    ensures Leaves(p, s, tx, NextState(p, s, tx))
  {
  }

  lemma MarkLeaves(p: Params, s: PersistentState, tx: Tx)
    requires tx.MarkCredential?
    ensures Leaves(p, s, tx, NextState(p, s, tx))
  {
  }

  lemma ReadFailureLeaves(p: Params, s: PersistentState, tx: Tx)
    requires tx.ReadFailure?
    ensures Leaves(p, s, tx, NextState(p, s, tx))
  {
  }

  lemma ReconcileLeaves(p: Params, s: PersistentState, tx: Tx)
    requires StateInv(p, s) && tx.Reconcile? && Normalized(tx.windows)
    ensures Leaves(p, s, tx, NextState(p, s, tx))
  {
    var t := NextState(p, s, tx);
    forall w | w in tx.windows ensures ReadTaken(p, s, t, tx.cred, WindowKey(tx.instance, w.bucketId), w, tx.now) {
      ReportedIsTaken(p, s, tx, w);
    }
    UnreportedAreTaken(p, s, t, tx);
  }

  lemma UnreportedAreTaken(p: Params, s: PersistentState, t: PersistentState, tx: Tx)
    requires StateInv(p, s) && tx.Reconcile? && Normalized(tx.windows) && t == NextState(p, s, tx)
    ensures t.windows.Keys == s.windows.Keys + SeenKeys(tx.instance, tx.windows)
    ensures forall k :: k in s.windows && k !in SeenKeys(tx.instance, tx.windows) ==>
                          if k.instance == tx.instance then AbsentTaken(p, s.windows[k], t.windows[k], tx.now)
                          else t.windows[k] == s.windows[k]
  {
    forall k ensures k in t.windows <==> k in s.windows || k in SeenKeys(tx.instance, tx.windows) {
      ReconciledTable(p, s, tx.cred, tx.instance, tx.windows, tx.now, k);
    }
    forall k | k in s.windows && k !in SeenKeys(tx.instance, tx.windows)
      ensures if k.instance == tx.instance then AbsentTaken(p, s.windows[k], t.windows[k], tx.now)
              else t.windows[k] == s.windows[k]
    {
      UnreportedIsTaken(p, s, t, tx, k);
    }
  }

  lemma UnreportedIsTaken(p: Params, s: PersistentState, t: PersistentState, tx: Tx, k: WindowKey)
    requires StateInv(p, s) && tx.Reconcile? && Normalized(tx.windows) && t == NextState(p, s, tx)
    requires k in s.windows && k in t.windows && k !in SeenKeys(tx.instance, tx.windows)
    ensures if k.instance == tx.instance then AbsentTaken(p, s.windows[k], t.windows[k], tx.now)
            else t.windows[k] == s.windows[k]
  {
    ReconciledTable(p, s, tx.cred, tx.instance, tx.windows, tx.now, k);
    AbsentIsTaken(p, s.windows[k], tx.now);
  }

  lemma AbsentIsTaken(p: Params, x: WindowRecord, now: Time)
    ensures AbsentTaken(p, x, EditRecord(p, Absent(now), x), now)
  {
  }

  lemma ReportedIsTaken(p: Params, s: PersistentState, tx: Tx, w: QuotaWindow)
    requires StateInv(p, s) && tx.Reconcile? && Normalized(tx.windows) && w in tx.windows
    ensures ReadTaken(p, s, NextState(p, s, tx), tx.cred, WindowKey(tx.instance, w.bucketId), w, tx.now)
  {
    var k := WindowKey(tx.instance, w.bucketId);
    var i :| 0 <= i < |tx.windows| && tx.windows[i] == w;
    ReconciledTable(p, s, tx.cred, tx.instance, tx.windows, tx.now, k);
    assert k in SeenKeys(tx.instance, tx.windows);
    assert k in s.windows ==> WindowOk(k, s.windows[k]);
    VerdictIsTaken(p, s, NextState(p, s, tx), tx.cred, k, w, tx.now);
  }

  lemma VerdictIsTaken(p: Params, s: PersistentState, t: PersistentState, cred: Credential, k: WindowKey,
                       w: QuotaWindow, now: Time)
    requires k == WindowKey(k.instance, w.bucketId) && (k in s.windows ==> WindowOk(k, s.windows[k]))
    requires k in t.windows && t.windows[k] == Reconciled(p, s, cred, k.instance, now, w).record
    ensures ReadTaken(p, s, t, cred, k, w, now)
  {
    if k in s.windows {
      KnownIsTaken(p, cred, k, s.windows[k].baseline.cycleId in s.ledger, now, s.windows[k], w);
    } else {
      FirstIsTaken(p, cred, k.instance, now, w);
    }
  }

  lemma GroupFailureLeaves(p: Params, s: PersistentState, tx: Tx)
    requires tx.GroupFailure?
    ensures Leaves(p, s, tx, NextState(p, s, tx))
  {
  }

  lemma DryRunLeaves(p: Params, s: PersistentState, tx: Tx)
    requires tx.DryRun?
    ensures Leaves(p, s, tx, NextState(p, s, tx))
  {
    DryRunWindows(p, s.windows, tx.keys, tx.now);
  }

  lemma DryRunWindows(p: Params, ws: map<WindowKey, WindowRecord>, keys: seq<WindowKey>, now: Time)
    ensures var vs := Touched(p, ws, keys, DryRunOnly(now));
            && vs.Keys == ws.Keys
            && forall k :: k in ws ==>
                             if k in keys
                             then && vs[k].state == LazyDetected && vs[k].lastResult == WouldActivate
                                  && vs[k].nextCheck == now + p.cfg.interval && HistoryKept(ws[k], vs[k])
                                  && vs[k].activeAttempt == ws[k].activeAttempt
                             else vs[k] == ws[k]
  {
  }

  lemma PrecheckLeaves(p: Params, s: PersistentState, tx: Tx)
    requires WindowsOk(s.windows) && tx.PrecheckGroup? && Normalized(tx.windows)
    ensures Leaves(p, s, tx, NextState(p, s, tx))
  {
    Indexes(tx.windows);
    TouchedFrame(p, s.windows, tx.keys, Precheck(ByBucket(tx.windows), tx.now));
    forall k | k in s.windows && k in tx.keys
      ensures PrecheckTaken(p, s.windows[k], NextState(p, s, tx).windows[k], k, ByBucket(tx.windows), tx.now)
    {
      PrecheckIsTaken(p, k, s.windows[k], ByBucket(tx.windows), tx.now);
    }
  }

  lemma PrepareLeaves(p: Params, s: PersistentState, tx: Tx)
    requires tx.Prepare? && Apply(p, s, tx).Some?
    ensures Leaves(p, s, tx, NextState(p, s, tx))
  {
  }

  lemma FenceLeaves(p: Params, s: PersistentState, tx: Tx)
    requires tx.Fence? && Apply(p, s, tx).Some? && s.attempts[tx.attempt.id] == tx.attempt
    ensures Leaves(p, s, tx, NextState(p, s, tx))
  {
  }

  lemma OutcomeWindows(p: Params, ws: map<WindowKey, WindowRecord>, keys: seq<WindowKey>, phase: AttemptPhase,
                       suppressUntil: Time, now: Time)
    ensures var vs := Touched(p, ws, keys, MarkOutcome(phase, suppressUntil, now));
            && vs.Keys == ws.Keys
            && forall k :: k in ws ==>
                             if k in keys
                             then && vs[k].state == (if phase == Sent then ActivationSent else SentUnknown)
                                  && vs[k].nextCheck == suppressUntil && HistoryKept(ws[k], vs[k])
                                  && vs[k].activeAttempt == ws[k].activeAttempt
                             else vs[k] == ws[k]
  {
  }

  lemma OutcomeNoted(a: ProbeAttempt, phase: AttemptPhase, sentAt: Time, error: Option<Note>)
    ensures OutcomeIn(a, NotedAttempt(a, phase, sentAt, error), phase, sentAt, error)
  {
  }

  lemma OutcomeLeaves(p: Params, s: PersistentState, tx: Tx)
    requires tx.SendOutcome? && tx.id in s.attempts
    ensures Leaves(p, s, tx, NextState(p, s, tx))
  {
    var a := s.attempts[tx.id];
    OutcomeNoted(a, tx.phase, tx.sentAt, tx.error);
    OutcomeWindows(p, s.windows, a.windowKeys, tx.phase, a.suppressUntil, tx.now);
  }

  lemma SettlingLeaves(p: Params, s: PersistentState, tx: Tx)
    requires WindowsOk(s.windows) && (tx.DropPrepared? || (tx.VerifyAttempt? && Normalized(tx.windows)))
    requires tx.id in s.attempts
    ensures Leaves(p, s, tx, NextState(p, s, tx))
  {
    if tx.VerifyAttempt? {
      Indexes(tx.windows);
      forall k | k in s.windows && k in s.attempts[tx.id].windowKeys
        ensures VerifyTaken(p, s.windows[k], NextState(p, s, tx).windows[k], k, ByBucket(tx.windows), tx.now)
      {
        VerifyIsTaken(p, k, s.windows[k], ByBucket(tx.windows), tx.now);
      }
    }
  }

  /** Whatever the controller commits leaves what its law says. */
  lemma EveryLeaves(p: Params, s: PersistentState, tx: Tx)
    requires StateInv(p, s) && Enabled(s, tx) && Apply(p, s, tx).Some?
    ensures Leaves(p, s, tx, NextState(p, s, tx))
  {
    match tx
    case RetireReplaced(_, _) => RetireLeaves(p, s, tx);
    case MarkCredential(_, _, _) => MarkLeaves(p, s, tx);
    case ReadFailure(_, _, _) => ReadFailureLeaves(p, s, tx);
    case Reconcile(_, _, _, _) => ReconcileLeaves(p, s, tx);
    case GroupFailure(_, _, _) => GroupFailureLeaves(p, s, tx);
    case PrecheckGroup(_, _, _, _) => PrecheckLeaves(p, s, tx);
    case DryRun(_, _) => DryRunLeaves(p, s, tx);
    case Prepare(_) => PrepareLeaves(p, s, tx);
    case Fence(_, _) => FenceLeaves(p, s, tx);
    case SendOutcome(_, _, _, _, _, _) => OutcomeLeaves(p, s, tx);
    case VerifyAttempt(_, _, _) => SettlingLeaves(p, s, tx);
    case DropPrepared(_, _) => SettlingLeaves(p, s, tx);
  }

  // ----- rollovers are recognised -----

  /**
   No capable window reported in use keeps a baseline whose reset, plus the skew, lies before the reported one, whatever
   its state was. A window so moved carries the reset and cycle of the read, joins no group and has no active attempt.
   */
  lemma NoneLeftBehind(p: Params, s: PersistentState, tx: Tx, w: QuotaWindow)
    requires p.cfg.Valid() && StateInv(p, s) && tx.Reconcile? && Normalized(tx.windows) && w in tx.windows && tx.now > 0
    requires p.For(tx.instance).Can(Attributed(tx.cred, w)) && !w.lazyHint
    ensures var k, t := WindowKey(tx.instance, w.bucketId), NextState(p, s, tx);
            && k in t.windows && w.resetAt <= t.windows[k].baseline.resetAt + p.cfg.skew
            && (k in s.windows && w.resetAt > s.windows[k].baseline.resetAt + p.cfg.skew ==>
                  && t.windows[k].state == NormalReset && Reports(t.windows[k].baseline, k, w)
                  && t.windows[k].activeAttempt.None?
                  && t.windows[k] !in Joining(p, s, tx.cred, tx.instance, tx.windows, tx.now))
  {
    ReportedIsTaken(p, s, tx, w);
    var k, t := WindowKey(tx.instance, w.bucketId), NextState(p, s, tx);
    if t.windows[k].state == NormalReset { NormalDoesNotJoin(p, s, tx, t.windows[k]); }
  }

  lemma NormalDoesNotJoin(p: Params, s: PersistentState, tx: Tx, r: WindowRecord)
    requires p.cfg.Valid() && StateInv(p, s) && tx.Reconcile? && Normalized(tx.windows) && tx.now > 0
    requires r.state == NormalReset
    ensures r !in Joining(p, s, tx.cred, tx.instance, tx.windows, tx.now)
  {
    NormalizedIsAcceptable(tx.windows);
    JoiningExact(p, s, tx.cred, tx.instance, tx.windows, tx.now);
    if r in Joining(p, s, tx.cred, tx.instance, tx.windows, tx.now) {
      var i: nat :| JoinsFrom(p, s, tx.cred, tx.instance, tx.windows, tx.now, r, i);
      JoinsIff(p, s, tx.cred, tx.instance, tx.now, tx.windows[i]);
    }
  }

  /** A known, capable window's baseline is the read's exactly when it rolled, or migrated before any activation. */
  lemma MovesIff(p: Params, s: PersistentState, tx: Tx, w: QuotaWindow)
    requires StateInv(p, s) && tx.Reconcile? && Normalized(tx.windows) && w in tx.windows
    requires WindowKey(tx.instance, w.bucketId) in s.windows
    ensures var k, t := WindowKey(tx.instance, w.bucketId), NextState(p, s, tx);
            var x := s.windows[k];
            && k in t.windows
            && (if p.For(tx.instance).Can(Attributed(tx.cred, w)) && (Migrates(x, w) || HasRolled(p, x, w))
                then Reports(t.windows[k].baseline, k, w)
                else t.windows[k].baseline == x.baseline)
  {
    ReportedIsTaken(p, s, tx, w);
  }

  /** The second read of a group leaves none behind either, and confirms none that rolled. */
  lemma PrecheckLeavesNoneBehind(p: Params, s: PersistentState, tx: Tx, k: WindowKey)
    requires p.cfg.Valid() && StateInv(p, s) && tx.PrecheckGroup? && Enabled(s, tx) && k in tx.keys
    requires k.bucketId in ByBucket(tx.windows)
    requires var w := ByBucket(tx.windows)[k.bucketId];
             p.For(k.instance).Can(w) && w.activationGroup == s.windows[k].activationGroup && !w.lazyHint
    ensures var t, w := NextState(p, s, tx), ByBucket(tx.windows)[k.bucketId];
            && k in t.windows && w.resetAt <= t.windows[k].baseline.resetAt + p.cfg.skew
            && (w.resetAt > s.windows[k].baseline.resetAt + p.cfg.skew ==>
                  t.windows[k].state == NormalReset && Reports(t.windows[k].baseline, k, w))
            && (w.resetAt <= s.windows[k].baseline.resetAt + p.cfg.skew ==>
                  t.windows[k].baseline == s.windows[k].baseline)
  {
    PrecheckLeaves(p, s, tx);
  }

  /** A lazy, capable window seen for the first time asks for its precheck, whenever its reset is. */
  lemma LazyFirstReadJoins(p: Params, s: PersistentState, tx: Tx, w: QuotaWindow)
    requires p.cfg.Valid() && StateInv(p, s) && tx.Reconcile? && Normalized(tx.windows) && w in tx.windows && tx.now > 0
    requires p.For(tx.instance).Can(Attributed(tx.cred, w)) && w.lazyHint
    requires WindowKey(tx.instance, w.bucketId) !in s.windows
    ensures var k, t := WindowKey(tx.instance, w.bucketId), NextState(p, s, tx);
            && k in t.windows && t.windows[k].state == PendingPrecheck
            && t.windows[k] in Joining(p, s, tx.cred, tx.instance, tx.windows, tx.now)
  {
    var k := WindowKey(tx.instance, w.bucketId);
    ReportedIsTaken(p, s, tx, w);
    ReconcileSchedulesOrGroups(p, s, tx.cred, tx.instance, tx.windows, tx.now, k);
    NormalizedIsAcceptable(tx.windows);
    var i :| 0 <= i < |tx.windows| && tx.windows[i] == w;
    JoiningExact(p, s, tx.cred, tx.instance, tx.windows, tx.now);
    JoinsIff(p, s, tx.cred, tx.instance, tx.now, w);
    ReconciledTable(p, s, tx.cred, tx.instance, tx.windows, tx.now, k);
    var r := Reconciled(p, s, tx.cred, tx.instance, tx.now, w).record;
    assert JoinsFrom(p, s, tx.cred, tx.instance, tx.windows, tx.now, r, i);
  }

  // ----- confirmations take effect -----

  /** A verification read that the adapter confirms leaves the window Confirmed, with the baseline it reports. */
  lemma ConfirmationTaken(p: Params, s: PersistentState, tx: Tx, k: WindowKey)
    requires StateInv(p, s) && tx.VerifyAttempt? && Enabled(s, tx)
    requires k in s.attempts[tx.id].windowKeys && k in s.windows
    requires k.bucketId in ByBucket(tx.windows)
    ensures var t, w := NextState(p, s, tx), ByBucket(tx.windows)[k.bucketId];
            && k in t.windows
            && (if p.For(k.instance).verify(s.windows[k].baseline, w).confirmed
                then t.windows[k].state == Confirmed && Reports(t.windows[k].baseline, k, w)
                else t.windows[k].state == RetryWait && t.windows[k].baseline == s.windows[k].baseline)
  {
    SettlingLeaves(p, s, tx);
  }

  /** With Codex and a skew of at least its two minutes, that is so of every rollover. */
  lemma CodexRolloverConfirmed(p: Params, s: PersistentState, tx: Tx, k: WindowKey)
    requires StateInv(p, s) && tx.VerifyAttempt? && Enabled(s, tx)
    requires k in s.attempts[tx.id].windowKeys && k in s.windows
    requires p.For(k.instance) == CODEX && p.cfg.skew >= 2 * MINUTE && k.bucketId in ByBucket(tx.windows)
    requires HasRolled(p, s.windows[k], ByBucket(tx.windows)[k.bucketId])
    ensures var t, w := NextState(p, s, tx), ByBucket(tx.windows)[k.bucketId];
            k in t.windows && t.windows[k].state == Confirmed && Reports(t.windows[k].baseline, k, w)
  {
    CodexConfirmsRollover(s.windows[k].baseline, ByBucket(tx.windows)[k.bucketId], p.cfg.skew);
    ConfirmationTaken(p, s, tx, k);
  }

  /** Codex confirms the reads of windows in use whose reset is over two minutes later, or whose usage fell to zero. */
  lemma CodexConfirmedIff(p: Params, s: PersistentState, tx: Tx, k: WindowKey)
    requires StateInv(p, s) && tx.VerifyAttempt? && Enabled(s, tx)
    requires k in s.attempts[tx.id].windowKeys && k in s.windows
    requires p.For(k.instance) == CODEX && k.bucketId in ByBucket(tx.windows)
    ensures var t, w, b := NextState(p, s, tx), ByBucket(tx.windows)[k.bucketId], s.windows[k].baseline;
            && k in t.windows
            && (t.windows[k].state == Confirmed <==>
                !w.lazyHint && (w.resetAt > b.resetAt + 2 * MINUTE || UsageReset(b, w)))
            && (t.windows[k].state != Confirmed ==> t.windows[k].state == RetryWait && t.windows[k].baseline == b)
  {
    ConfirmationTaken(p, s, tx, k);
  }

  /** With Antigravity, of every read whose reset is more than two minutes later, and of no other. */
  lemma AntigravityConfirmedIff(p: Params, s: PersistentState, tx: Tx, k: WindowKey)
    requires StateInv(p, s) && tx.VerifyAttempt? && Enabled(s, tx)
    requires k in s.attempts[tx.id].windowKeys && k in s.windows
    requires p.For(k.instance) == ANTIGRAVITY && k.bucketId in ByBucket(tx.windows)
    ensures var t, w := NextState(p, s, tx), ByBucket(tx.windows)[k.bucketId];
            && k in t.windows
            && (t.windows[k].state == Confirmed <==> w.resetAt > s.windows[k].baseline.resetAt + 2 * MINUTE)
            && (t.windows[k].state == Confirmed ==> Reports(t.windows[k].baseline, k, w))
  {
    ConfirmationTaken(p, s, tx, k);
  }

  // ----- waiting longer and longer -----

  /** A window on which every read from now on fails. */
  function AfterFailures(p: Params, x: WindowRecord, failures: seq<(Note, Time)>): WindowRecord {
    if failures == [] then x
    else
      var n := |failures| - 1;
      EditRecord(p, ReadFailed(failures[n].0, failures[n].1), AfterFailures(p, x, failures[..n]))
  }

  /** The n-th failure in a row waits as long as the n-th delay says; the last delay, or the interval, from then on. */
  lemma {:induction false} FailuresBackOff(p: Params, x: WindowRecord, failures: seq<(Note, Time)>)
    requires x.retryCount == 0 && failures != [] && p.cfg.maxRetries <= 0 && p.cfg.retryDelays != []
    ensures var y, n, last := AfterFailures(p, x, failures), |failures| - 1, |p.cfg.retryDelays| - 1;
            && y.retryCount == n + 1 && y.state == RetryWait && y.baseline == x.baseline
            && y.nextCheck == failures[n].1 + p.cfg.retryDelays[if n < last then n else last]
  {
    var n := |failures| - 1;
    if n > 0 { FailuresBackOff(p, x, failures[..n]); }
  }

  /** With a retry limit, failures past it wait the whole interval. */
  lemma {:induction false} FailuresGiveUp(p: Params, x: WindowRecord, failures: seq<(Note, Time)>)
    requires x.retryCount == 0 && 0 < p.cfg.maxRetries < |failures|
    ensures var y, n := AfterFailures(p, x, failures), |failures| - 1;
            y.retryCount == n + 1 && y.nextCheck == failures[n].1 + p.cfg.interval
  {
    FailuresCounted(p, x, failures[..|failures| - 1]);
  }

  lemma {:induction false} FailuresCounted(p: Params, x: WindowRecord, failures: seq<(Note, Time)>)
    ensures AfterFailures(p, x, failures).retryCount == x.retryCount + |failures|
  {
    if failures != [] { FailuresCounted(p, x, failures[..|failures| - 1]); }
  }
}
