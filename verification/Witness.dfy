/** Building runs event by event, as the controller does when every write succeeds. */
module Witness {
  import opened Wrappers
  import opened Model
  import opened Adapters
  import opened Normalize
  import opened Transactions
  import opened StateInvariant
  import opened Preservation
  import opened Files
  import opened Machine
  import opened Safety
  import opened Grouping
  import opened Effects
  import opened StoreModule
  import opened Traces
  import opened Steps
  import opened Lifecycle
  import opened Spacing

  function Saved(tx: Tx): Event { Committed(tx, Acknowledged(true)) }

  ghost predicate Alive(p: Params, run: seq<Event>) {
    p.cfg.Valid() && IsRun(p, run) && Exec(p, run).value.pc != Down
  }

  ghost function Reached(p: Params, run: seq<Event>): World
    requires Alive(p, run)
  {
    Exec(p, run).value
  }

  /** An allowed transaction can always end acknowledged. */
  lemma Continue(p: Params, run: seq<Event>, tx: Tx)
    requires Alive(p, run) && Allowed(p, Reached(p, run), tx) && Apply(p, Reached(p, run).mem, tx).Some?
    ensures Alive(p, run + [Saved(tx)]) && Ended(p, Reached(p, run), Reached(p, run + [Saved(tx)]), tx, Nil)
    ensures StateInv(p, Reached(p, run).mem) && StateInv(p, Reached(p, run + [Saved(tx)]).mem)
  {
    ExecSnoc(p, run, Saved(tx));
    ReachableStateIsGood(p, run);
    ReachableStateIsGood(p, run + [Saved(tx)]);
  }

  /** So can a read. */
  lemma Look(p: Params, run: seq<Event>, instance: InstanceKey, ws: seq<QuotaWindow>)
    requires Alive(p, run) && Normalized(ws)
    ensures Alive(p, run + [Observed(instance, ws)])
    ensures Reached(p, run + [Observed(instance, ws)])
         == Reached(p, run).(pc := Ready, seen := Some((instance, ws)), answer := None)
  {
    ExecSnoc(p, run, Observed(instance, ws));
  }

  /** So can a plan be obtained, or a wait end in its time. */
  lemma Pass(p: Params, run: seq<Event>, e: Event)
    requires Alive(p, run) && (e == Planned(None) || e == Waited(None))
    ensures Alive(p, run + [e]) && Reached(p, run + [e]) == Idle(Reached(p, run))
  {
    ExecSnoc(p, run, e);
  }

  // ----- what the sending of an attempt for one window leaves -----

  /** Only the window's record, its cycle and the attempt have changed, and no clearance. */
  ghost predicate Touches(w: World, v: World, k: WindowKey, id: AttemptId) {
    Frame(w.mem, v.mem, {k}, {id}) && v.cleared == w.cleared
  }

  /** The window's baseline stayed, and no other cycle of the window was fenced. */
  ghost predicate Still(s: PersistentState, t: PersistentState, k: WindowKey) {
    && k in s.windows && k in t.windows && t.windows[k].baseline == s.windows[k].baseline
    && forall c :: c in t.ledger && c.Window() == k ==> c in s.ledger || c == s.windows[k].baseline.cycleId
  }

  lemma StillStep(p: Params, s: PersistentState, tx: Tx, k: WindowKey)
    requires StateInv(p, s) && Enabled(s, tx) && Apply(p, s, tx).Some? && k in s.windows
    requires tx.Prepare? || tx.Fence? || tx.SendOutcome?
    ensures Still(s, NextState(p, s, tx), k)
  {
    BaselineMovesOnlyBy(p, s, tx, k);
    forall c | c in NextState(p, s, tx).ledger && c.Window() == k
               && c !in s.ledger ensures c == s.windows[k].baseline.cycleId {
      FencesPresentCycles(p, s, tx, c);
    }
  }

  lemma StillTransitive(s: PersistentState, t: PersistentState, u: PersistentState, k: WindowKey)
    requires Still(s, t, k) && Still(t, u, k)
    ensures Still(s, u, k)
  {
  }

  lemma TouchesTransitive(u: World, v: World, w: World, k: WindowKey, id: AttemptId)
    requires Touches(u, v, k, id) && Touches(v, w, k, id)
    ensures Touches(u, w, k, id)
  {
    FrameTransitive(u.mem, v.mem, w.mem, {k}, {id});
  }

  // ----- Prepare, Fence and Send -----

  ghost predicate ReadyFor(w: World, r: WindowRecord, a: ProbeAttempt) {
    && GroupReady(w.mem, w.cleared, r.key.instance, [r]) && r.state == LazyDetected
    && Targets(a, r.key.instance, [r]) && a.id !in w.mem.attempts
  }

  function SendEvents(a: ProbeAttempt, now: Time): seq<Event> {
    [Planned(None), Saved(Prepare(a)), Saved(Fence(a, now)), Dispatched(a, None)]
  }

  ghost predicate AtSending(s: PersistentState, a: ProbeAttempt, now: Time) {
    a.id in s.attempts && s.attempts[a.id] == a.(phase := Sending, sendingAt := now)
  }

  lemma FenceEffect(p: Params, s: PersistentState, a: ProbeAttempt, k: WindowKey, now: Time)
    requires StateInv(p, s) && Claimed(s, a) && a.windowKeys == [k]
    ensures Apply(p, s, Fence(a, now)).Some?
    ensures Frame(s, NextState(p, s, Fence(a, now)), {k}, {a.id}) && AtSending(NextState(p, s, Fence(a, now)), a, now)
  {
    assert KeySet(a.windowKeys) == {k};
    FenceFrame(p, s, a, now);
  }

  lemma FenceAllowed(p: Params, w: World, a: ProbeAttempt, now: Time)
    requires w.pc == Armed(a) && Claimed(w.mem, a) && now != ZERO_TIME
    ensures Allowed(p, w, Fence(a, now)) && Enabled(w.mem, Fence(a, now))
  {
  }

  lemma FenceLands(p: Params, w: World, v: World, a: ProbeAttempt, k: WindowKey, now: Time)
    requires StateInv(p, w.mem) && Claimed(w.mem, a) && a.windowKeys == [k] && Ended(p, w, v, Fence(a, now), Nil)
    ensures v.pc == Fenced(a) && Touches(w, v, k, a.id) && AtSending(v.mem, a, now) && FencedIn(v.mem, a)
  {
    FenceEffect(p, w.mem, a, k, now);
    FencedAfterFence(p, w.mem, a, now);
    assert w.cleared + map[] == w.cleared;
  }

  lemma FenceReady(p: Params, run: seq<Event>, k: WindowKey, a: ProbeAttempt, now: Time)
    requires Alive(p, run) && Reached(p, run).pc == Armed(a) && Claimed(Reached(p, run).mem, a) && a.windowKeys == [k]
             && now > 0
    ensures var t := run + [Saved(Fence(a, now))];
            && Alive(p, t) && Reached(p, t).pc == Fenced(a)
            && Touches(Reached(p, run), Reached(p, t), k, a.id) && AtSending(Reached(p, t).mem, a, now)
            && Still(Reached(p, run).mem, Reached(p, t).mem, k) && FencedIn(Reached(p, t).mem, a)
  {
    var w := Reached(p, run);
    ReachableStateIsGood(p, run);
    FenceEffect(p, w.mem, a, k, now);
    FenceAllowed(p, w, a, now);
    Continue(p, run, Fence(a, now));
    FenceLands(p, w, Reached(p, run + [Saved(Fence(a, now))]), a, k, now);
    ClaimedWindow(w.mem, a, k);
    StillStep(p, w.mem, Fence(a, now), k);
  }

  lemma ClaimedWindow(s: PersistentState, a: ProbeAttempt, k: WindowKey)
    requires Claimed(s, a) && a.windowKeys == [k]
    ensures k in s.windows
  {
    assert a.windowKeys[0] == k;
  }

  lemma PrepareReady(p: Params, run: seq<Event>, r: WindowRecord, a: ProbeAttempt)
    requires Alive(p, run) && !p.cfg.dryRun && ReadyFor(Reached(p, run), r, a)
    ensures var t := run + [Saved(Prepare(a))];
            && Alive(p, t) && Reached(p, t).pc == Armed(a) && Claimed(Reached(p, t).mem, a) && a.windowKeys == [r.key]
            && Touches(Reached(p, run), Reached(p, t), r.key, a.id)
            && Still(Reached(p, run).mem, Reached(p, t).mem, r.key)
  {
    var w := Reached(p, run);
    ReachableStateIsGood(p, run);
    assert a.windowKeys == [r.key];
    assert KeySet(a.windowKeys) == {r.key};
    TargetsMayBePrepared(p, w, r.key.instance, [r], a);
    Continue(p, run, Prepare(a));
    PrepareEffect(p, w, Reached(p, run + [Saved(Prepare(a))]), a, Nil);
    ReadyWindow(w, r, a);
    StillStep(p, w.mem, Prepare(a), r.key);
  }

  lemma ReadyWindow(w: World, r: WindowRecord, a: ProbeAttempt)
    requires ReadyFor(w, r, a)
    ensures r.key in w.mem.windows && w.mem.windows[r.key] == r
  {
    assert r in [r];
    assert Candidate(w.mem, w.cleared, r.key.instance, r);
  }

  /** From a ready group to its send. */
  lemma SendReady(p: Params, run: seq<Event>, r: WindowRecord, a: ProbeAttempt, now: Time)
    requires Alive(p, run) && !p.cfg.dryRun && ReadyFor(Reached(p, run), r, a) && now > 0
    ensures var t := run + SendEvents(a, now);
            && a.windowKeys == [r.key] && Alive(p, t)
            && Touches(Reached(p, run), Reached(p, t), r.key, a.id) && AtSending(Reached(p, t).mem, a, now)
            && Still(Reached(p, run).mem, Reached(p, t).mem, r.key) && FencedIn(Reached(p, t).mem, a)
            && Reached(p, t).answer == Some((a.id, None))
  {
    Pass(p, run, Planned(None));
    SendPlanned(p, run + [Planned(None)], r, a, now);
    assert run + SendEvents(a, now)
        == run + [Planned(None)] + [Saved(Prepare(a))] + [Saved(Fence(a, now))] + [Dispatched(a, None)];
  }

  lemma SendPlanned(p: Params, run: seq<Event>, r: WindowRecord, a: ProbeAttempt, now: Time)
    requires Alive(p, run) && !p.cfg.dryRun && ReadyFor(Reached(p, run), r, a) && now > 0
    ensures var t := run + [Saved(Prepare(a))] + [Saved(Fence(a, now))] + [Dispatched(a, None)];
            && a.windowKeys == [r.key] && Alive(p, t)
            && Touches(Reached(p, run), Reached(p, t), r.key, a.id) && AtSending(Reached(p, t).mem, a, now)
            && Still(Reached(p, run).mem, Reached(p, t).mem, r.key) && FencedIn(Reached(p, t).mem, a)
            && Reached(p, t).answer == Some((a.id, None))
  {
    FenceUp(p, run, r, a, now);
    SendOut(p, run + [Saved(Prepare(a))] + [Saved(Fence(a, now))], a);
  }

  lemma SendOut(p: Params, run: seq<Event>, a: ProbeAttempt)
    requires Alive(p, run) && Reached(p, run).pc == Fenced(a)
    ensures Alive(p, run + [Dispatched(a, None)])
    ensures Reached(p, run + [Dispatched(a, None)])
         == Reached(p, run).(pc := Ready, seen := None, answer := Some((a.id, None)))
  {
    ExecSnoc(p, run, Dispatched(a, None));
  }

  lemma FenceUp(p: Params, run: seq<Event>, r: WindowRecord, a: ProbeAttempt, now: Time)
    requires Alive(p, run) && !p.cfg.dryRun && ReadyFor(Reached(p, run), r, a) && now > 0
    ensures var t := run + [Saved(Prepare(a))] + [Saved(Fence(a, now))];
            && a.windowKeys == [r.key] && Alive(p, t) && Reached(p, t).pc == Fenced(a)
            && Touches(Reached(p, run), Reached(p, t), r.key, a.id) && AtSending(Reached(p, t).mem, a, now)
            && Still(Reached(p, run).mem, Reached(p, t).mem, r.key) && FencedIn(Reached(p, t).mem, a)
  {
    PrepareReady(p, run, r, a);
    var t1 := run + [Saved(Prepare(a))];
    FenceReady(p, t1, r.key, a, now);
    var t2 := t1 + [Saved(Fence(a, now))];
    TouchesTransitive(Reached(p, run), Reached(p, t1), Reached(p, t2), r.key, a.id);
    StillTransitive(Reached(p, run).mem, Reached(p, t1).mem, Reached(p, t2).mem, r.key);
  }

  lemma SendTrace(run: seq<Event>, a: ProbeAttempt, now: Time)
    ensures DirectOf(run, run + SendEvents(a, now), 3, a)
  {
  }

  // ----- the outcome and the verification -----

  function Outcome(a: ProbeAttempt, now: Time): Tx { SendOutcome(a.id, AttemptPhase.Sent, ResultSent, now, None, now) }

  /** Marked sent at `now`, waited for, read, and verified at `later`. */
  function SettleEvents(a: ProbeAttempt, ws: seq<QuotaWindow>, now: Time, later: Time): seq<Event> {
    [Saved(Outcome(a, now)), Waited(None), Observed(a.instanceKey, ws), Saved(VerifyAttempt(a.id, ws, later))]
  }

  lemma SettleTrace(run: seq<Event>, a: ProbeAttempt, ws: seq<QuotaWindow>, now: Time, later: Time)
    ensures Plain(run, run + SettleEvents(a, ws, now, later))
  {
  }

  lemma MarkReady(p: Params, run: seq<Event>, k: WindowKey, a: ProbeAttempt, now: Time)
    requires Alive(p, run) && a.windowKeys == [k] && AtSending(Reached(p, run).mem, a, now)
             && k in Reached(p, run).mem.windows && Reached(p, run).answer == Some((a.id, None)) && now > 0
    ensures var t := run + [Saved(Outcome(a, now))];
            && Alive(p, t) && Touches(Reached(p, run), Reached(p, t), k, a.id)
            && Still(Reached(p, run).mem, Reached(p, t).mem, k)
            && SameTarget(Reached(p, run).mem, Reached(p, t).mem, a.id)
            && Reached(p, t).mem.attempts[a.id].phase == AttemptPhase.Sent
  {
    assert KeySet(a.windowKeys) == {k};
    Continue(p, run, Outcome(a, now));
    OutcomeEffect(p, Reached(p, run), Reached(p, run + [Saved(Outcome(a, now))]), Outcome(a, now), Nil);
    StillStep(p, Reached(p, run).mem, Outcome(a, now), k);
  }

  /** A confirming verification puts the reset it read in the baseline. */
  ghost predicate VerifiedBy(p: Params, s: PersistentState, t: PersistentState, k: WindowKey, ws: seq<QuotaWindow>) {
    k in s.windows && k in t.windows && k.bucketId in ByBucket(ws)
    && (p.For(k.instance).verify(s.windows[k].baseline, ByBucket(ws)[k.bucketId]).confirmed ==>
          && t.windows[k].baseline == BaselineFrom(k.instance, ByBucket(ws)[k.bucketId])
          && t.windows[k].state == Confirmed)
    && t.ledger.Keys == s.ledger.Keys
  }

  lemma VerifiedWindow(p: Params, s: PersistentState, id: AttemptId, ws: seq<QuotaWindow>, now: Time, k: WindowKey)
    requires id in s.attempts && k in s.attempts[id].windowKeys && k in s.windows && WindowOk(k, s.windows[k])
    requires k.bucketId in ByBucket(ws)
    ensures VerifiedBy(p, s, NextState(p, s, VerifyAttempt(id, ws, now)), k, ws)
  {
  }

  lemma VerifyReady(p: Params, run: seq<Event>, k: WindowKey, id: AttemptId, ws: seq<QuotaWindow>, later: Time)
    requires Alive(p, run) && Normalized(ws) && id in Reached(p, run).mem.attempts && later > 0
    requires var a := Reached(p, run).mem.attempts[id];
             a.windowKeys == [k] && a.phase == AttemptPhase.Sent && Reached(p, run).seen == Some((a.instanceKey, ws))
    ensures var t := run + [Saved(VerifyAttempt(id, ws, later))];
            && Alive(p, t) && Touches(Reached(p, run), Reached(p, t), k, id)
            && (k.bucketId in ByBucket(ws) ==> VerifiedBy(p, Reached(p, run).mem, Reached(p, t).mem, k, ws))
  {
    var s, tx := Reached(p, run).mem, VerifyAttempt(id, ws, later);
    assert KeySet(s.attempts[id].windowKeys) == {k};
    Continue(p, run, tx);
    StepFrame(p, Reached(p, run), Reached(p, run + [Saved(tx)]), tx, Nil);
    VerifyEffect(p, Reached(p, run), Reached(p, run + [Saved(tx)]), tx, Nil);
    AttemptWindow(p, s, id, k);
    if k.bucketId in ByBucket(ws) { VerifiedWindow(p, s, id, ws, later, k); }
  }

  lemma AttemptWindow(p: Params, s: PersistentState, id: AttemptId, k: WindowKey)
    requires StateInv(p, s) && id in s.attempts && s.attempts[id].windowKeys == [k]
    ensures k in s.attempts[id].windowKeys && k in s.windows && WindowOk(k, s.windows[k])
  {
    assert AttemptOk(s.windows, id, s.attempts[id]);
    assert s.attempts[id].windowKeys[0] == k;
  }

  /** The attempt is marked sent and verified by a read, whatever that read says. */
  lemma SettleReady(p: Params, run: seq<Event>, k: WindowKey, a: ProbeAttempt, ws: seq<QuotaWindow>, now: Time,
                    later: Time)
    requires Alive(p, run) && Normalized(ws) && a.windowKeys == [k] && AtSending(Reached(p, run).mem, a, now)
             && now > 0 && later > 0
    requires k in Reached(p, run).mem.windows && Reached(p, run).answer == Some((a.id, None))
    ensures var t := run + SettleEvents(a, ws, now, later);
            && Alive(p, t) && Touches(Reached(p, run), Reached(p, t), k, a.id)
            && (k.bucketId in ByBucket(ws) ==> SettledBy(p, Reached(p, run).mem, Reached(p, t).mem, k, ws))
  {
    MarkReady(p, run, k, a, now);
    var t1 := run + [Saved(Outcome(a, now))];
    WaitAndLook(p, t1, a.instanceKey, ws);
    var t2 := t1 + [Waited(None)] + [Observed(a.instanceKey, ws)];
    VerifyReady(p, t2, k, a.id, ws, later);
    var t3 := t2 + [Saved(VerifyAttempt(a.id, ws, later))];
    TouchesTransitive(Reached(p, run), Reached(p, t1), Reached(p, t3), k, a.id);
    assert run + SettleEvents(a, ws, now, later) == t3;
  }

  lemma WaitAndLook(p: Params, run: seq<Event>, instance: InstanceKey, ws: seq<QuotaWindow>)
    requires Alive(p, run) && Normalized(ws)
    ensures var t := run + [Waited(None)] + [Observed(instance, ws)];
            && Alive(p, t)
            && Reached(p, t) == Reached(p, run).(pc := Ready, seen := Some((instance, ws)), answer := None)
  {
    Pass(p, run, Waited(None));
    Look(p, run + [Waited(None)], instance, ws);
  }

  /**
   Marked and verified: the baseline is judged as it was before, and no cycle of the window is fenced that was not.
   */
  ghost predicate SettledBy(p: Params, s: PersistentState, t: PersistentState, k: WindowKey, ws: seq<QuotaWindow>) {
    exists m :: Still(s, m, k) && VerifiedBy(p, m, t, k, ws)
  }

  /** Sent for, marked and verified. */
  lemma SendAndSettle(p: Params, run: seq<Event>, r: WindowRecord, a: ProbeAttempt, ws: seq<QuotaWindow>, now: Time,
                      later: Time)
    requires Alive(p, run) && !p.cfg.dryRun && ReadyFor(Reached(p, run), r, a) && Normalized(ws) && now > 0 && later > 0
    ensures var u := run + SendEvents(a, now) + SettleEvents(a, ws, now, later);
            && Alive(p, u) && Touches(Reached(p, run), Reached(p, u), r.key, a.id)
            && (r.key.bucketId in ByBucket(ws) ==> SettledBy(p, Reached(p, run).mem, Reached(p, u).mem, r.key, ws))
  {
    SendReady(p, run, r, a, now);
    var t := run + SendEvents(a, now);
    SettleReady(p, t, r.key, a, ws, now, later);
    var u := t + SettleEvents(a, ws, now, later);
    TouchesTransitive(Reached(p, run), Reached(p, t), Reached(p, u), r.key, a.id);
    if r.key.bucketId in ByBucket(ws) {
      SettledSince(p, Reached(p, run).mem, Reached(p, t).mem, Reached(p, u).mem, r.key, ws);
    }
  }

  lemma SettledSince(p: Params, s: PersistentState, t: PersistentState, u: PersistentState, k: WindowKey,
                     ws: seq<QuotaWindow>)
    requires Still(s, t, k) && SettledBy(p, t, u, k, ws)
    ensures SettledBy(p, s, u, k, ws)
  {
    var m :| Still(t, m, k) && VerifiedBy(p, m, u, k, ws);
    StillTransitive(s, t, m, k);
  }

  lemma SendTraceFor(run: seq<Event>, r: WindowRecord, a: ProbeAttempt, now: Time, instance: InstanceKey)
    requires Targets(a, instance, [r])
    ensures Direct(run, run + SendEvents(a, now), 3, instance, [r])
  {
    SendTrace(run, a, now);
    TargetsCover(a, instance, [r]);
    DirectFor(run, run + SendEvents(a, now), 3, a, [r]);
  }

  lemma SettleTraceFor(run: seq<Event>, r: WindowRecord, a: ProbeAttempt, ws: seq<QuotaWindow>, now: Time,
                       later: Time, instance: InstanceKey)
    requires Targets(a, instance, [r])
    ensures Direct(run, run + SendEvents(a, now) + SettleEvents(a, ws, now, later), 3, instance, [r])
  {
    var t := run + SendEvents(a, now);
    var u := t + SettleEvents(a, ws, now, later);
    SendTrace(run, a, now);
    SettleTrace(t, a, ws, now, later);
    DirectThenPlain(run, t, u, 3, a);
    TargetsCover(a, instance, [r]);
    DirectFor(run, u, 3, a, [r]);
  }

  lemma StaysReady(p: Params, w: World, v: World, r: WindowRecord, a: ProbeAttempt, k: WindowKey, id: AttemptId)
    requires StateInv(p, w.mem) && ReadyFor(w, r, a) && Touches(w, v, k, id)
    requires r.key != k && a.id != id
    ensures ReadyFor(v, r, a)
  {
    CandidatesKept(w.mem, v.mem, {k}, {id}, w.cleared, v.cleared, r.key.instance, [r]);
  }

  // ----- how a Tick begins -----

  function ObserveEvents(cred: Credential, instance: InstanceKey, ws: seq<QuotaWindow>, now: Time): seq<Event> {
    [Saved(RetireReplaced(cred.authId, instance)), Observed(instance, ws), Saved(Reconcile(cred, instance, ws, now))]
  }

  ghost predicate AllOf(s: PersistentState, instance: InstanceKey) {
    forall k :: k in s.windows ==> k.instance == instance
  }

  lemma RetireNone(p: Params, s: PersistentState, authId: string, instance: InstanceKey)
    requires WindowsOk(s.windows) && AllOf(s, instance)
    ensures Apply(p, s, RetireReplaced(authId, instance)) == Some(s)
  {
    forall k | k in s.windows ensures s.windows[k].instanceKey == instance { assert WindowOk(k, s.windows[k]); }
    assert TouchedWhere(p, s.windows, ReplacedBy(authId, instance), Retire) == s.windows;
  }

  lemma RetireTick(p: Params, run: seq<Event>, authId: string, instance: InstanceKey)
    requires Alive(p, run) && AllOf(Reached(p, run).mem, instance)
    ensures var t := run + [Saved(RetireReplaced(authId, instance))];
            && Alive(p, t) && Reached(p, t).mem == Stamp(Reached(p, run).mem)
            && Reached(p, t).cleared == map[] && StateInv(p, Reached(p, t).mem)
  {
    ReachableStateIsGood(p, run);
    RetireNone(p, Reached(p, run).mem, authId, instance);
    Continue(p, run, RetireReplaced(authId, instance));
  }

  lemma ReconcileAllowed(p: Params, w: World, tx: Tx)
    requires tx.Reconcile? && Normalized(tx.windows) && w.seen == Some((tx.instance, tx.windows))
    ensures Allowed(p, w, tx) && Apply(p, w.mem, tx).Some?
  {
  }

  lemma ReconcileClears(p: Params, w: World, v: World, tx: Tx)
    requires tx.Reconcile? && w.cleared == map[] && Ended(p, w, v, tx, Nil)
    ensures v.cleared == Clears(p, w.mem, tx)
  {
    var c := Clears(p, w.mem, tx);
    assert map[] + c == c;
  }

  lemma ReconcileTick(p: Params, run: seq<Event>, tx: Tx)
    requires Alive(p, run) && tx.Reconcile? && Normalized(tx.windows) && Reached(p, run).cleared == map[]
    requires Reached(p, run).seen == Some((tx.instance, tx.windows))
    ensures var t := run + [Saved(tx)];
            && Alive(p, t) && Reached(p, t).mem == NextState(p, Reached(p, run).mem, tx)
            && Reached(p, t).cleared == Clears(p, Reached(p, run).mem, tx)
  {
    ReconcileAllowed(p, Reached(p, run), tx);
    Continue(p, run, tx);
    ReconcileClears(p, Reached(p, run), Reached(p, run + [Saved(tx)]), tx);
  }

  /** The read and its reconciliation, where no other identity is to be retired. */
  lemma ObserveTick(p: Params, run: seq<Event>, cred: Credential, instance: InstanceKey, ws: seq<QuotaWindow>,
                    now: Time)
    requires Alive(p, run) && Normalized(ws) && AllOf(Reached(p, run).mem, instance)
    ensures var t, s := run + ObserveEvents(cred, instance, ws, now), Stamp(Reached(p, run).mem);
            && Alive(p, t) && StateInv(p, s)
            && Reached(p, t).mem == NextState(p, s, Reconcile(cred, instance, ws, now))
            && Reached(p, t).cleared == Clears(p, s, Reconcile(cred, instance, ws, now))
            && IsRun(p, t[..|t| - 1]) && Exec(p, t[..|t| - 1]).value.mem == s
  {
    RetireTick(p, run, cred.authId, instance);
    var t1 := run + [Saved(RetireReplaced(cred.authId, instance))];
    Look(p, t1, instance, ws);
    var t2 := t1 + [Observed(instance, ws)];
    ReconcileTick(p, t2, Reconcile(cred, instance, ws, now));
    var t := run + ObserveEvents(cred, instance, ws, now);
    assert t == t2 + [Saved(Reconcile(cred, instance, ws, now))];
    assert t[..|t| - 1] == t2;
  }

  /** It is the beginning of a Tick with the groups it forms. */
  lemma ObserveGroups(p: Params, run: seq<Event>, cred: Credential, instance: InstanceKey, ws: seq<QuotaWindow>,
                      now: Time,
                      groups: seq<seq<WindowRecord>>, names: seq<string>)
    requires Alive(p, run) && Normalized(ws) && AllOf(Reached(p, run).mem, instance)
    requires ListsGroups(groups, names, Grouped(Joining(p, Stamp(Reached(p, run).mem), cred, instance, ws, now)))
    ensures var t := run + ObserveEvents(cred, instance, ws, now);
            GroupedNow(p, run, t, cred, instance, groups, names) && StartsJudged(t)
  {
    ObserveTick(p, run, cred, instance, ws, now);
  }

  /** A joining record is ready for an attempt of its own if it was found lazy at once. */
  lemma JoinedIsReady(p: Params, run: seq<Event>, cred: Credential, instance: InstanceKey, ws: seq<QuotaWindow>,
                      now: Time, r: WindowRecord)
    requires Alive(p, run) && Normalized(ws) && AllOf(Reached(p, run).mem, instance) && now > 0
    requires r in Joining(p, Stamp(Reached(p, run).mem), cred, instance, ws, now)
    ensures var t := run + ObserveEvents(cred, instance, ws, now);
            Alive(p, t) && GroupReady(Reached(p, t).mem, Reached(p, t).cleared, instance, [r])
  {
    ObserveTick(p, run, cred, instance, ws, now);
    var w := Reached(p, run + ObserveEvents(cred, instance, ws, now));
    ReconcileYieldsCandidates(p, Stamp(Reached(p, run).mem), cred, instance, ws, now, w.cleared);
    ReadyOne(w.mem, w.cleared, instance, Joining(p, Stamp(Reached(p, run).mem), cred, instance, ws, now), r);
  }

  lemma ReadyOne(s: PersistentState, cleared: map<WindowKey, CycleId>, instance: InstanceKey, rs: seq<WindowRecord>,
                 r: WindowRecord)
    requires GroupReady(s, cleared, instance, rs) && r in rs
    ensures GroupReady(s, cleared, instance, [r])
  {
  }

  /** The first event of every run. */
  lemma Start(p: Params)
    requires p.cfg.Valid()
    ensures Alive(p, [Restarted]) && Reached(p, [Restarted]).mem == EmptyState()
  {
    ExecSnoc(p, [], Restarted);
    assert [] + [Restarted] == [Restarted];
    assert Load(NoFiles()) == Ok(EmptyState());
  }

  // ----- runs made of Ticks -----

  /** The run starts the process and is, from then on, one Tick after another of the instance, cut at `cuts`. */
  ghost predicate TickRun(p: Params, run: seq<Event>, cred: Credential, instance: InstanceKey, cuts: seq<nat>) {
    && |cuts| > 0 && cuts[0] == 1 && 1 <= |run| && run[0] == Restarted && cuts[|cuts| - 1] == |run|
    && (forall n :: 0 <= n < |cuts| ==> cuts[n] <= |run|)
    && forall n :: 0 < n < |cuts| ==> TickTrace(p, run[..cuts[n - 1]], run[..cuts[n]], cred, instance)
  }

  lemma StartTickRun(p: Params, cred: Credential, instance: InstanceKey)
    ensures TickRun(p, [Restarted], cred, instance, [1])
  {
  }

  lemma OneMoreTick(p: Params, run: seq<Event>, u: seq<Event>, cred: Credential, instance: InstanceKey, cuts: seq<nat>)
    requires TickRun(p, run, cred, instance, cuts) && run <= u && TickTrace(p, run, u, cred, instance)
    ensures TickRun(p, u, cred, instance, cuts + [|u|])
  {
    var all := cuts + [|u|];
    forall n | 0 < n < |all| ensures TickTrace(p, u[..all[n - 1]], u[..all[n]], cred, instance) {
      if n < |cuts| {
        assert u[..cuts[n - 1]] == run[..cuts[n - 1]] && u[..cuts[n]] == run[..cuts[n]];
      } else {
        assert u[..|run|] == run && run[..|run|] == run && u[..|u|] == u;
      }
    }
  }
}
