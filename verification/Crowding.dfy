/**
 The converse of the spacing theorem. From any confirming read that moves a capable window's reset, but not past the
 skew, there is a run that sends for the window twice with resets no more than the skew apart.
 */
module Crowding {
  import opened Wrappers
  import opened Model
  import opened Adapters
  import opened Normalize
  import opened Transactions
  import opened StateInvariant
  import opened Preservation
  import opened Files
  import opened Machine
  import opened Safety
  import opened Grouping
  import opened Effects
  import opened Loops
  import opened Traces
  import opened Steps
  import opened Spacing
  import opened Witness

  /** The window as it is reported once it is in use, with another reset. */
  function Moved(w: QuotaWindow, resetAt: Time): QuotaWindow { w.(resetAt := resetAt, lazyHint := false) }

  /** The adapter finds the window capable, wherever its reset is. */
  ghost predicate Able(p: Params, instance: InstanceKey, cred: Credential, w: QuotaWindow) {
    && w.Valid() && w.resetAt > 0
    && p.For(instance).Can(w) && p.For(instance).Can(Attributed(cred, w))
    && forall r: Time :: p.For(instance).Can(Moved(w, r)) && p.For(instance).Can(Attributed(cred, Moved(w, r)))
  }

  function KeyOf(instance: InstanceKey, w: QuotaWindow): WindowKey { WindowKey(instance, w.bucketId) }

  function CycleOf(instance: InstanceKey, w: QuotaWindow): CycleId { CycleId(instance, w.bucketId, w.resetAt) }

  // ----- observing one window -----

  lemma OneIsNormalized(w: QuotaWindow)
    requires w.Valid()
    ensures Normalized([w]) && w.bucketId in ByBucket([w]) && ByBucket([w])[w.bucketId] == w
  {
    assert [w][..0] == [];
    assert ByBucket([]) == map[];
  }

  lemma JoinOne(p: Params, s: PersistentState, cred: Credential, instance: InstanceKey, now: Time, w: QuotaWindow)
    ensures var v := Reconciled(p, s, cred, instance, now, w);
            && Joining(p, s, cred, instance, [w], now) == (if v.joins then [v.record] else [])
            && (v.joins ==>
                  ListsGroups([[v.record]], [v.record.latest.GroupName()],
                              Grouped(Joining(p, s, cred, instance, [w], now))))
  {
    assert [] + [w] == [w];
    assert Joining(p, s, cred, instance, [], now) == [];
    JoiningSnoc(p, s, cred, instance, [], now, w);
    var v := Reconciled(p, s, cred, instance, now, w);
    if v.joins {
      GroupedSnoc([], v.record);
      assert [] + [v.record] == [v.record];
    }
  }

  /** What the table holds when nothing but that window is known or seen. */
  lemma ObservedAlone(p: Params, s: PersistentState, cred: Credential, instance: InstanceKey, now: Time, w: QuotaWindow)
    requires StateInv(p, s) && w.Valid() && s.windows.Keys <= {KeyOf(instance, w)}
    ensures var t := NextState(p, s, Reconcile(cred, instance, [w], now));
            && t.windows.Keys == {KeyOf(instance, w)}
            && t.windows[KeyOf(instance, w)] == Reconciled(p, s, cred, instance, now, w).record
            && t.ledger == s.ledger && t.attempts == s.attempts
  {
    OneIsNormalized(w);
    var t := NextState(p, s, Reconcile(cred, instance, [w], now));
    forall k ensures k in t.windows <==> k == KeyOf(instance, w) {
      ReconciledTable(p, s, cred, instance, [w], now, k);
      assert w in [w];
    }
    ReconciledTable(p, s, cred, instance, [w], now, KeyOf(instance, w));
    assert [w][0] == w;
  }

  // ----- the first send, after a precheck -----

  function FirstRecord(p: Params, cred: Credential, instance: InstanceKey, w: QuotaWindow, now: Time): WindowRecord {
    FirstObservation(p, cred, instance, now, Attributed(cred, w)).record
  }

  lemma FirstJoins(p: Params, s: PersistentState, cred: Credential, instance: InstanceKey, w: QuotaWindow, now: Time)
    requires Able(p, instance, cred, w) && now >= w.resetAt + p.cfg.resetGrace && KeyOf(instance, w) !in s.windows
    ensures Reconciled(p, s, cred, instance, now, w) == Verdict(FirstRecord(p, cred, instance, w, now), true)
    ensures var r := FirstRecord(p, cred, instance, w, now);
            && r.state == PendingPrecheck && r.key == KeyOf(instance, w) && r.baseline == BaselineFrom(instance, w)
            && r.bucketId == w.bucketId && r.instanceKey == instance && r.activationGroup == w.activationGroup
  {
  }

  /** The record once the second read agrees with the first. */
  function CheckedRecord(p: Params, cred: Credential, instance: InstanceKey, w: QuotaWindow, now: Time): WindowRecord {
    EditRecord(p, Precheck(ByBucket([w]), now), FirstRecord(p, cred, instance, w, now))
  }

  lemma CheckedIsLazy(p: Params, s: PersistentState, cred: Credential, instance: InstanceKey, w: QuotaWindow, now: Time)
    requires p.cfg.Valid() && Able(p, instance, cred, w) && now >= w.resetAt + p.cfg.resetGrace
             && KeyOf(instance, w) !in s.windows
    ensures var y := CheckedRecord(p, cred, instance, w, now);
            y.state == LazyDetected && y.key == KeyOf(instance, w) && y.baseline == BaselineFrom(instance, w)
  {
    FirstJoins(p, s, cred, instance, w, now);
    OneIsNormalized(w);
  }

  function PrecheckEvents(instance: InstanceKey, w: QuotaWindow, now: Time): seq<Event> {
    [Observed(instance, [w]), Saved(PrecheckGroup(instance, [KeyOf(instance, w)], [w], now))]
  }

  lemma PrecheckAllowed(p: Params, w: World, tx: Tx, instance: InstanceKey, rs: seq<WindowRecord>)
    requires tx.PrecheckGroup? && tx.instance == instance && tx.keys == KeysOf(rs) && Normalized(tx.windows)
    requires GroupReady(w.mem, w.cleared, instance, rs) && w.seen == Some((instance, tx.windows))
    ensures Allowed(p, w, tx) && Apply(p, w.mem, tx).Some?
  {
    CandidatesSelectable(w.mem, w.cleared, instance, rs);
  }

  /** A group of one record, prechecked by a read that leaves it lazy. */
  lemma PrecheckOne(p: Params, run: seq<Event>, instance: InstanceKey, w: QuotaWindow, now: Time, r: WindowRecord,
                    y: WindowRecord)
    requires Alive(p, run) && w.Valid() && now > 0 && r.key == KeyOf(instance, w)
    requires GroupReady(Reached(p, run).mem, Reached(p, run).cleared, instance, [r])
    requires y == EditRecord(p, Precheck(ByBucket([w]), now), r) && y.state == LazyDetected
    ensures var t := run + PrecheckEvents(instance, w, now);
            && Alive(p, t) && GroupReady(Reached(p, t).mem, Reached(p, t).cleared, instance, [y])
            && Frame(Reached(p, run).mem, Reached(p, t).mem, {r.key}, {})
  {
    var ws, tx := [w], PrecheckGroup(instance, [r.key], [w], now);
    var v := Reached(p, run);
    OneIsNormalized(w);
    ReachableStateIsGood(p, run);
    Look(p, run, instance, ws);
    var t1 := run + [Observed(instance, ws)];
    assert KeysOf([r]) == [r.key];
    PrecheckAllowed(p, Reached(p, t1), tx, instance, [r]);
    Continue(p, t1, tx);
    var t := t1 + [Saved(tx)];
    assert run + PrecheckEvents(instance, w, now) == t;
    PrecheckLands(p, v, Reached(p, t), instance, w, now, r, y);
  }

  lemma PrecheckLands(p: Params, v: World, u: World, instance: InstanceKey, w: QuotaWindow, now: Time,
                      r: WindowRecord, y: WindowRecord)
    requires p.cfg.Valid() && StateInv(p, v.mem) && now > 0 && r.key == KeyOf(instance, w) && Normalized([w])
    requires GroupReady(v.mem, v.cleared, instance, [r])
    requires y == EditRecord(p, Precheck(ByBucket([w]), now), r) && y.state == LazyDetected
    requires Apply(p, v.mem, PrecheckGroup(instance, [r.key], [w], now)).Some?
    requires u.mem == NextState(p, v.mem, PrecheckGroup(instance, [r.key], [w], now))
    requires u.cleared == v.cleared + Clears(p, v.mem, PrecheckGroup(instance, [r.key], [w], now))
    ensures GroupReady(u.mem, u.cleared, instance, [y]) && Frame(v.mem, u.mem, {r.key}, {})
  {
    var tx := PrecheckGroup(instance, [r.key], [w], now);
    assert KeysOf([r]) == [r.key] && KeySet([r.key]) == {r.key};
    assert r in [r] && Candidate(v.mem, v.cleared, instance, r);
    GroupFrame(p, v.mem, tx);
    PrecheckYieldsCandidates(p, v.mem, v.cleared, instance, [r], [w], now);
    ConfirmedOne(p, v.mem.windows, r, Precheck(ByBucket([w]), now), y);
  }

  lemma ConfirmedOne(p: Params, ws: map<WindowKey, WindowRecord>, r: WindowRecord, e: Edit, y: WindowRecord)
    requires r.key in ws && ws[r.key] == r && y == EditRecord(p, e, r) && y.state == LazyDetected
    ensures ConfirmedBy(p, ws, [r], e) == [y]
  {
    assert EditedOf(p, ws, [r], e) == [] + [y];
    LazySnoc([], y);
  }

  // ----- what is known of the one window between Ticks -----

  ghost predicate Alone(s: PersistentState, k: WindowKey, b: Baseline, c: CycleId) {
    && s.windows.Keys == {k} && s.windows[k].baseline == b && s.windows[k].state != WaitingReset
    && (forall d :: d in s.ledger && d.Window() == k ==> d == c)
    && (forall id :: id in s.attempts ==> id == 0)
  }

  function AttemptAt(p: Params, id: AttemptId, cred: Credential, w: QuotaWindow, r: WindowRecord,
                     now: Time): ProbeAttempt
  {
    AttemptOf(p, id, cred, r.key.instance, cred.provider, w.activationGroup, KeysOf([r]), CyclesOf([r]), now)
  }

  function FirstTickEvents(p: Params, cred: Credential, instance: InstanceKey, w: QuotaWindow, v: QuotaWindow,
                           a: ProbeAttempt, now: Time): seq<Event>
  {
    ObserveEvents(cred, instance, [w], now) + PrecheckEvents(instance, w, now)
    + SendEvents(a, now) + SettleEvents(a, [v], now, now + p.cfg.verifyDelay)
  }

  /** The attempt of the first Tick. */
  function FirstAttempt(p: Params, cred: Credential, instance: InstanceKey, w: QuotaWindow, now: Time): ProbeAttempt {
    AttemptAt(p, 0, cred, w, CheckedRecord(p, cred, instance, w, now), now)
  }

  function FirstTickRun(p: Params, cred: Credential, instance: InstanceKey, w: QuotaWindow, v: QuotaWindow,
                        now: Time): seq<Event>
  {
    [Restarted] + FirstTickEvents(p, cred, instance, w, v, FirstAttempt(p, cred, instance, w, now), now)
  }

  /** The first Tick, up to its precheck. */
  lemma FirstTickBegins(p: Params, cred: Credential, instance: InstanceKey, w: QuotaWindow, now: Time)
    requires p.cfg.Valid() && Able(p, instance, cred, w) && now >= w.resetAt + p.cfg.resetGrace && now > 0
    ensures var t := [Restarted] + ObserveEvents(cred, instance, [w], now);
            var r := FirstRecord(p, cred, instance, w, now);
            && Alive(p, [Restarted]) && Alive(p, t)
            && GroupReady(Reached(p, t).mem, Reached(p, t).cleared, instance, [r])
            && GroupedNow(p, [Restarted], t, cred, instance, [[r]], [r.latest.GroupName()]) && StartsJudged(t)
            && Reached(p, t).mem.windows.Keys == {KeyOf(instance, w)}
            && Reached(p, t).mem.ledger == map[] && Reached(p, t).mem.attempts == map[]
  {
    var s, r := Stamp(EmptyState()), FirstRecord(p, cred, instance, w, now);
    Start(p);
    OneIsNormalized(w);
    ObserveTick(p, [Restarted], cred, instance, [w], now);
    FirstJoins(p, s, cred, instance, w, now);
    JoinOne(p, s, cred, instance, now, w);
    assert r in [r];
    JoinedIsReady(p, [Restarted], cred, instance, [w], now, r);
    ObserveGroups(p, [Restarted], cred, instance, [w], now, [[r]], [r.latest.GroupName()]);
    ObservedAlone(p, s, cred, instance, now, w);
  }

  lemma FirstTickChecked(p: Params, cred: Credential, instance: InstanceKey, w: QuotaWindow, now: Time)
    requires p.cfg.Valid() && Able(p, instance, cred, w) && now >= w.resetAt + p.cfg.resetGrace && now > 0
    ensures var t := [Restarted] + ObserveEvents(cred, instance, [w], now) + PrecheckEvents(instance, w, now);
            var y := CheckedRecord(p, cred, instance, w, now);
            && Alive(p, t) && GroupReady(Reached(p, t).mem, Reached(p, t).cleared, instance, [y])
            && Reached(p, t).mem.windows.Keys == {KeyOf(instance, w)} && Reached(p, t).mem.attempts == map[]
            && (forall d :: d in Reached(p, t).mem.ledger ==> d.Window() != KeyOf(instance, w))
  {
    var t := [Restarted] + ObserveEvents(cred, instance, [w], now);
    FirstTickBegins(p, cred, instance, w, now);
    FirstJoins(p, EmptyState(), cred, instance, w, now);
    CheckedIsLazy(p, EmptyState(), cred, instance, w, now);
    CheckedAlone(p, t, instance, w, now,
                 FirstRecord(p, cred, instance, w, now), CheckedRecord(p, cred, instance, w, now));
  }

  lemma CheckedAlone(p: Params, t: seq<Event>, instance: InstanceKey, w: QuotaWindow, now: Time,
                     r: WindowRecord, y: WindowRecord)
    requires Alive(p, t) && w.Valid() && now > 0 && r.key == KeyOf(instance, w)
    requires GroupReady(Reached(p, t).mem, Reached(p, t).cleared, instance, [r])
    requires y == EditRecord(p, Precheck(ByBucket([w]), now), r) && y.state == LazyDetected
    requires Reached(p, t).mem.windows.Keys == {r.key} && Reached(p, t).mem.ledger == map[]
    requires Reached(p, t).mem.attempts == map[]
    ensures var u := t + PrecheckEvents(instance, w, now);
            && Alive(p, u) && GroupReady(Reached(p, u).mem, Reached(p, u).cleared, instance, [y])
            && Reached(p, u).mem.windows.Keys == {r.key} && Reached(p, u).mem.attempts == map[]
            && Reached(p, u).mem.ledger == map[]
  {
    PrecheckOne(p, t, instance, w, now, r, y);
    PrecheckKeepsLedger(p, Reached(p, t).mem, PrecheckGroup(instance, [KeyOf(instance, w)], [w], now));
    NoLedgerYet(p, t, instance, w, now);
    var attempts := Reached(p, t + PrecheckEvents(instance, w, now)).mem.attempts;
    assert forall id :: id in attempts ==> id in Reached(p, t).mem.attempts;
  }

  lemma PrecheckKeepsLedger(p: Params, s: PersistentState, tx: Tx)
    requires tx.PrecheckGroup?
    ensures NextState(p, s, tx).ledger == s.ledger
  {
  }

  lemma NoLedgerYet(p: Params, t: seq<Event>, instance: InstanceKey, w: QuotaWindow, now: Time)
    requires Alive(p, t) && Alive(p, t + PrecheckEvents(instance, w, now))
    ensures Reached(p, t + PrecheckEvents(instance, w, now)).mem.ledger == Reached(p, t).mem.ledger
  {
    var t1 := t + [Observed(instance, [w])];
    var u := t + PrecheckEvents(instance, w, now);
    assert u[..|u| - 1] == t1 && t1[..|t1| - 1] == t;
    assert Step(p, Exec(p, t1).value, u[|u| - 1]).Some?;
  }

  /** The first Tick sends for the window's cycle and its verification takes the baseline from `v`. */
  lemma FirstTickEnds(p: Params, cred: Credential, instance: InstanceKey, w: QuotaWindow, v: QuotaWindow, now: Time)
    requires p.cfg.Valid() && !p.cfg.dryRun && Able(p, instance, cred, w) && now >= w.resetAt + p.cfg.resetGrace
             && now > 0
    requires v.Valid() && v.bucketId == w.bucketId && p.For(instance).verify(BaselineFrom(instance, w), v).confirmed
    ensures var u := FirstTickRun(p, cred, instance, w, v, now);
            Alive(p, u) && Alone(Reached(p, u).mem, KeyOf(instance, w), BaselineFrom(instance, v), CycleOf(instance, w))
  {
    var y := CheckedRecord(p, cred, instance, w, now);
    FirstTickChecked(p, cred, instance, w, now);
    CheckedIsLazy(p, EmptyState(), cred, instance, w, now);
    var t := [Restarted] + ObserveEvents(cred, instance, [w], now) + PrecheckEvents(instance, w, now);
    var a, later := FirstAttempt(p, cred, instance, w, now), now + p.cfg.verifyDelay;
    SendAloneAndSettle(p, t, w, v, y, a, now, later);
    FirstTickParts(p, cred, instance, w, v, a, now);
  }

  lemma FirstTickParts(p: Params, cred: Credential, instance: InstanceKey, w: QuotaWindow, v: QuotaWindow,
                       a: ProbeAttempt, now: Time)
    ensures var t := [Restarted] + ObserveEvents(cred, instance, [w], now) + PrecheckEvents(instance, w, now);
            [Restarted] + FirstTickEvents(p, cred, instance, w, v, a, now)
            == t + SendEvents(a, now) + SettleEvents(a, [v], now, now + p.cfg.verifyDelay)
  {
  }

  lemma SendAloneAndSettle(p: Params, t: seq<Event>, w: QuotaWindow, v: QuotaWindow, y: WindowRecord,
                           a: ProbeAttempt, now: Time, later: Time)
    requires Alive(p, t) && !p.cfg.dryRun && ReadyFor(Reached(p, t), y, a) && a.id == 0 && now > 0 && later > 0
    requires y.key == KeyOf(y.key.instance, w) && y.baseline == BaselineFrom(y.key.instance, w)
    requires Reached(p, t).mem.windows.Keys == {y.key} && Reached(p, t).mem.attempts == map[]
    requires forall d :: d in Reached(p, t).mem.ledger ==> d.Window() != y.key
    requires v.Valid() && v.bucketId == w.bucketId && p.For(y.key.instance).verify(y.baseline, v).confirmed
    ensures var u := t + SendEvents(a, now) + SettleEvents(a, [v], now, later);
            Alive(p, u) && Alone(Reached(p, u).mem, y.key, BaselineFrom(y.key.instance, v), CycleOf(y.key.instance, w))
  {
    OneIsNormalized(v);
    ReadyWindow(Reached(p, t), y, a);
    SendAndSettle(p, t, y, a, [v], now, later);
    var u := t + SendEvents(a, now) + SettleEvents(a, [v], now, later);
    SettledAlone(p, Reached(p, t).mem, Reached(p, u).mem, y.key, w, v);
  }

  lemma SettledAlone(p: Params, s: PersistentState, u: PersistentState, k: WindowKey, w: QuotaWindow, v: QuotaWindow)
    requires k == KeyOf(k.instance, w) && v.bucketId == w.bucketId && s.windows.Keys == {k} && s.attempts == map[]
    requires k in s.windows && s.windows[k].baseline == BaselineFrom(k.instance, w)
    requires forall d :: d in s.ledger ==> d.Window() != k
    requires Frame(s, u, {k}, {0}) && k.bucketId in ByBucket([v]) && ByBucket([v])[k.bucketId] == v
    requires SettledBy(p, s, u, k, [v]) && p.For(k.instance).verify(BaselineFrom(k.instance, w), v).confirmed
    ensures Alone(u, k, BaselineFrom(k.instance, v), CycleOf(k.instance, w))
  {
    var m :| Still(s, m, k) && VerifiedBy(p, m, u, k, [v]);
    forall d | d in u.ledger && d.Window() == k ensures d == CycleOf(k.instance, w) {
      assert d in m.ledger.Keys;
      assert d in m.ledger;
    }
  }

  lemma FirstTickTrace(p: Params, cred: Credential, instance: InstanceKey, w: QuotaWindow, v: QuotaWindow, now: Time)
    requires p.cfg.Valid() && Able(p, instance, cred, w) && now >= w.resetAt + p.cfg.resetGrace && now > 0
    ensures var u := FirstTickRun(p, cred, instance, w, v, now);
            TickTrace(p, [Restarted], u, cred, instance)
  {
    var r, y := FirstRecord(p, cred, instance, w, now), CheckedRecord(p, cred, instance, w, now);
    FirstTickBegins(p, cred, instance, w, now);
    FirstJoins(p, EmptyState(), cred, instance, w, now);
    CheckedIsLazy(p, EmptyState(), cred, instance, w, now);
    CheckedTickTrace(p, cred, instance, w, v, now, r, y, AttemptAt(p, 0, cred, w, y, now));
  }

  lemma CheckedTickTrace(p: Params, cred: Credential, instance: InstanceKey, w: QuotaWindow, v: QuotaWindow, now: Time,
                         r: WindowRecord, y: WindowRecord, a: ProbeAttempt)
    requires y.key == r.key == KeyOf(instance, w) && y.baseline == r.baseline && r.state == PendingPrecheck
    requires Targets(a, instance, [y])
    requires var t := [Restarted] + ObserveEvents(cred, instance, [w], now);
             GroupedNow(p, [Restarted], t, cred, instance, [[r]], [r.latest.GroupName()]) && StartsJudged(t)
    ensures TickTrace(p, [Restarted], [Restarted] + FirstTickEvents(p, cred, instance, w, v, a, now), cred, instance)
  {
    var t, later := [Restarted] + ObserveEvents(cred, instance, [w], now), now + p.cfg.verifyDelay;
    var u := t + PrecheckEvents(instance, w, now) + SendEvents(a, now) + SettleEvents(a, [v], now, later);
    CheckedTrace(t, instance, w, v, now, later, r, y, a);
    OneGroupTrace(p, [Restarted], t, u, cred, instance, r);
    assert [Restarted] + FirstTickEvents(p, cred, instance, w, v, a, now) == u;
  }

  lemma CheckedTrace(t: seq<Event>, instance: InstanceKey, w: QuotaWindow, v: QuotaWindow, now: Time, later: Time,
                     r: WindowRecord, y: WindowRecord, a: ProbeAttempt)
    requires y.key == r.key == KeyOf(instance, w) && y.baseline == r.baseline && r.state == PendingPrecheck
    requires Targets(a, instance, [y])
    ensures var t1 := t + PrecheckEvents(instance, w, now);
            GroupTrace(t, t1 + SendEvents(a, now) + SettleEvents(a, [v], now, later), instance, [r])
  {
    var t1 := t + PrecheckEvents(instance, w, now);
    var u := t1 + SendEvents(a, now) + SettleEvents(a, [v], now, later);
    SettleTraceFor(t1, y, a, [v], now, later, instance);
    CheckedPart(instance, w, now, r, y, t, t1);
    PrecheckThenDirect(t, t1, u, instance, [y], [r]);
    assert r in [r];
  }

  lemma CheckedPart(instance: InstanceKey, w: QuotaWindow, now: Time, r: WindowRecord, y: WindowRecord,
                    t: seq<Event>, t1: seq<Event>)
    requires y.key == r.key == KeyOf(instance, w) && y.baseline == r.baseline
             && t1 == t + PrecheckEvents(instance, w, now)
    ensures PartOf([y], [r]) && Prechecked(t, t1, instance, [r]) && JustPrechecked(t, t1) && |t1| == |t| + 2
  {
    assert r in [r] && Names([r], r.key, r.baseline.cycleId);
    assert KeysOf([r]) == [KeyOf(instance, w)];
  }

  /** A Tick with one group. */
  lemma OneGroupTrace(p: Params, before: seq<Event>, t: seq<Event>, u: seq<Event>, cred: Credential,
                      instance: InstanceKey, r: WindowRecord)
    requires GroupedNow(p, before, t, cred, instance, [[r]], [r.latest.GroupName()]) && StartsJudged(t)
    requires GroupTrace(t, u, instance, [r])
    ensures TickTrace(p, before, u, cred, instance)
  {
    assert GroupsTrace(t, t, instance, [[r]], 0);
    NextGroup(t, t, u, instance, [[r]], 0);
    assert Quiet(before, before);
    GroupsThenTick(p, before, before, t, u, cred, instance, [[r]], [r.latest.GroupName()]);
  }

  // ----- a Tick that only takes a rollover -----

  lemma RollTick(p: Params, run: seq<Event>, cred: Credential, instance: InstanceKey, w: QuotaWindow, b: Baseline,
                 c: CycleId, now: Time)
    requires Alive(p, run) && Able(p, instance, cred, w) && Alone(Reached(p, run).mem, KeyOf(instance, w), b, c)
             && now > 0
    requires w == Moved(w, w.resetAt) && w.resetAt > b.resetAt + p.cfg.skew
    ensures var u := run + ObserveEvents(cred, instance, [w], now);
            && Alive(p, u) && TickTrace(p, run, u, cred, instance)
            && Alone(Reached(p, u).mem, KeyOf(instance, w), BaselineFrom(instance, w), c)
  {
    var s := Stamp(Reached(p, run).mem);
    OneIsNormalized(w);
    ObserveTick(p, run, cred, instance, [w], now);
    RolledAlone(p, s, cred, instance, w, b, c, now);
    ObserveIsQuiet(run, cred, instance, [w], now);
  }

  lemma ObserveIsQuiet(run: seq<Event>, cred: Credential, instance: InstanceKey, ws: seq<QuotaWindow>, now: Time)
    ensures Quiet(run, run + ObserveEvents(cred, instance, ws, now))
  {
  }

  lemma RolledAlone(p: Params, s: PersistentState, cred: Credential, instance: InstanceKey, w: QuotaWindow,
                    b: Baseline, c: CycleId, now: Time)
    requires StateInv(p, s) && Able(p, instance, cred, w) && Alone(s, KeyOf(instance, w), b, c)
    requires w == Moved(w, w.resetAt) && w.resetAt > b.resetAt + p.cfg.skew
    ensures var t := NextState(p, s, Reconcile(cred, instance, [w], now));
            Alone(t, KeyOf(instance, w), BaselineFrom(instance, w), c)
  {
    ObservedAlone(p, s, cred, instance, now, w);
    Rolls(p, s, cred, instance, w, now);
  }

  lemma Rolls(p: Params, s: PersistentState, cred: Credential, instance: InstanceKey, w: QuotaWindow, now: Time)
    requires Able(p, instance, cred, w) && w == Moved(w, w.resetAt) && KeyOf(instance, w) in s.windows
    requires var x := s.windows[KeyOf(instance, w)];
             && x.state != WaitingReset
             && w.resetAt > x.baseline.resetAt + p.cfg.skew
    ensures var y := Reconciled(p, s, cred, instance, now, w).record;
            y.baseline == BaselineFrom(instance, w) && y.state == NormalReset
  {
  }

  // ----- the second send -----

  /** The record of the window when it is next found lazy on its present baseline. */
  function LazyRecord(p: Params, s: PersistentState, cred: Credential, instance: InstanceKey, w: QuotaWindow,
                      now: Time): WindowRecord
  {
    Reconciled(p, s, cred, instance, now, w).record
  }

  lemma FoundLazy(p: Params, s: PersistentState, cred: Credential, instance: InstanceKey, w: QuotaWindow, now: Time)
    requires p.cfg.Valid() && Able(p, instance, cred, w) && WindowsOk(s.windows) && KeyOf(instance, w) in s.windows
    requires var x := s.windows[KeyOf(instance, w)];
             x.state != WaitingReset && x.baseline.resetAt == w.resetAt && x.baseline.cycleId !in s.ledger
    requires now >= w.resetAt + p.cfg.resetGrace
    ensures var v := Reconciled(p, s, cred, instance, now, w);
            && v.joins && v.record.state == LazyDetected && v.record.key == KeyOf(instance, w)
            && v.record.baseline.cycleId == CycleOf(instance, w)
  {
    assert WindowOk(KeyOf(instance, w), s.windows[KeyOf(instance, w)]);
  }

  /** With a baseline whose cycle is not the one fenced, the next Tick past its reset has the window ready. */
  lemma SecondTickBegins(p: Params, run: seq<Event>, cred: Credential, instance: InstanceKey, w: QuotaWindow,
                         b: Baseline, c: CycleId, now: Time)
    requires Alive(p, run) && Able(p, instance, cred, w) && now > 0 && now >= w.resetAt + p.cfg.resetGrace
    requires Alone(Reached(p, run).mem, KeyOf(instance, w), b, c) && b.resetAt == w.resetAt && c.resetAt != w.resetAt
    ensures var s, t := Stamp(Reached(p, run).mem), run + ObserveEvents(cred, instance, [w], now);
            var r := LazyRecord(p, s, cred, instance, w, now);
            && r.state == LazyDetected && r.key == KeyOf(instance, w) && r.baseline.cycleId == CycleOf(instance, w)
            && Alive(p, t) && GroupReady(Reached(p, t).mem, Reached(p, t).cleared, instance, [r])
            && 1 !in Reached(p, t).mem.attempts
            && GroupedNow(p, run, t, cred, instance, [[r]], [r.latest.GroupName()]) && StartsJudged(t)
  {
    var s := Stamp(Reached(p, run).mem);
    var r := LazyRecord(p, s, cred, instance, w, now);
    OneIsNormalized(w);
    ObserveTick(p, run, cred, instance, [w], now);
    AloneIsUnfenced(p, s, KeyOf(instance, w), b, c);
    FoundLazy(p, s, cred, instance, w, now);
    JoinOne(p, s, cred, instance, now, w);
    assert r in [r];
    JoinedIsReady(p, run, cred, instance, [w], now, r);
    ObservedAlone(p, s, cred, instance, now, w);
    ObserveGroups(p, run, cred, instance, [w], now, [[r]], [r.latest.GroupName()]);
  }

  /** And sends for that baseline's cycle. */
  lemma SecondTick(p: Params, run: seq<Event>, cred: Credential, instance: InstanceKey, w: QuotaWindow, b: Baseline,
                   c: CycleId, now: Time)
    returns (u: seq<Event>)
    requires Alive(p, run) && !p.cfg.dryRun && Able(p, instance, cred, w) && now > 0
             && now >= w.resetAt + p.cfg.resetGrace
    requires Alone(Reached(p, run).mem, KeyOf(instance, w), b, c) && b.resetAt == w.resetAt && c.resetAt != w.resetAt
    ensures run <= u && |u| > |run| && Alive(p, u) && TickTrace(p, run, u, cred, instance)
    ensures SendsFor(u[|u| - 1], KeyOf(instance, w), CycleOf(instance, w))
  {
    var r := LazyRecord(p, Stamp(Reached(p, run).mem), cred, instance, w, now);
    var t := run + ObserveEvents(cred, instance, [w], now);
    SecondTickBegins(p, run, cred, instance, w, b, c, now);
    u := LazyTick(p, run, t, cred, instance, now, r, AttemptAt(p, 1, cred, w, r, now));
  }

  /** From a Tick that found one window lazy to its send. */
  lemma LazyTick(p: Params, run: seq<Event>, t: seq<Event>, cred: Credential, instance: InstanceKey, now: Time,
                 r: WindowRecord, a: ProbeAttempt)
    returns (u: seq<Event>)
    requires Alive(p, t) && GroupReady(Reached(p, t).mem, Reached(p, t).cleared, instance, [r])
             && a.id !in Reached(p, t).mem.attempts
    requires GroupedNow(p, run, t, cred, instance, [[r]], [r.latest.GroupName()]) && StartsJudged(t)
    requires !p.cfg.dryRun && now > 0 && Targets(a, instance, [r])
    requires r.state == LazyDetected && r.key.instance == instance && r.baseline.cycleId.Window() == r.key
    ensures t <= u && |u| > |t| && Alive(p, u) && TickTrace(p, run, u, cred, instance)
    ensures SendsFor(u[|u| - 1], r.key, r.baseline.cycleId)
  {
    u := t + SendEvents(a, now);
    SendReady(p, t, r, a, now);
    LazyTickTrace(p, run, t, cred, instance, now, r, a);
    SendsItsCycle(t, r, a, now, instance);
  }

  lemma LazyTickTrace(p: Params, run: seq<Event>, t: seq<Event>, cred: Credential, instance: InstanceKey, now: Time,
                      r: WindowRecord, a: ProbeAttempt)
    requires GroupedNow(p, run, t, cred, instance, [[r]], [r.latest.GroupName()]) && StartsJudged(t)
    requires Targets(a, instance, [r]) && r.state == LazyDetected
    ensures TickTrace(p, run, t + SendEvents(a, now), cred, instance)
  {
    SendTraceFor(t, r, a, now, instance);
    assert !NeedsPrecheck([r]);
    OneGroupTrace(p, run, t, t + SendEvents(a, now), cred, instance, r);
  }

  lemma SendsItsCycle(t: seq<Event>, r: WindowRecord, a: ProbeAttempt, now: Time, instance: InstanceKey)
    requires Targets(a, instance, [r]) && r.baseline.cycleId.Window() == r.key
    ensures var u := t + SendEvents(a, now); |u| > |t| && SendsFor(u[|u| - 1], r.key, r.baseline.cycleId)
  {
    assert CyclesOf([r])[0] == r.baseline.cycleId;
  }

  lemma AloneIsUnfenced(p: Params, s: PersistentState, k: WindowKey, b: Baseline, c: CycleId)
    requires WindowsOk(s.windows) && Alone(s, k, b, c) && b.resetAt != c.resetAt
    ensures s.windows[k].baseline.cycleId !in s.ledger
  {
    assert WindowOk(k, s.windows[k]);
    assert s.windows[k].baseline.cycleId.Window() == k;
  }

  // ----- two crowded sends -----

  /** The events of two sends for the window, for cycles that are apart by no more than the skew. */
  ghost predicate Crowded(p: Params, run: seq<Event>, k: WindowKey, i: nat, j: nat, c: CycleId, d: CycleId) {
    && i < j < |run| && SendsFor(run[i], k, c) && SendsFor(run[j], k, d)
    && AbsDuration(c.resetAt - d.resetAt) <= p.cfg.skew
  }

  function LateEnough(p: Params, now: Time, resetAt: Time): Time {
    if now < resetAt + p.cfg.resetGrace then resetAt + p.cfg.resetGrace else now
  }

  lemma FirstSendAt(p: Params, cred: Credential, instance: InstanceKey, w: QuotaWindow, v: QuotaWindow, now: Time)
    requires p.cfg.Valid() && Able(p, instance, cred, w) && now >= w.resetAt + p.cfg.resetGrace && now > 0
    ensures var u := FirstTickRun(p, cred, instance, w, v, now);
            |u| > 9 && SendsFor(u[9], KeyOf(instance, w), CycleOf(instance, w))
  {
    var y := CheckedRecord(p, cred, instance, w, now);
    var a := AttemptAt(p, 0, cred, w, y, now);
    CheckedIsLazy(p, EmptyState(), cred, instance, w, now);
    var u := FirstTickRun(p, cred, instance, w, v, now);
    assert u[9] == Dispatched(a, None);
    assert CyclesOf([y])[0] == CycleOf(instance, w);
  }

  /** The first Tick of the crowded run. */
  lemma CrowdOpens(p: Params, cred: Credential, instance: InstanceKey, w: QuotaWindow, v: QuotaWindow)
    returns (run: seq<Event>, now: Time)
    requires p.cfg.Valid() && !p.cfg.dryRun && Able(p, instance, cred, w)
    requires v.Valid() && v.bucketId == w.bucketId && p.For(instance).verify(BaselineFrom(instance, w), v).confirmed
    ensures Alive(p, run) && TickRun(p, run, cred, instance, [1, |run|]) && now > 0
            && now >= w.resetAt + p.cfg.resetGrace
    ensures Alone(Reached(p, run).mem, KeyOf(instance, w), BaselineFrom(instance, v), CycleOf(instance, w))
    ensures |run| > 9 && SendsFor(run[9], KeyOf(instance, w), CycleOf(instance, w))
  {
    now := LateEnough(p, 1, w.resetAt);
    run := FirstTickRun(p, cred, instance, w, v, now);
    FirstTickEnds(p, cred, instance, w, v, now);
    FirstTickTrace(p, cred, instance, w, v, now);
    StartTickRun(p, cred, instance);
    OneMoreTick(p, [Restarted], run, cred, instance, [1]);
    assert [1] + [|run|] == [1, |run|];
    FirstSendAt(p, cred, instance, w, v, now);
  }

  /** One more Tick, which sends for the baseline the run has come to. */
  lemma CrowdCloses(p: Params, run: seq<Event>, cred: Credential, instance: InstanceKey, cuts: seq<nat>,
                    w: QuotaWindow, x: QuotaWindow,
                    b: Baseline, now: Time) returns (u: seq<Event>)
    requires Alive(p, run) && !p.cfg.dryRun && TickRun(p, run, cred, instance, cuts) && Able(p, instance, cred, x)
             && now > 0
    requires x.bucketId == w.bucketId && b.resetAt == x.resetAt && x.resetAt != w.resetAt
    requires Alone(Reached(p, run).mem, KeyOf(instance, w), b, CycleOf(instance, w))
    requires |run| > 9 && SendsFor(run[9], KeyOf(instance, w), CycleOf(instance, w))
    requires AbsDuration(w.resetAt - x.resetAt) <= p.cfg.skew
    ensures |u| > 10 && IsRun(p, u) && TickRun(p, u, cred, instance, cuts + [|u|])
    ensures Crowded(p, u, KeyOf(instance, w), 9, |u| - 1, CycleOf(instance, w), CycleOf(instance, x))
  {
    var late := LateEnough(p, now, x.resetAt);
    u := SecondTick(p, run, cred, instance, x, b, CycleOf(instance, w), late);
    OneMoreTick(p, run, u, cred, instance, cuts);
    assert u[9] == run[9];
  }

  /** A capable window stays capable as it moves. */
  lemma MovedIsAble(p: Params, instance: InstanceKey, cred: Credential, w: QuotaWindow, resetAt: Time)
    requires Able(p, instance, cred, w) && resetAt > 0
    ensures Able(p, instance, cred, Moved(w, resetAt)) && Moved(Moved(w, resetAt), resetAt) == Moved(w, resetAt)
  {
    forall r: Time ensures Moved(Moved(w, resetAt), r) == Moved(w, r) {
    }
  }

  /**
   Whenever the adapter confirms a capable window from a read with the reset moved, but not past the skew, there is a
   run, one Tick after another, that sends for the window twice with resets no more than the skew apart.
   */
  lemma UntidyReadCrowds(p: Params, cred: Credential, instance: InstanceKey, w: QuotaWindow, v: QuotaWindow)
    returns (run: seq<Event>, cuts: seq<nat>, i: nat, j: nat, c: CycleId, d: CycleId)
    requires p.cfg.Valid() && !p.cfg.dryRun && Able(p, instance, cred, w)
    requires v.Valid() && v.bucketId == w.bucketId && v.resetAt > 0
    requires p.For(instance).verify(BaselineFrom(instance, w), v).confirmed
    requires !TidyReset(BaselineFrom(instance, w), v, p.cfg.skew)
    ensures IsRun(p, run) && TickRun(p, run, cred, instance, cuts) && Crowded(p, run, KeyOf(instance, w), i, j, c, d)
  {
    var now;
    run, now := CrowdOpens(p, cred, instance, w, v);
    var x;
    if v.resetAt < w.resetAt - p.cfg.skew {
      x := Moved(w, w.resetAt + 1);
      run, cuts := CrowdAfterRoll(p, run, cred, instance, [1, |run|], w, BaselineFrom(instance, v),
                                  now + p.cfg.verifyDelay);
    } else {
      x := Moved(w, v.resetAt);
      MovedIsAble(p, instance, cred, w, v.resetAt);
      var u := CrowdCloses(p, run, cred, instance, [1, |run|], w, x, BaselineFrom(instance, v),
                           now + p.cfg.verifyDelay);
      run, cuts := u, [1, |run|] + [|u|];
    }
    i, j, c, d := 9, |run| - 1, CycleOf(instance, w), CycleOf(instance, x);
  }

  /**
   Too far back to be near the cycle spent, the baseline is brought next to it by a rollover of the provider's own.
   */
  lemma CrowdAfterRoll(p: Params, run: seq<Event>, cred: Credential, instance: InstanceKey, cuts: seq<nat>,
                       w: QuotaWindow, b: Baseline, now: Time)
    returns (u: seq<Event>, more: seq<nat>)
    requires Alive(p, run) && !p.cfg.dryRun && TickRun(p, run, cred, instance, cuts) && Able(p, instance, cred, w)
             && now > 0
    requires b.resetAt < w.resetAt - p.cfg.skew
             && Alone(Reached(p, run).mem, KeyOf(instance, w), b, CycleOf(instance, w))
    requires |run| > 9 && SendsFor(run[9], KeyOf(instance, w), CycleOf(instance, w))
    ensures |u| > 10 && IsRun(p, u) && TickRun(p, u, cred, instance, more)
    ensures Crowded(p, u, KeyOf(instance, w), 9, |u| - 1,
                    CycleOf(instance, w), CycleOf(instance, Moved(w, w.resetAt + 1)))
  {
    var x := Moved(w, w.resetAt + 1);
    MovedIsAble(p, instance, cred, w, w.resetAt + 1);
    RollTick(p, run, cred, instance, x, b, CycleOf(instance, w), now);
    var rolled := run + ObserveEvents(cred, instance, [x], now);
    OneMoreTick(p, run, rolled, cred, instance, cuts);
    assert rolled[9] == run[9];
    u := CrowdCloses(p, rolled, cred, instance, cuts + [|rolled|], w, x, BaselineFrom(instance, x), now);
    more := cuts + [|rolled|] + [|u|];
  }

  // ----- Codex -----

  lemma CodexAbility(p: Params, instance: InstanceKey, cred: Credential, w: QuotaWindow)
    requires p.For(instance) == CODEX && w.Valid() && w.resetAt > 0 && CodexCanActivate(w)
    ensures Able(p, instance, cred, w)
  {
  }

  /**
   Codex: usage of any capable window falling to zero, with its reset moved but not past the skew, is all it takes. In
   particular a reset one nanosecond later.
   */
  lemma CodexCrowds(p: Params, cred: Credential, instance: InstanceKey, w: QuotaWindow, v: QuotaWindow)
    returns (run: seq<Event>, cuts: seq<nat>, i: nat, j: nat, c: CycleId, d: CycleId)
    requires p.cfg.Valid() && !p.cfg.dryRun && p.cfg.skew <= 2 * MINUTE && p.For(instance) == CODEX
    requires w.Valid() && w.resetAt > 0 && CodexCanActivate(w) && v.Valid() && v.bucketId == w.bucketId && v.resetAt > 0
    requires !v.lazyHint && UsageReset(BaselineFrom(instance, w), v)
    requires v.resetAt != w.resetAt && v.resetAt <= w.resetAt + p.cfg.skew
    ensures IsRun(p, run) && TickRun(p, run, cred, instance, cuts) && Crowded(p, run, KeyOf(instance, w), i, j, c, d)
  {
    CodexAbility(p, instance, cred, w);
    CodexUntidyIff(BaselineFrom(instance, w), v, p.cfg.skew);
    run, cuts, i, j, c, d := UntidyReadCrowds(p, cred, instance, w, v);
  }

  /** A Codex window in use, and the read that confirms it from its usage with the reset one nanosecond later. */
  function MainWindow(resetAt: Time, used: real): QuotaWindow {
    QuotaWindow("codex", "auth", "main-5h", "", "main", Some(used), resetAt, 5 * HOUR, 1, "", false, true)
  }

  lemma OneNanosecond(p: Params, cred: Credential, instance: InstanceKey)
    returns (run: seq<Event>, cuts: seq<nat>, i: nat, j: nat, c: CycleId, d: CycleId)
    requires p.cfg.Valid() && !p.cfg.dryRun && p.cfg.skew <= 2 * MINUTE && p.For(instance) == CODEX
    ensures IsRun(p, run) && TickRun(p, run, cred, instance, cuts)
    ensures Crowded(p, run, KeyOf(instance, MainWindow(100, 90.0)), i, j, c, d)
  {
    run, cuts, i, j, c, d := CodexCrowds(p, cred, instance, MainWindow(100, 90.0), MainWindow(101, 0.0));
  }
}
