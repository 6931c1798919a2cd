/** Facts about single steps of the controller, used to follow its control flow in Controller.dfy. */
module Steps {
  import opened Wrappers
  import opened Model
  import opened Adapters
  import opened Normalize
  import opened Transactions
  import opened StateInvariant
  import opened Preservation
  import opened Files
  import opened StoreModule
  import opened Machine
  import opened Safety
  import opened Grouping
  import opened Effects
  import opened Laws
  import opened Loops
  import opened Traces

  datatype Problem =
    | WrongAdapter | NoFingerprint | NoSender | NoRandom | Cancelled | NotPersisted
    | BadWindows(error: WindowError) | Because(cause: Note)
    | CycleAlreadyAttempted | AttemptChanged | AttemptNotFound

  /** How a call of the controller ends; Died when the process crashed in the middle of it. */
  datatype Exit = Nil | Error(problem: Problem) | Died

  function ExitOf(o: Outcome): Exit {
    match o
    case Saved => Nil
    case NotSaved => Error(NotPersisted)
    case Cut => Died
  }

  /** What ReadQuota followed by normalizeWindows gives. */
  datatype Read =
    | ReadOk(windows: seq<QuotaWindow>) | ReadError(cause: Note) | ReadInvalid(error: WindowError) | ReadDied

  /** From one world to the next by a transaction, as its commit ended. */
  ghost predicate Ended(p: Params, w: World, v: World, tx: Tx, exit: Exit) {
    match exit
    case Nil => Apply(p, w.mem, tx).Some? && v.mem == NextState(p, w.mem, tx)
                && v.cleared == ClearedAfter(p, w, tx) && v.pc == PcAfter(tx) && v.seen.None?
    case Error(_) => v.mem == w.mem && v.pc == Ready
    case Died => v.pc == Down
  }

  /** What a finished step on named windows left alone. */
  lemma StepFrame(p: Params, w: World, v: World, tx: Tx, exit: Exit)
    requires StateInv(p, w.mem) && Enabled(w.mem, tx) && IsNamed(tx) && Ended(p, w, v, tx, exit) && exit != Died
    ensures Frame(w.mem, v.mem, Named(w.mem, tx), Handled(tx))
  {
    if exit == Nil { NamedFrame(p, w.mem, tx); }
  }

  /** What a commit left, if it was acknowledged. */
  lemma EndedLeaves(p: Params, w: World, v: World, tx: Tx)
    requires StateInv(p, w.mem) && Enabled(w.mem, tx) && Ended(p, w, v, tx, Nil)
    ensures Leaves(p, w.mem, tx, v.mem)
  {
    EveryLeaves(p, w.mem, tx);
  }

  /** The windows are all to be looked at again. */
  ghost predicate AllScheduled(s: PersistentState, ks: set<WindowKey>) {
    forall k :: k in ks ==> k in s.windows && Scheduled(s.windows[k])
  }

  /** The attempt as it was on entry, but for its phase, outcome and error. */
  ghost predicate SameTarget(s: PersistentState, t: PersistentState, id: AttemptId) {
    id in s.attempts && id in t.attempts
    && t.attempts[id].windowKeys == s.attempts[id].windowKeys
    && t.attempts[id].instanceKey == s.attempts[id].instanceKey
    && t.attempts[id].suppressUntil == s.attempts[id].suppressUntil
  }

  lemma OutcomeTarget(p: Params, s: PersistentState, tx: Tx)
    requires tx.SendOutcome? && tx.id in s.attempts
    ensures var t := NextState(p, s, tx); SameTarget(s, t, tx.id) && t.attempts[tx.id].phase == tx.phase
  {
  }

  lemma OutcomeEffect(p: Params, w: World, v: World, tx: Tx, exit: Exit)
    requires p.cfg.Valid() && StateInv(p, w.mem) && tx.SendOutcome? && Enabled(w.mem, tx) && Ended(p, w, v, tx, exit)
             && exit != Died
    ensures Frame(w.mem, v.mem, KeySet(w.mem.attempts[tx.id].windowKeys), {tx.id}) && SameTarget(w.mem, v.mem, tx.id)
    ensures exit == Nil ==> v.mem.attempts[tx.id].phase == tx.phase && v.cleared == w.cleared
    ensures exit == Nil && w.mem.attempts[tx.id].suppressUntil > 0 ==>
              AllScheduled(v.mem, KeySet(w.mem.attempts[tx.id].windowKeys))
  {
    StepFrame(p, w, v, tx, exit);
    if exit == Nil {
      OutcomeTarget(p, w.mem, tx);
      assert w.cleared + map[] == w.cleared;
      if w.mem.attempts[tx.id].suppressUntil > 0 { NamedSchedules(p, w.mem, tx); }
    }
  }

  /** Each record's window is scheduled or is one of those confirmed. */
  ghost predicate LeftToConfirmed(s: PersistentState, records: seq<WindowRecord>, confirmed: seq<WindowRecord>) {
    forall r :: r in records ==> r.key in s.windows && (Scheduled(s.windows[r.key]) || s.windows[r.key] in confirmed)
  }

  lemma NoneConfirmed(s: PersistentState, records: seq<WindowRecord>)
    requires LeftToConfirmed(s, records, [])
    ensures AllScheduled(s, KeySet(KeysOf(records)))
  {
    forall k | k in KeySet(KeysOf(records)) ensures k in s.windows && Scheduled(s.windows[k]) {
      KeysOfMembers(records, k);
    }
  }

  /** Scheduling the confirmed windows completes the group. */
  lemma GroupScheduled(s: PersistentState, t: PersistentState, records: seq<WindowRecord>,
                       confirmed: seq<WindowRecord>, mine: set<AttemptId>)
    requires WindowsOk(s.windows) && LeftToConfirmed(s, records, confirmed)
    requires Frame(s, t, KeySet(KeysOf(confirmed)), mine) && AllScheduled(t, KeySet(KeysOf(confirmed)))
    ensures AllScheduled(t, KeySet(KeysOf(records)))
  {
    forall k | k in KeySet(KeysOf(records)) ensures k in t.windows && Scheduled(t.windows[k]) {
      KeysOfMembers(records, k);
      KeysOfMembers(confirmed, k);
      assert k in s.windows && WindowOk(k, s.windows[k]);
      assert k in t.windows.Keys;
    }
  }

  /** Clearances of windows outside `ks` are still there. */
  ghost predicate ClearedKept(c: map<WindowKey, CycleId>, d: map<WindowKey, CycleId>, ks: set<WindowKey>) {
    forall k :: k in c && k !in ks ==> k in d && d[k] == c[k]
  }

  /** The attempts added between two states belong to the instance. */
  ghost predicate NewAttemptsOf(s: PersistentState, t: PersistentState, instance: InstanceKey) {
    forall id :: id in t.attempts && id !in s.attempts ==> t.attempts[id].instanceKey == instance
  }

  /** The attempt runGroup builds at time `now`. */
  function AttemptOf(p: Params, id: AttemptId, cred: Credential, instance: InstanceKey, provider: string, group: string,
                     keys: seq<WindowKey>, cycles: seq<CycleId>, now: Time): ProbeAttempt
  {
    ProbeAttempt(id, instance, provider, cred.authId, group, keys, cycles, Prepared, now,
                 ZERO_TIME, ZERO_TIME, now + p.cfg.verifyDelay, now + p.cfg.suppression, NoNote)
  }

  /** It is to be verified the configured delay after it was built, and then left alone for the suppression time. */
  predicate Timed(p: Params, a: ProbeAttempt) {
    a.createdAt > 0 && a.verifyNotBefore - a.createdAt == p.cfg.verifyDelay
    && a.suppressUntil - a.createdAt == p.cfg.suppression
  }

  /** What matters of it to the records it is built from. */
  ghost predicate Targets(a: ProbeAttempt, instance: InstanceKey, records: seq<WindowRecord>) {
    && a.phase == Prepared && a.sentAt == ZERO_TIME && a.instanceKey == instance && a.suppressUntil > 0
    && a.windowKeys == KeysOf(records) && a.cycleIds == CyclesOf(records)
  }

  lemma TargetsCover(a: ProbeAttempt, instance: InstanceKey, records: seq<WindowRecord>)
    requires Targets(a, instance, records) && records != []
    ensures Covers(a, instance, records)
  {
    forall n | 0 <= n < |records| ensures Names(records, a.windowKeys[n], a.cycleIds[n]) {
      assert records[n] in records;
    }
  }

  /** Such an attempt may be prepared, and no ledger entry stands in its way. */
  lemma TargetsMayBePrepared(p: Params, w: World, instance: InstanceKey, records: seq<WindowRecord>, a: ProbeAttempt)
    requires StateInv(p, w.mem) && GroupReady(w.mem, w.cleared, instance, records) && !p.cfg.dryRun
    requires forall r :: r in records ==> r.state == LazyDetected
    requires Targets(a, instance, records) && a.id !in w.mem.attempts
    ensures Allowed(p, w, Prepare(a)) && !AnyFenced(a.cycleIds, w.mem.ledger)
  {
    forall i | 0 <= i < |records| ensures
        && a.windowKeys[i] in w.mem.windows && w.mem.windows[a.windowKeys[i]] == records[i]
        && a.windowKeys[i].instance == instance
        && a.cycleIds[i].Window() == a.windowKeys[i] && a.cycleIds[i] !in w.mem.ledger
        && a.windowKeys[i] in w.cleared && w.cleared[a.windowKeys[i]] == a.cycleIds[i]
    {
      assert records[i] in records;
      assert Candidate(w.mem, w.cleared, instance, records[i]);
      assert WindowOk(records[i].key, w.mem.windows[records[i].key]);
    }
  }

  lemma AfterPrepare(p: Params, w: World, v: World, a: ProbeAttempt)
    requires p.cfg.Valid() && StateInv(p, w.mem) && Enabled(w.mem, Prepare(a)) && Ended(p, w, v, Prepare(a), Nil)
    ensures v.pc == Armed(a) && Claimed(v.mem, a)
  {
    ArmedAfterPrepare(p, w.mem, a);
  }

  lemma PreparedIsOfInstance(p: Params, s: PersistentState, a: ProbeAttempt)
    requires Apply(p, s, Prepare(a)).Some?
    ensures NewAttemptsOf(s, NextState(p, s, Prepare(a)), a.instanceKey)
  {
  }

  lemma PrepareEffect(p: Params, w: World, v: World, a: ProbeAttempt, exit: Exit)
    requires p.cfg.Valid() && StateInv(p, w.mem) && Enabled(w.mem, Prepare(a)) && Ended(p, w, v, Prepare(a), exit)
             && exit != Died
    ensures Frame(w.mem, v.mem, KeySet(a.windowKeys), {a.id}) && NewAttemptsOf(w.mem, v.mem, a.instanceKey)
    ensures exit == Nil ==> v.pc == Armed(a) && Claimed(v.mem, a) && v.cleared == w.cleared
  {
    StepFrame(p, w, v, Prepare(a), exit);
    if exit == Nil {
      PreparedIsOfInstance(p, w.mem, a);
      AfterPrepare(p, w, v, a);
      assert w.cleared + map[] == w.cleared;
    }
  }

  lemma FenceTarget(p: Params, s: PersistentState, a: ProbeAttempt, now: Time)
    requires Apply(p, s, Fence(a, now)).Some? && s.attempts[a.id] == a
    ensures var t := NextState(p, s, Fence(a, now)); SameTarget(s, t, a.id) && t.attempts[a.id].phase == Sending
  {
  }

  lemma FenceLanded(p: Params, w: World, v: World, a: ProbeAttempt, now: Time)
    requires Claimed(w.mem, a) && Ended(p, w, v, Fence(a, now), Nil)
    ensures SameTarget(w.mem, v.mem, a.id) && v.mem.attempts[a.id].phase == Sending
    ensures v.pc == Fenced(a) && FencedIn(v.mem, a) && v.cleared == w.cleared
  {
    FenceTarget(p, w.mem, a, now);
    FencedAfterFence(p, w.mem, a, now);
    assert w.cleared + map[] == w.cleared;
  }

  lemma VerifiedTarget(p: Params, s: PersistentState, tx: Tx)
    requires tx.VerifyAttempt? && tx.id in s.attempts
    ensures var t := NextState(p, s, tx); SameTarget(s, t, tx.id) && t.attempts[tx.id].phase == Completed
  {
  }

  lemma VerifiedScheduled(p: Params, s: PersistentState, tx: Tx)
    requires p.cfg.Valid() && StateInv(p, s) && tx.VerifyAttempt? && tx.now > 0 && Enabled(s, tx)
    ensures AllScheduled(NextState(p, s, tx), KeySet(s.attempts[tx.id].windowKeys))
  {
    AttemptSchedules(p, s, tx.id, Verify(ByBucket(tx.windows), tx.now));
  }

  lemma VerifyLands(p: Params, w: World, v: World, tx: Tx)
    requires tx.VerifyAttempt? && tx.id in w.mem.attempts && Ended(p, w, v, tx, Nil)
    requires AllScheduled(NextState(p, w.mem, tx), KeySet(w.mem.attempts[tx.id].windowKeys))
    ensures SameTarget(w.mem, v.mem, tx.id) && v.mem.attempts[tx.id].phase == Completed && v.cleared == w.cleared
    ensures AllScheduled(v.mem, KeySet(w.mem.attempts[tx.id].windowKeys))
  {
    VerifiedTarget(p, w.mem, tx);
    assert w.cleared + map[] == w.cleared;
  }

  lemma VerifyEffect(p: Params, w: World, v: World, tx: Tx, exit: Exit)
    requires p.cfg.Valid() && StateInv(p, w.mem) && tx.VerifyAttempt? && tx.now > 0
    requires Enabled(w.mem, tx) && Ended(p, w, v, tx, exit) && exit != Died
    ensures tx.id in w.mem.attempts && SameTarget(w.mem, v.mem, tx.id)
    ensures exit == Nil ==> v.mem.attempts[tx.id].phase == Completed && v.cleared == w.cleared
    ensures exit == Nil ==> AllScheduled(v.mem, KeySet(w.mem.attempts[tx.id].windowKeys))
  {
    if exit == Nil {
      VerifiedScheduled(p, w.mem, tx);
      VerifyLands(p, w, v, tx);
    }
  }

  lemma DryRunScheduled(p: Params, s: PersistentState, keys: seq<WindowKey>, now: Time)
    requires p.cfg.Valid() && Selectable(s, keys) && now > 0
    ensures AllScheduled(NextState(p, s, DryRun(keys, now)), KeySet(keys))
  {
    forall k | k in keys ensures Scheduled(EditRecord(p, DryRunOnly(now), s.windows[k])) {
      EditSchedules(p, DryRunOnly(now), s.windows[k]);
    }
    TouchedSchedules(p, s.windows, keys, DryRunOnly(now));
  }

  lemma DryRunLands(p: Params, w: World, v: World, keys: seq<WindowKey>, now: Time)
    requires p.cfg.Valid() && Selectable(w.mem, keys) && now > 0 && Ended(p, w, v, DryRun(keys, now), Nil)
    ensures AllScheduled(v.mem, KeySet(keys)) && v.cleared == w.cleared
  {
    DryRunScheduled(p, w.mem, keys, now);
    assert w.cleared + map[] == w.cleared;
  }

  // ----- all the groups of one observation -----

  /** The groups from the i-th on are disjoint and every record in them is still a candidate. */
  ghost predicate GroupsReady(s: PersistentState, cleared: map<WindowKey, CycleId>, instance: InstanceKey,
                              groups: seq<seq<WindowRecord>>, i: nat)
  {
    && (forall j :: i <= j < |groups| ==> groups[j] != [] && GroupReady(s, cleared, instance, groups[j]))
    && (forall j, l :: 0 <= j < l < |groups| ==> DisjointRecords(groups[j], groups[l]))
  }

  ghost predicate Pending(k: WindowKey, groups: seq<seq<WindowRecord>>, i: nat) {
    exists j :: i <= j < |groups| && k in KeysOf(groups[j])
  }

  /** Each window of the instance is scheduled or still to be worked on. */
  ghost predicate ScheduledOrPending(s: PersistentState, instance: InstanceKey, groups: seq<seq<WindowRecord>>,
                                     i: nat)
  {
    forall k :: k in s.windows && k.instance == instance ==> Scheduled(s.windows[k]) || Pending(k, groups, i)
  }

  lemma OtherGroupsKept(s: PersistentState, t: PersistentState, cleared: map<WindowKey, CycleId>,
                        cleared': map<WindowKey, CycleId>,
                        instance: InstanceKey, groups: seq<seq<WindowRecord>>, i: nat, mine: set<AttemptId>)
    requires i < |groups| && WindowsOk(s.windows) && GroupsReady(s, cleared, instance, groups, i)
    requires Frame(s, t, KeySet(KeysOf(groups[i])), mine) && ClearedKept(cleared, cleared', KeySet(KeysOf(groups[i])))
    ensures GroupsReady(t, cleared', instance, groups, i + 1)
  {
    forall j | i + 1 <= j < |groups| ensures groups[j] != [] && GroupReady(t, cleared', instance, groups[j]) {
      assert DisjointRecords(groups[i], groups[j]);
      forall r | r in groups[j] ensures r.key !in KeySet(KeysOf(groups[i])) {
        KeysOfMembers(groups[i], r.key);
      }
      CandidatesKept(s, t, KeySet(KeysOf(groups[i])), mine, cleared, cleared', instance, groups[j]);
    }
  }

  lemma OtherWindowsScheduled(s: PersistentState, t: PersistentState, instance: InstanceKey,
                              groups: seq<seq<WindowRecord>>, i: nat, mine: set<AttemptId>)
    requires i < |groups| && ScheduledOrPending(s, instance, groups, i)
    requires Frame(s, t, KeySet(KeysOf(groups[i])), mine) && AllScheduled(t, KeySet(KeysOf(groups[i])))
    ensures ScheduledOrPending(t, instance, groups, i + 1)
  {
    forall k | k in t.windows && k.instance == instance && !Scheduled(t.windows[k]) ensures Pending(k, groups, i + 1) {
      assert k in s.windows.Keys && k !in KeySet(KeysOf(groups[i])) && Pending(k, groups, i);
      var j :| i <= j < |groups| && k in KeysOf(groups[j]);
      assert j != i;
    }
  }

  ghost predicate AllOfInstanceScheduled(s: PersistentState, instance: InstanceKey) {
    forall k :: k in s.windows && k.instance == instance ==> Scheduled(s.windows[k])
  }

  lemma NonePending(s: PersistentState, instance: InstanceKey, groups: seq<seq<WindowRecord>>)
    requires ScheduledOrPending(s, instance, groups, |groups|)
    ensures AllOfInstanceScheduled(s, instance)
  {
  }

  /** Fences and attempts of other instances are as they were, and nothing new belongs to them. */
  ghost predicate OthersKept(s: PersistentState, t: PersistentState, instance: InstanceKey) {
    && (forall c :: c in s.ledger && c.instance != instance ==> c in t.ledger && t.ledger[c] == s.ledger[c])
    && (forall c :: c in t.ledger && c.instance != instance ==> c in s.ledger)
    && (forall id :: id in s.attempts && s.attempts[id].instanceKey != instance ==>
                       && id in t.attempts
                       && t.attempts[id] == s.attempts[id])
    && (forall id :: id in t.attempts && t.attempts[id].instanceKey != instance ==>
                       && id in s.attempts
                       && s.attempts[id] == t.attempts[id])
  }

  /** So are their windows. */
  ghost predicate WindowsOfOthersKept(s: PersistentState, t: PersistentState, instance: InstanceKey) {
    forall k: WindowKey :: k.instance != instance ==>
                             && (k in s.windows <==> k in t.windows)
                             && (k in s.windows ==> t.windows[k] == s.windows[k])
  }

  ghost predicate Isolated(s: PersistentState, t: PersistentState, instance: InstanceKey) {
    OthersKept(s, t, instance) && WindowsOfOthersKept(s, t, instance)
  }

  lemma IsolatedTransitive(s: PersistentState, t: PersistentState, u: PersistentState, instance: InstanceKey)
    requires Isolated(s, t, instance) && Isolated(t, u, instance)
    ensures Isolated(s, u, instance)
  {
  }

  lemma FrameIsolates(s: PersistentState, t: PersistentState, ks: set<WindowKey>, mine: set<AttemptId>,
                      instance: InstanceKey)
    requires Frame(s, t, ks, mine) && mine !! s.attempts.Keys && NewAttemptsOf(s, t, instance)
    requires forall k :: k in ks ==> k.instance == instance
    ensures Isolated(s, t, instance)
  {
    assert forall k :: k in s.windows <==> k in t.windows.Keys;
  }

  lemma GroupInstance(s: PersistentState, cleared: map<WindowKey, CycleId>, instance: InstanceKey,
                      rs: seq<WindowRecord>)
    requires GroupReady(s, cleared, instance, rs)
    ensures forall k :: k in KeySet(KeysOf(rs)) ==> k.instance == instance
  {
    CandidatesSelectable(s, cleared, instance, rs);
  }

  lemma ReconcileIsolates(p: Params, s: PersistentState, tx: Tx)
    requires p.cfg.Valid() && StateInv(p, s) && tx.Reconcile? && Enabled(s, tx) && tx.now > 0
    ensures Isolated(s, NextState(p, s, tx), tx.instance)
  {
    var t := NextState(p, s, tx);
    forall k: WindowKey | k.instance != tx.instance
      ensures (k in s.windows <==> k in t.windows) && (k in s.windows ==> t.windows[k] == s.windows[k])
    {
      ReconciledTable(p, s, tx.cred, tx.instance, tx.windows, tx.now, k);
      if k in t.windows { ReconcileSchedulesOrGroups(p, s, tx.cred, tx.instance, tx.windows, tx.now, k); }
    }
  }

  /** What reconciling hands to the groups. */
  lemma ReconcileReadies(p: Params, w: World, v: World, tx: Tx, groups: seq<seq<WindowRecord>>, names: seq<string>)
    requires p.cfg.Valid() && StateInv(p, w.mem) && tx.Reconcile? && Enabled(w.mem, tx) && tx.now > 0
             && Ended(p, w, v, tx, Nil)
    requires ListsGroups(groups, names, Grouped(Joining(p, w.mem, tx.cred, tx.instance, tx.windows, tx.now)))
    ensures GroupsReady(v.mem, v.cleared, tx.instance, groups, 0)
  {
    var rs := Joining(p, w.mem, tx.cred, tx.instance, tx.windows, tx.now);
    ReconcileYieldsCandidates(p, w.mem, tx.cred, tx.instance, tx.windows, tx.now, v.cleared);
    ListedGroupsPartition(rs, groups, names);
    forall j | 0 <= j < |groups| ensures GroupReady(v.mem, v.cleared, tx.instance, groups[j]) {
      forall r | r in groups[j] ensures Candidate(v.mem, v.cleared, tx.instance, r) {
        assert r in rs;
      }
    }
  }

  lemma ReconcileSchedules(p: Params, s: PersistentState, tx: Tx, groups: seq<seq<WindowRecord>>, names: seq<string>)
    requires p.cfg.Valid() && StateInv(p, s) && tx.Reconcile? && Enabled(s, tx) && tx.now > 0
    requires ListsGroups(groups, names, Grouped(Joining(p, s, tx.cred, tx.instance, tx.windows, tx.now)))
    ensures ScheduledOrPending(NextState(p, s, tx), tx.instance, groups, 0)
  {
    var t, rs := NextState(p, s, tx), Joining(p, s, tx.cred, tx.instance, tx.windows, tx.now);
    NormalizedIsAcceptable(tx.windows);
    JoiningExact(p, s, tx.cred, tx.instance, tx.windows, tx.now);
    ListedGroupsPartition(rs, groups, names);
    ApplyPreserves(p, s, tx);
    forall k | k in t.windows && k.instance == tx.instance && !Scheduled(t.windows[k]) ensures Pending(k, groups, 0) {
      ReconcileSchedulesOrGroups(p, s, tx.cred, tx.instance, tx.windows, tx.now, k);
      var j :| 0 <= j < |groups| && t.windows[k] in groups[j];
      assert WindowOk(k, t.windows[k]);
      KeysOfMembers(groups[j], k);
    }
  }

  lemma ConfirmedFrame(s: PersistentState, t: PersistentState, u: PersistentState, records: seq<WindowRecord>,
                       confirmed: seq<WindowRecord>, mine: set<AttemptId>)
    requires Frame(s, t, KeySet(KeysOf(records)), {}) && Frame(t, u, KeySet(KeysOf(confirmed)), mine)
    requires forall c :: c in confirmed ==> c.key in KeysOf(records)
    ensures Frame(s, u, KeySet(KeysOf(records)), mine)
  {
    forall k | k in KeysOf(confirmed) ensures k in KeysOf(records) { KeysOfMembers(confirmed, k); }
    FrameWeaken(s, t, KeySet(KeysOf(records)), {}, KeySet(KeysOf(records)), mine);
    FrameWeaken(t, u, KeySet(KeysOf(confirmed)), mine, KeySet(KeysOf(records)), mine);
    FrameTransitive(s, t, u, KeySet(KeysOf(records)), mine);
  }

  // ----- the start of a Tick -----

  /** Windows of other instances under other credentials are as they were. */
  ghost predicate StrangersKept(s: PersistentState, t: PersistentState, authId: string, instance: InstanceKey) {
    forall k :: k in s.windows && k.instance != instance && s.windows[k].authId != authId ==>
                  && k in t.windows
                  && t.windows[k] == s.windows[k]
  }

  /** The credential's windows under any other identity are Disabled. */
  ghost predicate ReplacedDisabled(s: PersistentState, authId: string, instance: InstanceKey) {
    forall k :: k in s.windows && k.instance != instance && s.windows[k].authId == authId ==>
                  s.windows[k].state == Disabled
  }

  /** The first event after `r` is an acknowledged retirement. */
  ghost predicate Retired(r: seq<Event>, t: seq<Event>, authId: string, instance: InstanceKey) {
    |t| > |r| && t[|r|].Committed? && t[|r|].tx == RetireReplaced(authId, instance) && t[|r|].fault.Acknowledged?
  }

  lemma RetireEffect(p: Params, w: World, v: World, authId: string, instance: InstanceKey, exit: Exit)
    requires WindowsOk(w.mem.windows) && Ended(p, w, v, RetireReplaced(authId, instance), exit) && exit != Died
    ensures OthersKept(w.mem, v.mem, instance) && StrangersKept(w.mem, v.mem, authId, instance)
    ensures v.mem.attempts == w.mem.attempts
    ensures exit == Nil ==> ReplacedDisabled(v.mem, authId, instance)
  {
    if exit == Nil {
      forall k | k in w.mem.windows && k.instance != instance
        ensures k in v.mem.windows
        ensures if w.mem.windows[k].authId == authId then v.mem.windows[k] == EditRecord(p, Retire, w.mem.windows[k])
                else v.mem.windows[k] == w.mem.windows[k]
      {
        assert WindowOk(k, w.mem.windows[k]);
      }
    }
  }

  lemma RetiredThenIsolated(s: PersistentState, t: PersistentState, u: PersistentState, authId: string,
                            instance: InstanceKey)
    requires OthersKept(s, t, instance) && StrangersKept(s, t, authId, instance) && Isolated(t, u, instance)
    ensures OthersKept(s, u, instance) && StrangersKept(s, u, authId, instance)
    ensures ReplacedDisabled(t, authId, instance) ==> ReplacedDisabled(u, authId, instance)
  {
  }

  lemma ReadFailureIsolates(p: Params, w: World, v: World, tx: Tx, saved: Exit)
    requires WindowsOk(w.mem.windows) && tx.ReadFailure? && Ended(p, w, v, tx, saved) && saved != Died
    ensures Isolated(w.mem, v.mem, tx.instance)
  {
    if saved == Nil {
      forall k: WindowKey | k.instance != tx.instance
        ensures (k in w.mem.windows <==> k in v.mem.windows)
                && (k in w.mem.windows ==> v.mem.windows[k] == w.mem.windows[k])
      {
        assert k in w.mem.windows ==> WindowOk(k, w.mem.windows[k]);
      }
    }
  }
}
