/**
 The controller, its store and its environment as one state machine. A run is the sequence of its events;
 every choice of the environment, and every crash, is in the events. Controller.dfy shows that the code
 only produces such runs.
 */
module Machine {
  import opened Wrappers
  import opened Model
  import opened Adapters
  import opened Normalize
  import opened Transactions
  import opened StateInvariant
  import opened Preservation
  import opened Files
  import opened Durability

  /** Where the holder of the controller's mutex stands between Prepare and Send. */
  datatype Pc = Down | Ready | Armed(attempt: ProbeAttempt) | Fenced(attempt: ProbeAttempt)

  /** What happens to the controller, with what its environment answered. */
  datatype Event =
    | Committed(tx: Tx, fault: Fault)
    | Observed(instance: InstanceKey, windows: seq<QuotaWindow>)  // a successful, well-formed read
    | Missed(instance: InstanceKey, cause: Option<Note>)          // a read that failed; None if it was malformed
    | Planned(problem: Option<Note>)                              // PlanActivation, and why its plan is unusable
    | Dispatched(attempt: ProbeAttempt, error: Option<Note>)      // sender.Send, and its error
    | Waited(cancelled: Option<Note>)                             // a wait, and why it was cut short
    | Crashed
    | Restarted

  datatype World = World(
    pc: Pc,
    mem: PersistentState,                                  // Store.state
    files: Files,
    acked: PersistentState,                                // the last state an Update acknowledged
    seen: Option<(InstanceKey, seq<QuotaWindow>)>,         // the quota read no event has followed yet
    answer: Option<(AttemptId, Option<Note>)>,             // the send no event has followed yet, and its error
    cleared: map<WindowKey, CycleId>)                      // windows this Tick has found still lazy, by baseline cycle

  function Init(): World {
    World(Down, EmptyState(), NoFiles(), EmptyState(), None, None, map[])
  }

  /** The read shows the window activatable and not rolled over, against a baseline that is already durable. */
  predicate StillLazy(p: Params, x: WindowRecord, w: QuotaWindow) {
    p.For(x.instanceKey).Can(w) && (SameReset(p, x.baseline, w) || w.lazyHint)
  }

  /** The windows a transaction clears for activation, judged against the baselines of the state before it. */
  function Clears(p: Params, s: PersistentState, tx: Tx): map<WindowKey, CycleId> {
    match tx
    case Reconcile(cred, instance, ws, now) =>
      var byBucket := ByBucket(ws);
      map k | k in s.windows && k.instance == instance && k.bucketId in byBucket
              && StillLazy(p, s.windows[k], Attributed(cred, byBucket[k.bucketId]))
              && now >= s.windows[k].baseline.resetAt + p.cfg.resetGrace
        :: s.windows[k].baseline.cycleId
    case PrecheckGroup(instance, keys, ws, now) =>
      var byBucket := ByBucket(ws);
      map k | k in s.windows && k in keys && k.bucketId in byBucket
              && StillLazy(p, s.windows[k], byBucket[k.bucketId])
        :: s.windows[k].baseline.cycleId
    case _ => map[]
  }

  /** The clearances after a transaction; each Tick begins with RetireReplaced and without any. */
  function ClearedAfter(p: Params, w: World, tx: Tx): map<WindowKey, CycleId> {
    if tx.RetireReplaced? then map[] else w.cleared + Clears(p, w.mem, tx)
  }

  /** Which transactions the controller starts: their own conditions, and the read or step they follow. */
  ghost predicate Allowed(p: Params, w: World, tx: Tx) {
    && Enabled(w.mem, tx)
    && match tx
       case Reconcile(_, instance, ws, _) => w.seen == Some((instance, ws))
       case PrecheckGroup(instance, _, ws, _) => w.seen == Some((instance, ws))
       case VerifyAttempt(id, ws, _) => w.seen == Some((w.mem.attempts[id].instanceKey, ws))
       case DryRun(_, _) => p.cfg.dryRun
       case Prepare(a) =>
         && !p.cfg.dryRun
         && forall i :: 0 <= i < |a.windowKeys| ==>
                          && a.windowKeys[i] in w.cleared
                          && w.cleared[a.windowKeys[i]] == a.cycleIds[i]
       case Fence(a, _) => w.pc == Armed(a)
       case SendOutcome(id, phase, result, sentAt, error, _) => Truthful(w, id, phase, result, sentAt, error)
       case _ => true
  }

  /** Only the answer just received makes a send known to have been made; any other outcome is unknown. */
  predicate Truthful(w: World, id: AttemptId, phase: AttemptPhase, result: SendResult, sentAt: Time,
                     error: Option<Note>)
  {
    && id in w.mem.attempts
    && (if phase == AttemptPhase.Sent then
          w.answer == Some((id, None)) && result == ResultSent && sentAt != ZERO_TIME && error.None?
        else
          result == ResultUnknown && (sentAt == ZERO_TIME || sentAt == w.mem.attempts[id].sentAt))
  }

  function PcAfter(tx: Tx): Pc {
    match tx
    case Prepare(a) => Armed(a)
    case Fence(a, _) => Fenced(a)
    case _ => Ready
  }

  ghost function CommitStep(p: Params, w: World, tx: Tx, fault: Fault): Option<World> {
    if w.pc == Down || !Allowed(p, w, tx) || !fault.Covered(w.files, w.mem.sequence)
       || Apply(p, w.mem, tx).None? then None
    else
      var next := NextState(p, w.mem, tx);
      var files := After(w.files, next, fault);
      match fault
      case Acknowledged(_) => Some(World(PcAfter(tx), next, files, next, None, None, ClearedAfter(p, w, tx)))
      case ErrorAt(_, _) => Some(World(Ready, w.mem, files, w.acked, None, None, map[]))
      case CrashAt(_) => Some(World(Down, w.mem, files, w.acked, None, None, map[]))
  }

  function Idle(w: World): World { w.(pc := Ready, seen := None, answer := None) }

  ghost function Step(p: Params, w: World, e: Event): Option<World> {
    match e
    case Committed(tx, fault) => CommitStep(p, w, tx, fault)
    case Observed(instance, ws) =>
      if w.pc == Down || !Normalized(ws) then None
      else Some(w.(pc := Ready, seen := Some((instance, ws)), answer := None))
    case Missed(_, _) => if w.pc == Down then None else Some(Idle(w))
    case Planned(_) => if w.pc == Down then None else Some(Idle(w))
    case Dispatched(a, error) =>
      if w.pc == Fenced(a) then Some(w.(pc := Ready, seen := None, answer := Some((a.id, error)))) else None
    case Waited(_) => if w.pc == Down then None else Some(Idle(w))
    case Crashed => if w.pc == Down then None else Some(Idle(w).(pc := Down, cleared := map[]))
    case Restarted =>
      if w.pc != Down || Load(w.files).Err? then None
      else Some(World(Ready, Load(w.files).value, w.files, w.acked, None, None, map[]))
  }

  /** The world a run leads to; None if some event was not possible. */
  ghost function Exec(p: Params, run: seq<Event>): Option<World> {
    if run == [] then Some(Init())
    else
      var w := Exec(p, run[..|run| - 1]);
      if w.None? then None else Step(p, w.value, run[|run| - 1])
  }

  lemma ExecSnoc(p: Params, run: seq<Event>, e: Event)
    requires Exec(p, run).Some?
    ensures Exec(p, run + [e]) == Step(p, Exec(p, run).value, e)
  {
    assert (run + [e])[..|run + [e]| - 1] == run;
  }

  ghost predicate IsRun(p: Params, run: seq<Event>) { Exec(p, run).Some? }

  lemma {:induction false} PrefixIsRun(p: Params, run: seq<Event>, n: nat)
    requires IsRun(p, run) && n <= |run|
    ensures IsRun(p, run[..n])
  {
    if n < |run| {
      PrefixIsRun(p, run[..|run| - 1], n);
      assert run[..|run| - 1][..n] == run[..n];
    } else {
      assert run[..n] == run;
    }
  }

  // ----- what holds in every world a run reaches -----

  /** From a good state only good states that extend it. */
  ghost function Forward(p: Params): Relation {
    (a: PersistentState, b: PersistentState) =>
      a.sequence <= b.sequence && (StateInv(p, a) ==> StateInv(p, b) && Extends(a, b))
  }

  lemma ForwardIsPreorder(p: Params)
    ensures Preorder(Forward(p))
  {
    var R := Forward(p);
    forall a ensures R(a, a) { ExtendsReflexive(a); }
    forall a, b, c | R(a, b) && R(b, c) ensures R(a, c) {
      if StateInv(p, a) { ExtendsTransitive(a, b, c); }
    }
  }

  ghost predicate FencedIn(s: PersistentState, a: ProbeAttempt) {
    forall c :: c in a.cycleIds ==> c in s.ledger && s.ledger[c].attemptId == a.id
  }

  /** The files and the memory hold what descends, by `R`, from the last acknowledged state. */
  ghost predicate Follows(R: Relation, w: World) {
    && FilesInv(R, w.files)
    && R(w.acked, Base(w.files))
    && (w.pc != Down ==> MemoryInv(R, w.files, w.mem))
  }

  function NextState(p: Params, s: PersistentState, tx: Tx): PersistentState
    requires Apply(p, s, tx).Some?
  {
    Stamp(Apply(p, s, tx).value)
  }

  /** The state an event tries to write, if it does, descends from the one in memory. */
  ghost predicate Descends(R: Relation, p: Params, w: World, e: Event) {
    e.Committed? && Apply(p, w.mem, e.tx).Some? ==> R(w.mem, NextState(p, w.mem, e.tx))
  }

  lemma CommitFollows(R: Relation, p: Params, w: World, tx: Tx, fault: Fault)
    requires Preorder(R) && Follows(R, w) && CommitStep(p, w, tx, fault).Some? && R(w.mem, NextState(p, w.mem, tx))
    ensures Follows(R, CommitStep(p, w, tx, fault).value)
  {
    var next := NextState(p, w.mem, tx);
    StampsNext(p, w.mem, tx);
    assert Begins(R, w.files, w.mem, next);
    UpdateKeepsInv(R, w.files, w.mem, next, fault);
    assert R(next, next);
    assert R(w.acked, Base(w.files)) && R(Base(w.files), Base(After(w.files, next, fault)));
  }

  /** Whatever preorder contains every step made, the store never leaves it. */
  lemma StepFollows(R: Relation, p: Params, w: World, e: Event)
    requires Preorder(R) && Follows(R, w) && Step(p, w, e).Some? && Descends(R, p, w, e)
    ensures Follows(R, Step(p, w, e).value)
  {
    match e
    case Committed(tx, fault) => CommitFollows(R, p, w, tx, fault);
    case Restarted => LoadDescends(R, w.files);
    case _ =>
  }

  lemma InitFollows(R: Relation)
    requires Preorder(R)
    ensures Follows(R, Init())
  {
    assert R(EmptyState(), EmptyState());
  }

  /** What is in memory descends from what was acknowledged. */
  lemma MemoryFollows(R: Relation, w: World)
    requires Preorder(R) && Follows(R, w) && w.pc != Down
    ensures R(w.acked, w.mem)
  {
    assert R(w.acked, Base(w.files)) && R(Base(w.files), w.mem);
  }

  /** So is whatever load gives. */
  lemma LoadFollows(R: Relation, w: World)
    requires Preorder(R) && Follows(R, w)
    ensures Load(w.files).Ok? && R(w.acked, Load(w.files).value)
  {
    LoadDescends(R, w.files);
    assert R(w.acked, Base(w.files)) && R(Base(w.files), Load(w.files).value);
  }

  ghost predicate WorldInv(p: Params, w: World) {
    && Follows(Forward(p), w)
    && StateInv(p, w.acked)
    && (w.pc.Armed? ==> w.mem == w.acked && Claimed(w.mem, w.pc.attempt))
    && (w.pc.Fenced? ==> w.mem == w.acked && FencedIn(w.mem, w.pc.attempt))
  }

  lemma MemoryIsGood(p: Params, w: World)
    requires WorldInv(p, w) && w.pc != Down
    ensures StateInv(p, w.mem) && Extends(w.acked, w.mem)
  {
    ForwardIsPreorder(p);
    MemoryFollows(Forward(p), w);
  }

  lemma InitInv(p: Params)
    ensures WorldInv(p, Init())
  {
    EmptyStateInv(p);
    ForwardIsPreorder(p);
    InitFollows(Forward(p));
  }

  lemma CommitBegins(p: Params, w: World, tx: Tx)
    requires p.cfg.Valid() && WorldInv(p, w) && w.pc != Down && Enabled(w.mem, tx) && Apply(p, w.mem, tx).Some?
    ensures Forward(p)(w.mem, NextState(p, w.mem, tx)) && Begins(Forward(p), w.files, w.mem, NextState(p, w.mem, tx))
    ensures StateInv(p, NextState(p, w.mem, tx)) && Extends(w.mem, NextState(p, w.mem, tx))
  {
    MemoryIsGood(p, w);
    ApplyPreserves(p, w.mem, tx);
    StampsNext(p, w.mem, tx);
  }

  lemma KeepsSequence(p: Params, s: PersistentState, tx: Tx)
    requires Apply(p, s, tx).Some?
    ensures Apply(p, s, tx).value.sequence == s.sequence
  {
  }

  lemma StampsNext(p: Params, s: PersistentState, tx: Tx)
    requires Apply(p, s, tx).Some?
    ensures NextState(p, s, tx).sequence == s.sequence + 1
  {
  }

  lemma ArmedAfterPrepare(p: Params, s: PersistentState, a: ProbeAttempt)
    requires p.cfg.Valid() && StateInv(p, s) && Enabled(s, Prepare(a)) && Apply(p, s, Prepare(a)).Some?
    ensures Claimed(NextState(p, s, Prepare(a)), a)
  {
    PreparePreserves(p, s, a);
    StampKeepsClaim(Apply(p, s, Prepare(a)).value, a);
  }

  lemma StampKeepsClaim(t: PersistentState, a: ProbeAttempt)
    requires Claimed(t, a)
    ensures Claimed(Stamp(t), a)
  {
  }

  lemma FencedAfterFence(p: Params, s: PersistentState, a: ProbeAttempt, now: Time)
    requires Apply(p, s, Fence(a, now)).Some?
    ensures FencedIn(NextState(p, s, Fence(a, now)), a)
  {
  }

  lemma CommitKeepsInv(p: Params, w: World, tx: Tx, fault: Fault)
    requires p.cfg.Valid() && WorldInv(p, w) && CommitStep(p, w, tx, fault).Some?
    ensures WorldInv(p, CommitStep(p, w, tx, fault).value)
    ensures Extends(w.acked, CommitStep(p, w, tx, fault).value.acked)
  {
    var next := NextState(p, w.mem, tx);
    ForwardIsPreorder(p);
    CommitBegins(p, w, tx);
    CommitFollows(Forward(p), p, w, tx, fault);
    MemoryIsGood(p, w);
    if fault.Acknowledged? {
      ExtendsTransitive(w.acked, w.mem, next);
      if tx.Prepare? { ArmedAfterPrepare(p, w.mem, tx.attempt); }
      if tx.Fence? { FencedAfterFence(p, w.mem, tx.attempt, tx.now); }
    } else {
      ExtendsReflexive(w.acked);
    }
  }

  lemma StepKeepsInv(p: Params, w: World, e: Event)
    requires p.cfg.Valid() && WorldInv(p, w) && Step(p, w, e).Some?
    ensures WorldInv(p, Step(p, w, e).value) && Extends(w.acked, Step(p, w, e).value.acked)
  {
    if e.Committed? {
      CommitKeepsInv(p, w, e.tx, e.fault);
    } else {
      OtherKeepsInv(p, w, e);
    }
  }

  lemma OtherKeepsInv(p: Params, w: World, e: Event)
    requires WorldInv(p, w) && !e.Committed? && Step(p, w, e).Some?
    ensures WorldInv(p, Step(p, w, e).value) && Extends(w.acked, Step(p, w, e).value.acked)
  {
    ExtendsReflexive(w.acked);
    ForwardIsPreorder(p);
    StepFollows(Forward(p), p, w, e);
  }

  /** Every reachable world is good. */
  lemma {:induction false} ReachableInv(p: Params, run: seq<Event>)
    requires p.cfg.Valid() && IsRun(p, run)
    ensures WorldInv(p, Exec(p, run).value)
  {
    if run == [] {
      InitInv(p);
    } else {
      ReachableInv(p, run[..|run| - 1]);
      StepKeepsInv(p, Exec(p, run[..|run| - 1]).value, run[|run| - 1]);
    }
  }
}
