/**
 The Controller of core/controller.go. A ghost run records its events, and every method is shown to
 produce only runs of the state machine, so what Safety.dfy proves of runs holds of this code.
 */
module ControllerModule {
  import opened Wrappers
  import opened Model
  import opened Adapters
  import opened Normalize
  import opened Transactions
  import opened StateInvariant
  import opened Preservation
  import opened Files
  import opened StoreModule
  import opened Machine
  import opened Safety
  import opened Grouping
  import opened Effects
  import opened Loops
  import opened Steps
  import opened Laws
  import opened Traces
  import opened Sends
  import opened Recovery

  class Controller {
    const p: Params
    const store: Store
    const hasSender: bool
    ghost var run: seq<Event>
    ghost var world: World
    ghost var calls: seq<Call>

    /** The run accounts for everything in memory and on disk. */
    ghost predicate Tracked()
      reads this, store, store.disk
    {
      && p.cfg.Valid() && !store.disk.tornErrors
      && Exec(p, run) == Some(world)
      && world.files == store.disk.files
      && (world.pc != Down ==> world.mem == store.state)
    }

    /** The process is alive. */
    ghost predicate Up()
      reads this, store, store.disk
    {
      Tracked() && world.pc != Down
    }

    /** A process about to start on an empty state directory. */
    constructor (p: Params, disk: Disk, hasSender: bool)
      requires p.cfg.Valid() && !disk.tornErrors && disk.files == NoFiles()
      ensures this.p == p && fresh(store) && store.disk == disk
      ensures Tracked() && world.pc == Down && run == [] && calls == []
    {
      this.p, this.hasSender := p, hasSender;
      store := new Store(disk, EmptyState());
      run, world, calls := [], Init(), [];
    }

    lemma StateIsGood()
      requires Up()
      ensures StateInv(p, store.state)
    {
      ReachableStateIsGood(p, run);
    }

    // ----- the environment -----

    /** A crash between two steps. */
    method Preempt() returns (dead: bool)
      requires Up()
      modifies this`run, this`world
      ensures Tracked() && Plain(old(run), run)
      ensures Reads(run) == old(Reads(run))
      ensures if dead then world.pc == Down && run == old(run) + [Crashed] else run == old(run) && world == old(world)
    {
      dead := false;
      if * {
        dead := true;
        ExecSnoc(p, run, Crashed);
        ReadsSnoc(run, Crashed);
        run := run + [Crashed];
        world := Step(p, world, Crashed).value;
      }
    }

    /** Any reading of the clock, which is past Go's zero time. */
    static method Now() returns (now: Time)
      ensures now > 0
    {
      now := *;
      if now <= 0 { now := 1; }
    }

    static method AnyCause() returns (n: Note)
    {
      var text: string := *;
      n := Cause(text);
    }

    /** adapter.ReadQuota and normalizeWindows, for the credential of the instance. */
    method ReadQuota(instance: InstanceKey) returns (r: Read)
      requires Up()
      modifies this`run, this`world
      ensures Tracked() && Plain(old(run), run)
      ensures Reads(run) == old(Reads(run)) + if r.ReadOk? then 1 else 0
      ensures r == ReadDied <==> world.pc == Down
      ensures r == ReadDied ==> run == old(run) + [Crashed]
      ensures r.ReadOk? ==> run == old(run) + [Observed(instance, r.windows)]
      ensures r.ReadOk? ==>
                && Normalized(r.windows)
                && world == old(world).(pc := Ready, seen := Some((instance, r.windows)), answer := None)
      ensures r.ReadError? ==> run == old(run) + [Missed(instance, Some(r.cause))] && world == Idle(old(world))
      ensures r.ReadInvalid? ==> run == old(run) + [Missed(instance, None)] && world == Idle(old(world))
    {
      var dead := Preempt();
      if dead { return ReadDied; }
      ghost var e;
      if * {
        var cause := AnyCause();
        r, e := ReadError(cause), Missed(instance, Some(cause));
      } else {
        var raw: seq<QuotaWindow> := *;
        var windows := NormalizeWindows(raw);
        if windows.Err? {
          r, e := ReadInvalid(windows.error), Missed(instance, None);
        } else {
          r, e := ReadOk(windows.value), Observed(instance, windows.value);
        }
      }
      Record(e);
    }

    /** One event of the environment, which touches neither memory nor disk. */
    ghost method Record(e: Event)
      requires Up() && !e.Committed? && !e.Crashed? && !e.Restarted? && Step(p, world, e).Some?
      modifies this`run, this`world
      ensures Up() && run == old(run) + [e] && Some(world) == Step(p, old(world), e)
      ensures Reads(run) == old(Reads(run)) + if e.Observed? then 1 else 0
    {
      ExecSnoc(p, run, e);
      ReadsSnoc(run, e);
      run := run + [e];
      world := Step(p, world, e).value;
    }

    /** adapter.PlanActivation, and the bounds its plan must have. */
    method PlanActivation() returns (problem: Option<Note>)
      requires Up()
      modifies this`run, this`world
      ensures Up() && Plain(old(run), run) && run == old(run) + [Planned(problem)] && world == Idle(old(world))
    {
      problem := None;
      if * {
        var cause := AnyCause();
        problem := Some(cause);
      } else if * {
        problem := Some(UnboundedPlan);
      }
      Record(Planned(problem));
    }

    /** wait, which a cancelled context cuts short. */
    method Wait() returns (cancelled: Option<Note>)
      requires Up()
      modifies this`run, this`world
      ensures Up() && Plain(old(run), run) && run == old(run) + [Waited(cancelled)] && world == Idle(old(world))
      ensures Reads(run) == old(Reads(run))
    {
      cancelled := None;
      if * {
        var cause := AnyCause();
        cancelled := Some(cause);
      }
      Record(Waited(cancelled));
    }

    /** Store.Update with the result the closure computed. */
    method Save(ghost tx: Tx, next: PersistentState) returns (exit: Exit)
      requires Up() && Allowed(p, world, tx) && Apply(p, store.state, tx) == Some(next)
      modifies this`run, this`world, store`state, store.disk`files
      ensures Tracked() && exists fault ::
                && run == old(run) + [Committed(tx, fault)]
                && (exit == Nil <==> fault.Acknowledged?)
      ensures Reads(run) == old(Reads(run))
      ensures Ended(p, old(world), world, tx, exit) && (exit == Died <==> world.pc == Down)
      ensures exit.Error? ==> exit == Error(NotPersisted)
    {
      KeepsSequence(p, store.state, tx);
      var o, fault := store.Update(next);
      exit := ExitOf(o);
      ghost var e := Committed(tx, fault);
      ExecSnoc(p, run, e);
      ReadsSnoc(run, e);
      run := run + [e];
      world := CommitStep(p, world, tx, fault).value;
    }

    /** Save, told by its effect. */
    method Commit(ghost tx: Tx, next: PersistentState) returns (exit: Exit)
      requires Up() && Allowed(p, world, tx) && Apply(p, store.state, tx) == Some(next)
      modifies this`run, this`world, store`state, store.disk`files
      ensures Tracked() && exists fault ::
                && run == old(run) + [Committed(tx, fault)]
                && (exit == Nil <==> fault.Acknowledged?)
      ensures !Judges(tx) ==> Plain(old(run), run)
      ensures Reads(run) == old(Reads(run))
      ensures Ended(p, old(world), world, tx, exit) && (exit == Died <==> world.pc == Down)
      ensures exit == Nil ==> exists removed :: run == old(run) + [Committed(tx, Acknowledged(removed))]
      ensures exit.Error? ==> exit == Error(NotPersisted)
      ensures exit == Nil ==> Leaves(p, old(store.state), tx, store.state)
    {
      StateIsGood();
      ghost var w := world;
      exit := Save(tx, next);
      if exit == Nil { EndedLeaves(p, w, world, tx); }
    }

    // ----- whole-table transactions -----

    method RetireReplacedInstances(cred: Credential, current: InstanceKey) returns (exit: Exit)
      requires Up()
      modifies this`run, this`world, store`state, store.disk`files
      ensures Tracked() && Plain(old(run), run)
      ensures Ended(p, old(world), world, RetireReplaced(cred.authId, current), exit)
              && (exit == Died <==> world.pc == Down)
      ensures exists fault ::
                && run == old(run) + [Committed(RetireReplaced(cred.authId, current), fault)]
                && (exit == Nil <==> fault.Acknowledged?)
      ensures exit == Nil ==> OthersRetired(old(store.state), store.state, cred.authId, current)
      ensures exit != Error(CycleAlreadyAttempted)
    {
      var s := store.state;
      var windows := TouchWhere(p, s.windows, ReplacedBy(cred.authId, current), Retire);
      exit := Commit(RetireReplaced(cred.authId, current), s.(windows := windows));
    }

    method MarkCredentialState(cred: Credential, state: ProbeState, note: Note) returns (exit: Exit)
      requires Up()
      modifies this`run, this`world, store`state, store.disk`files
      ensures Tracked() && Plain(old(run), run)
      ensures Ended(p, old(world), world, MarkCredential(cred.authId, state, note), exit)
              && (exit == Died <==> world.pc == Down)
      ensures exit == Nil ==> CredentialMarked(old(store.state), store.state, cred.authId, state, note)
      ensures exit != Error(CycleAlreadyAttempted)
    {
      var s := store.state;
      var windows := TouchWhere(p, s.windows, OfCredential(cred.authId), Block(state, note));
      exit := Commit(MarkCredential(cred.authId, state, note), s.(windows := windows));
    }

    /** Blocked, the credential's windows are not looked at again until someone acts; nothing else changes. */
    method BlockCredential(cred: Credential, reason: Note) returns (exit: Exit)
      requires Up()
      modifies this`run, this`world, this`calls, store`state, store.disk`files
      ensures Tracked() && Plain(old(run), run) && calls == old(calls) + [Blocking(cred)]
      ensures Ended(p, old(world), world, MarkCredential(cred.authId, AuthBlocked, reason), exit)
              && (exit == Died <==> world.pc == Down)
      ensures exit == Nil ==> CredentialMarked(old(store.state), store.state, cred.authId, AuthBlocked, reason)
    {
      calls := calls + [Blocking(cred)];
      exit := MarkCredentialState(cred, AuthBlocked, reason);
    }

    /** The read error is returned once it has been recorded. */
    method MarkReadFailure(instance: InstanceKey, cause: Note) returns (exit: Exit, ghost tx: Tx, ghost saved: Exit)
      requires Up()
      modifies this`run, this`world, store`state, store.disk`files
      ensures Tracked() && Plain(old(run), run)
      ensures tx.ReadFailure? && tx.instance == instance && tx.cause == cause && tx.now > 0
      ensures Ended(p, old(world), world, tx, saved) && (saved == Died <==> world.pc == Down)
      ensures exit == if saved == Nil then Error(Because(cause)) else saved
      ensures saved.Error? ==> saved == Error(NotPersisted)
      ensures exit != Error(CycleAlreadyAttempted)
      ensures saved == Nil ==> ReadFailureNoted(p, old(store.state), store.state, instance, cause, tx.now)
    {
      var s := store.state;
      var now := Now();
      var windows := TouchWhere(p, s.windows, OfInstance(instance), ReadFailed(cause, now));
      tx := ReadFailure(instance, cause, now);
      exit := Commit(tx, s.(windows := windows));
      saved := exit;
      if exit == Nil { exit := Error(Because(cause)); }
    }

    /** The baselines updated, and the groups that may be activated. */
    method ReconcileObservation(cred: Credential, instance: InstanceKey, ws: seq<QuotaWindow>)
      returns (exit: Exit, groups: seq<seq<WindowRecord>>, ghost tx: Tx, ghost names: seq<string>)
      requires Up() && Normalized(ws) && world.seen == Some((instance, ws))
      modifies this`run, this`world, store`state, store.disk`files
      ensures Tracked() && exists fault :: run == old(run) + [Committed(tx, fault)]
      ensures tx.Reconcile? && tx == Reconcile(cred, instance, ws, tx.now) && tx.now > 0
      ensures Ended(p, old(world), world, tx, exit) && (exit == Died <==> world.pc == Down)
      ensures exit == Nil ==> exists removed :: run == old(run) + [Committed(tx, Acknowledged(removed))]
      ensures exit != Error(CycleAlreadyAttempted)
      ensures ListsGroups(groups, names, Grouped(Joining(p, old(store.state), cred, instance, ws, tx.now)))
      ensures exit == Nil ==> ReadReconciled(p, old(store.state), store.state, cred, instance, ws, tx.now)
    {
      var s := store.state;
      var now := Now();
      NormalizedIsAcceptable(ws);
      var windows, table, seen := ReconcileBuckets(p, s, cred, instance, ws, now);
      windows := TouchWhere(p, windows, Unseen(instance, seen), Absent(now));
      groups, names := ListGroups(table);
      tx := Reconcile(cred, instance, ws, now);
      exit := Commit(tx, s.(windows := windows));
    }

    // ----- transactions on a group -----

    /** The cause is returned once it has been recorded. */
    method RecordGroupFailure(records: seq<WindowRecord>, cause: Note)
      returns (exit: Exit, ghost tx: Tx, ghost saved: Exit)
      requires Up() && Selectable(store.state, KeysOf(records))
      modifies this`run, this`world, store`state, store.disk`files
      ensures Tracked() && Plain(old(run), run)
      ensures tx.GroupFailure? && tx == GroupFailure(KeysOf(records), cause, tx.now) && tx.now > 0
      ensures Ended(p, old(world), world, tx, saved) && (saved == Died <==> world.pc == Down)
      ensures exit == if saved == Nil then Error(Because(cause)) else saved
      ensures saved.Error? ==> saved == Error(NotPersisted)
      ensures exit != Error(CycleAlreadyAttempted)
      ensures saved == Nil ==> GroupFailureNoted(p, old(store.state), store.state, KeysOf(records), cause, tx.now)
    {
      var s := store.state;
      var now := Now();
      var keys, _ := CollectTargets(records);
      var windows := TouchKeys(p, s.windows, keys, GroupFailed(cause, now));
      tx := GroupFailure(keys, cause, now);
      exit := Commit(tx, s.(windows := windows));
      saved := exit;
      if exit == Nil { exit := Error(Because(cause)); }
    }

    /** RecordGroupFailure, told by its effect; the cause is returned, so this never ends in nil. */
    method FailGroup(instance: InstanceKey, records: seq<WindowRecord>, cause: Note) returns (exit: Exit)
      requires Up() && GroupReady(store.state, world.cleared, instance, records)
      modifies this`run, this`world, store`state, store.disk`files
      ensures Tracked() && Plain(old(run), run) && (exit == Died <==> world.pc == Down)
      ensures GaveUp(p, old(store.state), store.state, KeysOf(records), cause, exit)
      ensures exit != Error(CycleAlreadyAttempted)
      ensures exit != Died ==> Frame(old(store.state), store.state, KeySet(KeysOf(records)), {})
    {
      StateIsGood();
      ghost var w := world;
      CandidatesSelectable(w.mem, w.cleared, instance, records);
      ghost var tx, saved;
      exit, tx, saved := RecordGroupFailure(records, cause);
      if exit != Died { StepFrame(p, w, world, tx, saved); }
    }

    method DryRunGroup(records: seq<WindowRecord>) returns (exit: Exit, ghost tx: Tx)
      requires Up() && p.cfg.dryRun && Selectable(store.state, KeysOf(records))
      modifies this`run, this`world, store`state, store.disk`files
      ensures Tracked() && Plain(old(run), run)
      ensures tx.DryRun? && tx == DryRun(KeysOf(records), tx.now) && tx.now > 0
      ensures Ended(p, old(world), world, tx, exit) && (exit == Died <==> world.pc == Down)
      ensures exit != Error(CycleAlreadyAttempted)
      ensures exit == Nil ==> DryRunNoted(p, old(store.state), store.state, KeysOf(records), tx.now)
    {
      var s := store.state;
      var now := Now();
      var keys, _ := CollectTargets(records);
      var windows := TouchKeys(p, s.windows, keys, DryRunOnly(now));
      tx := DryRun(keys, now);
      exit := Commit(tx, s.(windows := windows));
    }

    /** The transaction of precheckGroup, over the second read. */
    method CommitPrecheck(instance: InstanceKey, records: seq<WindowRecord>, ws: seq<QuotaWindow>)
      returns (exit: Exit, confirmed: seq<WindowRecord>, ghost tx: Tx)
      requires Up() && GroupReady(store.state, world.cleared, instance, records)
      requires Normalized(ws) && world.seen == Some((instance, ws))
      modifies this`run, this`world, store`state, store.disk`files
      ensures Tracked() && exists fault ::
                && run == old(run) + [Committed(tx, fault)]
                && (exit == Nil <==> fault.Acknowledged?)
      ensures tx.PrecheckGroup? && tx == PrecheckGroup(instance, KeysOf(records), ws, tx.now) && tx.now > 0
      ensures exit == Nil ==> GroupPrechecked(p, old(store.state), store.state, KeysOf(records), ws, tx.now)
      ensures Ended(p, old(world), world, tx, exit) && (exit == Died <==> world.pc == Down)
      ensures exit != Error(CycleAlreadyAttempted)
      ensures forall r :: r in records ==> r.key in old(store.state.windows)
      ensures confirmed == ConfirmedBy(p, old(store.state.windows), records, Precheck(ByBucket(ws), tx.now))
    {
      var s := store.state;
      var now := Now();
      var byBucket := IndexByBucket(ws);
      CandidatesSelectable(s, world.cleared, instance, records);
      forall r | r in records ensures r.key in s.windows { assert Candidate(s, world.cleared, instance, r); }
      var windows;
      windows, confirmed := PrecheckRecords(p, s.windows, records, byBucket, now);
      tx := PrecheckGroup(instance, KeysOf(records), ws, now);
      exit := Commit(tx, s.(windows := windows));
    }

    // ----- transactions on an attempt -----

    /** The Prepared transaction, whose closure refuses a cycle that is already in the ledger. */
    method PrepareAttempt(a: ProbeAttempt) returns (exit: Exit)
      requires Up() && Allowed(p, world, Prepare(a))
      modifies this`run, this`world, store`state, store.disk`files
      ensures Tracked() && Plain(old(run), run) && (exit == Died <==> world.pc == Down)
      ensures exit == Nil ==> exists fault :: run == old(run) + [Committed(Prepare(a), fault)]
      ensures exit == Error(CycleAlreadyAttempted) <==> AnyFenced(a.cycleIds, old(store.state.ledger))
      ensures exit == Error(CycleAlreadyAttempted) ==> world == old(world)
      ensures exit != Error(CycleAlreadyAttempted) ==> Ended(p, old(world), world, Prepare(a), exit)
      ensures exit == Nil ==> PreparedLeft(old(store.state), store.state, a)
    {
      var s := store.state;
      var found := FindFenced(s.ledger, a.cycleIds);
      if found { return Error(CycleAlreadyAttempted); }
      var windows := TouchKeys(p, s.windows, a.windowKeys, Claim(a.id));
      exit := Commit(Prepare(a), s.(attempts := s.attempts[a.id := a], windows := windows));
    }

    ghost predicate StillPrepared(s: PersistentState, id: AttemptId) {
      id in s.attempts && s.attempts[id].phase == Prepared
    }

    /** The Sending phase and the ledger entries, in one transaction. */
    method FenceAttempt(a: ProbeAttempt, now: Time) returns (exit: Exit)
      requires Up() && (StillPrepared(store.state, a.id) ==> Allowed(p, world, Fence(a, now)))
      modifies this`run, this`world, store`state, store.disk`files
      ensures Tracked() && Plain(old(run), run) && (exit == Died <==> world.pc == Down)
      ensures exit == Nil ==> exists fault :: run == old(run) + [Committed(Fence(a, now), fault)]
      ensures exit == Error(AttemptChanged) <==> !StillPrepared(old(store.state), a.id)
      ensures exit != Error(AttemptChanged) ==> Ended(p, old(world), world, Fence(a, now), exit)
      ensures exit == Error(AttemptChanged) ==> world == old(world)
      ensures exit != Error(CycleAlreadyAttempted)
      ensures exit == Nil ==> FenceLeft(old(store.state), store.state, a, now)
    {
      var s := store.state;
      if a.id !in s.attempts || s.attempts[a.id].phase != Prepared { return Error(AttemptChanged); }
      var ledger := FenceCycles(s.ledger, a.cycleIds, a.id, now);
      var windows := TouchKeys(p, s.windows, a.windowKeys, MarkSending(now));
      exit := Commit(Fence(a, now), s.(attempts := s.attempts[a.id := a.(phase := Sending, sendingAt := now)],
                     ledger := ledger, windows := windows));
    }

    /** What holds of an attempt whose outcome may be marked. */
    ghost predicate Markable(s: PersistentState, id: AttemptId, phase: AttemptPhase) {
      id in s.attempts ==> (phase == Sent || phase == Unknown) && 1 <= s.attempts[id].phase.Rank() <= phase.Rank()
    }

    lemma MarkableCycles(s: PersistentState, id: AttemptId, phase: AttemptPhase)
      requires StateInv(p, s) && Markable(s, id, phase) && id in s.attempts
      ensures Selectable(s, s.attempts[id].windowKeys) && forall c :: c in s.attempts[id].cycleIds ==> c in s.ledger
    {
      assert AttemptOk(s.windows, id, s.attempts[id]);
      forall c | c in s.attempts[id].cycleIds ensures c in s.ledger {
        assert Owns(s, id, c);
      }
    }

    method MarkSendOutcome(id: AttemptId, phase: AttemptPhase, result: SendResult, sentAt: Time, error: Option<Note>)
      returns (exit: Exit, ghost tx: Tx)
      requires Up() && Markable(store.state, id, phase)
      requires id in store.state.attempts ==> Truthful(world, id, phase, result, sentAt, error)
      modifies this`run, this`world, store`state, store.disk`files
      ensures Tracked() && Plain(old(run), run) && (exit == Died <==> world.pc == Down)
      ensures Reads(run) == old(Reads(run))
      ensures exit == Nil ==> exists removed :: run == old(run) + [Committed(tx, Acknowledged(removed))]
      ensures exit == Nil ==> OutcomeLeft(old(store.state), store.state, id, phase, result, sentAt, error)
      ensures exit == Error(AttemptNotFound) <==> id !in old(store.state.attempts)
      ensures exit == Error(AttemptNotFound) ==> world == old(world)
      ensures tx.SendOutcome? && tx == SendOutcome(id, phase, result, sentAt, error, tx.now)
      ensures exit != Error(AttemptNotFound) ==> Ended(p, old(world), world, tx, exit)
      ensures exit != Error(CycleAlreadyAttempted)
    {
      var s := store.state;
      var now := Now();
      tx := SendOutcome(id, phase, result, sentAt, error, now);
      if id !in s.attempts { return Error(AttemptNotFound), tx; }
      StateIsGood();
      MarkableCycles(s, id, phase);
      var a := s.attempts[id];
      var ledger := NoteCycles(s.ledger, a.cycleIds, result);
      var windows := TouchKeys(p, s.windows, a.windowKeys, MarkOutcome(phase, a.suppressUntil, now));
      exit := Commit(tx, s.(attempts := s.attempts[id := NotedAttempt(a, phase, sentAt, error)],
                     ledger := ledger, windows := windows));
    }

    /** The transaction of verifyAttempt, over a successful read. */
    method CommitVerification(id: AttemptId, ws: seq<QuotaWindow>) returns (exit: Exit, ghost tx: Tx)
      requires Up() && id in store.state.attempts && 2 <= store.state.attempts[id].phase.Rank() <= 3
      requires Normalized(ws) && world.seen == Some((store.state.attempts[id].instanceKey, ws))
      modifies this`run, this`world, store`state, store.disk`files
      ensures Tracked() && Plain(old(run), run) && (exit == Died <==> world.pc == Down)
      ensures Reads(run) == old(Reads(run))
      ensures tx.VerifyAttempt? && tx == VerifyAttempt(id, ws, tx.now) && tx.now > 0
      ensures Ended(p, old(world), world, tx, exit)
      ensures exit == Nil ==> exists removed :: run == old(run) + [Committed(tx, Acknowledged(removed))]
      ensures exit == Nil ==> VerifyLeft(p, old(store.state), store.state, id, ws, tx.now)
      ensures exit != Error(CycleAlreadyAttempted)
    {
      var s := store.state;
      var now := Now();
      var byBucket := IndexByBucket(ws);
      StateIsGood();
      var a := s.attempts[id];
      assert AttemptOk(s.windows, id, a);
      var windows := TouchKeys(p, s.windows, a.windowKeys, Verify(byBucket, now));
      tx := VerifyAttempt(id, ws, now);
      exit := Commit(tx, s.(attempts := s.attempts[id := a.(phase := Completed)], windows := windows));
    }

    /** Recovery of an attempt that never reached its fence. */
    method CommitDrop(id: AttemptId) returns (exit: Exit, ghost tx: Tx)
      requires Up() && StillPrepared(store.state, id)
      modifies this`run, this`world, store`state, store.disk`files
      ensures Tracked() && Plain(old(run), run) && (exit == Died <==> world.pc == Down)
      ensures Reads(run) == old(Reads(run))
      ensures tx.DropPrepared? && tx == DropPrepared(id, tx.now) && tx.now > 0
      ensures Ended(p, old(world), world, tx, exit)
      ensures exit == Nil ==> DropLeft(old(store.state), store.state, id, tx.now)
    {
      var s := store.state;
      var now := Now();
      StateIsGood();
      var a := s.attempts[id];
      assert AttemptOk(s.windows, id, a);
      var windows := TouchKeys(p, s.windows, a.windowKeys, Requeue(now));
      tx := DropPrepared(id, now);
      exit := Commit(tx, s.(attempts := s.attempts - {id}, windows := windows));
    }

    /** sender.Send: the one call that reaches the provider's model. */
    method Send(a: ProbeAttempt) returns (error: Option<Note>)
      requires Up() && world.pc == Fenced(a)
      modifies this`run, this`world
      ensures Up() && world == old(world).(pc := Ready, seen := None, answer := Some((a.id, error)))
      ensures run == old(run) + [Dispatched(a, error)]
    {
      error := None;
      if * {
        var cause := AnyCause();
        error := Some(cause);
      }
      Record(Dispatched(a, error));
    }

    // ----- verification -----

    /** MarkSendOutcome, told by its effect. */
    method Mark(id: AttemptId, phase: AttemptPhase, result: SendResult, sentAt: Time, error: Option<Note>)
      returns (exit: Exit)
      requires Up() && id in store.state.attempts && Markable(store.state, id, phase)
      requires Truthful(world, id, phase, result, sentAt, error)
      modifies this`run, this`world, store`state, store.disk`files
      ensures Tracked() && Plain(old(run), run) && (exit == Died <==> world.pc == Down)
      ensures Reads(run) == old(Reads(run))
      ensures exit != Error(CycleAlreadyAttempted)
      ensures exit != Died ==>
                Frame(old(store.state), store.state, KeySet(old(store.state).attempts[id].windowKeys), {id})
      ensures exit != Died ==> SameTarget(old(store.state), store.state, id)
      ensures exit == Nil ==> store.state.attempts[id].phase == phase && world.cleared == old(world.cleared)
      ensures exit == Nil ==> |run| == |old(run)| + 1 && RecordsOutcome(run[|old(run)|], id, phase, error)
      ensures exit == Nil ==> OutcomeLeft(old(store.state), store.state, id, phase, result, sentAt, error)
      ensures exit == Nil && old(store.state.attempts[id].suppressUntil) > 0 ==>
                AllScheduled(store.state, KeySet(old(store.state).attempts[id].windowKeys))
    {
      StateIsGood();
      ghost var w := world;
      ghost var tx;
      exit, tx := MarkSendOutcome(id, phase, result, sentAt, error);
      if exit != Died { OutcomeEffect(p, w, world, tx, exit); }
    }

    /** CommitVerification, told by its effect. */
    method Conclude(id: AttemptId, ws: seq<QuotaWindow>) returns (exit: Exit)
      requires Up() && id in store.state.attempts && 2 <= store.state.attempts[id].phase.Rank() <= 3
      requires Normalized(ws) && world.seen == Some((store.state.attempts[id].instanceKey, ws))
      modifies this`run, this`world, store`state, store.disk`files
      ensures Tracked() && Plain(old(run), run) && (exit == Died <==> world.pc == Down)
      ensures Reads(run) == old(Reads(run))
      ensures exit != Error(CycleAlreadyAttempted)
      ensures exit != Died ==>
                Frame(old(store.state), store.state, KeySet(old(store.state).attempts[id].windowKeys), {id})
      ensures exit != Died ==> SameTarget(old(store.state), store.state, id)
      ensures exit == Nil ==> store.state.attempts[id].phase == Completed && world.cleared == old(world.cleared)
      ensures exit == Nil ==> |run| == |old(run)| + 1 && RecordsVerification(run[|old(run)|], id, ws)
      ensures exit == Nil ==> VerifyLeft(p, old(store.state), store.state, id, ws, run[|old(run)|].tx.now)
      ensures exit == Nil ==> AllScheduled(store.state, KeySet(old(store.state).attempts[id].windowKeys))
    {
      StateIsGood();
      ghost var w := world;
      ghost var tx;
      exit, tx := CommitVerification(id, ws);
      if exit != Died {
        StepFrame(p, w, world, tx, exit);
        VerifyEffect(p, w, world, tx, exit);
      }
    }

    /** verifyAttempt: one read, judged bucket by bucket; a failed read leaves the outcome unknown. */
    method VerifyAfterRead(a: ProbeAttempt, sentAt: Time) returns (exit: Exit, ghost readOk: bool)
      requires Up() && a.id in store.state.attempts && 2 <= store.state.attempts[a.id].phase.Rank() <= 3
      requires store.state.attempts[a.id].windowKeys == a.windowKeys
               && store.state.attempts[a.id].instanceKey == a.instanceKey
               && store.state.attempts[a.id].suppressUntil == a.suppressUntil
      requires sentAt == ZERO_TIME || sentAt == store.state.attempts[a.id].sentAt
      modifies this`run, this`world, store`state, store.disk`files
      ensures Tracked() && Plain(old(run), run) && (exit == Died <==> world.pc == Down)
      ensures Reads(run) == old(Reads(run)) + if readOk then 1 else 0
      ensures exit != Error(CycleAlreadyAttempted)
      ensures exit != Died ==> Frame(old(store.state), store.state, KeySet(a.windowKeys), {a.id})
      ensures exit != Died ==> SameTarget(old(store.state), store.state, a.id)
      ensures exit == Nil ==> store.state.attempts[a.id].phase == (if readOk then Completed else Unknown)
      ensures exit == Nil ==> world.cleared == old(world.cleared)
      ensures exit == Nil ==> VerifiesAt(run, |old(run)|, a.id, a.instanceKey)
      ensures exit == Nil ==>
                Verified(p, old(store.state), store.state, a.id, run[|old(run)|], run[|old(run)| + 1], sentAt)
      ensures run == old(run) + [Missed(a.instanceKey, None)] ==>
                exit.Error? && exit.problem.BadWindows? && store.state == old(store.state)
      ensures exit == Nil && a.suppressUntil > 0 ==> AllScheduled(store.state, KeySet(a.windowKeys))
    {
      readOk := false;
      ghost var before := run;
      var r := ReadQuota(a.instanceKey);
      match r
      case ReadDied => exit := Died;
      case ReadInvalid(error) => exit := Error(BadWindows(error));
      case ReadError(cause) => exit := MarkUnread(a, sentAt, cause, before);
      case ReadOk(windows) =>
        readOk := true;
        exit := ConcludeRead(a, sentAt, windows, before);
    }

    /** Mark for a verification whose read, after run `before`, failed. */
    method MarkUnread(a: ProbeAttempt, sentAt: Time, cause: Note, ghost before: seq<Event>) returns (exit: Exit)
      requires Up() && a.id in store.state.attempts && 2 <= store.state.attempts[a.id].phase.Rank() <= 3
      requires store.state.attempts[a.id].windowKeys == a.windowKeys
               && store.state.attempts[a.id].instanceKey == a.instanceKey
               && store.state.attempts[a.id].suppressUntil == a.suppressUntil
      requires sentAt == ZERO_TIME || sentAt == store.state.attempts[a.id].sentAt
      requires run == before + [Missed(a.instanceKey, Some(cause))]
      modifies this`run, this`world, store`state, store.disk`files
      ensures Tracked() && Plain(old(run), run) && (exit == Died <==> world.pc == Down)
      ensures Reads(run) == old(Reads(run)) && |run| > |before| && run[|before|] == old(run)[|before|]
      ensures exit != Error(CycleAlreadyAttempted)
      ensures exit != Died ==> Frame(old(store.state), store.state, KeySet(a.windowKeys), {a.id})
      ensures exit != Died ==> SameTarget(old(store.state), store.state, a.id)
      ensures exit == Nil ==> store.state.attempts[a.id].phase == Unknown && world.cleared == old(world.cleared)
      ensures exit == Nil ==> VerifiesAt(run, |before|, a.id, a.instanceKey)
      ensures exit == Nil ==>
                Verified(p, old(store.state), store.state, a.id, run[|before|], run[|before| + 1], sentAt)
      ensures exit == Nil && a.suppressUntil > 0 ==> AllScheduled(store.state, KeySet(a.windowKeys))
    {
      ghost var s := store.state;
      exit := Mark(a.id, Unknown, ResultUnknown, sentAt, Some(cause));
      if exit == Nil {
        MissIsVerified(p, before, run, s, store.state, a.id, Missed(a.instanceKey, Some(cause)), sentAt);
      }
    }

    /** Conclude on the read made after run `before`. */
    method ConcludeRead(a: ProbeAttempt, ghost sentAt: Time, ws: seq<QuotaWindow>, ghost before: seq<Event>)
      returns (exit: Exit)
      requires Up() && a.id in store.state.attempts && 2 <= store.state.attempts[a.id].phase.Rank() <= 3
      requires store.state.attempts[a.id].windowKeys == a.windowKeys
               && store.state.attempts[a.id].instanceKey == a.instanceKey
      requires Normalized(ws) && world.seen == Some((a.instanceKey, ws))
      requires run == before + [Observed(a.instanceKey, ws)]
      modifies this`run, this`world, store`state, store.disk`files
      ensures Tracked() && Plain(old(run), run) && (exit == Died <==> world.pc == Down)
      ensures Reads(run) == old(Reads(run)) && |run| > |before| && run[|before|] == old(run)[|before|]
      ensures exit != Error(CycleAlreadyAttempted)
      ensures exit != Died ==> Frame(old(store.state), store.state, KeySet(a.windowKeys), {a.id})
      ensures exit != Died ==> SameTarget(old(store.state), store.state, a.id)
      ensures exit == Nil ==> store.state.attempts[a.id].phase == Completed && world.cleared == old(world.cleared)
      ensures exit == Nil ==> VerifiesAt(run, |before|, a.id, a.instanceKey)
      ensures exit == Nil ==>
                Verified(p, old(store.state), store.state, a.id, run[|before|], run[|before| + 1], sentAt)
      ensures exit == Nil ==> AllScheduled(store.state, KeySet(a.windowKeys))
    {
      ghost var s := store.state;
      exit := Conclude(a.id, ws);
      if exit == Nil {
        ReadIsVerified(p, before, run, s, store.state, a.id, Observed(a.instanceKey, ws), sentAt);
      }
    }

    /**
     What follows the send, by its answer: an error is recorded and that is all; otherwise the send is recorded, waited
     for and verified.
     */
    method Settle(a: ProbeAttempt, error: Option<Note>) returns (exit: Exit)
      requires Up() && world.answer == Some((a.id, error)) && a.suppressUntil > 0
      requires Noted(store.state, a, Sending, ResultUnknown, ZERO_TIME)
      modifies this`run, this`world, store`state, store.disk`files
      ensures Tracked() && Plain(old(run), run) && (exit == Died <==> world.pc == Down)
      ensures exit != Error(CycleAlreadyAttempted)
      ensures exit == Nil ==> Aftermath(run, |old(run)|, a, error) && Recorded(store.state, a, error)
      ensures exit != Died ==> Frame(old(store.state), store.state, KeySet(a.windowKeys), {a.id})
      ensures exit != Died ==> SameTarget(old(store.state), store.state, a.id)
      ensures exit == Nil ==> AllScheduled(store.state, KeySet(a.windowKeys)) && world.cleared == old(world.cleared)
    {
      ghost var s, ks := store.state, KeySet(a.windowKeys);
      if error.Some? {
        exit := Mark(a.id, Unknown, ResultUnknown, ZERO_TIME, error);
        if exit == Nil {
          OutcomeNotes(s, store.state, a, Sending, ResultUnknown, ZERO_TIME, Unknown, ResultUnknown, ZERO_TIME, error);
        }
        return;
      }
      var sentAt := Now();
      exit := Mark(a.id, AttemptPhase.Sent, ResultSent, sentAt, None);
      if exit != Nil { return; }
      ghost var mid, t := store.state, run;
      OutcomeNotes(s, mid, a, Sending, ResultUnknown, ZERO_TIME, AttemptPhase.Sent, ResultSent, sentAt, None);
      exit := WaitAndVerify(a, sentAt);
      if exit != Died { FrameTransitive(s, mid, store.state, ks, {a.id}); }
      if exit == Nil { assert run[|t| - 1] == t[|t| - 1]; }
    }

    /** The wait before verification; cut short, it leaves the outcome unknown. */
    method WaitAndVerify(a: ProbeAttempt, sentAt: Time) returns (exit: Exit)
      requires Up() && a.suppressUntil > 0 && sentAt != ZERO_TIME
      requires Noted(store.state, a, AttemptPhase.Sent, ResultSent, sentAt)
      modifies this`run, this`world, store`state, store.disk`files
      ensures Tracked() && Plain(old(run), run) && (exit == Died <==> world.pc == Down)
      ensures exit != Error(CycleAlreadyAttempted)
      ensures exit == Nil ==> Awaited(run, |old(run)|, a) && Recorded(store.state, a, None)
      ensures exit != Died ==> Frame(old(store.state), store.state, KeySet(a.windowKeys), {a.id})
      ensures exit != Died ==> SameTarget(old(store.state), store.state, a.id)
      ensures exit == Nil ==> AllScheduled(store.state, KeySet(a.windowKeys)) && world.cleared == old(world.cleared)
    {
      ghost var s, r := store.state, run;
      var cancelled := Wait();
      if cancelled.Some? {
        exit := Mark(a.id, Unknown, ResultUnknown, sentAt, cancelled);
        if exit == Nil { WaitCut(r, run, s, store.state, a, sentAt, cancelled); }
      } else {
        ghost var readOk;
        exit, readOk := VerifyAfterRead(a, sentAt);
        if exit == Nil { WaitDone(p, r, run, s, store.state, a, sentAt); }
      }
    }

    // ----- activation -----

    /** randomID: some identifier no attempt has, or an error. */
    method RandomId() returns (id: Option<AttemptId>)
      requires Up()
      ensures id.Some? ==> id.value !in store.state.attempts
    {
      var n: AttemptId := *;
      id := if n in store.state.attempts then None else Some(n);
    }

    /** PrepareAttempt, told by its effect. */
    method Arm(a: ProbeAttempt) returns (exit: Exit)
      requires Up() && Allowed(p, world, Prepare(a))
      modifies this`run, this`world, store`state, store.disk`files
      ensures Tracked() && Plain(old(run), run) && (exit == Died <==> world.pc == Down)
      ensures exit == Nil ==> exists fault :: run == old(run) + [Committed(Prepare(a), fault)]
      ensures exit == Error(CycleAlreadyAttempted) <==> AnyFenced(a.cycleIds, old(store.state.ledger))
      ensures exit != Died ==> Frame(old(store.state), store.state, KeySet(a.windowKeys), {a.id})
      ensures exit != Died ==> NewAttemptsOf(old(store.state), store.state, a.instanceKey)
      ensures exit == Nil ==> PreparedLeft(old(store.state), store.state, a)
      ensures exit == Nil ==> world.pc == Armed(a) && Claimed(store.state, a) && world.cleared == old(world.cleared)
    {
      StateIsGood();
      ghost var w := world;
      exit := PrepareAttempt(a);
      if exit == Died || exit == Error(CycleAlreadyAttempted) { return; }
      PrepareEffect(p, w, world, a, exit);
    }

    /** FenceAttempt, told by its effect. */
    method RaiseFence(a: ProbeAttempt) returns (exit: Exit)
      requires Up() && world.pc == Armed(a) && Claimed(store.state, a) && a.sentAt == ZERO_TIME
      modifies this`run, this`world, store`state, store.disk`files
      ensures Tracked() && Plain(old(run), run) && (exit == Died <==> world.pc == Down)
      ensures exit == Nil ==> exists now, fault :: run == old(run) + [Committed(Fence(a, now), fault)]
      ensures exit != Error(CycleAlreadyAttempted)
      ensures exit != Died ==> Frame(old(store.state), store.state, KeySet(a.windowKeys), {a.id})
      ensures exit != Died ==> SameTarget(old(store.state), store.state, a.id)
      ensures exit == Nil ==>
                && world.pc == Fenced(a) && FencedIn(store.state, a)
                && Noted(store.state, a, Sending, ResultUnknown, ZERO_TIME)
      ensures exit == Nil ==> world.cleared == old(world.cleared)
    {
      StateIsGood();
      ghost var w := world;
      var now := Now();
      exit := FenceAttempt(a, now);
      if exit == Died { return; }
      StepFrame(p, w, world, Fence(a, now), exit);
      if exit == Nil {
        FenceLanded(p, w, world, a, now);
        FenceNotes(w.mem, store.state, a, now);
      }
    }

    /** Sending with the fence, durable, and only then the request. */
    method FenceAndSend(a: ProbeAttempt) returns (exit: Exit)
      requires Up() && world.pc == Armed(a) && Claimed(store.state, a) && a.sentAt == ZERO_TIME && a.suppressUntil > 0
      modifies this`run, this`world, store`state, store.disk`files
      ensures Tracked() && (exit == Died <==> world.pc == Down)
      ensures DirectOf(old(run), run, 1, a)
      ensures exit != Error(CycleAlreadyAttempted)
      ensures exit == Nil ==> SentWith(old(run), run, 1, store.state, a)
      ensures exit != Died ==> Frame(old(store.state), store.state, KeySet(a.windowKeys), {a.id})
      ensures exit != Died ==> SameTarget(old(store.state), store.state, a.id)
      ensures exit == Nil ==> AllScheduled(store.state, KeySet(a.windowKeys)) && world.cleared == old(world.cleared)
    {
      ghost var s, ks, r := store.state, KeySet(a.windowKeys), run;
      exit := RaiseFence(a);
      if exit != Nil { return; }
      ghost var mid := store.state;
      ghost var now, fault :| run == r + [Committed(Fence(a, now), fault)];
      exit := SendFenced(a);
      EventThenSend(r, Committed(Fence(a, now), fault), run, 0, store.state, a);
      if exit != Died { FrameTransitive(s, mid, store.state, ks, {a.id}); }
    }

    /** The request, once its fence is durable, and what follows it. */
    method SendFenced(a: ProbeAttempt) returns (exit: Exit)
      requires Up() && world.pc == Fenced(a) && a.suppressUntil > 0
      requires Noted(store.state, a, Sending, ResultUnknown, ZERO_TIME)
      modifies this`run, this`world, store`state, store.disk`files
      ensures Tracked() && (exit == Died <==> world.pc == Down)
      ensures DirectOf(old(run), run, 0, a)
      ensures exit != Error(CycleAlreadyAttempted)
      ensures exit == Nil ==> SentWith(old(run), run, 0, store.state, a)
      ensures exit != Died ==> Frame(old(store.state), store.state, KeySet(a.windowKeys), {a.id})
      ensures exit != Died ==> SameTarget(old(store.state), store.state, a.id)
      ensures exit == Nil ==> AllScheduled(store.state, KeySet(a.windowKeys)) && world.cleared == old(world.cleared)
    {
      ghost var r := run;
      var dead := Preempt();
      if dead { return Died; }
      var error := Send(a);
      ghost var t := run;
      exit := Settle(a, error);
      SendThenPlain(r, t, run, a, error);
    }

    /** Prepared first; a cycle already in the ledger stops the attempt here. */
    method Launch(a: ProbeAttempt) returns (exit: Exit)
      requires Up() && Allowed(p, world, Prepare(a)) && a.suppressUntil > 0
      modifies this`run, this`world, store`state, store.disk`files
      ensures Tracked() && (exit == Died <==> world.pc == Down)
      ensures DirectOf(old(run), run, 2, a)
      ensures exit == Nil ==> SentWith(old(run), run, 2, store.state, a)
      ensures exit == Error(CycleAlreadyAttempted) <==> AnyFenced(a.cycleIds, old(store.state.ledger))
      ensures exit != Died ==> Frame(old(store.state), store.state, KeySet(a.windowKeys), {a.id})
      ensures exit != Died ==> NewAttemptsOf(old(store.state), store.state, a.instanceKey)
      ensures exit == Nil ==> AllScheduled(store.state, KeySet(a.windowKeys)) && world.cleared == old(world.cleared)
    {
      ghost var s, ks, r := store.state, KeySet(a.windowKeys), run;
      exit := Arm(a);
      if exit != Nil { return; }
      ghost var mid := store.state;
      ghost var fault :| run == r + [Committed(Prepare(a), fault)];
      exit := FenceAndSend(a);
      EventThenSend(r, Committed(Prepare(a), fault), run, 1, store.state, a);
      if exit != Died { FrameTransitive(s, mid, store.state, ks, {a.id}); }
    }

    /** The rest of runGroup, once every record is LazyDetected: plan, attempt, send. */
    method Activate(cred: Credential, instance: InstanceKey, records: seq<WindowRecord>)
      returns (exit: Exit, ghost mine: set<AttemptId>)
      requires Up() && !p.cfg.dryRun && records != []
      requires GroupReady(store.state, world.cleared, instance, records)
      requires forall r :: r in records ==> r.state == LazyDetected
      modifies this`run, this`world, store`state, store.disk`files
      ensures Tracked() && (exit == Died <==> world.pc == Down)
      ensures Direct(old(run), run, 3, instance, records)
      ensures exit != Error(CycleAlreadyAttempted)
      ensures !hasSender ==> exit == Error(NoSender) && run == old(run) && store.state == old(store.state)
      ensures hasSender ==>
                && |run| > |old(run)| && run[|old(run)|].Planned?
                && (run[|old(run)|].problem.Some? ==>
                      GaveUp(p, old(store.state), store.state, KeysOf(records), run[|old(run)|].problem.value, exit))
      ensures exit == Nil ==>
                PlannedWell(old(run), run) && SentAt(old(run), run, 3) && Timed(p, run[|old(run)| + 3].attempt)
      ensures exit == Nil ==> Accounted(old(run), run, old(store.state), store.state)
      ensures mine !! old(store.state.attempts).Keys
      ensures exit != Died ==> Frame(old(store.state), store.state, KeySet(KeysOf(records)), mine)
      ensures exit != Died ==> NewAttemptsOf(old(store.state), store.state, instance)
      ensures exit == Nil ==> AllScheduled(store.state, KeySet(KeysOf(records))) && world.cleared == old(world.cleared)
    {
      StateIsGood();
      mine := {};
      if !hasSender { return Error(NoSender), mine; }
      ghost var q := run;
      var problem := PlanActivation();
      if problem.Some? {
        exit := FailGroup(instance, records, problem.value);
        return;
      }
      ghost var t := run;
      exit, mine := ActivatePlanned(cred, instance, records, q);
      assert run[|q|] == t[|q|];
    }

    /** With the plan at hand, obtained after run `q`. */
    method ActivatePlanned(cred: Credential, instance: InstanceKey, records: seq<WindowRecord>, ghost q: seq<Event>)
      returns (exit: Exit, ghost mine: set<AttemptId>)
      requires Up() && !p.cfg.dryRun && records != [] && run == q + [Planned(None)]
      requires GroupReady(store.state, world.cleared, instance, records)
      requires forall r :: r in records ==> r.state == LazyDetected
      modifies this`run, this`world, store`state, store.disk`files
      ensures Tracked() && (exit == Died <==> world.pc == Down)
      ensures old(run) <= run && Direct(q, run, 3, instance, records) && exit != Error(CycleAlreadyAttempted)
      ensures exit == Nil ==> PlannedWell(q, run) && SentAt(q, run, 3) && Timed(p, run[|q| + 3].attempt)
      ensures exit == Nil ==> Accounted(q, run, old(store.state), store.state)
      ensures mine !! old(store.state.attempts).Keys
      ensures exit != Died ==> Frame(old(store.state), store.state, KeySet(KeysOf(records)), mine)
      ensures exit != Died ==> NewAttemptsOf(old(store.state), store.state, instance)
      ensures exit == Nil ==> AllScheduled(store.state, KeySet(KeysOf(records))) && world.cleared == old(world.cleared)
    {
      mine := {};
      ghost var s := store.state;
      ghost var a;
      var id := RandomId();
      if id.None? { return Error(NoRandom), mine; }
      exit, a := Attempt(id.value, cred, instance, records);
      mine := {a.id};
      PlannedDirect(q, run, a, records);
      if exit == Nil { PlannedSent(q, run, s, store.state, a); }
    }

    /** One attempt for all the records, with the plan at hand. */
    method Attempt(id: AttemptId, cred: Credential, instance: InstanceKey, records: seq<WindowRecord>)
      returns (exit: Exit, ghost a: ProbeAttempt)
      requires Up() && !p.cfg.dryRun && records != [] && id !in store.state.attempts
      requires GroupReady(store.state, world.cleared, instance, records)
      requires forall r :: r in records ==> r.state == LazyDetected
      modifies this`run, this`world, store`state, store.disk`files
      ensures Tracked() && (exit == Died <==> world.pc == Down)
      ensures DirectOf(old(run), run, 2, a) && exit != Error(CycleAlreadyAttempted)
      ensures Targets(a, instance, records) && Covers(a, instance, records) && a.id == id && Timed(p, a)
      ensures a.authId == cred.authId && a.provider == records[0].provider
      ensures exit == Nil ==> SentWith(old(run), run, 2, store.state, a)
      ensures exit != Died ==> Frame(old(store.state), store.state, KeySet(a.windowKeys), {a.id})
      ensures exit != Died ==> NewAttemptsOf(old(store.state), store.state, instance)
      ensures exit == Nil ==> AllScheduled(store.state, KeySet(a.windowKeys)) && world.cleared == old(world.cleared)
    {
      StateIsGood();
      var group: string := *;
      var now := Now();
      var keys, cycles := CollectTargets(records);
      var attempt := AttemptOf(p, id, cred, instance, records[0].provider, group, keys, cycles, now);
      a := attempt;
      TargetsCover(a, instance, records);
      TargetsMayBePrepared(p, world, instance, records, a);
      exit := Launch(attempt);
    }

    // ----- one group -----

    /** CommitPrecheck, told by its effect. */
    method PrecheckAfterRead(instance: InstanceKey, records: seq<WindowRecord>, ws: seq<QuotaWindow>)
      returns (exit: Exit, confirmed: seq<WindowRecord>)
      requires Up() && GroupReady(store.state, world.cleared, instance, records)
      requires Normalized(ws) && world.seen == Some((instance, ws))
      modifies this`run, this`world, store`state, store.disk`files
      ensures Tracked() && (exit == Died <==> world.pc == Down) && exit != Error(CycleAlreadyAttempted)
      ensures exists tx, fault ::
                && run == old(run) + [Committed(tx, fault)] && (exit == Nil <==> fault.Acknowledged?)
                && tx.PrecheckGroup? && tx == PrecheckGroup(instance, KeysOf(records), ws, tx.now)
      ensures exit == Nil ==>
                GroupPrechecked(p, old(store.state), store.state, KeysOf(records), ws, run[|old(run)|].tx.now)
      ensures exit != Died ==> Frame(old(store.state), store.state, KeySet(KeysOf(records)), {})
      ensures exit == Nil ==>
                && GroupReady(store.state, world.cleared, instance, confirmed)
                && (forall c :: c in confirmed ==> c.key in KeysOf(records) && c.state == LazyDetected)
                && LeftToConfirmed(store.state, records, confirmed) && PartOf(confirmed, records)
      ensures exit == Nil ==> ClearedKept(old(world.cleared), world.cleared, KeySet(KeysOf(records)))
    {
      StateIsGood();
      ghost var w := world;
      CandidatesSelectable(w.mem, w.cleared, instance, records);
      ghost var tx;
      exit, confirmed, tx := CommitPrecheck(instance, records, ws);
      if exit != Died { StepFrame(p, w, world, tx, exit); }
      if exit == Nil { PrecheckYieldsCandidates(p, w.mem, w.cleared, instance, records, ws, tx.now); }
    }

    /** precheckGroup: the second authoritative read. */
    method PrecheckWithRead(instance: InstanceKey, records: seq<WindowRecord>)
      returns (exit: Exit, confirmed: seq<WindowRecord>)
      requires Up() && GroupReady(store.state, world.cleared, instance, records)
      modifies this`run, this`world, store`state, store.disk`files
      ensures Tracked() && Quiet(old(run), run) && Prechecked(old(run), run, instance, records)
      ensures |run| > |old(run)| && run[|old(run)|].Missed? ==>
                exists cause :: GaveUp(p, old(store.state), store.state, KeysOf(records), cause, exit)
                                && (run[|old(run)|].cause.Some? ==> cause == run[|old(run)|].cause.value)
      ensures exit == Nil ==>
                |run| == |old(run)| + 2 && JustPrechecked(old(run), run) && PrecheckedAt(run, |old(run)| + 1, records)
      ensures exit == Nil ==>
                GroupPrechecked(p, old(store.state), store.state, KeysOf(records), run[|old(run)|].windows,
                                run[|old(run)| + 1].tx.now)
      ensures (exit == Died <==> world.pc == Down)
      ensures exit != Error(CycleAlreadyAttempted)
      ensures exit != Died ==> Frame(old(store.state), store.state, KeySet(KeysOf(records)), {})
      ensures exit == Nil ==>
                && GroupReady(store.state, world.cleared, instance, confirmed)
                && (forall c :: c in confirmed ==> c.key in KeysOf(records) && c.state == LazyDetected)
                && LeftToConfirmed(store.state, records, confirmed) && PartOf(confirmed, records)
      ensures exit == Nil ==> ClearedKept(old(world.cleared), world.cleared, KeySet(KeysOf(records)))
    {
      confirmed := [];
      ghost var before := run;
      var r := ReadQuota(instance);
      match r
      case ReadDied => exit := Died;
      case ReadInvalid(error) =>
        exit := FailGroup(instance, records, Cause(error.bucketId));
        MissTraced(before, Missed(instance, None), run, instance, records);
      case ReadError(cause) =>
        exit := FailGroup(instance, records, cause);
        MissTraced(before, Missed(instance, Some(cause)), run, instance, records);
      case ReadOk(windows) =>
        exit, confirmed := PrecheckAfterRead(instance, records, windows);
        PrecheckTraced(before, run, instance, records, windows, exit == Nil);
    }

    static method FindPending(records: seq<WindowRecord>) returns (needed: bool)
      ensures needed <==> NeedsPrecheck(records)
    {
      for i := 0 to |records|
        invariant forall j :: 0 <= j < i ==> records[j].state != PendingPrecheck
      {
        if records[i].state == PendingPrecheck { return true; }
      }
      needed := false;
    }

    /** DryRunGroup, told by its effect. */
    method NoteDryRun(instance: InstanceKey, records: seq<WindowRecord>) returns (exit: Exit)
      requires Up() && p.cfg.dryRun && GroupReady(store.state, world.cleared, instance, records)
      modifies this`run, this`world, store`state, store.disk`files
      ensures Tracked() && Plain(old(run), run) && (exit == Died <==> world.pc == Down)
      ensures exit != Error(CycleAlreadyAttempted)
      ensures exit != Died ==> Frame(old(store.state), store.state, KeySet(KeysOf(records)), {})
      ensures exit == Nil ==> AllScheduled(store.state, KeySet(KeysOf(records))) && world.cleared == old(world.cleared)
      ensures exit == Nil ==> exists now :: DryRunNoted(p, old(store.state), store.state, KeysOf(records), now)
    {
      StateIsGood();
      ghost var w := world;
      CandidatesSelectable(w.mem, w.cleared, instance, records);
      ghost var tx;
      exit, tx := DryRunGroup(records);
      if exit != Died { StepFrame(p, w, world, tx, exit); }
      if exit == Nil { DryRunLands(p, w, world, KeysOf(records), tx.now); }
    }

    /** The end of runGroup for records found lazy: note them in a dry run, activate them otherwise. */
    method FinishGroup(cred: Credential, instance: InstanceKey, records: seq<WindowRecord>)
      returns (exit: Exit, ghost mine: set<AttemptId>)
      requires Up() && records != []
      requires GroupReady(store.state, world.cleared, instance, records)
      requires forall r :: r in records ==> r.state == LazyDetected
      modifies this`run, this`world, store`state, store.disk`files
      ensures Tracked() && (exit == Died <==> world.pc == Down)
      ensures Direct(old(run), run, 3, instance, records) && (p.cfg.dryRun ==> Quiet(old(run), run))
      ensures exit != Error(CycleAlreadyAttempted)
      ensures exit == Nil && !p.cfg.dryRun ==> SentAt(old(run), run, 3)
      ensures exit == Nil && p.cfg.dryRun ==>
                exists now :: DryRunNoted(p, old(store.state), store.state, KeysOf(records), now)
      ensures exit == Nil ==> Accounted(old(run), run, old(store.state), store.state)
      ensures mine !! old(store.state.attempts).Keys
      ensures exit != Died ==> Frame(old(store.state), store.state, KeySet(KeysOf(records)), mine)
      ensures exit != Died ==> NewAttemptsOf(old(store.state), store.state, instance)
      ensures exit == Nil ==> AllScheduled(store.state, KeySet(KeysOf(records))) && world.cleared == old(world.cleared)
    {
      if !p.cfg.dryRun {
        exit, mine := Activate(cred, instance, records);
        return;
      }
      mine := {};
      ghost var s, q := store.state, run;
      exit := NoteDryRun(instance, records);
      if exit == Nil { NoneNew(q, run, s, store.state, KeySet(KeysOf(records))); }
    }

    /** runGroup. */
    method RunGroup(cred: Credential, instance: InstanceKey, records: seq<WindowRecord>)
      returns (exit: Exit, ghost mine: set<AttemptId>)
      requires Up() && records != [] && GroupReady(store.state, world.cleared, instance, records)
      modifies this`run, this`world, store`state, store.disk`files
      ensures Tracked() && (exit == Died <==> world.pc == Down)
      ensures GroupTrace(old(run), run, instance, records) && (p.cfg.dryRun ==> Quiet(old(run), run))
      ensures exit != Error(CycleAlreadyAttempted)
      ensures exit == Nil && !p.cfg.dryRun ==> GroupDone(old(run), run, records)
      ensures exit == Nil ==> Accounted(old(run), run, old(store.state), store.state)
      ensures mine !! old(store.state.attempts).Keys
      ensures exit != Died ==> Frame(old(store.state), store.state, KeySet(KeysOf(records)), mine)
      ensures exit != Died ==> NewAttemptsOf(old(store.state), store.state, instance)
      ensures exit == Nil ==> AllScheduled(store.state, KeySet(KeysOf(records)))
      ensures exit == Nil ==> ClearedKept(old(world.cleared), world.cleared, KeySet(KeysOf(records)))
    {
      mine := {};
      var needed := FindPending(records);
      if needed {
        exit, mine := PrecheckAndFinish(cred, instance, records);
      } else {
        forall r | r in records ensures r.state == LazyDetected {
          assert Candidate(store.state, world.cleared, instance, r);
        }
        exit, mine := FinishGroup(cred, instance, records);
      }
    }

    /** A group that needs its second read. */
    method PrecheckAndFinish(cred: Credential, instance: InstanceKey, records: seq<WindowRecord>)
      returns (exit: Exit, ghost mine: set<AttemptId>)
      requires Up() && NeedsPrecheck(records) && GroupReady(store.state, world.cleared, instance, records)
      modifies this`run, this`world, store`state, store.disk`files
      ensures Tracked() && (exit == Died <==> world.pc == Down)
      ensures Prechecked(old(run), run, instance, records) && (p.cfg.dryRun ==> Quiet(old(run), run))
      ensures exit != Error(CycleAlreadyAttempted)
      ensures exit == Nil && !p.cfg.dryRun ==> GroupDone(old(run), run, records)
      ensures exit == Nil ==> Accounted(old(run), run, old(store.state), store.state)
      ensures mine !! old(store.state.attempts).Keys
      ensures exit != Died ==> Frame(old(store.state), store.state, KeySet(KeysOf(records)), mine)
      ensures exit != Died ==> NewAttemptsOf(old(store.state), store.state, instance)
      ensures exit == Nil ==> AllScheduled(store.state, KeySet(KeysOf(records)))
      ensures exit == Nil ==> ClearedKept(old(world.cleared), world.cleared, KeySet(KeysOf(records)))
    {
      mine := {};
      ghost var s, r := store.state, run;
      var confirmed;
      exit, confirmed := PrecheckWithRead(instance, records);
      if exit == Nil { exit, mine := FinishConfirmed(cred, instance, records, confirmed, r, s); }
    }

    /** The confirmed records, if any, of a precheck made since run `r` in state `s`. */
    method FinishConfirmed(cred: Credential, instance: InstanceKey, records: seq<WindowRecord>,
                           confirmed: seq<WindowRecord>, ghost r: seq<Event>, ghost s: PersistentState)
      returns (exit: Exit, ghost mine: set<AttemptId>)
      requires Up() && GroupReady(store.state, world.cleared, instance, confirmed)
      requires forall c :: c in confirmed ==> c.key in KeysOf(records) && c.state == LazyDetected
      requires LeftToConfirmed(store.state, records, confirmed) && PartOf(confirmed, records)
      requires Quiet(r, run) && Prechecked(r, run, instance, records) && |run| == |r| + 2 && JustPrechecked(r, run)
      requires PrecheckedAt(run, |r| + 1, records) && NeedsPrecheck(records)
      requires Frame(s, store.state, KeySet(KeysOf(records)), {})
      modifies this`run, this`world, store`state, store.disk`files
      ensures Tracked() && (exit == Died <==> world.pc == Down)
      ensures Prechecked(r, run, instance, records) && (p.cfg.dryRun ==> Quiet(r, run))
      ensures exit != Error(CycleAlreadyAttempted)
      ensures exit == Nil && !p.cfg.dryRun ==> GroupDone(r, run, records)
      ensures exit == Nil ==> Accounted(r, run, s, store.state)
      ensures mine !! old(store.state.attempts).Keys
      ensures exit != Died ==> Frame(s, store.state, KeySet(KeysOf(records)), mine)
      ensures exit != Died ==> NewAttemptsOf(old(store.state), store.state, instance)
      ensures exit == Nil ==> AllScheduled(store.state, KeySet(KeysOf(records))) && world.cleared == old(world.cleared)
    {
      StateIsGood();
      ghost var mid, t := store.state, run;
      if confirmed == [] {
        NoneNew(r, t, s, mid, KeySet(KeysOf(records)));
        NoneConfirmed(mid, records);
        return Nil, {};
      }
      exit, mine := FinishGroup(cred, instance, confirmed);
      PrecheckThenDirect(r, t, run, instance, confirmed, records);
      if exit != Died { ConfirmedFrame(s, mid, store.state, records, confirmed, mine); }
      if exit == Nil { ConfirmedDone(r, t, run, s, mid, store.state, records, confirmed, mine); }
    }

    /** One of the groups; the others are left as they are. */
    method RunNext(cred: Credential, instance: InstanceKey, groups: seq<seq<WindowRecord>>, i: nat)
      returns (exit: Exit, ghost mine: set<AttemptId>)
      requires Up() && i < |groups| && GroupsReady(store.state, world.cleared, instance, groups, i)
      requires ScheduledOrPending(store.state, instance, groups, i)
      modifies this`run, this`world, store`state, store.disk`files
      ensures Tracked() && (exit == Died <==> world.pc == Down)
      ensures GroupTrace(old(run), run, instance, groups[i]) && (p.cfg.dryRun ==> Quiet(old(run), run))
      ensures exit != Error(CycleAlreadyAttempted)
      ensures mine !! old(store.state.attempts).Keys
      ensures exit != Died ==> Frame(old(store.state), store.state, KeySet(KeysOf(groups[i])), mine)
      ensures exit != Died ==> Isolated(old(store.state), store.state, instance)
      ensures exit == Nil && !p.cfg.dryRun ==> GroupDone(old(run), run, groups[i])
      ensures exit == Nil ==> Accounted(old(run), run, old(store.state), store.state)
      ensures exit == Nil ==> GroupsReady(store.state, world.cleared, instance, groups, i + 1)
      ensures exit == Nil ==> ScheduledOrPending(store.state, instance, groups, i + 1)
    {
      StateIsGood();
      ghost var s, cleared := store.state, world.cleared;
      GroupInstance(s, cleared, instance, groups[i]);
      exit, mine := RunGroup(cred, instance, groups[i]);
      if exit == Died { return; }
      FrameIsolates(s, store.state, KeySet(KeysOf(groups[i])), mine, instance);
      if exit != Nil { return; }
      OtherGroupsKept(s, store.state, cleared, world.cleared, instance, groups, i, mine);
      OtherWindowsScheduled(s, store.state, instance, groups, i, mine);
    }

    /** The first `i` groups have been run, since run `r` in state `s`. */
    ghost predicate GroupsSoFar(instance: InstanceKey, groups: seq<seq<WindowRecord>>, i: nat, r: seq<Event>,
                                s: PersistentState)
      reads this, store, store.disk
    {
      && Up() && GroupsReady(store.state, world.cleared, instance, groups, i)
      && ScheduledOrPending(store.state, instance, groups, i)
      && GroupsTrace(r, run, instance, groups, i) && (p.cfg.dryRun ==> Quiet(r, run))
      && (p.cfg.dryRun || ServedUpTo(r, run, instance, groups, i))
      && Isolated(s, store.state, instance) && Accounted(r, run, s, store.state)
    }

    /** One more of them. */
    method RunAnother(cred: Credential, instance: InstanceKey, groups: seq<seq<WindowRecord>>, i: nat,
                      ghost r: seq<Event>, ghost s: PersistentState)
      returns (exit: Exit)
      requires GroupsSoFar(instance, groups, i, r, s) && i < |groups| && StartsJudged(r) && GroupsApart(groups)
      modifies this`run, this`world, store`state, store.disk`files
      ensures Tracked() && (exit == Died <==> world.pc == Down) && exit != Error(CycleAlreadyAttempted)
      ensures GroupsTrace(r, run, instance, groups, i + 1) && (p.cfg.dryRun ==> Quiet(r, run))
      ensures exit != Died ==> Isolated(s, store.state, instance)
      ensures exit == Nil ==> GroupsSoFar(instance, groups, i + 1, r, s)
    {
      ghost var t, q := store.state, run;
      ghost var mine;
      StateIsGood();
      exit, mine := RunNext(cred, instance, groups, i);
      NextGroup(r, q, run, instance, groups, i);
      if p.cfg.dryRun { QuietTransitive(r, q, run); }
      if exit == Died { return; }
      IsolatedTransitive(s, t, store.state, instance);
      if exit != Nil { return; }
      NextAccounted(r, q, run, s, t, store.state, instance, groups, i, mine);
      if !p.cfg.dryRun { NextServed(r, q, run, instance, groups, i); }
    }

    /** The groups in turn, until one returns an error. */
    method RunGroups(cred: Credential, instance: InstanceKey, groups: seq<seq<WindowRecord>>) returns (exit: Exit)
      requires Up() && GroupsReady(store.state, world.cleared, instance, groups, 0)
      requires ScheduledOrPending(store.state, instance, groups, 0) && StartsJudged(run)
      modifies this`run, this`world, store`state, store.disk`files
      ensures Tracked() && (exit == Died <==> world.pc == Down)
      ensures GroupsTrace(old(run), run, instance, groups, |groups|) && (p.cfg.dryRun ==> Quiet(old(run), run))
      ensures exit != Error(CycleAlreadyAttempted)
      ensures exit == Nil ==> Accounted(old(run), run, old(store.state), store.state)
      ensures exit == Nil && !p.cfg.dryRun ==> ServedUpTo(old(run), run, instance, groups, |groups|)
      ensures exit != Died ==> Isolated(old(store.state), store.state, instance)
      ensures exit == Nil ==> AllOfInstanceScheduled(store.state, instance)
    {
      ghost var s, r := store.state, run;
      for i := 0 to |groups|
        invariant GroupsSoFar(instance, groups, i, r, s) && GroupsApart(groups)
      {
        exit := RunAnother(cred, instance, groups, i, r, s);
        if exit != Nil {
          GroupsEnough(r, run, instance, groups, i + 1);
          return;
        }
      }
      NonePending(store.state, instance, groups);
      exit := Nil;
    }

    // ----- Tick -----

    static function InstanceOf(cred: Credential, adapterId: string, fingerprint: string): InstanceKey {
      InstanceKey(adapterId, cred.authIndex, fingerprint)
    }

    static function Identity(cred: Credential, adapterId: string, fingerprint: Option<string>): Option<InstanceKey> {
      if fingerprint.None? then None else Some(InstanceOf(cred, adapterId, fingerprint.value))
    }

    /** The instance a Tick gets to work on. */
    static function TickIdentity(cred: Credential, adapterId: string, matches: bool, fingerprint: Option<string>)
      : Option<InstanceKey>
    {
      if cred.disabled || !matches then None else Identity(cred, adapterId, fingerprint)
    }

    /** The run ends with the read and the commit that reconciles it. */
    lemma ReconcileIsLast(before: seq<Event>, w: World, tx: Tx, groups: seq<seq<WindowRecord>>, names: seq<string>,
                          cred: Credential, instance: InstanceKey)
      requires tx.Reconcile? && tx.cred == cred && tx.instance == instance
      requires exists removed ::
                 run == before + [Observed(instance, tx.windows)] + [Committed(tx, Acknowledged(removed))]
      requires Exec(p, before + [Observed(instance, tx.windows)]) == Some(w)
      requires ListsGroups(groups, names, Grouped(Joining(p, w.mem, cred, instance, tx.windows, tx.now)))
      ensures GroupedNow(p, before, run, cred, instance, groups, names) && StartsJudged(run)
    {
      assert run[..|before| + 1] == before + [Observed(instance, tx.windows)];
    }

    /** The first read of a Tick, reconciled. */
    method Observe(cred: Credential, instance: InstanceKey)
      returns (exit: Exit, groups: seq<seq<WindowRecord>>, ghost names: seq<string>)
      requires Up()
      modifies this`run, this`world, store`state, store.disk`files
      ensures Tracked() && Quiet(old(run), run) && (exit == Died <==> world.pc == Down)
      ensures exit != Error(CycleAlreadyAttempted)
      ensures exit == Nil ==> store.state.attempts == old(store.state).attempts
      ensures exit != Died ==> Isolated(old(store.state), store.state, instance)
      ensures exit == Nil ==> GroupedNow(p, old(run), run, cred, instance, groups, names) && StartsJudged(run)
      ensures |run| > |old(run)| && run[|old(run)|].Missed? ==>
                ReadMissed(p, old(store.state), store.state, instance, run[|old(run)|].cause, exit)
      ensures exit == Nil ==>
                && GroupsReady(store.state, world.cleared, instance, groups, 0)
                && ScheduledOrPending(store.state, instance, groups, 0)
    {
      groups, names := [], [];
      ghost var before := run;
      var r := ReadQuota(instance);
      match r
      case ReadDied => exit := Died;
      case ReadInvalid(error) => exit := Error(BadWindows(error));
      case ReadError(cause) => exit := NoteMiss(instance, cause);
      case ReadOk(windows) => exit, groups, names := ReconcileRead(cred, instance, windows, before);
    }

    /** MarkReadFailure, told by its effect. */
    method NoteMiss(instance: InstanceKey, cause: Note) returns (exit: Exit)
      requires Up()
      modifies this`run, this`world, store`state, store.disk`files
      ensures Tracked() && Plain(old(run), run) && (exit == Died <==> world.pc == Down)
      ensures exit != Error(CycleAlreadyAttempted)
      ensures ReadMissed(p, old(store.state), store.state, instance, Some(cause), exit)
      ensures exit != Died ==> Isolated(old(store.state), store.state, instance)
    {
      StateIsGood();
      ghost var w := world;
      ghost var tx, saved;
      exit, tx, saved := MarkReadFailure(instance, cause);
      if exit != Died { ReadFailureIsolates(p, w, world, tx, saved); }
    }

    /** ReconcileObservation, told by its effect, on the read made after run `before`. */
    method ReconcileRead(cred: Credential, instance: InstanceKey, ws: seq<QuotaWindow>, ghost before: seq<Event>)
      returns (exit: Exit, groups: seq<seq<WindowRecord>>, ghost names: seq<string>)
      requires Up() && Normalized(ws) && world.seen == Some((instance, ws)) && run == before + [Observed(instance, ws)]
      modifies this`run, this`world, store`state, store.disk`files
      ensures Tracked() && Quiet(before, run) && (exit == Died <==> world.pc == Down)
      ensures |run| == |before| + 2 && run[|before|] == Observed(instance, ws)
      ensures exit != Error(CycleAlreadyAttempted)
      ensures exit == Nil ==> run[|before| + 1].Committed? && run[|before| + 1].tx.Reconcile?
                              && ReadReconciled(p, old(store.state), store.state, cred, instance, ws,
                                                run[|before| + 1].tx.now)
      ensures exit == Nil ==> store.state.attempts == old(store.state).attempts
      ensures exit != Died ==> Isolated(old(store.state), store.state, instance)
      ensures exit == Nil ==> GroupedNow(p, before, run, cred, instance, groups, names) && StartsJudged(run)
      ensures exit == Nil ==>
                && GroupsReady(store.state, world.cleared, instance, groups, 0)
                && ScheduledOrPending(store.state, instance, groups, 0)
    {
      StateIsGood();
      ghost var s, w := store.state, world;
      ghost var tx;
      exit, groups, tx, names := ReconcileObservation(cred, instance, ws);
      if exit == Nil {
        ReconcileIsolates(p, s, tx);
        ReconcileReadies(p, w, world, tx, groups, names);
        ReconcileSchedules(p, s, tx, groups, names);
        ReconcileIsLast(before, w, tx, groups, names, cred, instance);
      }
    }

    /** A Tick on a credential whose other identities are retired, after run `r`: observe, then run the groups. */
    method ObserveAndRun(cred: Credential, instance: InstanceKey, ghost r: seq<Event>) returns (exit: Exit)
      requires Up() && Quiet(r, run)
      modifies this`run, this`world, store`state, store.disk`files
      ensures Tracked() && (exit == Died <==> world.pc == Down)
      ensures old(run) <= run && TickTrace(p, r, run, cred, instance) && (p.cfg.dryRun ==> Quiet(old(run), run))
      ensures exit != Error(CycleAlreadyAttempted)
      ensures exit == Nil ==> Accounted(old(run), run, old(store.state), store.state)
      ensures exit == Nil ==> TickServed(p, r, run, cred, instance)
      ensures exit != Died ==> Isolated(old(store.state), store.state, instance)
      ensures exit == Nil ==> AllOfInstanceScheduled(store.state, instance)
    {
      ghost var s, q := store.state, run;
      var groups;
      ghost var names;
      exit, groups, names := Observe(cred, instance);
      if exit != Nil {
        QuietTransitive(r, q, run);
        return;
      }
      ghost var u, t := store.state, run;
      exit := RunGroups(cred, instance, groups);
      GroupsThenTick(p, r, q, t, run, cred, instance, groups, names);
      if exit == Nil {
        GroupsThenServed(p, r, q, t, run, cred, instance, groups, names);
        AccountedAfter(q, t, run, s, u, store.state);
      }
      if p.cfg.dryRun { QuietTransitive(q, t, run); }
      if exit != Died { IsolatedTransitive(s, u, store.state, instance); }
    }

    /** Tick, past its checks: retire, observe, run the groups. */
    method TickInstance(cred: Credential, instance: InstanceKey) returns (exit: Exit)
      requires Up()
      modifies this`run, this`world, store`state, store.disk`files
      ensures Tracked() && (exit == Died <==> world.pc == Down)
      ensures old(run) <= run && TickTrace(p, old(run), run, cred, instance) && (p.cfg.dryRun ==> Quiet(old(run), run))
      ensures exit != Error(CycleAlreadyAttempted)
      ensures exit == Nil ==> Accounted(old(run), run, old(store.state), store.state)
      ensures exit == Nil ==> TickServed(p, old(run), run, cred, instance)
      ensures exit != Died ==> OthersKept(old(store.state), store.state, instance)
      ensures exit != Died ==> StrangersKept(old(store.state), store.state, cred.authId, instance)
      ensures exit == Nil ==> Retired(old(run), run, cred.authId, instance)
      ensures exit != Died && Retired(old(run), run, cred.authId, instance) ==>
                ReplacedDisabled(store.state, cred.authId, instance)
      ensures exit == Nil ==> AllOfInstanceScheduled(store.state, instance)
    {
      StateIsGood();
      ghost var s, w, r := store.state, world, run;
      exit := RetireReplacedInstances(cred, instance);
      if exit == Died { return; }
      ghost var t, q := store.state, run;
      RetireEffect(p, w, world, cred.authId, instance, exit);
      if exit != Nil { return; }
      exit := ObserveAndRun(cred, instance, r);
      if p.cfg.dryRun { QuietTransitive(r, q, run); }
      if exit == Nil { AccountedAfter(r, q, run, s, t, store.state); }
      if exit != Died { RetiredThenIsolated(s, t, store.state, cred.authId, instance); }
    }

    /** Tick. Match and Fingerprint are the adapter's; the adapter is one the runtime registered. */
    method Tick(cred: Credential, adapterId: string, matches: bool, fingerprint: Option<string>) returns (exit: Exit)
      requires Up()
      modifies this`run, this`world, this`calls, store`state, store.disk`files
      ensures Tracked() && (exit == Died <==> world.pc == Down)
      ensures old(run) <= run && exit != Error(CycleAlreadyAttempted)
      ensures p.cfg.dryRun || TickIdentity(cred, adapterId, matches, fingerprint).None? ==> Quiet(old(run), run)
      ensures calls == old(calls)
                       + [Ticking(cred, TickIdentity(cred, adapterId, matches, fingerprint), |old(run)|, |run|)]
      ensures exit == Nil && cred.disabled ==>
                CredentialMarked(old(store.state), store.state, cred.authId, Disabled, CredentialDisabled)
      ensures exit == Nil && !cred.disabled ==> matches && fingerprint.Some?
      ensures !cred.disabled && matches && fingerprint.Some? ==>
                var instance := InstanceOf(cred, adapterId, fingerprint.value);
                && TickTrace(p, old(run), run, cred, instance)
                && (exit != Died ==>
                      && OthersKept(old(store.state), store.state, instance)
                      && StrangersKept(old(store.state), store.state, cred.authId, instance)
                      && (Retired(old(run), run, cred.authId, instance) ==>
                            ReplacedDisabled(store.state, cred.authId, instance)))
                && (exit == Nil ==>
                      && Retired(old(run), run, cred.authId, instance)
                      && TickServed(p, old(run), run, cred, instance)
                      && Accounted(old(run), run, old(store.state), store.state)
                      && AllOfInstanceScheduled(store.state, instance))
    {
      ghost var from := |run|;
      if cred.disabled {
        exit := MarkCredentialState(cred, Disabled, CredentialDisabled);
      } else if !matches {
        exit := Error(WrongAdapter);
      } else if fingerprint.None? {
        exit := Error(NoFingerprint);
      } else {
        exit := TickInstance(cred, InstanceOf(cred, adapterId, fingerprint.value));
      }
      calls := calls + [Ticking(cred, TickIdentity(cred, adapterId, matches, fingerprint), from, |run|)];
    }

    // ----- Recover -----

    /** An attempt that never reached its fence is forgotten. */
    method DropOne(id: AttemptId) returns (exit: Exit)
      requires Up() && StillPrepared(store.state, id)
      modifies this`run, this`world, store`state, store.disk`files
      ensures Tracked() && Plain(old(run), run) && (exit == Died <==> world.pc == Down)
      ensures exit != Died ==>
                Frame(old(store.state), store.state, KeySet(old(store.state).attempts[id].windowKeys), {id})
      ensures exit != Died && id in store.state.attempts ==> SameTarget(old(store.state), store.state, id)
      ensures exit == Nil ==> id !in store.state.attempts
      ensures exit == Nil ==> exists now :: DropLeft(old(store.state), store.state, id, now)
      ensures Reads(run) == old(Reads(run))
    {
      StateIsGood();
      ghost var w := world;
      ghost var tx;
      exit, tx := CommitDrop(id);
      if exit != Died { StepFrame(p, w, world, tx, exit); }
      if exit == Error(NotPersisted) { assert store.state == w.mem; }
    }

    /** The verification of an attempt that may have been sent, once it is time for it. */
    method Resume(a: ProbeAttempt) returns (exit: Exit, ghost now: Time)
      requires Up() && a.id in store.state.attempts && store.state.attempts[a.id] == a && 2 <= a.phase.Rank() <= 3
      modifies this`run, this`world, store`state, store.disk`files
      ensures Tracked() && Plain(old(run), run) && (exit == Died <==> world.pc == Down)
      ensures exit != Died ==> Frame(old(store.state), store.state, KeySet(a.windowKeys), {a.id})
      ensures exit != Died ==> SameTarget(old(store.state), store.state, a.id)
      ensures exit == Nil ==> Drained(store.state, a.id)
      ensures exit == Nil ==> Reads(run) == old(Reads(run)) + if Finished(store.state, a.id) then 1 else 0
      ensures exit == Nil ==> EndsVerified(old(run), run, a.id, a.instanceKey)
      ensures exit == Nil ==>
                Verified(p, old(store.state), store.state, a.id, run[|run| - 2], run[|run| - 1], a.sentAt)
      ensures exit == Nil && now < a.verifyNotBefore ==> |run| == |old(run)| + 3 && run[|old(run)|] == Waited(None)
    {
      var clock := Now();
      now := clock;
      if clock < a.verifyNotBefore {
        var cancelled := Wait();
        if cancelled.Some? { return Error(Cancelled), now; }
      }
      ghost var readOk;
      exit, readOk := VerifyAfterRead(a, a.sentAt);
    }

    /** An attempt found in the middle of its send may have gone out: unknown, and then verified like any other. */
    method RecoverSend(a: ProbeAttempt) returns (exit: Exit)
      requires Up() && a.id in store.state.attempts && store.state.attempts[a.id] == a && 1 <= a.phase.Rank() <= 3
      modifies this`run, this`world, store`state, store.disk`files
      ensures Tracked() && Plain(old(run), run) && (exit == Died <==> world.pc == Down)
      ensures exit != Died ==> Frame(old(store.state), store.state, KeySet(a.windowKeys), {a.id})
      ensures exit != Died ==> SameTarget(old(store.state), store.state, a.id)
      ensures exit == Nil ==> Drained(store.state, a.id)
      ensures exit == Nil ==> Reads(run) == old(Reads(run)) + if Finished(store.state, a.id) then 1 else 0
      ensures exit == Nil ==> EndsVerified(old(run), run, a.id, a.instanceKey)
    {
      ghost var now;
      if a.phase != Sending {
        exit, now := Resume(a);
        return;
      }
      ghost var s := store.state;
      exit := Mark(a.id, Unknown, ResultUnknown, a.sentAt, Some(RecoveredDuringSend));
      if exit != Nil { return; }
      ghost var mid := store.state;
      exit, now := Resume(store.state.attempts[a.id]);
      if exit != Died { FrameTransitive(s, mid, store.state, KeySet(a.windowKeys), {a.id}); }
    }

    /** One attempt of the recovery loop; it never sends, and settles the attempt by at most one read. */
    method RecoverOne(id: AttemptId) returns (exit: Exit)
      requires Up() && id in store.state.attempts && store.state.attempts[id].phase != Completed
      modifies this`run, this`world, store`state, store.disk`files
      ensures Tracked() && Plain(old(run), run) && (exit == Died <==> world.pc == Down)
      ensures exit != Died ==>
                Frame(old(store.state), store.state, KeySet(old(store.state).attempts[id].windowKeys), {id})
      ensures exit != Died && id in store.state.attempts ==> SameTarget(old(store.state), store.state, id)
      ensures exit == Nil ==> Drained(store.state, id)
      ensures exit == Nil ==> (id in store.state.attempts <==> old(store.state).attempts[id].phase != Prepared)
      ensures exit == Nil ==> Reads(run) == old(Reads(run)) + if Finished(store.state, id) then 1 else 0
      ensures exit == Nil ==>
                if old(store.state).attempts[id].phase == Prepared then
                  exists now :: DropLeft(old(store.state), store.state, id, now)
                else
                  EndsVerified(old(run), run, id, old(store.state).attempts[id].instanceKey)
    {
      var a := store.state.attempts[id];
      StateIsGood();
      assert AttemptOk(store.state.windows, id, a);
      if a.phase == Prepared {
        exit := DropOne(id);
      } else {
        exit := RecoverSend(a);
      }
    }

    /** RecoverOne, told by its effect. */
    method SettleOne(id: AttemptId) returns (exit: Exit)
      requires Up() && id in store.state.attempts && store.state.attempts[id].phase != Completed
      modifies this`run, this`world, store`state, store.disk`files
      ensures Tracked() && Plain(old(run), run) && (exit == Died <==> world.pc == Down)
      ensures exit != Died ==> Isolated(old(store.state), store.state, old(store.state).attempts[id].instanceKey)
      ensures exit == Nil ==> Settled(old(store.state), store.state, id)
      ensures exit == Nil ==> Reads(run) == old(Reads(run)) + if Finished(store.state, id) then 1 else 0
    {
      StateIsGood();
      ghost var s := store.state;
      exit := RecoverOne(id);
      if exit != Died { RecoveryIsolates(p, s, store.state, id); }
    }

    /** One turn of the recovery loop begun in state `s`, with the attempts `over` completed so far. */
    method SettleNext(ghost s: PersistentState, instance: InstanceKey, ghost todo: set<AttemptId>,
                      ghost over: set<AttemptId>, id: AttemptId)
      returns (exit: Exit)
      requires Up() && id in todo && Underway(s, store.state, instance, todo, over)
      modifies this`run, this`world, store`state, store.disk`files
      ensures Tracked() && Plain(old(run), run) && (exit == Died <==> world.pc == Down)
      ensures exit != Died ==> Isolated(s, store.state, instance)
      ensures exit == Nil ==> Underway(s, store.state, instance, todo - {id}, OverWith(store.state, over, id))
      ensures exit == Nil ==> Reads(run) - old(Reads(run)) == |OverWith(store.state, over, id)| - |over|
    {
      ghost var t := store.state;
      exit := SettleOne(id);
      if exit == Nil {
        SettledKeepsUnderway(s, t, store.state, instance, todo, over, id);
      } else if exit != Died {
        IsolatedTransitive(s, t, store.state, instance);
      }
    }

    /** The loop of Recover, over the open attempts in any order. */
    method RecoverInstance(instance: InstanceKey) returns (exit: Exit)
      requires Up()
      modifies this`run, this`world, store`state, store.disk`files
      ensures Tracked() && Plain(old(run), run) && (exit == Died <==> world.pc == Down)
      ensures exit != Died ==> Isolated(old(store.state), store.state, instance)
      ensures exit == Nil ==> AllDrained(store.state, instance)
      ensures exit == Nil ==>
                Reads(run) - old(Reads(run)) == |FinishedOf(store.state, InFlight(old(store.state), instance))|
      ensures exit == Nil ==>
                (AllFinished(store.state, instance) <==>
                 Reads(run) - old(Reads(run)) == |InFlight(old(store.state), instance)|)
    {
      ghost var s, r := store.state, run;
      var todo := set id | id in store.state.attempts && store.state.attempts[id].instanceKey == instance
                           && store.state.attempts[id].phase != Completed;
      ghost var over: set<AttemptId> := {};
      DrainingBegins(s, instance, todo);
      while todo != {}
        invariant Up() && Plain(r, run)
        invariant Underway(s, store.state, instance, todo, over)
        invariant Reads(run) == Reads(r) + |over|
        decreases |todo|
      {
        var id :| id in todo;
        exit := SettleNext(s, instance, todo, over, id);
        if exit != Nil { return; }
        todo, over := todo - {id}, OverWith(store.state, over, id);
      }
      DrainedAll(s, store.state, instance, over);
      exit := Nil;
    }

    /**
     Recover: it never sends, and nil leaves everything Completed exactly when each attempt in flight was read for.
     */
    method Recover(cred: Credential, adapterId: string, fingerprint: Option<string>) returns (exit: Exit)
      requires Up()
      modifies this`run, this`world, this`calls, store`state, store.disk`files
      ensures Tracked() && Plain(old(run), run) && (exit == Died <==> world.pc == Down)
      ensures calls == old(calls) + [Recovering(cred, Identity(cred, adapterId, fingerprint))]
      ensures fingerprint.None? ==> exit == Error(NoFingerprint) && store.state == old(store.state)
      ensures exit != Died && fingerprint.Some? ==>
                Isolated(old(store.state), store.state, InstanceOf(cred, adapterId, fingerprint.value))
      ensures exit == Nil ==>
                var instance := InstanceOf(cred, adapterId, fingerprint.value);
                && AllDrained(store.state, instance)
                && Reads(run) - old(Reads(run)) == |FinishedOf(store.state, InFlight(old(store.state), instance))|
                && (AllFinished(store.state, instance) <==>
                    Reads(run) - old(Reads(run)) == |InFlight(old(store.state), instance)|)
    {
      calls := calls + [Recovering(cred, Identity(cred, adapterId, fingerprint))];
      if fingerprint.None? { return Error(NoFingerprint); }
      exit := RecoverInstance(InstanceOf(cred, adapterId, fingerprint.value));
    }

    // ----- restart -----

    /** NewStore on the files the last process left: loading them never fails, and loses nothing acknowledged. */
    method Restart()
      requires Tracked() && world.pc == Down
      modifies this`run, this`world, store`state
      ensures Up() && run == old(run) + [Restarted]
      ensures Load(store.disk.files) == Ok(store.state) && Extends(old(world).acked, store.state)
    {
      RecoveryExtendsAcknowledged(p, run);
      var r := Store.ReadBest(store.disk.files);
      store.state := r.value;
      ExecSnoc(p, run, Restarted);
      ReadsSnoc(run, Restarted);
      run := run + [Restarted];
      world := Step(p, world, Restarted).value;
    }
  }
}
