/** Why a send was allowed: each window it covers was read, in the same Tick, against the baseline being spent. */
module Admission {
  import opened Wrappers
  import opened Model
  import opened Adapters
  import opened Transactions
  import opened StateInvariant
  import opened Preservation
  import opened Files
  import opened Machine

  /** Event `i` is the commit, right after the read it judges, that cleared the window for this cycle. */
  ghost predicate ClearedBy(p: Params, run: seq<Event>, i: nat, k: WindowKey, c: CycleId) {
    && 1 <= i < |run| && run[i].Committed? && run[i].fault.Acknowledged? && IsRun(p, run[..i])
    && (run[i].tx.Reconcile? || run[i].tx.PrecheckGroup?)
    && run[i - 1] == Observed(run[i].tx.instance, run[i].tx.windows)
    && k in Clears(p, Exec(p, run[..i]).value.mem, run[i].tx)
    && Clears(p, Exec(p, run[..i]).value.mem, run[i].tx)[k] == c
  }

  /** An event after which the same Tick may go on. */
  predicate WithinTick(e: Event) {
    !e.Crashed? && !e.Restarted? && (e.Committed? ==> e.fault.Acknowledged? && !e.tx.RetireReplaced?)
  }

  /** Nothing since event `i` began another Tick or interrupted this one. */
  ghost predicate SameTick(run: seq<Event>, i: nat) {
    forall j :: i < j < |run| ==> WithinTick(run[j])
  }

  /**
   Clearing means: the window is there, the cycle is its baseline's, and the read shows it activatable and not rolled
   over.
   */
  lemma ClearsMeans(p: Params, s: PersistentState, tx: Tx, k: WindowKey)
    requires k in Clears(p, s, tx)
    ensures tx.Reconcile? || tx.PrecheckGroup?
    ensures k in s.windows && Clears(p, s, tx)[k] == s.windows[k].baseline.cycleId
    ensures k.bucketId in ByBucket(tx.windows)
    ensures var w := ByBucket(tx.windows)[k.bucketId];
            StillLazy(p, s.windows[k], if tx.Reconcile? then Attributed(tx.cred, w) else w)
    ensures tx.Reconcile? ==> k.instance == tx.instance && tx.now >= s.windows[k].baseline.resetAt + p.cfg.resetGrace
  {
  }

  /**
   Event `i` judged the read just before it: it reported the bucket of window `k`, activatable and with its reset
   within the skew of the stored baseline or lazy, and that baseline is the one of cycle `c`.
   */
  ghost predicate ShownLazy(p: Params, run: seq<Event>, i: nat, k: WindowKey, c: CycleId) {
    && 1 <= i < |run| && run[i].Committed? && run[i].fault.Acknowledged? && IsRun(p, run[..i])
    && (run[i].tx.Reconcile? || run[i].tx.PrecheckGroup?)
    && run[i - 1] == Observed(run[i].tx.instance, run[i].tx.windows)
    && var s, tx, byBucket := Exec(p, run[..i]).value.mem, run[i].tx, ByBucket(run[i].tx.windows);
    && k in s.windows && s.windows[k].baseline.cycleId == c && k.bucketId in byBucket
    && StillLazy(p, s.windows[k],
                 if tx.Reconcile? then Attributed(tx.cred, byBucket[k.bucketId]) else byBucket[k.bucketId])
  }

  lemma ClearedWasShown(p: Params, run: seq<Event>, i: nat, k: WindowKey, c: CycleId)
    requires ClearedBy(p, run, i, k, c)
    ensures ShownLazy(p, run, i, k, c)
  {
    ClearsMeans(p, Exec(p, run[..i]).value.mem, run[i].tx, k);
  }

  /** The machine remembers a read only until the next event. */
  lemma SeenIsLastEvent(p: Params, run: seq<Event>)
    requires IsRun(p, run) && Exec(p, run).value.seen.Some?
    ensures run != [] && run[|run| - 1] == Observed(Exec(p, run).value.seen.value.0, Exec(p, run).value.seen.value.1)
  {
    assert run != [];
  }

  lemma PrefixStillClears(p: Params, run: seq<Event>, e: Event, i: nat, k: WindowKey, c: CycleId)
    requires ClearedBy(p, run, i, k, c)
    ensures ClearedBy(p, run + [e], i, k, c)
  {
    assert (run + [e])[..i] == run[..i];
  }

  lemma NewlyCleared(p: Params, run: seq<Event>, e: Event, k: WindowKey)
    requires IsRun(p, run) && e.Committed? && e.fault.Acknowledged? && Step(p, Exec(p, run).value, e).Some?
    requires k in Clears(p, Exec(p, run).value.mem, e.tx)
    ensures ClearedBy(p, run + [e], |run|, k, Clears(p, Exec(p, run).value.mem, e.tx)[k])
  {
    var all := run + [e];
    assert all[..|run|] == run;
    SeenIsLastEvent(p, run);
    assert all[|run| - 1] == run[|run| - 1];
  }

  /** A clearance held after an event was given by it, or held before it within the same Tick. */
  lemma ClearanceStep(p: Params, w: World, e: Event, k: WindowKey)
    requires Step(p, w, e).Some? && k in Step(p, w, e).value.cleared
    ensures WithinTick(e)
    ensures if e.Committed?
               && k in Clears(p, w.mem, e.tx) then Step(p, w, e).value.cleared[k] == Clears(p, w.mem, e.tx)[k]
            else k in w.cleared && Step(p, w, e).value.cleared[k] == w.cleared[k]
  {
  }

  lemma SameTickSnoc(run: seq<Event>, e: Event, i: nat)
    requires SameTick(run, i) || i == |run|
    requires i < |run| ==> WithinTick(e)
    ensures SameTick(run + [e], i)
  {
  }

  /** Every clearance the machine holds was given in this Tick by such a commit. */
  lemma {:induction false} ClearanceHasSource(p: Params, run: seq<Event>, k: WindowKey) returns (i: nat)
    requires IsRun(p, run) && k in Exec(p, run).value.cleared
    ensures ClearedBy(p, run, i, k, Exec(p, run).value.cleared[k]) && SameTick(run, i)
  {
    assert run != [];
    var init, e := run[..|run| - 1], run[|run| - 1];
    assert run == init + [e];
    var w := Exec(p, init).value;
    ClearanceStep(p, w, e, k);
    if e.Committed? && k in Clears(p, w.mem, e.tx) {
      NewlyCleared(p, init, e, k);
      i := |init|;
    } else {
      i := ClearanceHasSource(p, init, k);
      PrefixStillClears(p, init, e, i, k, w.cleared[k]);
    }
    SameTickSnoc(init, e, i);
  }

  lemma FencedBy(p: Params, w: World, e: Event, a: ProbeAttempt)
    requires Step(p, w, e).Some? && Step(p, w, e).value.pc == Fenced(a)
    ensures e.Committed? && e.fault.Acknowledged? && e.tx.Fence? && e.tx.attempt == a && w.pc == Armed(a)
  {
  }

  lemma ArmedBy(p: Params, w: World, e: Event, a: ProbeAttempt)
    requires Step(p, w, e).Some? && Step(p, w, e).value.pc == Armed(a)
    ensures e.Committed? && e.fault.Acknowledged? && e.tx == Prepare(a) && Allowed(p, w, Prepare(a))
  {
  }

  /** Before a send the last two events prepared and fenced that very attempt. */
  lemma SendFollowsFence(p: Params, run: seq<Event>, a: ProbeAttempt, e: Option<Note>)
    requires IsRun(p, run + [Dispatched(a, e)])
    ensures |run| >= 2 && run[|run| - 1].Committed? && run[|run| - 1].fault.Acknowledged? && run[|run| - 1].tx.Fence?
            && run[|run| - 1].tx.attempt == a
    ensures run[|run| - 2].Committed? && run[|run| - 2].fault.Acknowledged? && run[|run| - 2].tx == Prepare(a)
    ensures IsRun(p, run[..|run| - 2]) && Allowed(p, Exec(p, run[..|run| - 2]).value, Prepare(a))
  {
    assert (run + [Dispatched(a, e)])[..|run|] == run;
    assert Exec(p, run).value.pc == Fenced(a);
    assert run != [];
    var before := run[..|run| - 1];
    FencedBy(p, Exec(p, before).value, run[|run| - 1], a);
    assert before != [];
    ArmedBy(p, Exec(p, before[..|before| - 1]).value, before[|before| - 1], a);
    assert before[..|before| - 1] == run[..|run| - 2];
  }

  lemma ClearedLater(p: Params, run: seq<Event>, m: nat, i: nat, k: WindowKey, c: CycleId)
    requires m <= |run| && ClearedBy(p, run[..m], i, k, c)
    ensures ClearedBy(p, run, i, k, c)
  {
    assert run[..i] == run[..m][..i];
  }

  lemma ClearedForEach(p: Params, w: World, a: ProbeAttempt, i: nat)
    requires Allowed(p, w, Prepare(a)) && i < |a.windowKeys|
    ensures i < |a.cycleIds| && a.windowKeys[i] in w.cleared && w.cleared[a.windowKeys[i]] == a.cycleIds[i]
  {
  }

  /**
   At every send, for each window covered: earlier in the same Tick a quota read, judged at once against a state
   whose baseline for the window was already the cycle now spent, showed the window activatable and still lazy.
   */
  lemma SendIsAdmitted(p: Params, run: seq<Event>, a: ProbeAttempt, e: Option<Note>, n: nat)
    requires IsRun(p, run + [Dispatched(a, e)]) && n < |a.windowKeys|
    ensures n < |a.cycleIds|
    ensures exists i: nat ::
              && i < |run| - 2 && ClearedBy(p, run, i, a.windowKeys[n], a.cycleIds[n])
              && ShownLazy(p, run, i, a.windowKeys[n], a.cycleIds[n]) && SameTick(run[..|run| - 2], i)
  {
    SendFollowsFence(p, run, a, e);
    var front := run[..|run| - 2];
    ClearedForEach(p, Exec(p, front).value, a, n);
    var i := ClearanceHasSource(p, front, a.windowKeys[n]);
    ClearedLater(p, run, |run| - 2, i, a.windowKeys[n], a.cycleIds[n]);
    ClearedWasShown(p, run, i, a.windowKeys[n], a.cycleIds[n]);
  }

  // ----- dry run -----

  lemma {:induction false} DryRunNeverArms(p: Params, run: seq<Event>)
    requires p.cfg.dryRun && IsRun(p, run)
    ensures !Exec(p, run).value.pc.Armed? && !Exec(p, run).value.pc.Fenced?
    ensures forall i :: 0 <= i < |run| ==> !run[i].Dispatched?
  {
    if run != [] {
      var init := run[..|run| - 1];
      DryRunNeverArms(p, init);
      assert forall i :: 0 <= i < |init| ==> run[i] == init[i];
    }
  }
}
