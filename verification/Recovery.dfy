/** What the recovery of one instance's attempts amounts to, followed one attempt at a time. */
module Recovery {
  import opened Wrappers
  import opened Model
  import opened Transactions
  import opened StateInvariant
  import opened Effects
  import opened Steps

  ghost predicate Finished(s: PersistentState, id: AttemptId) {
    id in s.attempts && s.attempts[id].phase == Completed
  }

  /** Settled: gone, known to be over, or known only to be unknown. */
  ghost predicate Drained(s: PersistentState, id: AttemptId) {
    id in s.attempts ==> s.attempts[id].phase in {Unknown, Completed}
  }

  ghost predicate AllDrained(s: PersistentState, instance: InstanceKey) {
    forall id :: id in s.attempts && s.attempts[id].instanceKey == instance ==> Drained(s, id)
  }

  ghost predicate AllFinished(s: PersistentState, instance: InstanceKey) {
    forall id :: id in s.attempts && s.attempts[id].instanceKey == instance ==> Finished(s, id)
  }

  /** The attempts recovery has to settle. */
  ghost predicate Open(s: PersistentState, id: AttemptId, instance: InstanceKey) {
    id in s.attempts && s.attempts[id].instanceKey == instance && s.attempts[id].phase != Completed
  }

  /** Of those, the ones it will try to verify rather than drop. */
  ghost function InFlight(s: PersistentState, instance: InstanceKey): set<AttemptId> {
    set id | id in s.attempts && Open(s, id, instance) && s.attempts[id].phase != Prepared
  }

  ghost function FinishedOf(s: PersistentState, ids: set<AttemptId>): set<AttemptId> {
    set id | id in ids && Finished(s, id)
  }

  // ----- the loop, between the state it started in and the present one -----

  ghost predicate TodoKept(s: PersistentState, t: PersistentState, instance: InstanceKey, todo: set<AttemptId>) {
    forall id :: id in todo ==> Open(s, id, instance) && id in t.attempts && t.attempts[id] == s.attempts[id]
  }

  ghost predicate RestDrained(s: PersistentState, t: PersistentState, instance: InstanceKey, todo: set<AttemptId>) {
    forall id :: id in t.attempts && t.attempts[id].instanceKey == instance && id !in todo ==>
                   && id in s.attempts && Drained(t, id)
                   && (Finished(s, id) || id in InFlight(s, instance)) && (Finished(s, id) ==> Finished(t, id))
  }

  ghost predicate Tallied(s: PersistentState, t: PersistentState, instance: InstanceKey, todo: set<AttemptId>,
                          over: set<AttemptId>)
  {
    && over <= InFlight(s, instance) && over !! todo
    && forall id :: id in InFlight(s, instance) && id !in todo ==>
                      id in t.attempts && t.attempts[id].instanceKey == instance && (id in over <==> Finished(t, id))
  }

  ghost predicate Draining(s: PersistentState, t: PersistentState, instance: InstanceKey, todo: set<AttemptId>,
                           over: set<AttemptId>)
  {
    TodoKept(s, t, instance, todo) && RestDrained(s, t, instance, todo) && Tallied(s, t, instance, todo, over)
  }

  /** One attempt settled: its own windows and record changed and nothing else; a Prepared one is gone. */
  ghost predicate Settled(t: PersistentState, u: PersistentState, id: AttemptId) {
    && id in t.attempts && Frame(t, u, KeySet(t.attempts[id].windowKeys), {id})
    && (id in u.attempts ==> SameTarget(t, u, id))
    && Drained(u, id) && (id in u.attempts <==> t.attempts[id].phase != Prepared)
  }

  lemma SettledKeepsTodo(s: PersistentState, t: PersistentState, u: PersistentState, instance: InstanceKey,
                         todo: set<AttemptId>, id: AttemptId)
    requires TodoKept(s, t, instance, todo) && id in todo && Settled(t, u, id)
    ensures TodoKept(s, u, instance, todo - {id})
  {
  }

  lemma SettledKeepsRest(s: PersistentState, t: PersistentState, u: PersistentState, instance: InstanceKey,
                         todo: set<AttemptId>, id: AttemptId)
    requires TodoKept(s, t, instance, todo) && RestDrained(s, t, instance, todo) && id in todo && Settled(t, u, id)
    ensures RestDrained(s, u, instance, todo - {id})
  {
    forall i | i in u.attempts && u.attempts[i].instanceKey == instance && i !in todo - {id}
      ensures i in s.attempts && Drained(u, i) && (Finished(s, i) || i in InFlight(s, instance))
              && (Finished(s, i) ==> Finished(u, i))
    {
      if i != id { assert i in t.attempts && u.attempts[i] == t.attempts[i]; }
    }
  }

  lemma SettledKeepsTally(s: PersistentState, t: PersistentState, u: PersistentState, instance: InstanceKey,
                          todo: set<AttemptId>, over: set<AttemptId>, id: AttemptId)
    requires TodoKept(s, t, instance, todo) && Tallied(s, t, instance, todo, over) && id in todo && Settled(t, u, id)
    ensures Tallied(s, u, instance, todo - {id}, if Finished(u, id) then over + {id} else over)
  {
    assert Finished(u, id) ==> id in InFlight(s, instance);
    forall i | i in InFlight(s, instance) && i !in todo - {id}
      ensures i in u.attempts && u.attempts[i].instanceKey == instance
      ensures i in (if Finished(u, id) then over + {id} else over) <==> Finished(u, i)
    {
      if i != id { assert i in t.attempts && u.attempts[i] == t.attempts[i]; }
    }
  }

  lemma SettledKeepsDraining(s: PersistentState, t: PersistentState, u: PersistentState, instance: InstanceKey,
                             todo: set<AttemptId>, over: set<AttemptId>, id: AttemptId)
    requires Draining(s, t, instance, todo, over) && id in todo && Settled(t, u, id)
    ensures Draining(s, u, instance, todo - {id}, if Finished(u, id) then over + {id} else over)
  {
    SettledKeepsTodo(s, t, u, instance, todo, id);
    SettledKeepsRest(s, t, u, instance, todo, id);
    SettledKeepsTally(s, t, u, instance, todo, over, id);
  }

  lemma FinishedAll(s: PersistentState, t: PersistentState, instance: InstanceKey, over: set<AttemptId>)
    requires Draining(s, t, instance, {}, over)
    ensures AllDrained(t, instance) && over == FinishedOf(t, InFlight(s, instance))
    ensures over == InFlight(s, instance) <==> AllFinished(t, instance)
  {
    var ids := InFlight(s, instance);
    assert forall id :: id in ids ==>
                          && id in t.attempts && t.attempts[id].instanceKey == instance
                          && (id in over <==> Finished(t, id));
    assert forall id :: id in t.attempts && t.attempts[id].instanceKey == instance ==>
                          && Drained(t, id)
                          && (id in ids || Finished(t, id));
  }

  lemma SubsetCount<T>(a: set<T>, b: set<T>)
    requires a <= b
    ensures |a| <= |b| && (|a| == |b| <==> a == b)
  {
    assert b == a + (b - a);
    if a != b { assert b - a != {}; }
  }

  /** The loop so far, and that it kept to its instance. */
  ghost predicate Underway(s: PersistentState, t: PersistentState, instance: InstanceKey, todo: set<AttemptId>,
                           over: set<AttemptId>)
  {
    Isolated(s, t, instance) && Draining(s, t, instance, todo, over)
  }

  ghost function OverWith(u: PersistentState, over: set<AttemptId>, id: AttemptId): set<AttemptId> {
    if Finished(u, id) then over + {id} else over
  }

  lemma SettledKeepsUnderway(s: PersistentState, t: PersistentState, u: PersistentState, instance: InstanceKey,
                             todo: set<AttemptId>, over: set<AttemptId>, id: AttemptId)
    requires Underway(s, t, instance, todo, over) && id in todo && Isolated(t, u, instance) && Settled(t, u, id)
    ensures Underway(s, u, instance, todo - {id}, OverWith(u, over, id))
    ensures |OverWith(u, over, id)| == |over| + if Finished(u, id) then 1 else 0
  {
    IsolatedTransitive(s, t, u, instance);
    SettledKeepsDraining(s, t, u, instance, todo, over, id);
    assert id !in over;
  }

  /** With nothing left to do: all drained, and all finished exactly when each attempt in flight was. */
  lemma DrainedAll(s: PersistentState, t: PersistentState, instance: InstanceKey, over: set<AttemptId>)
    requires Draining(s, t, instance, {}, over)
    ensures AllDrained(t, instance) && over == FinishedOf(t, InFlight(s, instance))
    ensures |over| == |InFlight(s, instance)| <==> AllFinished(t, instance)
  {
    FinishedAll(s, t, instance, over);
    SubsetCount(over, InFlight(s, instance));
  }

  /** Where the loop starts. */
  lemma DrainingBegins(s: PersistentState, instance: InstanceKey, todo: set<AttemptId>)
    requires forall id :: id in todo <==> Open(s, id, instance)
    ensures Draining(s, s, instance, todo, {})
  {
  }

  /** One attempt's recovery keeps to its instance. */
  lemma RecoveryIsolates(p: Params, s: PersistentState, t: PersistentState, id: AttemptId)
    requires StateInv(p, s) && id in s.attempts && Frame(s, t, KeySet(s.attempts[id].windowKeys), {id})
    requires id in t.attempts ==> SameTarget(s, t, id)
    ensures Isolated(s, t, s.attempts[id].instanceKey)
  {
    assert AttemptOk(s.windows, id, s.attempts[id]);
    assert forall k :: k in s.windows <==> k in t.windows.Keys;
  }
}
