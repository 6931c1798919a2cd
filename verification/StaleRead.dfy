/**
 Where admission ends. A group that needed no precheck rests on the first read of its Tick; while an earlier group
 is being verified that read grows old, and what the newer one says about the later group is not looked at.
 */
module StaleRead {
  import opened Wrappers
  import opened Model
  import opened Adapters
  import opened Ordering
  import opened Normalize
  import opened Transactions
  import opened StateInvariant
  import opened Preservation
  import opened Files
  import opened Machine
  import opened Safety
  import opened Grouping
  import opened Effects
  import opened Loops
  import opened Traces
  import opened Steps
  import opened Witness

  // ----- a Tick with two groups, each of one window -----

  function TwoGroups(a: ProbeAttempt, b: ProbeAttempt, ws: seq<QuotaWindow>, now: Time, later: Time): seq<Event> {
    SendEvents(a, now) + SettleEvents(a, ws, now, later) + SendEvents(b, later)
  }

  /** The first group is sent for and verified, and the second is as ready as before. */
  lemma FirstGroup(p: Params, run: seq<Event>, r: WindowRecord, a: ProbeAttempt, x: WindowRecord, b: ProbeAttempt,
                   ws: seq<QuotaWindow>, now: Time, later: Time)
    requires Alive(p, run) && !p.cfg.dryRun && Normalized(ws) && now > 0 && later > 0
    requires ReadyFor(Reached(p, run), r, a) && ReadyFor(Reached(p, run), x, b) && r.key != x.key && a.id != b.id
    ensures var t := run + SendEvents(a, now) + SettleEvents(a, ws, now, later);
            && Alive(p, t)
            && ReadyFor(Reached(p, t), x, b)
  {
    ReachableStateIsGood(p, run);
    SendAndSettle(p, run, r, a, ws, now, later);
    var t := run + SendEvents(a, now) + SettleEvents(a, ws, now, later);
    StaysReady(p, Reached(p, run), Reached(p, t), x, b, r.key, a.id);
  }

  lemma BothGroups(p: Params, run: seq<Event>, r: WindowRecord, a: ProbeAttempt, x: WindowRecord, b: ProbeAttempt,
                   ws: seq<QuotaWindow>, now: Time, later: Time)
    requires Alive(p, run) && !p.cfg.dryRun && Normalized(ws) && now > 0 && later > 0
    requires ReadyFor(Reached(p, run), r, a) && ReadyFor(Reached(p, run), x, b) && r.key != x.key && a.id != b.id
    ensures IsRun(p, run + TwoGroups(a, b, ws, now, later))
  {
    FirstGroup(p, run, r, a, x, b, ws, now, later);
    var t := run + SendEvents(a, now) + SettleEvents(a, ws, now, later);
    SendReady(p, t, x, b, later);
    assert run + TwoGroups(a, b, ws, now, later) == t + SendEvents(b, later);
  }

  /** That is what running the two groups adds, neither having needed a precheck. */
  lemma BothGroupsTrace(run: seq<Event>, r: WindowRecord, a: ProbeAttempt, x: WindowRecord, b: ProbeAttempt,
                        ws: seq<QuotaWindow>, now: Time, later: Time, instance: InstanceKey)
    requires StartsJudged(run) && r.state == LazyDetected && x.state == LazyDetected && r.key != x.key
    requires Targets(a, instance, [r]) && Targets(b, instance, [x])
    ensures GroupsTrace(run, run + TwoGroups(a, b, ws, now, later), instance, [[r], [x]], 2)
  {
    var groups := [[r], [x]];
    var t2 := run + SendEvents(a, now) + SettleEvents(a, ws, now, later);
    var u := t2 + SendEvents(b, later);
    SettleTraceFor(run, r, a, ws, now, later, instance);
    SendTraceFor(t2, x, b, later, instance);
    assert !NeedsPrecheck([r]) && !NeedsPrecheck([x]);
    assert GroupsTrace(run, run, instance, groups, 0);
    NextGroup(run, run, t2, instance, groups, 0);
    NextGroup(run, t2, u, instance, groups, 1);
    assert u == run + TwoGroups(a, b, ws, now, later);
  }

  /** The latest read before the second send is the verification of the first. */
  lemma InterveningRead(run: seq<Event>, a: ProbeAttempt, b: ProbeAttempt, ws: seq<QuotaWindow>, now: Time, later: Time)
    ensures var u := run + TwoGroups(a, b, ws, now, later);
            && |u| == |run| + 12 && u[|u| - 1] == Dispatched(b, None) && u[|u| - 6] == Observed(a.instanceKey, ws)
            && forall l :: |u| - 6 < l < |u| ==> !u[l].Observed?
  {
    var u := run + TwoGroups(a, b, ws, now, later);
    assert u == run + [Planned(None), Saved(Prepare(a)), Saved(Fence(a, now)), Dispatched(a, None),
                       Saved(Outcome(a, now)), Waited(None), Observed(a.instanceKey, ws),
                       Saved(VerifyAttempt(a.id, ws, later)),
                       Planned(None), Saved(Prepare(b)), Saved(Fence(b, later)), Dispatched(b, None)];
  }

  /** So the second send is not fresh. */
  lemma SecondIsStale(run: seq<Event>, r: WindowRecord, a: ProbeAttempt, x: WindowRecord, b: ProbeAttempt,
                      ws: seq<QuotaWindow>, now: Time, later: Time, instance: InstanceKey)
    requires StartsJudged(run) && r.state == LazyDetected && x.state == LazyDetected && r.key != x.key
    requires Targets(a, instance, [r]) && Targets(b, instance, [x])
    ensures var u := run + TwoGroups(a, b, ws, now, later); |u| > 0 && !Fresh(u, |u| - 1, KeysOf([x]))
  {
    BothGroupsTrace(run, r, a, x, b, ws, now, later, instance);
    InterveningRead(run, a, b, ws, now, later);
    TargetsCover(b, instance, [x]);
    LaterIsStale(run, run + TwoGroups(a, b, ws, now, later), r, x, b, instance);
  }

  lemma LaterIsStale(run: seq<Event>, u: seq<Event>, r: WindowRecord, x: WindowRecord, b: ProbeAttempt,
                     instance: InstanceKey)
    requires GroupsTrace(run, u, instance, [[r], [x]], 2) && |u| >= |run| + 6 && u[|u| - 1] == Dispatched(b, None)
    requires u[|u| - 6].Observed? && Covers(b, instance, [x]) && x.state == LazyDetected && r.key != x.key
    ensures !Fresh(u, |u| - 1, KeysOf([x]))
  {
    var groups := [[r], [x]];
    var g :| 0 <= g < 2 && SentFor(run, u, |u| - 1, instance, groups, g);
    CoversOne(b, instance, groups, g, 1);
    assert !NeedsPrecheck([x]);
  }

  /**
   Any read at all may come between a group's judgement and its send. From a Tick that found two windows lazy, in
   groups of their own, the run goes on as a Tick that verifies the first with that read and then sends for the second.
   */
  lemma AnyReadMayIntervene(p: Params, before: seq<Event>, cred: Credential, instance: InstanceKey,
                            seen: seq<QuotaWindow>, now: Time,
                            r: WindowRecord, x: WindowRecord, names: seq<string>, ws: seq<QuotaWindow>,
                            a: ProbeAttempt, b: ProbeAttempt)
    requires Alive(p, before) && !p.cfg.dryRun && Normalized(seen) && Normalized(ws) && now > 0
    requires AllOf(Reached(p, before).mem, instance)
    requires ListsGroups([[r], [x]], names,
                         Grouped(Joining(p, Stamp(Reached(p, before).mem), cred, instance, seen, now)))
    requires r.state == LazyDetected && x.state == LazyDetected && r.key != x.key
             && r.key.instance == instance == x.key.instance
    requires a.id != b.id && a.id !in Reached(p, before).mem.attempts && b.id !in Reached(p, before).mem.attempts
    requires a == AttemptOf(p, a.id, cred, instance, r.provider, a.activationGroup, KeysOf([r]), CyclesOf([r]), now)
    requires b == AttemptOf(p, b.id, cred, instance, x.provider, b.activationGroup, KeysOf([x]), CyclesOf([x]),
                            now + p.cfg.verifyDelay)
    ensures var u := before + ObserveEvents(cred, instance, seen, now)
                     + TwoGroups(a, b, ws, now, now + p.cfg.verifyDelay);
            && IsRun(p, u) && TickTrace(p, before, u, cred, instance)
            && u[|u| - 1] == Dispatched(b, None) && u[|u| - 6] == Observed(instance, ws)
            && (forall l :: |u| - 6 < l < |u| ==> !u[l].Observed?)
            && !Fresh(u, |u| - 1, KeysOf([x]))
  {
    var run, later := before + ObserveEvents(cred, instance, seen, now), now + p.cfg.verifyDelay;
    var u := run + TwoGroups(a, b, ws, now, later);
    BothReady(p, before, cred, instance, seen, now, r, x, names, a, b);
    BothGroups(p, run, r, a, x, b, ws, now, later);
    ObserveGroups(p, before, cred, instance, seen, now, [[r], [x]], names);
    BothGroupsTrace(run, r, a, x, b, ws, now, later, instance);
    assert Quiet(before, before);
    GroupsThenTick(p, before, before, run, u, cred, instance, [[r], [x]], names);
    InterveningRead(run, a, b, ws, now, later);
    SecondIsStale(run, r, a, x, b, ws, now, later, instance);
    assert u == before + ObserveEvents(cred, instance, seen, now) + TwoGroups(a, b, ws, now, later);
  }

  lemma ListedJoined(rs: seq<WindowRecord>, groups: seq<seq<WindowRecord>>, names: seq<string>, g: nat, r: WindowRecord)
    requires DistinctRecords(rs) && ListsGroups(groups, names, Grouped(rs)) && g < |groups| && r in groups[g]
    ensures r in rs
  {
    ListedGroupsPartition(rs, groups, names);
  }

  lemma BothReady(p: Params, before: seq<Event>, cred: Credential, instance: InstanceKey, seen: seq<QuotaWindow>,
                  now: Time,
                  r: WindowRecord, x: WindowRecord, names: seq<string>, a: ProbeAttempt, b: ProbeAttempt)
    requires Alive(p, before) && Normalized(seen) && now > 0 && AllOf(Reached(p, before).mem, instance)
    requires ListsGroups([[r], [x]], names,
                         Grouped(Joining(p, Stamp(Reached(p, before).mem), cred, instance, seen, now)))
    requires r.state == LazyDetected && x.state == LazyDetected && r.key.instance == instance == x.key.instance
    requires a.id !in Reached(p, before).mem.attempts && b.id !in Reached(p, before).mem.attempts
    requires Targets(a, instance, [r]) && Targets(b, instance, [x])
    ensures var t := before + ObserveEvents(cred, instance, seen, now);
            Alive(p, t) && ReadyFor(Reached(p, t), r, a) && ReadyFor(Reached(p, t), x, b)
  {
    var s := Stamp(Reached(p, before).mem);
    var rs := Joining(p, s, cred, instance, seen, now);
    ObserveTick(p, before, cred, instance, seen, now);
    NormalizedIsAcceptable(seen);
    JoiningExact(p, s, cred, instance, seen, now);
    assert r in [[r], [x]][0] && x in [[r], [x]][1];
    ListedJoined(rs, [[r], [x]], names, 0, r);
    ListedJoined(rs, [[r], [x]], names, 1, x);
    JoinedIsReady(p, before, cred, instance, seen, now, r);
    JoinedIsReady(p, before, cred, instance, seen, now, x);
    ReconcileKeepsAttempts(p, s, Reconcile(cred, instance, seen, now));
  }

  lemma ReconcileKeepsAttempts(p: Params, s: PersistentState, tx: Tx)
    requires tx.Reconcile?
    ensures NextState(p, s, tx).attempts == s.attempts
  {
  }

  // ----- a concrete case, with the Antigravity adapter -----

  const FIXED := Params(Config(false, 0, 3 * SECOND, 10 * MINUTE, 30 * MINUTE, 2 * MINUTE, [], 0),
                        (id: string) => ANTIGRAVITY)
  const USER := Credential("auth", "index", "antigravity", false)
  const ACCOUNT := InstanceKey("antigravity", "index", "fingerprint")

  function Bucket(id: string, group: string, resetAt: Time): QuotaWindow {
    QuotaWindow("antigravity", "auth", id, "", "", None, resetAt, 5 * HOUR, 1, group, false, true)
  }

  /** The five-hour windows of both groups, due to reset at `resetAt`. */
  function Quota(resetAt: Time): seq<QuotaWindow> {
    [Bucket("3p-5h", "antigravity-third-party", resetAt), Bucket("gemini-5h", "antigravity-gemini", resetAt)]
  }

  lemma QuotaIsNormalized(resetAt: Time)
    requires resetAt > 0
    ensures Normalized(Quota(resetAt))
  {
    assert Less("3p-5h", "gemini-5h");
  }

  /** The first Tick, before the reset. */
  function Opening(): seq<Event> {
    [Restarted] + ObserveEvents(USER, ACCOUNT, Quota(100), 50)
  }

  /** Window `i` after the first Tick. */
  function Waiting(i: nat): WindowRecord
    requires i < 2
  {
    FirstObservation(FIXED, USER, ACCOUNT, 50, Quota(100)[i]).record
  }

  /** Window `i` after the second Tick, past its reset. */
  function Due(i: nat): WindowRecord
    requires i < 2
  {
    Revisit(FIXED, ACCOUNT, false, 200, Waiting(i), Quota(100)[i]).record
  }

  lemma FirstTable(s: PersistentState)
    requires s == NextState(FIXED, Stamp(EmptyState()), Reconcile(USER, ACCOUNT, Quota(100), 50))
    ensures AllOf(s, ACCOUNT) && s.ledger == map[] && s.attempts == map[]
    ensures forall i :: 0 <= i < 2 ==> Waiting(i).key in s.windows && s.windows[Waiting(i).key] == Waiting(i)
  {
    QuotaIsNormalized(100);
    EmptyStateInv(FIXED);
    StampKeeps(FIXED, EmptyState(), EmptyState());
    var ws := Quota(100);
    forall i | 0 <= i < 2 ensures Waiting(i).key in s.windows && s.windows[Waiting(i).key] == Waiting(i) {
      assert ws[i] in ws && Waiting(i).key in SeenKeys(ACCOUNT, ws);
      ReconciledTable(FIXED, Stamp(EmptyState()), USER, ACCOUNT, ws, 50, Waiting(i).key);
    }
    forall k | k in s.windows ensures k.instance == ACCOUNT {
      ReconciledTable(FIXED, Stamp(EmptyState()), USER, ACCOUNT, ws, 50, k);
    }
  }

  lemma OpeningIsTick()
    ensures TickRun(FIXED, Opening(), USER, ACCOUNT, [1, 4])
  {
    StartTickRun(FIXED, USER, ACCOUNT);
    assert Quiet([Restarted], Opening());
    OneMoreTick(FIXED, [Restarted], Opening(), USER, ACCOUNT, [1]);
    assert [1] + [|Opening()|] == [1, 4];
  }

  lemma FirstTick()
    ensures Alive(FIXED, Opening()) && TickRun(FIXED, Opening(), USER, ACCOUNT, [1, 4])
    ensures var s := Reached(FIXED, Opening()).mem;
            && AllOf(s, ACCOUNT) && s.ledger == map[] && s.attempts == map[]
            && forall i :: 0 <= i < 2 ==> Waiting(i).key in s.windows && s.windows[Waiting(i).key] == Waiting(i)
  {
    QuotaIsNormalized(100);
    Start(FIXED);
    ObserveTick(FIXED, [Restarted], USER, ACCOUNT, Quota(100), 50);
    FirstTable(Reached(FIXED, Opening()).mem);
    OpeningIsTick();
  }

  lemma WillJoin(s: PersistentState, i: nat)
    requires i < 2 && s.ledger == map[] && Waiting(i).key in s.windows && s.windows[Waiting(i).key] == Waiting(i)
    ensures Reconciled(FIXED, s, USER, ACCOUNT, 200, Quota(100)[i]) == Verdict(Due(i), true)
    ensures Due(i).state == LazyDetected && Due(i).key == WindowKey(ACCOUNT, Quota(100)[i].bucketId)
    ensures Due(i).latest.GroupName() == Quota(100)[i].activationGroup
  {
  }

  lemma JoinMore(p: Params, s: PersistentState, cred: Credential, instance: InstanceKey, now: Time,
                 ws: seq<QuotaWindow>, w: QuotaWindow, rs: seq<WindowRecord>, r: WindowRecord)
    requires Joining(p, s, cred, instance, ws, now) == rs
    requires Reconciled(p, s, cred, instance, now, w) == Verdict(r, true)
    ensures Joining(p, s, cred, instance, ws + [w], now) == rs + [r]
  {
    JoiningSnoc(p, s, cred, instance, ws, now, w);
  }

  lemma JoinNone(p: Params, s: PersistentState, cred: Credential, instance: InstanceKey, now: Time)
    ensures Joining(p, s, cred, instance, [], now) == []
  {
  }

  lemma PairOf<T>(x: T, y: T)
    ensures [] + [x] + [y] == [x, y]
  {
  }

  lemma JoinTwo(p: Params, s: PersistentState, cred: Credential, instance: InstanceKey, now: Time,
                w: QuotaWindow, r: WindowRecord, v: QuotaWindow, x: WindowRecord)
    requires Reconciled(p, s, cred, instance, now, w) == Verdict(r, true)
    requires Reconciled(p, s, cred, instance, now, v) == Verdict(x, true)
    ensures Joining(p, s, cred, instance, [w, v], now) == [r, x]
  {
    JoinNone(p, s, cred, instance, now);
    JoinMore(p, s, cred, instance, now, [], w, [], r);
    JoinMore(p, s, cred, instance, now, [] + [w], v, [] + [r], x);
    PairOf(w, v);
    PairOf(r, x);
  }

  lemma TwoNamedGroups(r: WindowRecord, x: WindowRecord, g: string, h: string)
    requires r.latest.GroupName() == g && x.latest.GroupName() == h && g != h
    ensures Grouped([r, x]) == map[g := [r], h := [x]]
  {
    assert [] + [r] == [r] && [r] + [x] == [r, x] && [] + [x] == [x];
    GroupedSnoc([], r);
    GroupedSnoc([r], x);
  }

  lemma NamesInOrder()
    ensures "antigravity-gemini" != "antigravity-third-party" && Less("antigravity-gemini", "antigravity-third-party")
  {
    assert Less("gemini", "third-party");
    LessAfter("antigravity-", "gemini", "third-party");
    assert "antigravity-" + "gemini" == "antigravity-gemini";
    assert "antigravity-" + "third-party" == "antigravity-third-party";
  }

  lemma {:induction false} LessAfter(front: string, a: string, b: string)
    requires Less(a, b)
    ensures Less(front + a, front + b)
  {
    if front == "" {
      assert front + a == a && front + b == b;
    } else {
      LessAfter(front[1..], a, b);
      assert (front + a)[1..] == front[1..] + a && (front + b)[1..] == front[1..] + b;
    }
  }

  /** The second Tick forms the two groups, Gemini first. */
  lemma SecondTickGroups(s: PersistentState)
    requires s.ledger == map[]
    requires forall i :: 0 <= i < 2 ==> Waiting(i).key in s.windows && s.windows[Waiting(i).key] == Waiting(i)
    ensures ListsGroups([[Due(1)], [Due(0)]], ["antigravity-gemini", "antigravity-third-party"],
                        Grouped(Joining(FIXED, s, USER, ACCOUNT, Quota(100), 200)))
  {
    WillJoin(s, 0);
    WillJoin(s, 1);
    JoinTwo(FIXED, s, USER, ACCOUNT, 200, Quota(100)[0], Due(0), Quota(100)[1], Due(1));
    assert Quota(100) == [Quota(100)[0], Quota(100)[1]];
    NamesInOrder();
    TwoNamedGroups(Due(0), Due(1), "antigravity-third-party", "antigravity-gemini");
    TwoListed(Due(1), Due(0), "antigravity-gemini", "antigravity-third-party");
  }

  lemma TwoListed(r: WindowRecord, x: WindowRecord, g: string, h: string)
    requires Less(g, h) && g != h
    ensures ListsGroups([[r], [x]], [g, h], map[h := [x], g := [r]])
  {
  }

  /** When the two groups reset next. */
  const NEXT: Time := 200 + 5 * HOUR

  function AttemptFor(id: AttemptId, r: WindowRecord, now: Time): ProbeAttempt {
    AttemptOf(FIXED, id, USER, ACCOUNT, r.provider, r.activationGroup, KeysOf([r]), CyclesOf([r]), now)
  }

  lemma DueOverrun()
    ensures RolledOver(FIXED, Due(0).baseline, Quota(NEXT)[0])
  {
  }

  /** The second Tick, sending for Gemini and then, at its verification, for the third party. */
  function StaleRun(b: ProbeAttempt, a: ProbeAttempt): seq<Event> {
    Opening() + ObserveEvents(USER, ACCOUNT, Quota(100), 200) + TwoGroups(b, a, Quota(NEXT), 200, 200 + 3 * SECOND)
  }

  lemma StaleTick(b: ProbeAttempt, a: ProbeAttempt)
    requires b == AttemptFor(1, Due(1), 200) && a == AttemptFor(0, Due(0), 200 + 3 * SECOND)
    ensures var u := StaleRun(b, a);
            && IsRun(FIXED, u) && Opening() <= u && TickTrace(FIXED, Opening(), u, USER, ACCOUNT)
            && u[|u| - 1] == Dispatched(a, None) && u[|u| - 6] == Observed(ACCOUNT, Quota(NEXT))
            && (forall l :: |u| - 6 < l < |u| ==> !u[l].Observed?)
            && !Fresh(u, |u| - 1, KeysOf([Due(0)]))
  {
    FirstTick();
    var s := Stamp(Reached(FIXED, Opening()).mem);
    WillJoin(s, 0);
    WillJoin(s, 1);
    SecondTickGroups(s);
    QuotaIsNormalized(100);
    QuotaIsNormalized(NEXT);
    AnyReadMayIntervene(FIXED, Opening(), USER, ACCOUNT, Quota(100), 200, Due(1), Due(0),
                        ["antigravity-gemini", "antigravity-third-party"], Quota(NEXT), b, a);
  }

  lemma DueTarget()
    ensures KeysOf([Due(0)]) == [WindowKey(ACCOUNT, "3p-5h")] && CyclesOf([Due(0)]) == [Due(0).baseline.cycleId]
  {
  }

  /**
   A send against the latest read, in a run made of two Ticks. The second sends for the Gemini group and verifies
   it; that verification read shows the third-party window rolled over on its own, and its old cycle is sent for
   all the same.
   */
  lemma StaleSend() returns (run: seq<Event>, a: ProbeAttempt)
    ensures IsRun(FIXED, run + [Dispatched(a, None)])
            && TickRun(FIXED, run + [Dispatched(a, None)], USER, ACCOUNT, [1, 4, |run| + 1])
    ensures a.windowKeys == [WindowKey(ACCOUNT, "3p-5h")] && a.cycleIds == [Due(0).baseline.cycleId]
    ensures exists m ::
              && 0 <= m < |run| - 2 && run[m] == Observed(ACCOUNT, Quota(NEXT))
              && (forall l :: m < l < |run| ==> !run[l].Observed?)
    ensures RolledOver(FIXED, Due(0).baseline, Quota(NEXT)[0])
    ensures !Fresh(run + [Dispatched(a, None)], |run|, a.windowKeys)
  {
    a := AttemptFor(0, Due(0), 200 + 3 * SECOND);
    var u := StaleRun(AttemptFor(1, Due(1), 200), a);
    StaleTick(AttemptFor(1, Due(1), 200), a);
    StaleTicks(u);
    run := BeforeLast(u, a, ACCOUNT, Quota(NEXT));
    DueTarget();
    DueOverrun();
  }

  lemma StaleTicks(u: seq<Event>)
    requires Opening() <= u && TickTrace(FIXED, Opening(), u, USER, ACCOUNT)
    ensures TickRun(FIXED, u, USER, ACCOUNT, [1, 4, |u|])
  {
    FirstTick();
    OneMoreTick(FIXED, Opening(), u, USER, ACCOUNT, [1, 4]);
    assert [1, 4] + [|u|] == [1, 4, |u|];
  }

  lemma BeforeLast(u: seq<Event>, a: ProbeAttempt, instance: InstanceKey, ws: seq<QuotaWindow>)
    returns (run: seq<Event>)
    requires |u| >= 6 && u[|u| - 1] == Dispatched(a, None) && u[|u| - 6] == Observed(instance, ws)
    requires forall l :: |u| - 6 < l < |u| ==> !u[l].Observed?
    ensures run + [Dispatched(a, None)] == u && |run| == |u| - 1
    ensures exists m ::
              && 0 <= m < |run| - 2 && run[m] == Observed(instance, ws)
              && (forall l :: m < l < |run| ==> !run[l].Observed?)
  {
    run := u[..|u| - 1];
    assert run[|u| - 6] == Observed(instance, ws);
  }
}
