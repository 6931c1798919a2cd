/**
 What a call of the controller may add to the run: nothing is ever taken back, and sends stay within what they are
 for.
 */
module Traces {
  import opened Wrappers
  import opened Model
  import opened Transactions
  import opened Files
  import opened Normalize
  import opened StateInvariant
  import opened Machine
  import opened Safety
  import opened Grouping
  import opened Effects

  /** The quota reads of the run that were successful and well-formed. */
  ghost function Reads(run: seq<Event>): nat {
    if run == [] then 0 else Reads(run[..|run| - 1]) + if run[|run| - 1].Observed? then 1 else 0
  }

  lemma ReadsSnoc(run: seq<Event>, e: Event)
    ensures Reads(run + [e]) == Reads(run) + if e.Observed? then 1 else 0
  {
    assert (run + [e])[..|run|] == run;
  }

  /** The transactions that judge windows by the read just made. */
  predicate Judges(tx: Tx) { tx.Reconcile? || tx.PrecheckGroup? }

  predicate IsJudgement(e: Event) { e.Committed? && Judges(e.tx) }

  /** The run went on without a send. */
  ghost predicate Quiet(r: seq<Event>, t: seq<Event>) {
    r <= t && forall i :: |r| <= i < |t| ==> !t[i].Dispatched?
  }

  /** The run went on without a send and without judging a read. */
  ghost predicate Plain(r: seq<Event>, t: seq<Event>) {
    r <= t && forall i :: |r| <= i < |t| ==> !t[i].Dispatched? && !IsJudgement(t[i])
  }

  /** One of the records is that window's, with that baseline cycle. */
  ghost predicate Names(records: seq<WindowRecord>, k: WindowKey, c: CycleId) {
    exists r :: r in records && r.key == k && r.baseline.cycleId == c
  }

  /** The attempt covers windows of the group, each with the baseline cycle it has there, and no others. */
  ghost predicate Covers(a: ProbeAttempt, instance: InstanceKey, records: seq<WindowRecord>) {
    && a.instanceKey == instance && a.windowKeys != [] && |a.cycleIds| == |a.windowKeys|
    && forall n :: 0 <= n < |a.windowKeys| ==> Names(records, a.windowKeys[n], a.cycleIds[n])
  }

  /** The run went on with at most one send, of that attempt, as event `d` and with no read before it. */
  ghost predicate DirectOf(r: seq<Event>, t: seq<Event>, d: nat, a: ProbeAttempt) {
    && r <= t
    && (forall i :: |r| <= i < |t| ==> !IsJudgement(t[i]))
    && (forall i :: |r| <= i < |t| && t[i].Dispatched? ==> i == |r| + d && t[i].attempt == a && NoReads(t, |r|, i))
  }

  ghost predicate NoReads(t: seq<Event>, from: nat, to: nat)
    requires to <= |t|
  {
    forall j :: from <= j < to ==> !t[j].Observed?
  }

  /** The same for an attempt that covers windows of the group. */
  ghost predicate Direct(r: seq<Event>, t: seq<Event>, d: nat, instance: InstanceKey, records: seq<WindowRecord>) {
    && r <= t
    && (forall i :: |r| <= i < |t| ==> !IsJudgement(t[i]))
    && (forall i :: |r| <= i < |t| && t[i].Dispatched? ==>
                      i == |r| + d && Covers(t[i].attempt, instance, records) && NoReads(t, |r|, i))
  }

  /** The same after a read and its judgement for the whole group. */
  ghost predicate Prechecked(r: seq<Event>, t: seq<Event>, instance: InstanceKey, records: seq<WindowRecord>) {
    && r <= t
    && (forall i :: |r| <= i < |t| && IsJudgement(t[i]) ==>
                      i == |r| + 1 && t[i].tx.PrecheckGroup? && t[i].tx.keys == KeysOf(records))
    && (forall i :: |r| <= i < |t| && t[i].Dispatched? ==>
                      && i == |r| + 5 && Covers(t[i].attempt, instance, records) && JustPrechecked(r, t)
                      && NoReads(t, |r| + 1, i))
  }

  ghost predicate JustPrechecked(r: seq<Event>, t: seq<Event>) {
    |r| + 2 <= |t| && IsJudgement(t[|r| + 1]) && t[|r|] == Observed(t[|r| + 1].tx.instance, t[|r| + 1].tx.windows)
  }

  lemma QuietTransitive(r: seq<Event>, t: seq<Event>, u: seq<Event>)
    requires Quiet(r, t) && Quiet(t, u)
    ensures Quiet(r, u)
  {
    assert forall i :: |r| <= i < |t| ==> u[i] == t[i];
  }

  lemma DirectThenPlain(r: seq<Event>, t: seq<Event>, u: seq<Event>, d: nat, a: ProbeAttempt)
    requires DirectOf(r, t, d, a) && Plain(t, u)
    ensures DirectOf(r, u, d, a)
  {
    assert forall i :: |r| <= i < |t| ==> u[i] == t[i];
  }

  /** One more event in front. */
  lemma EventThenDirect(r: seq<Event>, e: Event, u: seq<Event>, d: nat, a: ProbeAttempt)
    requires !e.Observed? && !e.Dispatched? && !IsJudgement(e) && DirectOf(r + [e], u, d, a)
    ensures DirectOf(r, u, d + 1, a)
  {
    assert u[|r|] == e;
  }

  lemma DirectFor(r: seq<Event>, t: seq<Event>, d: nat, a: ProbeAttempt, records: seq<WindowRecord>)
    requires DirectOf(r, t, d, a) && Covers(a, a.instanceKey, records)
    ensures Direct(r, t, d, a.instanceKey, records)
  {
  }

  /** Records of the group as they were, but for state and observation. */
  ghost predicate PartOf(part: seq<WindowRecord>, records: seq<WindowRecord>) {
    forall c :: c in part ==> Names(records, c.key, c.baseline.cycleId)
  }

  lemma CoversMore(a: ProbeAttempt, instance: InstanceKey, part: seq<WindowRecord>, records: seq<WindowRecord>)
    requires Covers(a, instance, part) && PartOf(part, records)
    ensures Covers(a, instance, records)
  {
    forall n | 0 <= n < |a.windowKeys| ensures Names(records, a.windowKeys[n], a.cycleIds[n]) {
      assert Names(part, a.windowKeys[n], a.cycleIds[n]);
      var c :| c in part && c.key == a.windowKeys[n] && c.baseline.cycleId == a.cycleIds[n];
      assert Names(records, c.key, c.baseline.cycleId);
    }
  }

  /** A precheck that ended, and then the rest of the group. */
  lemma PrecheckThenDirect(r: seq<Event>, t: seq<Event>, u: seq<Event>, instance: InstanceKey,
                           part: seq<WindowRecord>, records: seq<WindowRecord>)
    requires Prechecked(r, t, instance, records) && JustPrechecked(r, t) && |t| == |r| + 2
             && Direct(t, u, 3, instance, part)
    requires PartOf(part, records)
    ensures Prechecked(r, u, instance, records)
  {
    assert forall i :: |r| <= i < |t| ==> u[i] == t[i];
    forall i | |t| <= i < |u| && u[i].Dispatched? ensures Covers(u[i].attempt, instance, records) {
      CoversMore(u[i].attempt, instance, part, records);
    }
  }

  // ----- what follows a send -----

  /** The acknowledged transaction that records how a send went. */
  ghost predicate RecordsOutcome(e: Event, id: AttemptId, phase: AttemptPhase, error: Option<Note>) {
    && e.Committed? && e.fault.Acknowledged? && e.tx.SendOutcome?
    && e.tx.id == id && e.tx.phase == phase && e.tx.error == error
  }

  /** The acknowledged transaction that judges the attempt's windows by this read. */
  ghost predicate RecordsVerification(e: Event, id: AttemptId, ws: seq<QuotaWindow>) {
    e.Committed? && e.fault.Acknowledged? && e.tx.VerifyAttempt? && e.tx.id == id && e.tx.windows == ws
  }

  /** From `n` on there is a verification: a read judged for the attempt, or a failed one that leaves it unknown. */
  ghost predicate VerifiesAt(t: seq<Event>, n: nat, id: AttemptId, instance: InstanceKey) {
    && |t| == n + 2
    && (|| (&& t[n].Observed? && t[n].instance == instance
            && RecordsVerification(t[n + 1], id, t[n].windows))
        || (&& t[n].Missed? && t[n].instance == instance && t[n].cause.Some?
            && RecordsOutcome(t[n + 1], id, Unknown, t[n].cause)))
  }

  /** Since `r` the run went on to such a verification, and no further. */
  ghost predicate EndsVerified(r: seq<Event>, t: seq<Event>, id: AttemptId, instance: InstanceKey) {
    exists n: nat :: n >= |r| && VerifiesAt(t, n, id, instance)
  }

  /**
   All that follows a send, at event `n`, when the call ends well. An error is recorded and nothing else is done; a
   request that went out is recorded as sent, waited for, and verified, unless the wait is cut short.
   */
  ghost predicate Aftermath(t: seq<Event>, n: nat, a: ProbeAttempt, error: Option<Note>) {
    if error.Some? then
      |t| == n + 1 && RecordsOutcome(t[n], a.id, Unknown, error)
    else
      |t| > n + 1 && RecordsOutcome(t[n], a.id, AttemptPhase.Sent, None) && Awaited(t, n + 1, a)
  }

  /** The wait for a request that went out, at event `n`, and what ends it. */
  ghost predicate Awaited(t: seq<Event>, n: nat, a: ProbeAttempt) {
    && |t| > n && t[n].Waited?
    && (if t[n].cancelled.Some? then |t| == n + 2 && RecordsOutcome(t[n + 1], a.id, Unknown, t[n].cancelled)
        else VerifiesAt(t, n + 1, a.id, a.instanceKey))
  }

  /** The plan was obtained and usable. */
  ghost predicate PlannedWell(r: seq<Event>, t: seq<Event>) { |t| > |r| && t[|r|] == Planned(None) }

  /** The run went on with exactly one send, at event `d`, and all that follows a send. */
  ghost predicate SentAt(r: seq<Event>, t: seq<Event>, d: nat) {
    r <= t && |t| > |r| + d && t[|r| + d].Dispatched? && Aftermath(t, |r| + d + 1, t[|r| + d].attempt, t[|r| + d].error)
  }

  // ----- the groups of a Tick -----

  predicate NeedsPrecheck(records: seq<WindowRecord>) {
    exists r :: r in records && r.state == PendingPrecheck
  }

  /** What running one group adds. */
  ghost predicate GroupTrace(r: seq<Event>, t: seq<Event>, instance: InstanceKey, records: seq<WindowRecord>) {
    if NeedsPrecheck(records) then Prechecked(r, t, instance, records) else Direct(r, t, 3, instance, records)
  }

  /** Read `m` is the latest before event `i`, and a judgement for the group followed it at once. */
  ghost predicate LatestJudged(t: seq<Event>, m: nat, i: nat, group: seq<WindowKey>)
    requires i < |t|
  {
    && m + 1 < i && t[m].Observed? && (forall l :: m < l < i ==> !t[l].Observed?)
    && IsJudgement(t[m + 1]) && t[m + 1].tx.windows == t[m].windows
    && (t[m + 1].tx.PrecheckGroup? ==> t[m + 1].tx.keys == group)
  }

  /** The latest quota read before event `i` is one the group was judged by. */
  ghost predicate Fresh(t: seq<Event>, i: nat, group: seq<WindowKey>)
    requires i < |t|
  {
    exists m: nat :: LatestJudged(t, m, i, group)
  }

  /** Exactly when that is so: the group had its own precheck, or no read has succeeded since the groups were formed. */
  ghost predicate FreshIff(r: seq<Event>, t: seq<Event>, i: nat, records: seq<WindowRecord>)
    requires i < |t|
  {
    Fresh(t, i, KeysOf(records)) <==> NeedsPrecheck(records) || forall l :: |r| <= l < i ==> !t[l].Observed?
  }

  /** The groups are formed from the read made just before. */
  ghost predicate StartsJudged(r: seq<Event>) {
    |r| >= 2 && r[|r| - 1].Committed? && r[|r| - 1].tx.Reconcile?
    && r[|r| - 2] == Observed(r[|r| - 1].tx.instance, r[|r| - 1].tx.windows)
  }

  ghost predicate GroupsApart(groups: seq<seq<WindowRecord>>) {
    && (forall j :: 0 <= j < |groups| ==> groups[j] != [])
    && (forall j, l :: 0 <= j < l < |groups| ==> DisjointRecords(groups[j], groups[l]))
  }

  /** The send at event `i` covers windows of group `g`. */
  ghost predicate SentFor(r: seq<Event>, t: seq<Event>, i: nat, instance: InstanceKey,
                          groups: seq<seq<WindowRecord>>, g: nat)
    requires i < |t| && t[i].Dispatched?
  {
    g < |groups| && Covers(t[i].attempt, instance, groups[g]) && FreshIff(r, t, i, groups[g])
  }

  /**
   What running the first `n` groups adds: sends for those groups only, no two for the same, each as fresh as FreshIff
   says.
   */
  ghost predicate GroupsTrace(r: seq<Event>, t: seq<Event>, instance: InstanceKey, groups: seq<seq<WindowRecord>>,
                              n: nat)
  {
    && r <= t && n <= |groups|
    && (forall i :: |r| <= i < |t| && IsJudgement(t[i]) ==>
                      t[i].tx.PrecheckGroup? && exists g :: 0 <= g < n && t[i].tx.keys == KeysOf(groups[g]))
    && (forall i :: |r| <= i < |t| && t[i].Dispatched? ==> exists g ::
                        && 0 <= g < n
                        && SentFor(r, t, i, instance, groups, g))
    && (forall i, j, g :: |r| <= i < j < |t| && t[i].Dispatched? && t[j].Dispatched? && 0 <= g < |groups| ==>
                            !(Covers(t[i].attempt, instance, groups[g]) && Covers(t[j].attempt, instance, groups[g])))
  }

  lemma SameKeysSameGroup(groups: seq<seq<WindowRecord>>, g: nat, h: nat, k: WindowKey)
    requires GroupsApart(groups) && g < |groups| && h < |groups| && k in KeysOf(groups[g]) && k in KeysOf(groups[h])
    ensures g == h
  {
    KeysOfMembers(groups[g], k);
    KeysOfMembers(groups[h], k);
    assert g < h ==> DisjointRecords(groups[g], groups[h]);
    assert h < g ==> DisjointRecords(groups[h], groups[g]);
  }

  /** An attempt covers windows of one group only. */
  lemma CoversOne(a: ProbeAttempt, instance: InstanceKey, groups: seq<seq<WindowRecord>>, g: nat, h: nat)
    requires GroupsApart(groups) && g < |groups| && h < |groups|
    requires Covers(a, instance, groups[g]) && Covers(a, instance, groups[h])
    ensures g == h
  {
    assert Names(groups[g], a.windowKeys[0], a.cycleIds[0]) && Names(groups[h], a.windowKeys[0], a.cycleIds[0]);
    KeysOfMembers(groups[g], a.windowKeys[0]);
    KeysOfMembers(groups[h], a.windowKeys[0]);
    SameKeysSameGroup(groups, g, h, a.windowKeys[0]);
  }

  /** What came before a send decides its freshness, whatever follows. */
  lemma FreshIffLater(r: seq<Event>, t: seq<Event>, u: seq<Event>, i: nat, records: seq<WindowRecord>)
    requires r <= t <= u && i < |t| && FreshIff(r, t, i, records)
    ensures FreshIff(r, u, i, records)
  {
    assert forall l :: 0 <= l < |t| ==> u[l] == t[l];
    if Fresh(t, i, KeysOf(records)) {
      var m: nat :| LatestJudged(t, m, i, KeysOf(records));
      assert LatestJudged(u, m, i, KeysOf(records));
    }
    if Fresh(u, i, KeysOf(records)) {
      var m: nat :| LatestJudged(u, m, i, KeysOf(records));
      assert LatestJudged(t, m, i, KeysOf(records));
    }
  }

  lemma PrecheckedIsFresh(r: seq<Event>, t: seq<Event>, u: seq<Event>, i: nat, instance: InstanceKey,
                          records: seq<WindowRecord>)
    requires r <= t && NeedsPrecheck(records) && Prechecked(t, u, instance, records)
    requires |t| <= i < |u| && u[i].Dispatched?
    ensures FreshIff(r, u, i, records)
  {
    assert i == |t| + 5;
    assert LatestJudged(u, |t|, i, KeysOf(records));
  }

  /**
   A group without a precheck rests on the first read of the Tick, which is the latest only if no other has succeeded.
   */
  lemma DirectIsFreshIff(r: seq<Event>, t: seq<Event>, u: seq<Event>, i: nat, instance: InstanceKey,
                         groups: seq<seq<WindowRecord>>, n: nat)
    requires StartsJudged(r) && GroupsApart(groups) && n < |groups| && GroupsTrace(r, t, instance, groups, n)
    requires !NeedsPrecheck(groups[n]) && Direct(t, u, 3, instance, groups[n]) && |t| <= i < |u| && u[i].Dispatched?
    ensures FreshIff(r, u, i, groups[n])
  {
    assert forall l :: 0 <= l < |t| ==> u[l] == t[l];
    if forall l :: |r| <= l < i ==> !u[l].Observed? {
      assert u[|r| - 1] == r[|r| - 1] && u[|r| - 2] == r[|r| - 2];
      assert LatestJudged(u, |r| - 2, i, KeysOf(groups[n]));
    } else if Fresh(u, i, KeysOf(groups[n])) {
      var l :| |r| <= l < i && u[l].Observed?;
      var m: nat :| LatestJudged(u, m, i, KeysOf(groups[n]));
      assert l <= m;
      assert m < |t|;
      assert m + 1 != |t|;
      assert IsJudgement(t[m + 1]);
      var g :| 0 <= g < n && t[m + 1].tx.keys == KeysOf(groups[g]);
      assert groups[n][0].key == KeysOf(groups[n])[0];
      SameKeysSameGroup(groups, g, n, groups[n][0].key);
      assert false;
    }
  }

  lemma NextGroupJudgements(r: seq<Event>, t: seq<Event>, u: seq<Event>, instance: InstanceKey,
                            groups: seq<seq<WindowRecord>>, n: nat, i: nat)
    requires n < |groups| && GroupsTrace(r, t, instance, groups, n) && GroupTrace(t, u, instance, groups[n])
    requires |r| <= i < |u| && IsJudgement(u[i])
    ensures u[i].tx.PrecheckGroup? && exists g :: 0 <= g < n + 1 && u[i].tx.keys == KeysOf(groups[g])
  {
    if i < |t| {
      assert u[i] == t[i];
      var g :| 0 <= g < n && t[i].tx.keys == KeysOf(groups[g]);
      assert g < n + 1;
    } else {
      assert u[i].tx.keys == KeysOf(groups[n]);
    }
  }

  lemma NextGroupSends(r: seq<Event>, t: seq<Event>, u: seq<Event>, instance: InstanceKey,
                       groups: seq<seq<WindowRecord>>, n: nat, i: nat) returns (g: nat)
    requires StartsJudged(r) && GroupsApart(groups) && n < |groups|
    requires GroupsTrace(r, t, instance, groups, n) && GroupTrace(t, u, instance, groups[n])
    requires |r| <= i < |u| && u[i].Dispatched?
    ensures g < n + 1 && SentFor(r, u, i, instance, groups, g) && (i >= |t| ==> g == n) && (i < |t| ==> g < n)
  {
    if i < |t| {
      assert u[i] == t[i];
      g :| 0 <= g < n && SentFor(r, t, i, instance, groups, g);
      FreshIffLater(r, t, u, i, groups[g]);
    } else {
      g := n;
      if NeedsPrecheck(groups[n]) {
        PrecheckedIsFresh(r, t, u, i, instance, groups[n]);
      } else {
        DirectIsFreshIff(r, t, u, i, instance, groups, n);
      }
    }
  }

  lemma NextGroupOnce(r: seq<Event>, t: seq<Event>, u: seq<Event>, instance: InstanceKey,
                      groups: seq<seq<WindowRecord>>, n: nat, i: nat, j: nat, g: nat)
    requires StartsJudged(r) && GroupsApart(groups) && n < |groups|
    requires GroupsTrace(r, t, instance, groups, n) && GroupTrace(t, u, instance, groups[n])
    requires |r| <= i < j < |u| && u[i].Dispatched? && u[j].Dispatched? && g < |groups|
    ensures !(Covers(u[i].attempt, instance, groups[g]) && Covers(u[j].attempt, instance, groups[g]))
  {
    assert forall l :: |r| <= l < |t| ==> u[l] == t[l];
    if j >= |t| && Covers(u[i].attempt, instance, groups[g]) && Covers(u[j].attempt, instance, groups[g]) {
      var a := NextGroupSends(r, t, u, instance, groups, n, i);
      var b := NextGroupSends(r, t, u, instance, groups, n, j);
      CoversOne(u[i].attempt, instance, groups, g, a);
      CoversOne(u[j].attempt, instance, groups, g, b);
      assert false;
    }
  }

  lemma NextGroup(r: seq<Event>, t: seq<Event>, u: seq<Event>, instance: InstanceKey, groups: seq<seq<WindowRecord>>,
                  n: nat)
    requires StartsJudged(r) && GroupsApart(groups) && n < |groups|
    requires GroupsTrace(r, t, instance, groups, n) && GroupTrace(t, u, instance, groups[n])
    ensures GroupsTrace(r, u, instance, groups, n + 1)
  {
    forall i | |r| <= i < |u| && IsJudgement(u[i])
      ensures u[i].tx.PrecheckGroup? && exists g :: 0 <= g < n + 1 && u[i].tx.keys == KeysOf(groups[g])
    {
      NextGroupJudgements(r, t, u, instance, groups, n, i);
    }
    forall i | |r| <= i < |u| && u[i].Dispatched? ensures exists g ::
                                                            && 0 <= g < n + 1
                                                            && SentFor(r, u, i, instance, groups, g) {
      var g := NextGroupSends(r, t, u, instance, groups, n, i);
    }
    forall i, j, g | |r| <= i < j < |u| && u[i].Dispatched? && u[j].Dispatched? && 0 <= g < |groups|
      ensures !(Covers(u[i].attempt, instance, groups[g]) && Covers(u[j].attempt, instance, groups[g]))
    {
      NextGroupOnce(r, t, u, instance, groups, n, i, j, g);
    }
  }

  lemma GroupsEnough(r: seq<Event>, t: seq<Event>, instance: InstanceKey, groups: seq<seq<WindowRecord>>, n: nat)
    requires GroupsTrace(r, t, instance, groups, n)
    ensures GroupsTrace(r, t, instance, groups, |groups|)
  {
  }

  /** The groups come from reconciling, at event `n`, the read just before it. */
  ghost predicate GroupedAt(p: Params, run: seq<Event>, n: nat, cred: Credential, instance: InstanceKey,
                            groups: seq<seq<WindowRecord>>, names: seq<string>)
  {
    && 0 < n < |run| && IsRun(p, run[..n])
    && run[n].Committed? && run[n].fault.Acknowledged? && run[n].tx.Reconcile?
    && run[n].tx.cred == cred && run[n].tx.instance == instance && run[n - 1] == Observed(instance, run[n].tx.windows)
    && ListsGroups(groups, names,
                   Grouped(Joining(p, Exec(p, run[..n]).value.mem, cred, instance, run[n].tx.windows, run[n].tx.now)))
  }

  /**
   A Tick's part of the run: no send, or first a read and its reconciliation, and then the groups that this formed.
   */
  ghost predicate TickTrace(p: Params, r: seq<Event>, t: seq<Event>, cred: Credential, instance: InstanceKey) {
    Quiet(r, t) || exists n, groups, names ::
      && |r| < n < |t| && Quiet(r, t[..n + 1]) && GroupedAt(p, t, n, cred, instance, groups, names)
      && GroupsTrace(t[..n + 1], t, instance, groups, |groups|)
  }

  /** The end of an Observe that formed groups. */
  ghost predicate GroupedNow(p: Params, r: seq<Event>, t: seq<Event>, cred: Credential, instance: InstanceKey,
                             groups: seq<seq<WindowRecord>>, names: seq<string>)
  {
    |t| > |r| + 1 && Quiet(r, t) && GroupedAt(p, t, |t| - 1, cred, instance, groups, names)
  }

  lemma GroupsThenTick(p: Params, r: seq<Event>, s: seq<Event>, t: seq<Event>, u: seq<Event>, cred: Credential,
                       instance: InstanceKey,
                       groups: seq<seq<WindowRecord>>, names: seq<string>)
    requires Quiet(r, s) && GroupedNow(p, s, t, cred, instance, groups, names)
             && GroupsTrace(t, u, instance, groups, |groups|)
    ensures TickTrace(p, r, u, cred, instance)
  {
    var n := |t| - 1;
    assert u[..n + 1] == t && u[..n] == t[..n];
    assert forall i :: |r| <= i < |s| ==> t[i] == s[i];
    assert GroupedAt(p, u, n, cred, instance, groups, names);
  }

  // ----- why a window was in a group -----

  /**
   Event `n` reconciled the read just before it, which reported window `k`; the verdict joined it to a group with
   baseline cycle `c`, the bucket was capable, and the window was lazy or its reset, plus the grace, had passed.
   */
  ghost predicate JoinedAt(p: Params, run: seq<Event>, n: nat, cred: Credential, k: WindowKey, c: CycleId,
                           w: QuotaWindow)
    requires 0 < n < |run| && run[n].Committed? && run[n].tx.Reconcile? && IsRun(p, run[..n])
  {
    var tx := run[n].tx;
    var v := Reconciled(p, Exec(p, run[..n]).value.mem, cred, k.instance, tx.now, w);
    && w in tx.windows && k == WindowKey(tx.instance, w.bucketId)
    && v.joins && v.record.key == k && v.record.baseline.cycleId == c
    && p.For(k.instance).Can(Attributed(cred, w))
    && (w.lazyHint || tx.now >= v.record.baseline.resetAt + p.cfg.resetGrace)
  }

  ghost predicate WasDue(p: Params, run: seq<Event>, n: nat, k: WindowKey, c: CycleId) {
    && 0 < n < |run| && IsRun(p, run[..n])
    && run[n].Committed? && run[n].fault.Acknowledged? && run[n].tx.Reconcile?
    && run[n - 1] == Observed(k.instance, run[n].tx.windows)
    && exists w :: JoinedAt(p, run, n, run[n].tx.cred, k, c, w)
  }

  /** Whatever a group names joined it when it was formed. */
  lemma NamedWasDue(p: Params, run: seq<Event>, n: nat, cred: Credential, instance: InstanceKey,
                    groups: seq<seq<WindowRecord>>, names: seq<string>,
                    g: nat, k: WindowKey, c: CycleId)
    requires p.cfg.Valid() && IsRun(p, run) && GroupedAt(p, run, n, cred, instance, groups, names)
    requires g < |groups| && Names(groups[g], k, c)
    ensures WasDue(p, run, n, k, c)
  {
    var tx, s := run[n].tx, Exec(p, run[..n]).value.mem;
    var r :| r in groups[g] && r.key == k && r.baseline.cycleId == c;
    ReconciledFromGood(p, run, n);
    NormalizedIsAcceptable(tx.windows);
    JoiningExact(p, s, cred, instance, tx.windows, tx.now);
    ListedGroupsPartition(Joining(p, s, cred, instance, tx.windows, tx.now), groups, names);
    assert r in Joining(p, s, cred, instance, tx.windows, tx.now);
    var i: nat :| JoinsFrom(p, s, cred, instance, tx.windows, tx.now, r, i);
    ReconciledKey(p, s, cred, instance, tx.now, tx.windows[i]);
    JoinsOnlyWhenDue(p, s, cred, instance, tx.now, tx.windows[i]);
    assert JoinedAt(p, run, n, cred, k, c, tx.windows[i]);
  }

  /** A reconciliation starts from a good state and a well-formed read. */
  lemma ReconciledFromGood(p: Params, run: seq<Event>, n: nat)
    requires p.cfg.Valid() && IsRun(p, run) && n < |run| && run[n].Committed? && run[n].tx.Reconcile?
    ensures IsRun(p, run[..n]) && StateInv(p, Exec(p, run[..n]).value.mem) && Normalized(run[n].tx.windows)
  {
    PrefixIsRun(p, run, n);
    PrefixIsRun(p, run, n + 1);
    assert run[..n + 1][..n] == run[..n] && run[..n + 1][n] == run[n];
    ReachableStateIsGood(p, run[..n]);
  }

  /** Every send of a Tick spends, for each window, the baseline cycle with which the window was due in that Tick. */
  lemma SendsWereDue(p: Params, r: seq<Event>, t: seq<Event>, cred: Credential, instance: InstanceKey, i: nat, m: nat)
    returns (n: nat)
    requires p.cfg.Valid() && IsRun(p, t) && TickTrace(p, r, t, cred, instance)
    requires |r| <= i < |t| && t[i].Dispatched? && m < |t[i].attempt.windowKeys|
    ensures m < |t[i].attempt.cycleIds|
    ensures |r| < n < i && WasDue(p, t, n, t[i].attempt.windowKeys[m], t[i].attempt.cycleIds[m])
  {
    var at, groups, names :|
      && |r| < at < |t| && Quiet(r, t[..at + 1]) && GroupedAt(p, t, at, cred, instance, groups, names)
      && GroupsTrace(t[..at + 1], t, instance, groups, |groups|);
    n := at;
    SentWasDue(p, t, n, cred, instance, groups, names, i, m);
  }

  lemma SentWasDue(p: Params, t: seq<Event>, n: nat, cred: Credential, instance: InstanceKey,
                   groups: seq<seq<WindowRecord>>, names: seq<string>, i: nat, m: nat)
    requires p.cfg.Valid() && IsRun(p, t) && GroupedAt(p, t, n, cred, instance, groups, names)
    requires GroupsTrace(t[..n + 1], t, instance, groups, |groups|)
    requires n < i < |t| && t[i].Dispatched? && m < |t[i].attempt.windowKeys|
    ensures m < |t[i].attempt.cycleIds| && WasDue(p, t, n, t[i].attempt.windowKeys[m], t[i].attempt.cycleIds[m])
  {
    var g :| 0 <= g < |groups| && SentFor(t[..n + 1], t, i, instance, groups, g);
    NamedWasDue(p, t, n, cred, instance, groups, names, g, t[i].attempt.windowKeys[m], t[i].attempt.cycleIds[m]);
  }

  lemma DueLater(p: Params, t: seq<Event>, u: seq<Event>, n: nat, k: WindowKey, c: CycleId)
    requires t <= u && WasDue(p, t, n, k, c)
    ensures WasDue(p, u, n, k, c)
  {
    assert u[..n] == t[..n];
    var w :| JoinedAt(p, t, n, t[n].tx.cred, k, c, w);
    assert JoinedAt(p, u, n, u[n].tx.cred, k, c, w);
  }

  // ----- a round of calls -----

  /**
   The calls of the controller, with the instance they work on unless they stop before they know it. A Tick's part of
   the run is the events in `from..to`.
   */
  datatype Call =
    | Blocking(cred: Credential)
    | Recovering(cred: Credential, instance: Option<InstanceKey>)
    | Ticking(cred: Credential, instance: Option<InstanceKey>, from: nat, to: nat)

  /** Call `n`, a Tick made after a recovery of the same instance, both since call `start`, accounts for event `i`. */
  ghost predicate InTick(p: Params, calls: seq<Call>, start: nat, t: seq<Event>, i: nat, n: nat) {
    && start <= n < |calls| && calls[n].Ticking? && calls[n].instance.Some? && calls[n].from <= i < calls[n].to <= |t|
    && TickTrace(p, t[..calls[n].from], t[..calls[n].to], calls[n].cred, calls[n].instance.value)
    && Recovering(calls[n].cred, calls[n].instance) in calls[start..n]
  }

  /** Every send since `r` lies in such a Tick. */
  ghost predicate RoundTrace(p: Params, calls: seq<Call>, start: nat, r: seq<Event>, t: seq<Event>) {
    r <= t && forall i :: |r| <= i < |t| && t[i].Dispatched? ==> exists n: nat :: InTick(p, calls, start, t, i, n)
  }

  lemma InTickLater(p: Params, calls: seq<Call>, more: seq<Call>, start: nat, t: seq<Event>, u: seq<Event>, i: nat,
                    n: nat)
    requires t <= u && calls <= more && InTick(p, calls, start, t, i, n)
    ensures InTick(p, more, start, u, i, n)
  {
    assert u[..calls[n].from] == t[..calls[n].from] && u[..calls[n].to] == t[..calls[n].to];
    assert more[start..n] == calls[start..n];
  }

  /** A call without a send, or a Tick after the recovery of its instance. */
  lemma RoundGrows(p: Params, calls: seq<Call>, more: seq<Call>, start: nat, r: seq<Event>, t: seq<Event>,
                   u: seq<Event>)
    requires RoundTrace(p, calls, start, r, t) && start <= |calls| && calls <= more && t <= u
    requires || Quiet(t, u)
             || (|more| == |calls| + 1 && more[|calls|].Ticking? && more[|calls|].from == |t| && more[|calls|].to == |u|
                 && more[|calls|].instance.Some?
                 && TickTrace(p, t, u, more[|calls|].cred, more[|calls|].instance.value)
                 && Recovering(more[|calls|].cred, more[|calls|].instance) in calls[start..])
    ensures RoundTrace(p, more, start, r, u)
  {
    forall i | |r| <= i < |u| && u[i].Dispatched? ensures exists n: nat :: InTick(p, more, start, u, i, n) {
      if i < |t| {
        InEarlierTick(p, calls, more, start, r, t, u, i);
      } else {
        InLastTick(p, calls, more, start, t, u, i);
      }
    }
  }

  lemma InEarlierTick(p: Params, calls: seq<Call>, more: seq<Call>, start: nat, r: seq<Event>, t: seq<Event>,
                      u: seq<Event>, i: nat)
    requires RoundTrace(p, calls, start, r, t) && calls <= more && t <= u && |r| <= i < |t| && u[i].Dispatched?
    ensures exists n: nat :: InTick(p, more, start, u, i, n)
  {
    assert u[i] == t[i];
    var n: nat :| InTick(p, calls, start, t, i, n);
    InTickLater(p, calls, more, start, t, u, i, n);
  }

  lemma InLastTick(p: Params, calls: seq<Call>, more: seq<Call>, start: nat, t: seq<Event>, u: seq<Event>, i: nat)
    requires start <= |calls| && calls <= more && t <= u && |t| <= i < |u|
    requires |more| == |calls| + 1 && more[|calls|].Ticking? && more[|calls|].from == |t| && more[|calls|].to == |u|
    requires more[|calls|].instance.Some? && TickTrace(p, t, u, more[|calls|].cred, more[|calls|].instance.value)
    requires Recovering(more[|calls|].cred, more[|calls|].instance) in calls[start..]
    ensures InTick(p, more, start, u, i, |calls|)
  {
    assert u[..|t|] == t && u[..|u|] == u && more[start..|calls|] == calls[start..];
  }
}
