/** What became of each request: what a call that ends well leaves in the run and in the state for the sends it made. */
module Sends {
  import opened Wrappers
  import opened Model
  import opened Transactions
  import opened StateInvariant
  import opened Machine
  import opened Grouping
  import opened Effects
  import opened Laws
  import opened Steps
  import opened Traces

  /** What an attempt in this phase shows on each of its windows. */
  predicate Shows(phase: AttemptPhase, until: Time, x: WindowRecord) {
    match phase
    case Prepared => x.state == PendingPrecheck
    case Sending => x.state == ActivationSending
    case Sent => x.state == ActivationSent
    case Unknown => x.state == SentUnknown && x.nextCheck == until
    case Completed => x.state == Confirmed || x.state == RetryWait
  }

  /** The attempt is recorded with its targets, this phase, and this result for each of its cycles. */
  ghost predicate Noted(s: PersistentState, a: ProbeAttempt, phase: AttemptPhase, result: SendResult, sentAt: Time) {
    && a.id in s.attempts && s.attempts[a.id].phase == phase && s.attempts[a.id].sentAt == sentAt
    && s.attempts[a.id].instanceKey == a.instanceKey && s.attempts[a.id].windowKeys == a.windowKeys
    && s.attempts[a.id].cycleIds == a.cycleIds && s.attempts[a.id].suppressUntil == a.suppressUntil
    && (forall c :: c in a.cycleIds ==>
                      c in s.ledger && s.ledger[c].attemptId == a.id && s.ledger[c].outcome == result)
    && (forall k :: k in a.windowKeys ==> k in s.windows && Shows(phase, a.suppressUntil, s.windows[k]))
  }

  /**
   What stays on record of a request once its call has ended well. After an error: unknown, with that error, and never
   sent. Without one: sent, at some time, and either verified or, if that failed, unknown.
   */
  ghost predicate Recorded(s: PersistentState, a: ProbeAttempt, error: Option<Note>) {
    match error
    case Some(cause) =>
      Noted(s, a, Unknown, ResultUnknown, ZERO_TIME) && s.attempts[a.id].lastError == cause
    case None =>
      && a.id in s.attempts && s.attempts[a.id].sentAt != ZERO_TIME
      && (|| Noted(s, a, Completed, ResultSent, s.attempts[a.id].sentAt)
          || Noted(s, a, Unknown, ResultUnknown, s.attempts[a.id].sentAt))
  }

  lemma FenceNotes(s: PersistentState, t: PersistentState, a: ProbeAttempt, now: Time)
    requires FenceLeft(s, t, a, now) && a.sentAt == ZERO_TIME && Selectable(s, a.windowKeys)
    ensures Noted(t, a, Sending, ResultUnknown, ZERO_TIME)
  {
  }

  lemma OutcomeNotes(s: PersistentState, t: PersistentState, a: ProbeAttempt, from: AttemptPhase, was: SendResult,
                     had: Time, phase: AttemptPhase, result: SendResult, sentAt: Time, error: Option<Note>)
    requires Noted(s, a, from, was, had) && OutcomeLeft(s, t, a.id, phase, result, sentAt, error)
    requires phase == AttemptPhase.Sent || phase == Unknown
    ensures Noted(t, a, phase, result, if sentAt != ZERO_TIME then sentAt else had)
    ensures error.Some? ==> t.attempts[a.id].lastError == error.value
  {
  }

  lemma VerificationNotes(p: Params, s: PersistentState, t: PersistentState, a: ProbeAttempt, from: AttemptPhase,
                          result: SendResult, sentAt: Time, ws: seq<QuotaWindow>, now: Time)
    requires Noted(s, a, from, result, sentAt) && VerifyLeft(p, s, t, a.id, ws, now)
    ensures Noted(t, a, Completed, result, sentAt)
  {
    forall k | k in a.windowKeys ensures k in t.windows && Shows(Completed, a.suppressUntil, t.windows[k]) {
      assert VerifyTaken(p, s.windows[k], t.windows[k], k, ByBucket(ws), now);
    }
  }

  /** What a verification leaves: the windows judged by the read, or the outcome unknown because of its error. */
  ghost predicate Verified(p: Params, s: PersistentState, t: PersistentState, id: AttemptId, read: Event, commit: Event,
                           sentAt: Time)
  {
    && commit.Committed?
    && (if read.Observed? then commit.tx.VerifyAttempt? && VerifyLeft(p, s, t, id, read.windows, commit.tx.now)
        else read.Missed? && OutcomeLeft(s, t, id, Unknown, ResultUnknown, sentAt, read.cause))
  }

  lemma MissIsVerified(p: Params, r: seq<Event>, u: seq<Event>, s: PersistentState, t: PersistentState, id: AttemptId,
                       read: Event, sentAt: Time)
    requires read.Missed? && read.cause.Some? && Plain(r + [read], u) && |u| == |r| + 2
    requires RecordsOutcome(u[|r| + 1], id, Unknown, read.cause)
    requires OutcomeLeft(s, t, id, Unknown, ResultUnknown, sentAt, read.cause)
    ensures VerifiesAt(u, |r|, id, read.instance) && Verified(p, s, t, id, u[|r|], u[|r| + 1], sentAt)
  {
    assert u[|r|] == (r + [read])[|r|];
  }

  lemma ReadIsVerified(p: Params, r: seq<Event>, u: seq<Event>, s: PersistentState, t: PersistentState, id: AttemptId,
                       read: Event, sentAt: Time)
    requires read.Observed? && Plain(r + [read], u) && |u| == |r| + 2
    requires RecordsVerification(u[|r| + 1], id, read.windows)
    requires VerifyLeft(p, s, t, id, read.windows, u[|r| + 1].tx.now)
    ensures VerifiesAt(u, |r|, id, read.instance) && Verified(p, s, t, id, u[|r|], u[|r| + 1], sentAt)
  {
    assert u[|r|] == (r + [read])[|r|];
  }

  lemma VerifiedRecords(p: Params, s: PersistentState, t: PersistentState, a: ProbeAttempt, read: Event, commit: Event,
                        sentAt: Time)
    requires Noted(s, a, AttemptPhase.Sent, ResultSent, sentAt) && sentAt != ZERO_TIME
    requires Verified(p, s, t, a.id, read, commit, sentAt)
    ensures Recorded(t, a, None)
  {
    if read.Observed? {
      VerificationNotes(p, s, t, a, AttemptPhase.Sent, ResultSent, sentAt, read.windows, commit.tx.now);
    } else {
      OutcomeNotes(s, t, a, AttemptPhase.Sent, ResultSent, sentAt, Unknown, ResultUnknown, sentAt, read.cause);
    }
  }

  /** A wait cut short, and its outcome. */
  lemma WaitCut(r: seq<Event>, u: seq<Event>, s: PersistentState, t: PersistentState, a: ProbeAttempt, sentAt: Time,
                cancelled: Option<Note>)
    requires cancelled.Some? && Plain(r + [Waited(cancelled)], u) && |u| == |r| + 2
    requires RecordsOutcome(u[|r| + 1], a.id, Unknown, cancelled)
    requires Noted(s, a, AttemptPhase.Sent, ResultSent, sentAt) && sentAt != ZERO_TIME
    requires OutcomeLeft(s, t, a.id, Unknown, ResultUnknown, sentAt, cancelled)
    ensures Awaited(u, |r|, a) && Recorded(t, a, None)
  {
    assert u[|r|] == (r + [Waited(cancelled)])[|r|];
    OutcomeNotes(s, t, a, AttemptPhase.Sent, ResultSent, sentAt, Unknown, ResultUnknown, sentAt, cancelled);
  }

  /** A wait to its end, and the verification. */
  lemma WaitDone(p: Params, r: seq<Event>, u: seq<Event>, s: PersistentState, t: PersistentState, a: ProbeAttempt,
                 sentAt: Time)
    requires Plain(r + [Waited(None)], u) && VerifiesAt(u, |r| + 1, a.id, a.instanceKey)
    requires Noted(s, a, AttemptPhase.Sent, ResultSent, sentAt) && sentAt != ZERO_TIME
    requires Verified(p, s, t, a.id, u[|r| + 1], u[|r| + 2], sentAt)
    ensures Awaited(u, |r|, a) && Recorded(t, a, None)
  {
    assert u[|r|] == (r + [Waited(None)])[|r|];
    VerifiedRecords(p, s, t, a, u[|r| + 1], u[|r| + 2], sentAt);
  }

  /** The run sent the attempt at event `d`, with all that follows a send, and that is on record. */
  ghost predicate SentWith(r: seq<Event>, t: seq<Event>, d: nat, u: PersistentState, a: ProbeAttempt) {
    SentAt(r, t, d) && t[|r| + d].attempt == a && Recorded(u, a, t[|r| + d].error)
  }

  /** One more event in front. */
  lemma EventThenSend(r: seq<Event>, e: Event, t: seq<Event>, d: nat, u: PersistentState, a: ProbeAttempt)
    requires !e.Observed? && !e.Dispatched? && !IsJudgement(e) && DirectOf(r + [e], t, d, a)
    ensures DirectOf(r, t, d + 1, a) && (SentWith(r + [e], t, d, u, a) ==> SentWith(r, t, d + 1, u, a))
  {
    EventThenDirect(r, e, t, d, a);
  }

  lemma SendThenPlain(r: seq<Event>, t: seq<Event>, u: seq<Event>, a: ProbeAttempt, error: Option<Note>)
    requires t == r + [Dispatched(a, error)] && Plain(t, u)
    ensures DirectOf(r, u, 0, a) && |u| > |r| && u[|r|] == Dispatched(a, error)
  {
    DirectThenPlain(r, t, u, 0, a);
    assert u[|r|] == t[|r|];
  }

  // ----- what went wrong is on record -----

  /** The group's failure is noted on each of its windows and returned, unless that could not be saved. */
  ghost predicate GaveUp(p: Params, s: PersistentState, t: PersistentState, keys: seq<WindowKey>, cause: Note,
                         exit: Exit)
  {
    && exit != Nil
    && (exit.Error? ==>
          if exit.problem == NotPersisted then t == s
          else exit.problem == Because(cause) && exists now :: GroupFailureNoted(p, s, t, keys, cause, now))
  }

  /** A failed first read is noted on each window of the instance and returned; a malformed one changes nothing. */
  ghost predicate ReadMissed(p: Params, s: PersistentState, t: PersistentState, instance: InstanceKey,
                             cause: Option<Note>, exit: Exit)
  {
    && exit != Nil
    && (exit.Error? ==>
          if cause.None? then exit.problem.BadWindows? && t == s
          else if exit.problem == NotPersisted then t == s
          else && exit.problem == Because(cause.value)
               && exists now :: ReadFailureNoted(p, s, t, instance, cause.value, now))
  }

  // ----- the sends of a call -----

  ghost predicate SendOf(r: seq<Event>, t: seq<Event>, i: nat, id: AttemptId) {
    |r| <= i < |t| && t[i].Dispatched? && t[i].attempt.id == id
  }

  /**
   Between run `r` in state `s` and run `t` in state `u`: one send for each new attempt and for nothing else, with what
   became of it on record.
   */
  ghost predicate Accounted(r: seq<Event>, t: seq<Event>, s: PersistentState, u: PersistentState) {
    && r <= t && s.attempts.Keys <= u.attempts.Keys
    && (forall id :: id in u.attempts && id !in s.attempts ==> exists i: nat :: SendOf(r, t, i, id))
    && (forall i :: |r| <= i < |t| && t[i].Dispatched? ==>
                      t[i].attempt.id !in s.attempts && Recorded(u, t[i].attempt, t[i].error))
    && (forall i, j :: |r| <= i < j < |t| && t[i].Dispatched? && t[j].Dispatched? ==>
                         t[i].attempt.id != t[j].attempt.id)
  }

  lemma NoneNew(r: seq<Event>, t: seq<Event>, s: PersistentState, u: PersistentState, ks: set<WindowKey>)
    requires Quiet(r, t) && Frame(s, u, ks, {})
    ensures Accounted(r, t, s, u)
  {
  }

  /** The one send of a group. */
  lemma OneSent(r: seq<Event>, t: seq<Event>, d: nat, s: PersistentState, u: PersistentState, ks: set<WindowKey>,
                a: ProbeAttempt)
    requires DirectOf(r, t, d, a) && SentWith(r, t, d, u, a) && a.id !in s.attempts && Frame(s, u, ks, {a.id})
    ensures Accounted(r, t, s, u)
  {
    forall id | id in u.attempts && id !in s.attempts ensures exists i: nat :: SendOf(r, t, i, id) {
      assert SendOf(r, t, |r| + d, id);
    }
  }

  lemma PlannedDirect(r: seq<Event>, t: seq<Event>, a: ProbeAttempt, records: seq<WindowRecord>)
    requires DirectOf(r + [Planned(None)], t, 2, a) && Covers(a, a.instanceKey, records)
    ensures Direct(r, t, 3, a.instanceKey, records)
  {
    EventThenDirect(r, Planned(None), t, 2, a);
    DirectFor(r, t, 3, a, records);
  }

  lemma PlannedSent(r: seq<Event>, t: seq<Event>, s: PersistentState, u: PersistentState, a: ProbeAttempt)
    requires DirectOf(r + [Planned(None)], t, 2, a) && SentWith(r + [Planned(None)], t, 2, u, a)
    requires a.id !in s.attempts && Frame(s, u, KeySet(a.windowKeys), {a.id})
    ensures PlannedWell(r, t) && SentAt(r, t, 3) && Accounted(r, t, s, u)
  {
    EventThenDirect(r, Planned(None), t, 2, a);
    assert t[|r|] == (r + [Planned(None)])[|r|];
    OneSent(r, t, 3, s, u, KeySet(a.windowKeys), a);
  }

  /** Events and transactions without a send in front. */
  lemma AccountedAfter(r: seq<Event>, q: seq<Event>, t: seq<Event>, s: PersistentState, m: PersistentState,
                       u: PersistentState)
    requires Quiet(r, q) && m.attempts.Keys == s.attempts.Keys && Accounted(q, t, m, u)
    ensures Accounted(r, t, s, u)
  {
    assert forall i :: |r| <= i < |q| ==> t[i] == q[i];
    forall id | id in u.attempts && id !in s.attempts ensures exists i: nat :: SendOf(r, t, i, id) {
      var i: nat :| SendOf(q, t, i, id);
      assert SendOf(r, t, i, id);
    }
  }

  /** What is on record stays there while other windows and attempts are worked on. */
  lemma RecordedStays(s: PersistentState, u: PersistentState, ks: set<WindowKey>, mine: set<AttemptId>, a: ProbeAttempt,
                      error: Option<Note>)
    requires AttemptsOk(s) && Recorded(s, a, error) && Frame(s, u, ks, mine) && a.id !in mine
    requires forall k :: k in a.windowKeys ==> k !in ks
    ensures Recorded(u, a, error)
  {
    forall c | c in a.cycleIds ensures c in u.ledger && u.ledger[c] == s.ledger[c] {
      CyclesOfAttempt(s.windows, s.attempts[a.id], c);
      assert c.Window() in a.windowKeys;
    }
    assert forall k :: k in a.windowKeys ==> k in u.windows && u.windows[k] == s.windows[k];
  }

  /** A group's sends stay on record while a later group is worked on. */
  lemma GroupRecordsStay(r: seq<Event>, q: seq<Event>, m: PersistentState, u: PersistentState, instance: InstanceKey,
                         groups: seq<seq<WindowRecord>>, n: nat, mine: set<AttemptId>, i: nat)
    requires GroupsTrace(r, q, instance, groups, n) && GroupsApart(groups) && n < |groups| && AttemptsOk(m)
    requires Frame(m, u, KeySet(KeysOf(groups[n])), mine) && mine !! m.attempts.Keys
    requires |r| <= i < |q| && q[i].Dispatched? && Recorded(m, q[i].attempt, q[i].error)
    ensures Recorded(u, q[i].attempt, q[i].error)
  {
    var a := q[i].attempt;
    var g :| 0 <= g < n && SentFor(r, q, i, instance, groups, g);
    forall k | k in a.windowKeys ensures k !in KeySet(KeysOf(groups[n])) {
      var j :| 0 <= j < |a.windowKeys| && a.windowKeys[j] == k;
      assert Names(groups[g], k, a.cycleIds[j]);
      KeysOfMembers(groups[g], k);
      if k in KeysOf(groups[n]) { SameKeysSameGroup(groups, g, n, k); }
    }
    RecordedStays(m, u, KeySet(KeysOf(groups[n])), mine, a, q[i].error);
  }

  /** One more group. */
  lemma NextAccounted(r: seq<Event>, q: seq<Event>, t: seq<Event>, s: PersistentState, m: PersistentState,
                      u: PersistentState, instance: InstanceKey, groups: seq<seq<WindowRecord>>, n: nat,
                      mine: set<AttemptId>)
    requires GroupsTrace(r, q, instance, groups, n) && GroupsApart(groups) && n < |groups| && AttemptsOk(m)
    requires Frame(m, u, KeySet(KeysOf(groups[n])), mine) && mine !! m.attempts.Keys
    requires Accounted(r, q, s, m) && Accounted(q, t, m, u)
    ensures Accounted(r, t, s, u)
  {
    forall i | |r| <= i < |q| && q[i].Dispatched? ensures Recorded(u, q[i].attempt, q[i].error) {
      GroupRecordsStay(r, q, m, u, instance, groups, n, mine, i);
    }
    AccountsJoin(r, q, t, s, m, u);
  }

  lemma AccountsJoin(r: seq<Event>, q: seq<Event>, t: seq<Event>, s: PersistentState, m: PersistentState,
                     u: PersistentState)
    requires Accounted(r, q, s, m) && Accounted(q, t, m, u)
    requires forall i :: |r| <= i < |q| && q[i].Dispatched? ==> Recorded(u, q[i].attempt, q[i].error)
    ensures Accounted(r, t, s, u)
  {
    assert forall i :: |r| <= i < |q| ==> t[i] == q[i];
    forall id | id in u.attempts && id !in s.attempts ensures exists i: nat :: SendOf(r, t, i, id) {
      if id in m.attempts {
        var i: nat :| SendOf(r, q, i, id);
        assert SendOf(r, t, i, id);
      } else {
        var i: nat :| SendOf(q, t, i, id);
        assert SendOf(r, t, i, id);
      }
    }
  }

  // ----- every group has its turn -----

  /** The second read of the group was judged, and that is on disk. */
  ghost predicate PrecheckedAt(t: seq<Event>, i: nat, records: seq<WindowRecord>) {
    i < |t| && t[i].Committed? && t[i].fault.Acknowledged? && t[i].tx.PrecheckGroup? && t[i].tx.keys == KeysOf(records)
  }

  /** A group at its end: sent for, with all that follows a send, or stopped by its precheck. */
  ghost predicate GroupDone(r: seq<Event>, t: seq<Event>, records: seq<WindowRecord>) {
    if NeedsPrecheck(records) then
      PrecheckedAt(t, |r| + 1, records) && (|t| == |r| + 2 || SentAt(r, t, 5))
    else
      SentAt(r, t, 3)
  }

  lemma MissTraced(r: seq<Event>, read: Event, t: seq<Event>, instance: InstanceKey, records: seq<WindowRecord>)
    requires read.Missed? && Plain(r + [read], t)
    ensures Quiet(r, t) && Prechecked(r, t, instance, records) && |t| > |r| && t[|r|] == read
  {
    assert t[|r|] == (r + [read])[|r|];
  }

  lemma PrecheckTraced(r: seq<Event>, t: seq<Event>, instance: InstanceKey, records: seq<WindowRecord>,
                       ws: seq<QuotaWindow>, ok: bool)
    requires exists tx, fault ::
               && t == r + [Observed(instance, ws)] + [Committed(tx, fault)] && (ok <==> fault.Acknowledged?)
               && tx.PrecheckGroup? && tx == PrecheckGroup(instance, KeysOf(records), ws, tx.now)
    ensures Quiet(r, t) && Prechecked(r, t, instance, records) && |t| == |r| + 2 && JustPrechecked(r, t)
    ensures t[|r|] == Observed(instance, ws) && (ok ==> PrecheckedAt(t, |r| + 1, records))
  {
  }

  /** A precheck, and then what its confirmed windows came to. */
  lemma ConfirmedDone(r: seq<Event>, t: seq<Event>, u: seq<Event>, s: PersistentState, m: PersistentState,
                      v: PersistentState, records: seq<WindowRecord>, confirmed: seq<WindowRecord>,
                      mine: set<AttemptId>)
    requires Quiet(r, t) && |t| == |r| + 2 && PrecheckedAt(t, |r| + 1, records)
    requires Frame(s, m, KeySet(KeysOf(records)), {}) && Accounted(t, u, m, v)
    requires WindowsOk(m.windows) && LeftToConfirmed(m, records, confirmed)
    requires Frame(m, v, KeySet(KeysOf(confirmed)), mine) && AllScheduled(v, KeySet(KeysOf(confirmed)))
    ensures Accounted(r, u, s, v) && PrecheckedAt(u, |r| + 1, records) && (SentAt(t, u, 3) ==> SentAt(r, u, 5))
    ensures AllScheduled(v, KeySet(KeysOf(records)))
  {
    AccountedAfter(r, t, u, s, m, v);
    GroupScheduled(m, v, records, confirmed, mine);
  }

  /** Since `r`, windows of the group were sent for, or its precheck was judged. */
  ghost predicate Served(r: seq<Event>, t: seq<Event>, instance: InstanceKey, records: seq<WindowRecord>) {
    if NeedsPrecheck(records) then exists i: nat :: |r| <= i && PrecheckedAt(t, i, records)
    else exists i: nat :: |r| <= i < |t| && t[i].Dispatched? && Covers(t[i].attempt, instance, records)
  }

  ghost predicate ServedUpTo(r: seq<Event>, t: seq<Event>, instance: InstanceKey, groups: seq<seq<WindowRecord>>,
                             n: nat)
  {
    n <= |groups| && forall g :: 0 <= g < n ==> Served(r, t, instance, groups[g])
  }

  lemma ServedLater(r: seq<Event>, q: seq<Event>, t: seq<Event>, instance: InstanceKey, records: seq<WindowRecord>)
    requires q <= t && Served(r, q, instance, records)
    ensures Served(r, t, instance, records)
  {
    if NeedsPrecheck(records) {
      var i: nat :| |r| <= i && PrecheckedAt(q, i, records);
      assert PrecheckedAt(t, i, records);
    } else {
      var i: nat :| |r| <= i < |q| && q[i].Dispatched? && Covers(q[i].attempt, instance, records);
      assert t[i] == q[i];
    }
  }

  lemma DoneIsServed(r: seq<Event>, q: seq<Event>, t: seq<Event>, instance: InstanceKey, records: seq<WindowRecord>)
    requires r <= q && GroupDone(q, t, records) && GroupTrace(q, t, instance, records)
    ensures Served(r, t, instance, records)
  {
  }

  lemma NextServed(r: seq<Event>, q: seq<Event>, t: seq<Event>, instance: InstanceKey,
                   groups: seq<seq<WindowRecord>>, n: nat)
    requires r <= q <= t && n < |groups| && ServedUpTo(r, q, instance, groups, n)
    requires GroupDone(q, t, groups[n]) && GroupTrace(q, t, instance, groups[n])
    ensures ServedUpTo(r, t, instance, groups, n + 1)
  {
    forall g | 0 <= g < n ensures Served(r, t, instance, groups[g]) { ServedLater(r, q, t, instance, groups[g]); }
    DoneIsServed(r, q, t, instance, groups[n]);
  }

  /** A Tick at its end: its read was reconciled, and each of the groups this formed has had its turn. */
  ghost predicate TickServed(p: Params, r: seq<Event>, t: seq<Event>, cred: Credential, instance: InstanceKey) {
    exists n, groups, names ::
      && |r| < n < |t| && Quiet(r, t[..n + 1]) && GroupedAt(p, t, n, cred, instance, groups, names)
      && (p.cfg.dryRun || ServedUpTo(t[..n + 1], t, instance, groups, |groups|))
  }

  lemma GroupsThenServed(p: Params, r: seq<Event>, s: seq<Event>, t: seq<Event>, u: seq<Event>, cred: Credential,
                         instance: InstanceKey, groups: seq<seq<WindowRecord>>, names: seq<string>)
    requires Quiet(r, s) && GroupedNow(p, s, t, cred, instance, groups, names) && t <= u
    requires p.cfg.dryRun || ServedUpTo(t, u, instance, groups, |groups|)
    ensures TickServed(p, r, u, cred, instance)
  {
    var n := |t| - 1;
    assert u[..n + 1] == t && u[..n] == t[..n];
    assert forall i :: |r| <= i < |s| ==> t[i] == s[i];
    assert GroupedAt(p, u, n, cred, instance, groups, names);
  }
}
