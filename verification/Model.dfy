/** The durable records and identities of core/model.go. */
module Model {
  import opened Wrappers

  /** Nanoseconds; Go's zero time is 0. */
  type Time = int
  type Duration = int

  const ZERO_TIME: Time := 0
  const SECOND: Duration := 1_000_000_000
  const MINUTE: Duration := 60 * SECOND
  const HOUR: Duration := 60 * MINUTE

  type AttemptId = nat

  datatype ProbeState =
    | Observing | WaitingReset | PendingPrecheck | NormalReset | LazyDetected
    | ActivationSending | ActivationSent | SentUnknown | Verifying | Confirmed
    | RetryWait | AuthBlocked | Unsupported | Disabled

  datatype AttemptPhase = Prepared | Sending | Sent | Unknown | Completed {
    /** Position in the life of an attempt. */
    function Rank(): nat {
      match this
      case Prepared => 0
      case Sending => 1
      case Sent => 2
      case Unknown => 3
      case Completed => 4
    }
  }

  /** The messages the controller stores in LastResult and LastError. */
  datatype Note =
    | NoNote | BaselineEstablished | ObserveOnly | FirstObservationNeedsPrecheck | MigratedLazyBaseline
    | RolledWithoutActivation | AlreadyAttempted | AmbiguousTransition | PrecheckShowsLazy | BucketAbsent
    | PrecheckMissingBucket | PrecheckNotCapable | RolledDuringPrecheck | AmbiguousDuringPrecheck
    | PrecheckStillLazy | WouldActivate | VerifyMissingBucket | ActivationWasSent | SendResultUnknown
    | CredentialReplaced | CredentialDisabled | UnboundedPlan | RecoveredDuringSend
    | Reason(text: string) | Cause(text: string)

  datatype Credential = Credential(authId: string, authIndex: string, provider: string, disabled: bool)

  /** adapter ID, AuthIndex and fingerprint, which the code joins with '|'. */
  datatype InstanceKey = InstanceKey(adapterId: string, authIndex: string, fingerprint: string)

  datatype WindowKey = WindowKey(instance: InstanceKey, bucketId: string)

  /** The arguments NewCycleID hashes; SHA-256 is taken to be injective. */
  datatype CycleId = CycleId(instance: InstanceKey, bucketId: string, resetAt: Time) {
    function Window(): WindowKey { WindowKey(instance, bucketId) }
  }

  datatype QuotaWindow = QuotaWindow(
    provider: string, authId: string, bucketId: string, modelFamily: string, scope: string,
    usedPercent: Option<real>, resetAt: Time, windowDuration: Duration, observedAt: Time,
    activationGroup: string, lazyHint: bool, complete: bool)
  {
    predicate Valid() {
      bucketId != "" && resetAt != ZERO_TIME && observedAt != ZERO_TIME && windowDuration > 0 && complete
    }

    /** The activation group, or the bucket itself when the provider names none. */
    function GroupName(): string {
      if activationGroup == "" then bucketId else activationGroup
    }
  }

  datatype Baseline = Baseline(
    resetAt: Time, windowDuration: Duration, usedPercent: Option<real>, observedAt: Time, cycleId: CycleId)

  datatype WindowRecord = WindowRecord(
    key: WindowKey, instanceKey: InstanceKey, provider: string, authId: string, bucketId: string,
    modelFamily: string, activationGroup: string, baseline: Baseline, latest: QuotaWindow,
    state: ProbeState, lastProbe: Time, nextCheck: Time, lastActivation: Time, lastResult: Note,
    retryCount: nat, activeAttempt: Option<AttemptId>, activationDisabled: bool)

  datatype ProbeAttempt = ProbeAttempt(
    id: AttemptId, instanceKey: InstanceKey, provider: string, authId: string, activationGroup: string,
    windowKeys: seq<WindowKey>, cycleIds: seq<CycleId>, phase: AttemptPhase, createdAt: Time,
    sendingAt: Time, sentAt: Time, verifyNotBefore: Time, suppressUntil: Time, lastError: Note)

  datatype SendResult = ResultUnknown | ResultSent

  datatype LedgerEntry = LedgerEntry(cycleId: CycleId, attemptId: AttemptId, sendingAt: Time, outcome: SendResult)

  datatype PersistentState = PersistentState(
    sequence: nat,
    windows: map<WindowKey, WindowRecord>,
    attempts: map<AttemptId, ProbeAttempt>,
    ledger: map<CycleId, LedgerEntry>)

  function EmptyState(): PersistentState {
    PersistentState(0, map[], map[], map[])
  }

  function BaselineFrom(instance: InstanceKey, w: QuotaWindow): Baseline {
    Baseline(w.resetAt, w.windowDuration, w.usedPercent, w.observedAt, CycleId(instance, w.bucketId, w.resetAt))
  }

  function AbsDuration(d: Duration): Duration {
    if d < 0 then -d else d
  }

  /** byBucket of the code: the window reported for each bucket, a later entry replacing an earlier one. */
  function ByBucket(ws: seq<QuotaWindow>): map<string, QuotaWindow> {
    if ws == [] then map[]
    else
      var last := ws[|ws| - 1];
      ByBucket(ws[..|ws| - 1])[last.bucketId := last]
  }

  method IndexByBucket(ws: seq<QuotaWindow>) returns (byBucket: map<string, QuotaWindow>)
    ensures byBucket == ByBucket(ws)
  {
    byBucket := map[];
    for i := 0 to |ws|
      invariant byBucket == ByBucket(ws[..i])
    {
      byBucket := byBucket[ws[i].bucketId := ws[i]];
      assert ws[..i + 1][..i] == ws[..i];
    }
    assert ws[..|ws|] == ws;
  }

  ghost predicate DistinctBuckets(ws: seq<QuotaWindow>) {
    forall i, j :: 0 <= i < j < |ws| ==> ws[i].bucketId != ws[j].bucketId
  }

  /** With distinct buckets the index holds exactly the reported windows. */
  lemma {:induction false} ByBucketFaithful(ws: seq<QuotaWindow>)
    requires DistinctBuckets(ws)
    ensures forall i :: 0 <= i < |ws| ==> ws[i].bucketId in ByBucket(ws) && ByBucket(ws)[ws[i].bucketId] == ws[i]
    ensures forall b :: b in ByBucket(ws) ==> ByBucket(ws)[b] in ws && ByBucket(ws)[b].bucketId == b
  {
    if ws != [] {
      ByBucketFaithful(ws[..|ws| - 1]);
    }
  }
}
