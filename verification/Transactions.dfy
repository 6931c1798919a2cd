/**
 The closures core/controller.go hands to Store.Update, each as the function of the durable state it
 computes. The imperative controller runs their loops and is proved to produce these results.
 */
module Transactions {
  import opened Wrappers
  import opened Model
  import opened Adapters

  datatype Config = Config(
    dryRun: bool, resetGrace: Duration, verifyDelay: Duration, suppression: Duration,
    interval: Duration, skew: Duration, retryDelays: seq<Duration>, maxRetries: int)
  {
    /** What NewController leaves behind; the retry delays are the built-in ones. */
    predicate Valid() {
      && resetGrace >= 0 && verifyDelay >= 0 && suppression > 0 && interval > 0 && skew > 0
      && forall i :: 0 <= i < |retryDelays| ==> retryDelays[i] >= 0
    }

    function RetryDelay(n: nat): (d: Duration)
      ensures Valid() ==> d >= 0
    {
      if maxRetries > 0 && n >= maxRetries then interval
      else if retryDelays == [] then interval
      else if n >= |retryDelays| then retryDelays[|retryDelays| - 1]
      else retryDelays[n]
    }

    function NextDeadline(b: Baseline, now: Time): (t: Time)
      ensures t >= now && t >= b.resetAt + resetGrace
    {
      var d := b.resetAt + resetGrace;
      if d < now then now else d
    }
  }

  /** NewController: rejects negative durations and fills in defaults for the unset ones. */
  function NewConfig(c: Config): (r: Option<Config>)
    ensures r.None? <==> c.resetGrace < 0 || c.verifyDelay < 0 || c.suppression < 0
    ensures r.Some? && (forall i :: 0 <= i < |c.retryDelays| ==> c.retryDelays[i] >= 0) ==> r.value.Valid()
    ensures c.Valid() ==> r == Some(c)
    ensures r.Some? ==>
              r.value == c.(interval := r.value.interval, skew := r.value.skew, suppression := r.value.suppression)
    ensures r.Some? ==> && r.value.interval == (if c.interval <= 0 then 30 * MINUTE else c.interval)
                        && r.value.skew == (if c.skew <= 0 then 2 * MINUTE else c.skew)
                        && r.value.suppression == (if c.suppression == 0 then 10 * MINUTE else c.suppression)
  {
    if c.resetGrace < 0 || c.verifyDelay < 0 || c.suppression < 0 then None
    else Some(c.(interval := if c.interval <= 0 then 30 * MINUTE else c.interval,
              skew := if c.skew <= 0 then 2 * MINUTE else c.skew,
              suppression := if c.suppression <= 0 then 10 * MINUTE else c.suppression))
  }

  /** Everything fixed for the life of a controller: its configuration and the adapter behind each adapter ID. */
  datatype Params = Params(cfg: Config, adapters: string -> Adapter) {
    function For(i: InstanceKey): Adapter { adapters(i.adapterId) }
  }

  /** What one closure does to one window record. */
  datatype Edit =
    | Retire
    | Block(state: ProbeState, note: Note)
    | ReadFailed(cause: Note, now: Time)
    | GroupFailed(cause: Note, now: Time)
    | DryRunOnly(now: Time)
    | Absent(now: Time)
    | Claim(id: AttemptId)
    | MarkSending(now: Time)
    | MarkOutcome(phase: AttemptPhase, suppressUntil: Time, now: Time)
    | Requeue(now: Time)
    | Precheck(byBucket: map<string, QuotaWindow>, now: Time)
    | Verify(byBucket: map<string, QuotaWindow>, now: Time)

  /** Whether the reset observed is the baseline's, give or take the skew. */
  predicate SameReset(p: Params, b: Baseline, w: QuotaWindow) {
    AbsDuration(w.resetAt - b.resetAt) <= p.cfg.skew
  }

  /** A rollover the provider made on its own: the reset moved past the skew and the window is in use. */
  predicate RolledOver(p: Params, b: Baseline, w: QuotaWindow) {
    w.resetAt > b.resetAt + p.cfg.skew && !w.lazyHint
  }

  function PrecheckRecord(p: Params, after: Option<QuotaWindow>, now: Time, x: WindowRecord): WindowRecord {
    if after.None? then
      x.(state := RetryWait, lastResult := PrecheckMissingBucket, retryCount := x.retryCount + 1,
      nextCheck := now + p.cfg.RetryDelay(x.retryCount + 1))
    else
      var w := after.value;
      var r := x.(latest := w, lastProbe := now);
      if !p.For(r.instanceKey).Can(w) || w.activationGroup != r.activationGroup then
        r.(state := Unsupported, lastResult := PrecheckNotCapable, activationDisabled := true,
        nextCheck := now + p.cfg.interval)
      else if RolledOver(p, r.baseline, w) then
        var b := BaselineFrom(r.instanceKey, w);
        r.(baseline := b, state := NormalReset, lastResult := RolledDuringPrecheck, retryCount := 0,
        nextCheck := p.cfg.NextDeadline(b, now))
      else if !SameReset(p, r.baseline, w) && !w.lazyHint then
        r.(state := RetryWait, lastResult := AmbiguousDuringPrecheck, retryCount := r.retryCount + 1,
        nextCheck := now + p.cfg.RetryDelay(r.retryCount + 1))
      else
        r.(state := LazyDetected, lastResult := PrecheckStillLazy, nextCheck := ZERO_TIME)
  }

  function VerifyRecord(p: Params, after: Option<QuotaWindow>, now: Time, x: WindowRecord): WindowRecord {
    if after.None? then
      x.(state := RetryWait, lastResult := VerifyMissingBucket, nextCheck := now + p.cfg.interval)
    else
      var w := after.value;
      var result := p.For(x.instanceKey).verify(x.baseline, w);
      var r := x.(latest := w, lastProbe := now, lastResult := result.reason, activeAttempt := None);
      if result.confirmed then
        var b := BaselineFrom(r.instanceKey, w);
        r.(state := Confirmed, baseline := b, nextCheck := p.cfg.NextDeadline(b, now), retryCount := 0)
      else
        r.(state := RetryWait, nextCheck := now + p.cfg.interval)
  }

  function Lookup(byBucket: map<string, QuotaWindow>, b: string): Option<QuotaWindow> {
    if b in byBucket then Some(byBucket[b]) else None
  }

  function EditRecord(p: Params, e: Edit, x: WindowRecord): WindowRecord {
    match e
    case Retire => x.(state := Disabled, lastResult := CredentialReplaced, nextCheck := ZERO_TIME)
    case Block(state, note) => x.(state := state, lastResult := note, nextCheck := ZERO_TIME)
    case ReadFailed(cause, now) =>
      x.(state := RetryWait, lastResult := cause, nextCheck := now + p.cfg.RetryDelay(x.retryCount),
      retryCount := x.retryCount + 1)
    case GroupFailed(cause, now) =>
      x.(state := RetryWait, lastResult := cause, retryCount := x.retryCount + 1,
      nextCheck := now + p.cfg.RetryDelay(x.retryCount + 1))
    case DryRunOnly(now) => x.(state := LazyDetected, lastResult := WouldActivate, nextCheck := now + p.cfg.interval)
    case Absent(now) => x.(state := RetryWait, lastResult := BucketAbsent, nextCheck := now + p.cfg.interval)
    case Claim(id) => x.(state := PendingPrecheck, activeAttempt := Some(id))
    case MarkSending(now) => x.(state := ActivationSending, lastActivation := now)
    case MarkOutcome(phase, suppressUntil, now) =>
      var r := if phase == Sent then x.(state := ActivationSent, lastResult := ActivationWasSent)
               else x.(state := SentUnknown, lastResult := SendResultUnknown);
      r.(nextCheck := suppressUntil, lastProbe := now)
    case Requeue(now) => x.(state := PendingPrecheck, activeAttempt := None, nextCheck := now)
    case Precheck(byBucket, now) => PrecheckRecord(p, Lookup(byBucket, x.bucketId), now, x)
    case Verify(byBucket, now) => VerifyRecord(p, Lookup(byBucket, x.bucketId), now, x)
  }

  /** The records named in `keys` edited, every other record as it was. */
  function Touched(p: Params, ws: map<WindowKey, WindowRecord>, keys: seq<WindowKey>,
                   e: Edit): map<WindowKey, WindowRecord>
  {
    map k | k in ws :: if k in keys then EditRecord(p, e, ws[k]) else ws[k]
  }

  /** The tests of the loops that range over all of s.Windows. */
  datatype Selector =
    | OfCredential(authId: string)
    | ReplacedBy(authId: string, current: InstanceKey)
    | OfInstance(instance: InstanceKey)
    | Unseen(instance: InstanceKey, seen: set<WindowKey>)
  {
    predicate Picks(k: WindowKey, x: WindowRecord) {
      match this
      case OfCredential(authId) => x.authId == authId
      case ReplacedBy(authId, current) => x.authId == authId && x.instanceKey != current
      case OfInstance(instance) => x.instanceKey == instance
      case Unseen(instance, seen) => x.instanceKey == instance && k !in seen
    }
  }

  function TouchedWhere(p: Params, ws: map<WindowKey, WindowRecord>, sel: Selector,
                        e: Edit): map<WindowKey, WindowRecord>
  {
    map k | k in ws :: if sel.Picks(k, ws[k]) then EditRecord(p, e, ws[k]) else ws[k]
  }

  // ----- reconcileObservation -----

  /** What reconciling one observed bucket yields: its record, and whether it joins an activation group. */
  datatype Verdict = Verdict(record: WindowRecord, joins: bool)

  /** The provider and credential the controller stamps on an observed window. */
  function Attributed(cred: Credential, w: QuotaWindow): QuotaWindow {
    w.(provider := if w.provider != "" then w.provider else cred.provider, authId := cred.authId)
  }

  function FirstObservation(p: Params, cred: Credential, instance: InstanceKey, now: Time, o: QuotaWindow): Verdict {
    var base := BaselineFrom(instance, o);
    var able := p.For(instance).Can(o);
    var due := o.lazyHint || now >= base.resetAt + p.cfg.resetGrace;
    var state := if !able then Unsupported else if due then PendingPrecheck else WaitingReset;
    var note := if !able then ObserveOnly else if due then FirstObservationNeedsPrecheck else BaselineEstablished;
    var r := WindowRecord(
               WindowKey(instance, o.bucketId), instance, cred.provider, cred.authId, o.bucketId, o.modelFamily,
               o.activationGroup, base, o, state, ZERO_TIME, p.cfg.NextDeadline(base, now), ZERO_TIME,
               note, 0, None, !able);
    if able && due then Verdict(r.(nextCheck := ZERO_TIME), true) else Verdict(r, false)
  }

  function Revisit(p: Params, instance: InstanceKey, fenced: bool, now: Time, x: WindowRecord,
                   o: QuotaWindow): Verdict
  {
    var r := x.(latest := o, lastProbe := now);
    if !p.For(instance).Can(o) then
      Verdict(r.(state := Unsupported, lastResult := ObserveOnly, activationDisabled := true,
              nextCheck := now + p.cfg.interval), false)
    else if r.state == WaitingReset && o.lazyHint && r.lastActivation == ZERO_TIME then
      Verdict(r.(baseline := BaselineFrom(instance, o), state := PendingPrecheck, lastResult := MigratedLazyBaseline,
              nextCheck := ZERO_TIME), true)
    else if RolledOver(p, r.baseline, o) then
      var b := BaselineFrom(instance, o);
      Verdict(r.(baseline := b, state := NormalReset, lastResult := RolledWithoutActivation, retryCount := 0,
              activeAttempt := None, nextCheck := p.cfg.NextDeadline(b, now)), false)
    else if now < r.baseline.resetAt + p.cfg.resetGrace then
      Verdict(r.(state := WaitingReset, nextCheck := p.cfg.NextDeadline(r.baseline, now)), false)
    else if fenced then
      Verdict(r.(state := SentUnknown, lastResult := AlreadyAttempted, nextCheck := now + p.cfg.interval), false)
    else if !SameReset(p, r.baseline, o) && !o.lazyHint then
      Verdict(r.(state := RetryWait, lastResult := AmbiguousTransition,
              nextCheck := now + p.cfg.RetryDelay(r.retryCount), retryCount := r.retryCount + 1), false)
    else
      Verdict(r.(state := LazyDetected, lastResult := PrecheckShowsLazy, nextCheck := ZERO_TIME), true)
  }

  /** One turn of the reconcile loop; the ledger is only read. */
  function Turn(p: Params, windows: map<WindowKey, WindowRecord>, ledger: map<CycleId, LedgerEntry>,
                cred: Credential, instance: InstanceKey, now: Time, w: QuotaWindow): Verdict
  {
    var o := Attributed(cred, w);
    var k := WindowKey(instance, o.bucketId);
    if k in windows then
      Revisit(p, instance, windows[k].baseline.cycleId in ledger, now, windows[k], o)
    else
      FirstObservation(p, cred, instance, now, o)
  }

  function Reconciled(p: Params, s: PersistentState, cred: Credential, instance: InstanceKey, now: Time,
                      w: QuotaWindow): Verdict
  {
    Turn(p, s.windows, s.ledger, cred, instance, now, w)
  }

  function SeenKeys(instance: InstanceKey, ws: seq<QuotaWindow>): set<WindowKey> {
    set w | w in ws :: WindowKey(instance, w.bucketId)
  }

  function KeysSeen(instance: InstanceKey, ws: seq<QuotaWindow>): seq<WindowKey> {
    seq(|ws|, i requires 0 <= i < |ws| => WindowKey(instance, ws[i].bucketId))
  }

  function RecordsSeen(p: Params, s: PersistentState, cred: Credential, instance: InstanceKey, ws: seq<QuotaWindow>,
                       now: Time): seq<WindowRecord>
  {
    seq(|ws|, i requires 0 <= i < |ws| => Reconciled(p, s, cred, instance, now, ws[i]).record)
  }

  /** s.Windows[key] = record for each key in turn. */
  function PutAll(table: map<WindowKey, WindowRecord>, keys: seq<WindowKey>,
                  records: seq<WindowRecord>): map<WindowKey, WindowRecord>
    requires |keys| == |records|
  {
    if keys == [] then table
    else PutAll(table, keys[..|keys| - 1], records[..|keys| - 1])[keys[|keys| - 1] := records[|keys| - 1]]
  }

  /** The window table after the loop over the observed buckets. */
  function Upserted(p: Params, s: PersistentState, cred: Credential, instance: InstanceKey, ws: seq<QuotaWindow>,
                    now: Time): map<WindowKey, WindowRecord>
  {
    PutAll(s.windows, KeysSeen(instance, ws), RecordsSeen(p, s, cred, instance, ws, now))
  }

  /** The records that join a group, in the order of the observation. */
  function Joining(p: Params, s: PersistentState, cred: Credential, instance: InstanceKey, ws: seq<QuotaWindow>,
                   now: Time): seq<WindowRecord>
  {
    if ws == [] then []
    else
      var v := Reconciled(p, s, cred, instance, now, ws[|ws| - 1]);
      Joining(p, s, cred, instance, ws[..|ws| - 1], now) + if v.joins then [v.record] else []
  }

  /** groups[g] = append(groups[g], r) for each record in turn. */
  function Grouped(rs: seq<WindowRecord>): map<string, seq<WindowRecord>> {
    if rs == [] then map[]
    else
      var groups, r := Grouped(rs[..|rs| - 1]), rs[|rs| - 1];
      var g := r.latest.GroupName();
      groups[g := (if g in groups then groups[g] else []) + [r]]
  }

  // ----- the transactions -----

  datatype Tx =
    | RetireReplaced(authId: string, current: InstanceKey)
    | MarkCredential(authId: string, state: ProbeState, note: Note)
    | ReadFailure(instance: InstanceKey, cause: Note, now: Time)
    | Reconcile(cred: Credential, instance: InstanceKey, windows: seq<QuotaWindow>, now: Time)
    | GroupFailure(keys: seq<WindowKey>, cause: Note, now: Time)
    | PrecheckGroup(instance: InstanceKey, keys: seq<WindowKey>, windows: seq<QuotaWindow>, now: Time)
    | DryRun(keys: seq<WindowKey>, now: Time)
    | Prepare(attempt: ProbeAttempt)
    | Fence(attempt: ProbeAttempt, now: Time)
    | SendOutcome(id: AttemptId, phase: AttemptPhase, result: SendResult, sentAt: Time, error: Option<Note>, now: Time)
    | VerifyAttempt(id: AttemptId, windows: seq<QuotaWindow>, now: Time)
    | DropPrepared(id: AttemptId, now: Time)

  predicate AnyFenced(cycles: seq<CycleId>, ledger: map<CycleId, LedgerEntry>) {
    exists c :: c in cycles && c in ledger
  }

  /** The ledger with an entry for each cycle of an attempt being sent. */
  function FencedLedger(ledger: map<CycleId, LedgerEntry>, cycles: seq<CycleId>, id: AttemptId,
                        now: Time): map<CycleId, LedgerEntry>
  {
    ledger + map c | c in cycles :: LedgerEntry(c, id, now, ResultUnknown)
  }

  function NotedLedger(ledger: map<CycleId, LedgerEntry>, cycles: seq<CycleId>,
                       result: SendResult): map<CycleId, LedgerEntry>
  {
    map c | c in ledger :: if c in cycles then ledger[c].(outcome := result) else ledger[c]
  }

  function NotedAttempt(a: ProbeAttempt, phase: AttemptPhase, sentAt: Time, cause: Option<Note>): ProbeAttempt {
    var b := if sentAt != ZERO_TIME then a.(phase := phase, sentAt := sentAt) else a.(phase := phase);
    if cause.Some? then b.(lastError := cause.value) else b
  }

  /** The state the closure leaves, before Update stamps the sequence; None when the closure returns an error. */
  function Apply(p: Params, s: PersistentState, tx: Tx): Option<PersistentState> {
    match tx
    case RetireReplaced(authId, current) =>
      Some(s.(windows := TouchedWhere(p, s.windows, ReplacedBy(authId, current), Retire)))
    case MarkCredential(authId, state, note) =>
      Some(s.(windows := TouchedWhere(p, s.windows, OfCredential(authId), Block(state, note))))
    case ReadFailure(instance, cause, now) =>
      Some(s.(windows := TouchedWhere(p, s.windows, OfInstance(instance), ReadFailed(cause, now))))
    case Reconcile(cred, instance, ws, now) =>
      var upserted := Upserted(p, s, cred, instance, ws, now);
      Some(s.(windows := TouchedWhere(p, upserted, Unseen(instance, SeenKeys(instance, ws)), Absent(now))))
    case GroupFailure(keys, cause, now) =>
      Some(s.(windows := Touched(p, s.windows, keys, GroupFailed(cause, now))))
    case PrecheckGroup(_, keys, ws, now) =>
      Some(s.(windows := Touched(p, s.windows, keys, Precheck(ByBucket(ws), now))))
    case DryRun(keys, now) =>
      Some(s.(windows := Touched(p, s.windows, keys, DryRunOnly(now))))
    case Prepare(a) =>
      if AnyFenced(a.cycleIds, s.ledger) then None
      else Some(s.(attempts := s.attempts[a.id := a], windows := Touched(p, s.windows, a.windowKeys, Claim(a.id))))
    case Fence(a, now) =>
      if a.id !in s.attempts || s.attempts[a.id].phase != Prepared then None
      else Some(s.(attempts := s.attempts[a.id := a.(phase := Sending, sendingAt := now)],
                ledger := FencedLedger(s.ledger, a.cycleIds, a.id, now),
                windows := Touched(p, s.windows, a.windowKeys, MarkSending(now))))
    case SendOutcome(id, phase, result, sentAt, error, now) =>
      if id !in s.attempts then None
      else
        var a := s.attempts[id];
        Some(s.(attempts := s.attempts[id := NotedAttempt(a, phase, sentAt, error)],
             ledger := NotedLedger(s.ledger, a.cycleIds, result),
             windows := Touched(p, s.windows, a.windowKeys, MarkOutcome(phase, a.suppressUntil, now))))
    case VerifyAttempt(id, ws, now) =>
      if id !in s.attempts then Some(s)
      else
        var a := s.attempts[id];
        Some(s.(attempts := s.attempts[id := a.(phase := Completed)],
             windows := Touched(p, s.windows, a.windowKeys, Verify(ByBucket(ws), now))))
    case DropPrepared(id, now) =>
      if id !in s.attempts then Some(s)
      else
        Some(s.(attempts := s.attempts - {id},
             windows := Touched(p, s.windows, s.attempts[id].windowKeys, Requeue(now))))
  }

  /** Store.Update: the closure's result with the next sequence number. */
  function Stamp(s: PersistentState): PersistentState {
    s.(sequence := s.sequence + 1)
  }
}
