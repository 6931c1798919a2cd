/** The service of cmd/plugin/runtime.go: when it wakes, what it does for each credential, and whole lives of it. */
module RuntimeModule {
  import opened Wrappers
  import opened Model
  import opened Adapters
  import opened Transactions
  import opened Files
  import opened Machine
  import opened Safety
  import opened Effects
  import opened Steps
  import opened Traces
  import opened StoreModule
  import opened ControllerModule

  // ----- when to wake -----

  /** The scheduler looks at the window: it has a time, and its state is not one that waits for the user. */
  predicate Awaited(x: WindowRecord) {
    x.nextCheck != ZERO_TIME && x.state != Disabled && x.state != AuthBlocked && x.state != Unsupported
  }

  /** How long until the window is due, but never less than a second. */
  function Wait(x: WindowRecord, now: Time): Duration {
    if x.nextCheck - now < SECOND then SECOND else x.nextCheck - now
  }

  function LongestWait(interval: Duration): Duration {
    if interval <= 0 then 30 * MINUTE else interval
  }

  /** The least of the longest wait and the awaited windows' waits. */
  ghost predicate LeastWait(interval: Duration, windows: map<WindowKey, WindowRecord>, now: Time, d: Duration) {
    && d <= LongestWait(interval)
    && (forall k :: k in windows && Awaited(windows[k]) ==> d <= Wait(windows[k], now))
    && (d == LongestWait(interval) || exists k :: k in windows && Awaited(windows[k]) && d == Wait(windows[k], now))
  }

  /** There is one such delay, so the order in which the map is walked cannot matter. */
  lemma LeastWaitUnique(interval: Duration, windows: map<WindowKey, WindowRecord>, now: Time, d: Duration, e: Duration)
    requires LeastWait(interval, windows, now, d) && LeastWait(interval, windows, now, e)
    ensures d == e
  {
  }

  /** nextDelay, over a map walked in any order. */
  method NextDelay(interval: Duration, windows: map<WindowKey, WindowRecord>, now: Time) returns (delay: Duration)
    ensures LeastWait(interval, windows, now, delay)
    ensures delay > 0
  {
    delay := interval;
    if delay <= 0 { delay := 30 * MINUTE; }
    var todo := windows.Keys;
    while todo != {}
      invariant todo <= windows.Keys && 0 < delay <= LongestWait(interval)
      invariant forall k :: k in windows && k !in todo && Awaited(windows[k]) ==> delay <= Wait(windows[k], now)
      invariant delay == LongestWait(interval) || exists k ::
                  && k in windows && Awaited(windows[k])
                  && delay == Wait(windows[k], now)
      decreases |todo|
    {
      var k :| k in todo;
      todo := todo - {k};
      var x := windows[k];
      if x.nextCheck == ZERO_TIME || x.state == Disabled || x.state == AuthBlocked
         || x.state == Unsupported { continue; }
      var candidate := x.nextCheck - now;
      if candidate < SECOND { candidate := SECOND; }
      if candidate < delay { delay := candidate; }
    }
  }

  // ----- one round over the credentials -----

  datatype ServiceConfig = ServiceConfig(interval: Duration, active: set<string>, disabled: set<string>)

  /** What the host and the adapter answer for a credential when its turn comes; no credential if it cannot be read. */
  datatype Answers = Answers(cancelled: bool, cred: Option<Credential>, proxied: bool, matches: bool,
                             fingerprint: Option<string>)

  /** What the host lists of a credential, with the adapter the registry matches it to and the answers to come. */
  datatype Summary = Summary(cred: Credential, runtimeOnly: bool, adapterId: Option<string>, answers: Answers)

  /** Where the goroutine of one credential stands between its calls into the controller. */
  datatype Stage = Starting | Recovered(cred: Credential, matches: bool, fingerprint: Option<string>) | Over {
    function Left(): nat {
      match this
      case Starting => 2
      case Recovered(_, _, _) => 1
      case Over => 0
    }
  }

  datatype Job = Job(summary: Summary, adapterId: string, stage: Stage)

  /** A credential runOnce works on: an adapter matches it and its provider is set to activate. */
  predicate Eligible(cfg: ServiceConfig, s: Summary) {
    s.adapterId.Some? && s.adapterId.value in cfg.active
  }

  /** The user's list of disabled credentials overrides the host's view. */
  function Effective(cfg: ServiceConfig, s: Summary): Summary {
    if s.cred.authId in cfg.disabled then s.(cred := s.cred.(disabled := true)) else s
  }

  function Work(jobs: seq<Job>): nat {
    if jobs == [] then 0 else Work(jobs[..|jobs| - 1]) + jobs[|jobs| - 1].stage.Left()
  }

  lemma {:induction false} WorkDrops(jobs: seq<Job>, i: nat, job: Job)
    requires i < |jobs| && job.stage.Left() < jobs[i].stage.Left()
    ensures Work(jobs[i := job]) < Work(jobs)
  {
    var next, n := jobs[i := job], |jobs| - 1;
    if i == n {
      assert next[..n] == jobs[..n];
    } else {
      WorkDrops(jobs[..n], i, job);
      assert next[..n] == jobs[..n][i := job];
    }
  }

  lemma {:induction false} WorkOf(jobs: seq<Job>, i: nat)
    requires i < |jobs| && jobs[i].stage != Over
    ensures Work(jobs) > 0
  {
    if i < |jobs| - 1 { WorkOf(jobs[..|jobs| - 1], i); }
  }

  lemma {:induction false} WorkLeft(jobs: seq<Job>)
    requires Work(jobs) > 0
    ensures exists i :: 0 <= i < |jobs| && jobs[i].stage != Over
  {
    var n := |jobs| - 1;
    if jobs[n].stage == Over {
      WorkLeft(jobs[..n]);
      var i :| 0 <= i < n && jobs[..n][i].stage != Over;
      assert jobs[i].stage != Over;
    }
  }

  class Service {
    const cfg: ServiceConfig
    const controller: Controller

    constructor (cfg: ServiceConfig, controller: Controller)
      ensures this.cfg == cfg && this.controller == controller
    {
      this.cfg, this.controller := cfg, controller;
    }

    static function RecoverCall(adapterId: string, stage: Stage): Call
      requires stage.Recovered?
    {
      Recovering(stage.cred, Controller.Identity(stage.cred, adapterId, stage.fingerprint))
    }

    /** The Tick a job past its recovery makes, for this part of the run. */
    static function TickCall(adapterId: string, stage: Stage, from: nat, to: nat): Call
      requires stage.Recovered?
    {
      Ticking(stage.cred, Controller.TickIdentity(stage.cred, adapterId, stage.matches, stage.fingerprint), from, to)
    }

    /** Where the first call for a credential leads: on only to its Tick, after Recover. */
    static function AfterBegin(job: Job): Stage {
      var answers := job.summary.answers;
      if answers.cancelled || job.summary.cred.disabled || job.summary.runtimeOnly || answers.cred.None?
         || answers.proxied
      then Over
      else Recovered(answers.cred.value, answers.matches, answers.fingerprint)
    }

    /** The call it makes, if any, from run length `from` to `to`. */
    static function BeginCalls(job: Job, from: nat, to: nat): seq<Call> {
      var answers := job.summary.answers;
      if answers.cancelled then []
      else if job.summary.cred.disabled then [Ticking(job.summary.cred, None, from, to)]
      else if job.summary.runtimeOnly then [Blocking(job.summary.cred)]
      else if answers.cred.None? then []
      else if answers.proxied then [Blocking(answers.cred.value)]
      else [RecoverCall(job.adapterId, AfterBegin(job))]
    }

    /** The first call for a credential: it never sends. */
    method Begin(job: Job) returns (next: Job, dead: bool)
      requires controller.Up() && job.stage == Starting
      modifies controller`run, controller`world, controller`calls, controller.store`state, controller.store.disk`files
      ensures controller.Tracked() && (dead <==> controller.world.pc == Down)
      ensures next == job.(stage := AfterBegin(job)) && Quiet(old(controller.run), controller.run)
      ensures controller.calls == old(controller.calls)
                                  + BeginCalls(job, |old(controller.run)|, |controller.run|)
    {
      next := job.(stage := Over);
      var exit, answers := Nil, job.summary.answers;
      if answers.cancelled {
        // The context ended before the credential had its turn.
      } else if job.summary.cred.disabled {
        exit := controller.Tick(job.summary.cred, job.adapterId, answers.matches, answers.fingerprint);
      } else if job.summary.runtimeOnly {
        exit := controller.BlockCredential(job.summary.cred, Reason("runtime-only credential cannot be read safely"));
      } else if answers.cred.None? {
        // The credential cannot be read.
      } else if answers.proxied {
        exit := controller.BlockCredential(answers.cred.value,
                                           Reason("per-credential proxy is unsupported by host.http.do"));
      } else {
        exit := controller.Recover(answers.cred.value, job.adapterId, answers.fingerprint);
        next := job.(stage := Recovered(answers.cred.value, answers.matches, answers.fingerprint));
      }
      dead := exit == Died;
    }

    /**
     One call into the controller by one credential's goroutine. Recover comes before Tick, and Tick follows
     whether or not Recover failed; only that Tick may send.
     */
    method Advance(job: Job) returns (next: Job, dead: bool)
      requires controller.Up() && job.stage != Over
      modifies controller`run, controller`world, controller`calls, controller.store`state, controller.store.disk`files
      ensures controller.Tracked() && (dead <==> controller.world.pc == Down)
      ensures next == job.(stage := if job.stage == Starting then AfterBegin(job) else Over)
      ensures old(controller.run) <= controller.run
      ensures controller.p.cfg.dryRun ==> Quiet(old(controller.run), controller.run)
      ensures controller.calls == old(controller.calls)
                                  + if job.stage == Starting
                                  then BeginCalls(job, |old(controller.run)|, |controller.run|)
                                  else [TickCall(job.adapterId, job.stage, |old(controller.run)|, |controller.run|)]
      ensures var instance :=
                if job.stage == Starting then None
                else Controller.TickIdentity(job.stage.cred, job.adapterId, job.stage.matches, job.stage.fingerprint);
              if instance.None? then Quiet(old(controller.run), controller.run)
              else TickTrace(controller.p, old(controller.run), controller.run, job.stage.cred, instance.value)
    {
      if job.stage == Starting {
        next, dead := Begin(job);
      } else {
        var exit := controller.Tick(job.stage.cred, job.adapterId, job.stage.matches, job.stage.fingerprint);
        next, dead := job.(stage := Over), exit == Died;
      }
    }

    function JobOf(s: Summary): Job
      requires Eligible(cfg, s)
    {
      Job(Effective(cfg, s), s.adapterId.value, Starting)
    }

    /** The jobs runOnce starts: one for each eligible credential and no others. */
    method Jobs(summaries: seq<Summary>) returns (jobs: seq<Job>)
      ensures forall s :: s in summaries && Eligible(cfg, s) ==> JobOf(s) in jobs
      ensures forall j :: j in jobs ==> exists s :: s in summaries && Eligible(cfg, s) && j == JobOf(s)
    {
      jobs := [];
      for i := 0 to |summaries|
        invariant forall s :: s in summaries[..i] && Eligible(cfg, s) ==> JobOf(s) in jobs
        invariant forall j :: j in jobs ==> exists s :: s in summaries && Eligible(cfg, s) && j == JobOf(s)
      {
        var s := summaries[i];
        assert summaries[..i + 1] == summaries[..i] + [s];
        if s.adapterId.None? || s.adapterId.value !in cfg.active { continue; }
        if s.cred.authId in cfg.disabled { s := s.(cred := s.cred.(disabled := true)); }
        jobs := jobs + [Job(s, s.adapterId.value, Starting)];
        assert jobs[|jobs| - 1] == JobOf(summaries[i]);
      }
      assert summaries[..|summaries|] == summaries;
    }

    /** The job's first call, if it has one, was made since call `start`. */
    static ghost predicate HadTurn(job: Job, calls: seq<Call>, start: nat) {
      start <= |calls| && exists from, to :: forall c :: c in BeginCalls(job, from, to) ==> c in calls[start..]
    }

    /** Each of the jobs the round began with is as it was, or has had its turn. */
    static ghost predicate AllBegun(first: seq<Job>, jobs: seq<Job>, calls: seq<Call>, start: nat) {
      |jobs| == |first| && forall i :: 0 <= i < |jobs| ==> jobs[i] == first[i] || HadTurn(first[i], calls, start)
    }

    static lemma StillBegun(first: seq<Job>, jobs: seq<Job>, i: nat, next: Job, calls: seq<Call>, more: seq<Call>,
                            start: nat, from: nat, to: nat)
      requires AllBegun(first, jobs, calls, start) && calls <= more && start <= |calls| && i < |jobs|
      requires forall j :: 0 <= j < |first| ==> first[j].stage == Starting
      requires jobs[i].stage == Starting ==> more == calls + BeginCalls(jobs[i], from, to)
      ensures AllBegun(first, jobs[i := next], more, start)
    {
      assert more[start..] == calls[start..] + more[|calls|..];
      forall j | 0 <= j < |jobs| ensures jobs[i := next][j] == first[j] || HadTurn(first[j], more, start) {
        if HadTurn(first[j], calls, start) {
          var f, t :| forall c :: c in BeginCalls(first[j], f, t) ==> c in calls[start..];
          assert forall c :: c in BeginCalls(first[j], f, t) ==> c in more[start..];
        } else if j == i {
          assert forall c :: c in BeginCalls(first[j], from, to) ==> c in more[start..];
        }
      }
    }

    /** In the middle of a round begun at call `start` and run `r`. */
    ghost predicate InRound(first: seq<Job>, jobs: seq<Job>, start: nat, r: seq<Event>)
      reads controller, controller.store, controller.store.disk
    {
      && controller.Up() && start <= |controller.calls|
      && RoundTrace(controller.p, controller.calls, start, r, controller.run)
      && (controller.p.cfg.dryRun ==> Quiet(r, controller.run))
      && AllRecovered(jobs, controller.calls, start)
      && AllFollowed(jobs, controller.calls, start)
      && AllBegun(first, jobs, controller.calls, start) && (forall i :: 0 <= i < |first| ==> first[i].stage == Starting)
    }

    /** One goroutine's turn. */
    method Turn(ghost first: seq<Job>, jobs: seq<Job>, ghost start: nat, ghost r: seq<Event>)
      returns (rest: seq<Job>, dead: bool)
      requires InRound(first, jobs, start, r) && Work(jobs) > 0
      modifies controller`run, controller`world, controller`calls, controller.store`state, controller.store.disk`files
      ensures controller.Tracked() && (dead <==> controller.world.pc == Down)
      ensures old(controller.calls) <= controller.calls
      ensures RoundTrace(controller.p, controller.calls, start, r, controller.run)
      ensures controller.p.cfg.dryRun ==> Quiet(r, controller.run)
      ensures !dead ==> InRound(first, rest, start, r) && Work(rest) < Work(jobs)
    {
      ghost var p, t, calls := controller.p, controller.run, controller.calls;
      WorkLeft(jobs);
      var i :| 0 <= i < |jobs| && jobs[i].stage != Over;
      var next;
      next, dead := Advance(jobs[i]);
      rest := jobs[i := next];
      RoundGrows(p, calls, controller.calls, start, r, t, controller.run);
      if p.cfg.dryRun { QuietTransitive(r, t, controller.run); }
      WorkDrops(jobs, i, next);
      TurnKeeps(first, jobs, i, next, calls, controller.calls, start, |t|, |controller.run|);
    }

    static lemma TurnKeeps(first: seq<Job>, jobs: seq<Job>, i: nat, next: Job, calls: seq<Call>, more: seq<Call>,
                           start: nat, from: nat, to: nat)
      requires start <= |calls| && i < |jobs| && jobs[i].stage != Over
      requires next == jobs[i].(stage := if jobs[i].stage == Starting then AfterBegin(jobs[i]) else Over)
      requires more == calls + if jobs[i].stage == Starting then BeginCalls(jobs[i], from, to)
                       else [TickCall(jobs[i].adapterId, jobs[i].stage, from, to)]
      requires AllRecovered(jobs, calls, start) && AllFollowed(jobs, calls, start)
      requires AllBegun(first, jobs, calls, start) && forall j :: 0 <= j < |first| ==> first[j].stage == Starting
      ensures AllRecovered(jobs[i := next], more, start) && AllFollowed(jobs[i := next], more, start)
      ensures AllBegun(first, jobs[i := next], more, start)
    {
      StillRecovered(jobs, i, next, calls, more, start);
      StillOwed(jobs, i, next, calls, more, start);
      StillBegun(first, jobs, i, next, calls, more, start, from, to);
    }

    /**
     runOnce: the goroutines' calls, each under the controller's mutex, in any interleaving. Every send of the round
     lies in the Tick of an instance that was recovered earlier in the same round; every eligible credential has its
     turn, and every recovery its Tick.
     */
    method RunOnce(summaries: seq<Summary>) returns (dead: bool)
      requires controller.Up()
      modifies controller`run, controller`world, controller`calls, controller.store`state, controller.store.disk`files
      ensures controller.Tracked() && (dead <==> controller.world.pc == Down)
      ensures old(controller.calls) <= controller.calls
      ensures RoundTrace(controller.p, controller.calls, |old(controller.calls)|, old(controller.run), controller.run)
      ensures !dead ==>
                forall s :: s in summaries && Eligible(cfg, s) ==>
                              HadTurn(JobOf(s), controller.calls, |old(controller.calls)|)
      ensures !dead ==> forall n :: |old(controller.calls)| <= n < |controller.calls| ==> Followed(controller.calls, n)
      ensures controller.p.cfg.dryRun ==> Quiet(old(controller.run), controller.run)
    {
      ghost var r, start := controller.run, |controller.calls|;
      var jobs := Jobs(summaries);
      ghost var first := jobs;
      assert forall i :: 0 <= i < |jobs| ==> jobs[i] in jobs;
      dead := false;
      while Work(jobs) > 0
        invariant InRound(first, jobs, start, r) && old(controller.calls) <= controller.calls
        decreases Work(jobs)
      {
        jobs, dead := Turn(first, jobs, start, r);
        if dead { return; }
      }
      forall s | s in summaries && Eligible(cfg, s) ensures HadTurn(JobOf(s), controller.calls, start) {
        var i :| 0 <= i < |first| && first[i] == JobOf(s);
        if jobs[i].stage != Over { WorkOf(jobs, i); }
      }
      NoneOwed(jobs, controller.calls, start);
    }

    static lemma NoneOwed(jobs: seq<Job>, calls: seq<Call>, start: nat)
      requires Work(jobs) == 0
      requires AllFollowed(jobs, calls, start)
      ensures forall n :: start <= n < |calls| ==> Followed(calls, n)
    {
      forall n | start <= n < |calls| ensures Followed(calls, n) {
        if Owed(jobs, calls[n]) {
          var i :| 0 <= i < |jobs| && Owes(jobs[i], calls[n]);
          WorkOf(jobs, i);
        }
      }
    }

    /** A recovery is followed by a Tick of the same credential. */
    static ghost predicate Followed(calls: seq<Call>, n: nat)
      requires n < |calls|
    {
      calls[n].Recovering? ==> exists m :: n < m < |calls| && calls[m].Ticking? && calls[m].cred == calls[n].cred
    }

    static ghost predicate Owes(job: Job, call: Call) {
      call.Recovering? && job.stage.Recovered? && job.stage.cred == call.cred
    }

    /** Or that Tick is still to come. */
    static ghost predicate Owed(jobs: seq<Job>, call: Call) {
      exists i :: 0 <= i < |jobs| && Owes(jobs[i], call)
    }

    static ghost predicate AllFollowed(jobs: seq<Job>, calls: seq<Call>, start: nat) {
      forall n :: start <= n < |calls| ==> Followed(calls, n) || Owed(jobs, calls[n])
    }

    /** A call that makes the Tick that was owed, or owes one of its own. */
    static lemma StillOwed(jobs: seq<Job>, i: nat, next: Job, calls: seq<Call>, more: seq<Call>, start: nat)
      requires start <= |calls| && calls <= more && i < |jobs|
      requires AllFollowed(jobs, calls, start)
      requires jobs[i].stage.Recovered? ==>
                 |more| == |calls| + 1 && more[|calls|].Ticking? && more[|calls|].cred == jobs[i].stage.cred
      requires forall n :: |calls| <= n < |more| && more[n].Recovering? ==> Owes(next, more[n])
      ensures AllFollowed(jobs[i := next], more, start)
    {
      forall n | start <= n < |more| ensures Followed(more, n) || Owed(jobs[i := next], more[n]) {
        if n >= |calls| {
          assert jobs[i := next][i] == next;
        } else if Followed(calls, n) {
          assert Followed(more, n);
        } else {
          var j :| 0 <= j < |jobs| && Owes(jobs[j], calls[n]);
          if j != i { assert jobs[i := next][j] == jobs[j]; }
        }
      }
    }

    /** Each job past its recovery: that call was made since call `start`. */
    static ghost predicate AllRecovered(jobs: seq<Job>, calls: seq<Call>, start: nat) {
      && start <= |calls|
      && forall i :: 0 <= i < |jobs| && jobs[i].stage.Recovered? ==>
                       RecoverCall(jobs[i].adapterId, jobs[i].stage) in calls[start..]
    }

    static lemma StillRecovered(jobs: seq<Job>, i: nat, next: Job, calls: seq<Call>, more: seq<Call>, start: nat)
      requires calls <= more && i < |jobs| && AllRecovered(jobs, calls, start)
      requires next.stage.Recovered? ==> RecoverCall(next.adapterId, next.stage) in more[|calls|..]
      ensures AllRecovered(jobs[i := next], more, start)
    {
      assert more[start..] == calls[start..] + more[|calls|..];
    }

    /** Start's loop body: a round, and how long to sleep after it. */
    method Round(summaries: seq<Summary>) returns (dead: bool, delay: Duration)
      requires controller.Up()
      modifies controller`run, controller`world, controller`calls, controller.store`state, controller.store.disk`files
      ensures controller.Tracked() && (dead <==> controller.world.pc == Down)
      ensures old(controller.calls) <= controller.calls
      ensures RoundTrace(controller.p, controller.calls, |old(controller.calls)|, old(controller.run), controller.run)
      ensures !dead ==> exists now :: LeastWait(cfg.interval, controller.store.state.windows, now, delay)
    {
      delay := 0;
      dead := RunOnce(summaries);
      if dead { return; }
      var now := Controller.Now();
      delay := NextDelay(cfg.interval, controller.store.state.windows, now);
    }
  }

  // ----- whole lives -----

  /**
   Every cycle a run sent for was due: an earlier reconciliation found its window lazy, or past its reset and grace.
   */
  ghost predicate AllSendsDue(p: Params, run: seq<Event>) {
    forall i, m :: 0 <= i < |run| && run[i].Dispatched? && 0 <= m < |run[i].attempt.windowKeys| ==>
                     DueBefore(p, run, i, m)
  }

  ghost predicate DueBefore(p: Params, run: seq<Event>, i: nat, m: nat)
    requires i < |run| && run[i].Dispatched? && m < |run[i].attempt.windowKeys|
  {
    && m < |run[i].attempt.cycleIds|
    && exists n: nat :: n < i && WasDue(p, run, n, run[i].attempt.windowKeys[m], run[i].attempt.cycleIds[m])
  }

  lemma DueBeforeLater(p: Params, t: seq<Event>, u: seq<Event>, i: nat, m: nat)
    requires t <= u && i < |t| && t[i].Dispatched? && m < |t[i].attempt.windowKeys| && DueBefore(p, t, i, m)
    ensures u[i] == t[i] && DueBefore(p, u, i, m)
  {
    var n: nat :| n < i && WasDue(p, t, n, t[i].attempt.windowKeys[m], t[i].attempt.cycleIds[m]);
    DueLater(p, t, u, n, t[i].attempt.windowKeys[m], t[i].attempt.cycleIds[m]);
  }

  lemma QuietStaysDue(p: Params, t: seq<Event>, u: seq<Event>)
    requires AllSendsDue(p, t) && Quiet(t, u)
    ensures AllSendsDue(p, u)
  {
    forall i, m | 0 <= i < |u| && u[i].Dispatched? && 0 <= m < |u[i].attempt.windowKeys| ensures DueBefore(p, u, i, m) {
      assert i < |t| && u[i] == t[i];
      DueBeforeLater(p, t, u, i, m);
    }
  }

  lemma RoundStaysDue(p: Params, calls: seq<Call>, start: nat, t: seq<Event>, u: seq<Event>)
    requires p.cfg.Valid() && IsRun(p, u) && AllSendsDue(p, t) && RoundTrace(p, calls, start, t, u)
    ensures AllSendsDue(p, u)
  {
    forall i, m | 0 <= i < |u| && u[i].Dispatched? && 0 <= m < |u[i].attempt.windowKeys| ensures DueBefore(p, u, i, m) {
      if i < |t| {
        assert u[i] == t[i];
        DueBeforeLater(p, t, u, i, m);
      } else {
        RoundSendIsDue(p, calls, start, t, u, i, m);
      }
    }
  }

  lemma RoundSendIsDue(p: Params, calls: seq<Call>, start: nat, t: seq<Event>, u: seq<Event>, i: nat, m: nat)
    requires p.cfg.Valid() && IsRun(p, u) && RoundTrace(p, calls, start, t, u)
    requires |t| <= i < |u| && u[i].Dispatched? && m < |u[i].attempt.windowKeys|
    ensures DueBefore(p, u, i, m)
  {
    var n: nat :| InTick(p, calls, start, u, i, n);
    TickSendIsDue(p, u, calls, start, n, i, m);
  }

  lemma TickSendIsDue(p: Params, u: seq<Event>, calls: seq<Call>, start: nat, n: nat, i: nat, m: nat)
    requires p.cfg.Valid() && IsRun(p, u) && InTick(p, calls, start, u, i, n)
    requires i < |u| && u[i].Dispatched? && m < |u[i].attempt.windowKeys|
    ensures DueBefore(p, u, i, m)
  {
    var call := calls[n];
    var t := u[..call.to];
    PrefixIsRun(p, u, call.to);
    assert t[i] == u[i];
    var at := SendsWereDue(p, u[..call.from], t, call.cred, call.instance.value, i, m);
    DueLater(p, t, u, at, t[i].attempt.windowKeys[m], t[i].attempt.cycleIds[m]);
  }

  /**
   The service from an empty state directory through any number of rounds, with the process dying anywhere and
   being started again: no cycle is sent for twice, and every cycle sent for is fenced in what the disk then loads as.
   */
  method Live(raw: Config, adapters: string -> Adapter, hasSender: bool, service: ServiceConfig, rounds: nat)
    returns (c: Option<Controller>)
    requires forall i :: 0 <= i < |raw.retryDelays| ==> raw.retryDelays[i] >= 0
    ensures c.None? <==> raw.resetGrace < 0 || raw.verifyDelay < 0 || raw.suppression < 0
    ensures c.Some? ==>
              && IsRun(c.value.p, c.value.run) && AtMostOncePerCycle(c.value.run) && AllSendsDue(c.value.p, c.value.run)
              && Load(c.value.store.disk.files).Ok?
              && forall i :: 0 <= i < |c.value.run| && c.value.run[i].Dispatched? ==>
                               FencedIn(Load(c.value.store.disk.files).value, c.value.run[i].attempt)
  {
    var cfg := NewConfig(raw);
    if cfg.None? { return None; }
    var disk := new Disk(NoFiles(), false);
    var controller := new Controller(Params(cfg.value, adapters), disk, hasSender);
    var s := new Service(service, controller);
    var dead := true;
    for n := 0 to rounds
      invariant controller.Tracked() && (dead <==> controller.world.pc == Down)
      invariant AllSendsDue(controller.p, controller.run)
    {
      dead := LiveOn(s, dead);
    }
    AtMostOnce(controller.p, controller.run);
    FencesLoad(controller.p, controller.run);
    c := Some(controller);
  }

  /** Started again if it is not running, one round, and perhaps a crash. */
  method LiveOn(s: Service, down: bool) returns (dead: bool)
    requires s.controller.Tracked() && (down <==> s.controller.world.pc == Down)
    requires AllSendsDue(s.controller.p, s.controller.run)
    modifies s.controller`run, s.controller`world, s.controller`calls, s.controller.store`state,
             s.controller.store.disk`files
    ensures s.controller.Tracked() && (dead <==> s.controller.world.pc == Down)
    ensures AllSendsDue(s.controller.p, s.controller.run)
  {
    ghost var p, r := s.controller.p, s.controller.run;
    if down { s.controller.Restart(); }
    QuietStaysDue(p, r, s.controller.run);
    var summaries: seq<Summary> := *;
    ghost var t, start := s.controller.run, |s.controller.calls|;
    var delay;
    dead, delay := s.Round(summaries);
    RoundStaysDue(p, s.controller.calls, start, t, s.controller.run);
    ghost var u := s.controller.run;
    if !dead { dead := s.controller.Preempt(); }
    QuietStaysDue(p, u, s.controller.run);
  }

  lemma FencesLoad(p: Params, run: seq<Event>)
    requires p.cfg.Valid() && IsRun(p, run)
    ensures var files := Exec(p, run).value.files;
            && Load(files).Ok?
            && forall i :: 0 <= i < |run| && run[i].Dispatched? ==> FencedIn(Load(files).value, run[i].attempt)
  {
    RecoveryExtendsAcknowledged(p, run);
    forall i | 0 <= i < |run| && run[i].Dispatched?
      ensures FencedIn(Load(Exec(p, run).value.files).value, run[i].attempt)
    {
      FenceSurvives(p, run, i);
    }
  }
}
