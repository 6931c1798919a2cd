/**
 How far apart, and hence how many, the sends for one window are. What decides it is the verification read: one that
 confirms with the reset moved, but not past the skew, gives the window a baseline too close to the cycle just spent.
 */
module Spacing {
  import opened Wrappers
  import opened Model
  import opened Adapters
  import opened Transactions
  import opened StateInvariant
  import opened Preservation
  import opened Files
  import opened Durability
  import opened Machine
  import opened Safety
  import opened Lifecycle

  // ----- the cycles fenced for one window -----

  ghost predicate Apart(p: Params, c: CycleId, d: CycleId) {
    AbsDuration(c.resetAt - d.resetAt) > p.cfg.skew
  }

  /** The cycle is the window's present one, or is behind the baseline by more than the skew. */
  ghost predicate Behind(p: Params, c: CycleId, b: Baseline) {
    c.resetAt == b.resetAt || c.resetAt + p.cfg.skew < b.resetAt
  }

  ghost predicate SpacedAt(p: Params, k: WindowKey, s: PersistentState) {
    && (forall c :: c in s.ledger && c.Window() == k ==> k in s.windows && Behind(p, c, s.windows[k].baseline))
    && (forall c, d :: c in s.ledger && d in s.ledger && c != d && c.Window() == k && d.Window() == k ==>
                         Apart(p, c, d))
  }

  // ----- tidy verifications -----

  /** If the transaction confirms window `k`, the reset it read is the baseline's or past the skew. */
  ghost predicate VerifiesTidily(p: Params, s: PersistentState, tx: Tx, k: WindowKey) {
    tx.VerifyAttempt? && k in s.windows && MayMoveBaseline(p, s, tx, k) ==>
      TidyReset(s.windows[k].baseline, ByBucket(tx.windows)[k.bucketId], p.cfg.skew)
  }

  /** All verifications of the window that the run made, or tried to make, are tidy. */
  ghost predicate TidyRun(p: Params, run: seq<Event>, k: WindowKey) {
    forall i :: 0 <= i < |run| && run[i].Committed? && IsRun(p, run[..i]) ==>
                  VerifiesTidily(p, Exec(p, run[..i]).value.mem, run[i].tx, k)
  }

  /** Under an adapter whose confirmations are all tidy, every run is. */
  lemma TidyAdapterRuns(p: Params, run: seq<Event>, k: WindowKey)
    requires p.For(k.instance).Tidy(p.cfg.skew)
    ensures TidyRun(p, run, k)
  {
  }

  /** So is every run of Antigravity's, whose confirmations pass its own two minutes, when the skew is within them. */
  lemma AntigravityRunsAreTidy(p: Params, run: seq<Event>, k: WindowKey)
    requires p.For(k.instance) == ANTIGRAVITY && p.cfg.skew <= 2 * MINUTE
    ensures TidyRun(p, run, k)
  {
    AntigravityTidyIff(p.cfg.skew);
    TidyAdapterRuns(p, run, k);
  }

  // ----- one transaction -----

  /** Only the fence adds to the ledger, and then the present baselines of its windows. */
  lemma FencesPresentCycles(p: Params, s: PersistentState, tx: Tx, c: CycleId)
    requires StateInv(p, s) && Enabled(s, tx) && Apply(p, s, tx).Some?
    requires c in NextState(p, s, tx).ledger && c !in s.ledger
    ensures tx.Fence? && c.Window() in s.windows && s.windows[c.Window()].baseline.cycleId == c
  {
    if tx.Fence? { NewCycle(s, tx.attempt, c); }
  }

  /** The baseline of an activated window stays behind nothing it was behind of before. */
  lemma BaselineKeepsBehind(p: Params, s: PersistentState, tx: Tx, k: WindowKey, c: CycleId)
    requires p.cfg.Valid() && StateInv(p, s) && Enabled(s, tx) && Apply(p, s, tx).Some? && VerifiesTidily(p, s, tx, k)
    requires k in s.windows && s.windows[k].lastActivation != ZERO_TIME && Behind(p, c, s.windows[k].baseline)
    ensures k in NextState(p, s, tx).windows && Behind(p, c, NextState(p, s, tx).windows[k].baseline)
  {
    BaselineMovesOnlyBy(p, s, tx, k);
  }

  lemma FencedStaysBehind(p: Params, s: PersistentState, tx: Tx, k: WindowKey, c: CycleId)
    requires p.cfg.Valid() && StateInv(p, s) && Enabled(s, tx) && Apply(p, s, tx).Some? && VerifiesTidily(p, s, tx, k)
    requires SpacedAt(p, k, s) && c in NextState(p, s, tx).ledger && c.Window() == k
    ensures k in s.windows && Behind(p, c, s.windows[k].baseline)
    ensures c !in s.ledger ==> c.resetAt == s.windows[k].baseline.resetAt
    ensures k in NextState(p, s, tx).windows && Behind(p, c, NextState(p, s, tx).windows[k].baseline)
  {
    if c in s.ledger {
      BaselineKeepsBehind(p, s, tx, k, c);
    } else {
      FencesPresentCycles(p, s, tx, c);
      BaselineMovesOnlyBy(p, s, tx, k);
      assert WindowOk(k, s.windows[k]);
    }
  }

  lemma TransactionKeepsSpacing(p: Params, s: PersistentState, tx: Tx, k: WindowKey)
    requires p.cfg.Valid() && StateInv(p, s) && Enabled(s, tx) && Apply(p, s, tx).Some? && VerifiesTidily(p, s, tx, k)
    requires SpacedAt(p, k, s)
    ensures SpacedAt(p, k, NextState(p, s, tx))
  {
    var t := NextState(p, s, tx);
    forall c | c in t.ledger && c.Window() == k
      ensures k in s.windows && Behind(p, c, s.windows[k].baseline)
              && (c !in s.ledger ==> c.resetAt == s.windows[k].baseline.resetAt)
      ensures k in t.windows && Behind(p, c, t.windows[k].baseline)
    {
      FencedStaysBehind(p, s, tx, k, c);
    }
  }

  // ----- along a run -----

  /** From a good, spaced state only good, spaced states. */
  ghost function StaysSpaced(p: Params, k: WindowKey): Relation {
    (a: PersistentState, b: PersistentState) =>
      a.sequence <= b.sequence && (StateInv(p, a) && SpacedAt(p, k, a) ==> StateInv(p, b) && SpacedAt(p, k, b))
  }

  ghost predicate SpacedWorld(p: Params, k: WindowKey, w: World) {
    Follows(StaysSpaced(p, k), w) && StateInv(p, w.acked) && SpacedAt(p, k, w.acked)
  }

  lemma StaysSpacedIsPreorder(p: Params, k: WindowKey)
    ensures Preorder(StaysSpaced(p, k))
  {
  }

  lemma InitIsSpaced(p: Params, k: WindowKey)
    ensures SpacedWorld(p, k, Init())
  {
    StaysSpacedIsPreorder(p, k);
    InitFollows(StaysSpaced(p, k));
    EmptyStateInv(p);
  }

  lemma {:induction false} TidyRunsAreSpaced(p: Params, run: seq<Event>, k: WindowKey)
    requires p.cfg.Valid() && IsRun(p, run) && TidyRun(p, run, k)
    ensures SpacedWorld(p, k, Exec(p, run).value)
  {
    if run == [] {
      InitIsSpaced(p, k);
    } else {
      var init, e := run[..|run| - 1], run[|run| - 1];
      assert run == init + [e];
      PrefixIsTidy(p, run, k);
      TidyRunsAreSpaced(p, init, k);
      StepStaysSpaced(p, init, e, k);
    }
  }

  lemma PrefixIsTidy(p: Params, run: seq<Event>, k: WindowKey)
    requires run != [] && TidyRun(p, run, k)
    ensures TidyRun(p, run[..|run| - 1], k)
  {
    var init := run[..|run| - 1];
    forall i | 0 <= i < |init| && init[i].Committed? && IsRun(p, init[..i])
      ensures VerifiesTidily(p, Exec(p, init[..i]).value.mem, init[i].tx, k)
    {
      assert init[..i] == run[..i];
    }
  }

  lemma CommitStaysSpaced(p: Params, w: World, e: Event, k: WindowKey)
    requires p.cfg.Valid() && Step(p, w, e).Some? && e.Committed? && VerifiesTidily(p, w.mem, e.tx, k)
    ensures Descends(StaysSpaced(p, k), p, w, e)
  {
    StampsNext(p, w.mem, e.tx);
    if StateInv(p, w.mem) && SpacedAt(p, k, w.mem) {
      TransactionKeepsSpacing(p, w.mem, e.tx, k);
      ApplyPreserves(p, w.mem, e.tx);
    }
  }

  lemma StepStaysSpaced(p: Params, init: seq<Event>, e: Event, k: WindowKey)
    requires p.cfg.Valid() && IsRun(p, init + [e]) && TidyRun(p, init + [e], k) && IsRun(p, init)
    requires SpacedWorld(p, k, Exec(p, init).value)
    ensures SpacedWorld(p, k, Exec(p, init + [e]).value)
  {
    var w, all := Exec(p, init).value, init + [e];
    assert all[..|init|] == init && all[|init|] == e;
    StaysSpacedIsPreorder(p, k);
    if e.Committed? {
      MemoryFollows(StaysSpaced(p, k), w);
      assert VerifiesTidily(p, w.mem, e.tx, k);
      CommitStaysSpaced(p, w, e, k);
    }
    StepFollows(StaysSpaced(p, k), p, w, e);
  }

  // ----- sends -----

  /** The event sends for the window; the cycle it covers is one of the attempt's. */
  ghost predicate SendsFor(e: Event, k: WindowKey, c: CycleId) {
    e.Dispatched? && c in e.attempt.cycleIds && c.Window() == k
  }

  /** Two sends that cover one window do so for resets more than the skew apart, if its verifications are tidy. */
  lemma SendsAreSpaced(p: Params, run: seq<Event>, i: nat, j: nat, k: WindowKey, c: CycleId, d: CycleId)
    requires p.cfg.Valid() && IsRun(p, run) && i < j < |run|
    requires TidyRun(p, run, k) && SendsFor(run[i], k, c) && SendsFor(run[j], k, d)
    ensures AbsDuration(c.resetAt - d.resetAt) > p.cfg.skew
  {
    AtMostOnce(p, run);
    SendsAreFenced(p, run);
    TidyRunsAreSpaced(p, run, k);
    assert DisjointCycles(run[i].attempt, run[j].attempt);
    var w := Exec(p, run).value;
    assert FencedIn(w.acked, run[i].attempt) && FencedIn(w.acked, run[j].attempt);
    assert Apart(p, c, d);
  }

  /** Values more than `d` apart within [lo, hi] take up d for each one after the first. */
  lemma {:induction false} Packing(s: set<nat>, f: nat -> int, lo: int, hi: int, d: int)
    requires d > 0 && lo <= hi
    requires forall x :: x in s ==> lo <= f(x) <= hi
    requires forall x, y :: x in s && y in s && x != y ==> AbsDuration(f(x) - f(y)) > d
    ensures (|s| - 1) * d <= hi - lo
    decreases |s|
  {
    if |s| > 1 {
      var top := Topmost(s, f);
      var rest := s - {top};
      assert |rest| == |s| - 1;
      var y :| y in rest;
      forall x | x in rest ensures f(x) <= f(top) - d - 1 {
        assert AbsDuration(f(x) - f(top)) > d;
      }
      Packing(rest, f, lo, f(top) - d - 1, d);
      assert (|s| - 1) * d == (|rest| - 1) * d + d;
    }
  }

  lemma AtMostQuotient(n: int, d: int, room: int)
    requires d > 0 && n * d <= room
    ensures n <= room / d
  {
    var r := room / d;
    assert room == d * r + room % d && room % d < d;
    if n > r {
      MonotoneTimes(r + 1, n, d);
      assert false;
    }
  }

  lemma MonotoneTimes(m: int, n: int, d: int)
    requires m <= n && d > 0
    ensures m * d <= n * d
  {
    assert n * d == m * d + (n - m) * d;
  }

  lemma {:induction false} Topmost(s: set<nat>, f: nat -> int) returns (top: nat)
    requires s != {}
    ensures top in s && forall x :: x in s ==> f(x) <= f(top)
    decreases |s|
  {
    top :| top in s;
    var rest := s - {top};
    if rest != {} {
      var t := Topmost(rest, f);
      assert forall x :: x in s ==> x == top || x in rest;
      if f(top) < f(t) { top := t; }
    }
  }

  /** Positions of the run at which the window is sent for, given the cycle each such send covers. */
  ghost predicate Covering(run: seq<Event>, k: WindowKey, sends: set<nat>, cycle: nat -> CycleId) {
    forall i :: i in sends ==> i < |run| && SendsFor(run[i], k, cycle(i))
  }

  /** With every reset sent for within [lo, hi], a window is sent for at most (hi - lo) / skew + 1 times. */
  lemma SendCountBound(p: Params, run: seq<Event>, k: WindowKey, sends: set<nat>, cycle: nat -> CycleId, lo: Time,
                       hi: Time)
    requires p.cfg.Valid() && IsRun(p, run) && TidyRun(p, run, k) && lo <= hi
    requires Covering(run, k, sends, cycle)
    requires forall i :: i in sends ==> lo <= cycle(i).resetAt <= hi
    ensures |sends| <= (hi - lo) / p.cfg.skew + 1
  {
    forall i, j | i in sends && j in sends
                  && i != j ensures AbsDuration(cycle(i).resetAt - cycle(j).resetAt) > p.cfg.skew {
      if i < j {
        SendsAreSpaced(p, run, i, j, k, cycle(i), cycle(j));
      } else {
        SendsAreSpaced(p, run, j, i, k, cycle(j), cycle(i));
      }
    }
    Packing(sends, (i: nat) => cycle(i).resetAt, lo, hi, p.cfg.skew);
    AtMostQuotient(|sends| - 1, p.cfg.skew, hi - lo);
  }
}
