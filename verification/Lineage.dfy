/**
 What a load after any run can give: the last acknowledged state, or one that an update made since then, and never
 acknowledged, tried to write.
 */
module Lineage {
  import opened Wrappers
  import opened Model
  import opened Transactions
  import opened StateInvariant
  import opened Preservation
  import opened Files
  import opened Durability
  import opened Machine

  /** Event `i` of the run is an update that tried to take `a` to `b`. */
  ghost predicate Tries(p: Params, run: seq<Event>, i: nat, a: PersistentState, b: PersistentState) {
    && i < |run| && IsRun(p, run[..i]) && run[i].Committed?
    && Exec(p, run[..i]).value.mem == a && Enabled(a, run[i].tx)
    && Apply(p, a, run[i].tx).Some? && b == NextState(p, a, run[i].tx)
  }

  /** Some update of the run from event `n` on tried to take `a` to `b`. */
  ghost predicate TriedSince(p: Params, run: seq<Event>, n: nat, a: PersistentState, b: PersistentState) {
    exists i :: n <= i && Tries(p, run, i, a, b)
  }

  /** Each state of the path was tried from the one before it. */
  ghost predicate Linked(p: Params, run: seq<Event>, n: nat, path: seq<PersistentState>) {
    path != [] && forall j :: 0 < j < |path| ==> TriedSince(p, run, n, path[j - 1], path[j])
  }

  ghost predicate Leads(p: Params, run: seq<Event>, n: nat, path: seq<PersistentState>, a: PersistentState,
                        b: PersistentState)
  {
    Linked(p, run, n, path) && path[0] == a && path[|path| - 1] == b
  }

  /** `b` is reached from `a` by updates that the run made from event `n` on. */
  ghost function Since(p: Params, run: seq<Event>, n: nat): Relation {
    (a: PersistentState, b: PersistentState) => exists path :: Leads(p, run, n, path, a, b)
  }

  // ----- Since is a preorder -----

  lemma {:induction false} PathRises(p: Params, run: seq<Event>, n: nat, path: seq<PersistentState>)
    requires Linked(p, run, n, path)
    ensures path[0].sequence <= path[|path| - 1].sequence
  {
    var m := |path| - 1;
    if m > 0 {
      var i :| n <= i && Tries(p, run, i, path[m - 1], path[m]);
      StampsNext(p, path[m - 1], run[i].tx);
      PathRises(p, run, n, path[..m]);
    }
  }

  lemma LinkAt(p: Params, run: seq<Event>, n: nat, path: seq<PersistentState>, j: nat)
    requires Linked(p, run, n, path) && 0 < j < |path|
    ensures TriedSince(p, run, n, path[j - 1], path[j])
  {
  }

  lemma PathsCompose(p: Params, run: seq<Event>, n: nat, first: seq<PersistentState>, second: seq<PersistentState>)
    requires Linked(p, run, n, first) && Linked(p, run, n, second) && first[|first| - 1] == second[0]
    ensures Leads(p, run, n, first + second[1..], first[0], second[|second| - 1])
  {
    var path, m := first + second[1..], |first|;
    forall j | 0 < j < |path| ensures TriedSince(p, run, n, path[j - 1], path[j]) {
      if j < m {
        LinkAt(p, run, n, first, j);
      } else {
        LinkAt(p, run, n, second, j - m + 1);
        assert path[j] == second[j - m + 1] && path[j - 1] == second[j - m];
      }
    }
  }

  lemma SinceIsPreorder(p: Params, run: seq<Event>, n: nat)
    ensures Preorder(Since(p, run, n))
  {
    var R := Since(p, run, n);
    forall a ensures R(a, a) { assert Leads(p, run, n, [a], a, a); }
    forall a, b, c | R(a, b) && R(b, c) ensures R(a, c) {
      var first :| Leads(p, run, n, first, a, b);
      var second :| Leads(p, run, n, second, b, c);
      PathsCompose(p, run, n, first, second);
    }
    forall a, b | R(a, b) ensures a.sequence <= b.sequence {
      var path :| Leads(p, run, n, path, a, b);
      PathRises(p, run, n, path);
    }
  }

  // ----- along a run -----

  /** One past the last acknowledged commit. */
  ghost function LastAck(run: seq<Event>): (n: nat)
    ensures n <= |run|
  {
    if run == [] then 0
    else if run[|run| - 1].Committed? && run[|run| - 1].fault.Acknowledged? then |run|
    else LastAck(run[..|run| - 1])
  }

  /** Since then nothing was acknowledged. */
  lemma {:induction false} NoneAcknowledgedSince(run: seq<Event>, i: nat)
    requires LastAck(run) <= i < |run| && run[i].Committed?
    ensures !run[i].fault.Acknowledged?
  {
    if i < |run| - 1 { NoneAcknowledgedSince(run[..|run| - 1], i); }
  }

  lemma TriesLater(p: Params, run: seq<Event>, e: Event, i: nat, a: PersistentState, b: PersistentState)
    requires Tries(p, run, i, a, b)
    ensures Tries(p, run + [e], i, a, b)
  {
    assert (run + [e])[..i] == run[..i];
  }

  lemma SinceGrows(p: Params, run: seq<Event>, e: Event, n: nat, a: PersistentState, b: PersistentState)
    requires Since(p, run, n)(a, b)
    ensures Since(p, run + [e], n)(a, b)
  {
    var path :| Leads(p, run, n, path, a, b);
    forall j | 0 < j < |path| ensures TriedSince(p, run + [e], n, path[j - 1], path[j]) {
      var i :| n <= i && Tries(p, run, i, path[j - 1], path[j]);
      TriesLater(p, run, e, i, path[j - 1], path[j]);
    }
    assert Leads(p, run + [e], n, path, a, b);
  }

  lemma FollowsMore(R: Relation, S: Relation, w: World)
    requires Follows(R, w) && forall a, b :: R(a, b) ==> S(a, b)
    ensures Follows(S, w)
  {
  }

  /** The last event of a run, if a commit, is itself a step of the relation. */
  lemma LastIsTried(p: Params, run: seq<Event>, e: Event, n: nat)
    requires IsRun(p, run) && Step(p, Exec(p, run).value, e).Some? && n <= |run|
    ensures Descends(Since(p, run + [e], n), p, Exec(p, run).value, e)
  {
    if e.Committed? {
      var s := Exec(p, run).value.mem;
      var t := NextState(p, s, e.tx);
      assert (run + [e])[..|run|] == run;
      assert Tries(p, run + [e], |run|, s, t);
      assert TriedSince(p, run + [e], n, s, t);
      assert Leads(p, run + [e], n, [s, t], s, t);
    }
  }

  /** After an acknowledged commit nothing on disk can be above the state in memory, whatever the relation. */
  lemma FollowsAfresh(R: Relation, S: Relation, p: Params, w: World, tx: Tx, removed: bool)
    requires Preorder(R) && Preorder(S) && Follows(R, w) && CommitStep(p, w, tx, Acknowledged(removed)).Some?
    requires R(w.mem, NextState(p, w.mem, tx))
    ensures Follows(S, CommitStep(p, w, tx, Acknowledged(removed)).value)
  {
    var next := NextState(p, w.mem, tx);
    StampsNext(p, w.mem, tx);
    AcknowledgedIsTop(R, S, w.files, w.mem, next, removed);
    assert S(next, next);
  }

  /** Memory and disk hold nothing but the acknowledged state and what has been tried since. */
  lemma {:induction false} RunFollows(p: Params, run: seq<Event>)
    requires IsRun(p, run)
    ensures Follows(Since(p, run, LastAck(run)), Exec(p, run).value)
  {
    SinceIsPreorder(p, run, LastAck(run));
    if run == [] {
      InitFollows(Since(p, run, 0));
    } else {
      var init, e := run[..|run| - 1], run[|run| - 1];
      assert run == init + [e];
      var n, w := LastAck(init), Exec(p, init).value;
      var R, S := Since(p, init, n), Since(p, run, n);
      RunFollows(p, init);
      SinceIsPreorder(p, run, n);
      forall a, b | R(a, b) ensures S(a, b) { SinceGrows(p, init, e, n, a, b); }
      FollowsMore(R, S, w);
      LastIsTried(p, init, e, n);
      if e.Committed? && e.fault.Acknowledged? {
        FollowsAfresh(S, Since(p, run, |run|), p, w, e.tx, e.fault.walRemoved);
      } else {
        StepFollows(S, p, w, e);
      }
    }
  }

  // ----- what load gives -----

  /**
   Event `i` is an update, made since the last acknowledged one and not acknowledged itself, that tried to write `x`.
   */
  ghost predicate TriedToWrite(p: Params, run: seq<Event>, i: nat, x: PersistentState) {
    && LastAck(run) <= i < |run| && run[i].Committed? && !run[i].fault.Acknowledged? && IsRun(p, run[..i])
    && Apply(p, Exec(p, run[..i]).value.mem, run[i].tx).Some?
    && x == NextState(p, Exec(p, run[..i]).value.mem, run[i].tx)
  }

  lemma EndOfPath(p: Params, run: seq<Event>, path: seq<PersistentState>, a: PersistentState, x: PersistentState)
    requires Leads(p, run, LastAck(run), path, a, x)
    ensures x == a || exists i :: TriedToWrite(p, run, i, x)
  {
    var m := |path| - 1;
    if m > 0 {
      var i :| LastAck(run) <= i && Tries(p, run, i, path[m - 1], path[m]);
      NoneAcknowledgedSince(run, i);
      assert TriedToWrite(p, run, i, x);
    }
  }

  /** Load succeeds after every run, with the acknowledged state or one that a later update tried to write. */
  lemma LoadIsAcknowledgedOrTried(p: Params, run: seq<Event>)
    requires IsRun(p, run)
    ensures var w := Exec(p, run).value;
            && Load(w.files).Ok?
            && Since(p, run, LastAck(run))(w.acked, Load(w.files).value)
            && (Load(w.files).value == w.acked || exists i :: TriedToWrite(p, run, i, Load(w.files).value))
  {
    var w := Exec(p, run).value;
    RunFollows(p, run);
    SinceIsPreorder(p, run, LastAck(run));
    LoadFollows(Since(p, run, LastAck(run)), w);
    var path :| Leads(p, run, LastAck(run), path, w.acked, Load(w.files).value);
    EndOfPath(p, run, path, w.acked, Load(w.files).value);
  }

  /** The acknowledged state is what the last acknowledged commit left in memory; the empty state before the first. */
  lemma {:induction false} AckedByLast(p: Params, run: seq<Event>)
    requires IsRun(p, run)
    ensures var n := LastAck(run);
            && IsRun(p, run[..n]) && Exec(p, run).value.acked == Exec(p, run[..n]).value.mem
            && (n > 0 ==> run[n - 1].Committed? && run[n - 1].fault.Acknowledged?)
  {
    if run != [] {
      var init, e := run[..|run| - 1], run[|run| - 1];
      AckedByStep(p, Exec(p, init).value, e);
      if e.Committed? && e.fault.Acknowledged? {
        assert LastAck(run) == |run| && run[..|run|] == run;
      } else {
        AckedByLast(p, init);
        assert LastAck(run) == LastAck(init) && run[..LastAck(init)] == init[..LastAck(init)];
      }
    }
  }

  lemma AckedByStep(p: Params, w: World, e: Event)
    requires Step(p, w, e).Some?
    ensures Step(p, w, e).value.acked
         == if e.Committed? && e.fault.Acknowledged? then Step(p, w, e).value.mem else w.acked
  {
  }

  /** Along a path of updates nothing durable about sends is undone. */
  lemma {:induction false} PathExtends(p: Params, run: seq<Event>, n: nat, path: seq<PersistentState>)
    requires p.cfg.Valid() && Linked(p, run, n, path) && StateInv(p, path[0])
    ensures StateInv(p, path[|path| - 1]) && Extends(path[0], path[|path| - 1])
  {
    var m := |path| - 1;
    if m == 0 {
      ExtendsReflexive(path[0]);
    } else {
      var front := path[..m];
      PathExtends(p, run, n, front);
      var i :| n <= i && Tries(p, run, i, path[m - 1], path[m]);
      ApplyPreserves(p, path[m - 1], run[i].tx);
      ExtendsTransitive(path[0], path[m - 1], path[m]);
    }
  }

  lemma SinceExtends(p: Params, run: seq<Event>, n: nat, a: PersistentState, b: PersistentState)
    requires p.cfg.Valid() && Since(p, run, n)(a, b) && StateInv(p, a)
    ensures StateInv(p, b) && Extends(a, b)
  {
    var path :| Leads(p, run, n, path, a, b);
    PathExtends(p, run, n, path);
  }
}
