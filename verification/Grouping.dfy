/** What reconcileObservation decides for each bucket, and how it forms the activation groups. */
module Grouping {
  import opened Wrappers
  import opened Model
  import opened Adapters
  import opened Ordering
  import opened Normalize
  import opened Transactions
  import opened StateInvariant
  import opened Preservation
  import opened Machine

  // ----- one bucket -----

  /**
   Exactly the windows left PendingPrecheck or LazyDetected join a group; every other gets a time to be looked at
   again.
   */
  lemma JoinsIff(p: Params, s: PersistentState, cred: Credential, instance: InstanceKey, now: Time, w: QuotaWindow)
    requires p.cfg.Valid() && now > 0
    ensures var v := Reconciled(p, s, cred, instance, now, w);
            && (v.joins <==> v.record.state == PendingPrecheck || v.record.state == LazyDetected)
            && (if v.joins then v.record.nextCheck == ZERO_TIME else v.record.nextCheck > 0)
  {
  }

  lemma UnactivatedIsUnfenced(s: PersistentState, k: WindowKey, c: CycleId)
    requires Activated(s) && c.Window() == k
    requires k !in s.windows || s.windows[k].lastActivation == ZERO_TIME
    ensures c !in s.ledger
  {
  }

  /** A window whose baseline cycle is fenced never joins; whatever joins carries an unfenced cycle. */
  lemma VerifyOnlyIsAbsorbing(p: Params, s: PersistentState, cred: Credential, instance: InstanceKey, now: Time,
                              w: QuotaWindow)
    requires p.cfg.Valid() && StateInv(p, s)
    ensures var k, v := WindowKey(instance, w.bucketId), Reconciled(p, s, cred, instance, now, w);
            && (k in s.windows && s.windows[k].baseline.cycleId in s.ledger ==> !v.joins)
            && (v.joins ==> v.record.baseline.cycleId !in s.ledger)
  {
    var k, v := WindowKey(instance, w.bucketId), Reconciled(p, s, cred, instance, now, w);
    ReconciledEvolves(p, s, cred, instance, now, w);
    if k in s.windows { assert WindowOk(k, s.windows[k]); }
    if k !in s.windows || s.windows[k].lastActivation == ZERO_TIME {
      UnactivatedIsUnfenced(s, k, v.record.baseline.cycleId);
      if k in s.windows { UnactivatedIsUnfenced(s, k, s.windows[k].baseline.cycleId); }
    }
  }

  /** A window joins without a second read only against the baseline it had before, and then it is cleared. */
  lemma LazyNeedsDurableBaseline(p: Params, s: PersistentState, cred: Credential, instance: InstanceKey,
                                 ws: seq<QuotaWindow>, now: Time, i: nat)
    requires p.cfg.Valid() && WindowsOk(s.windows) && Normalized(ws) && i < |ws|
    requires Reconciled(p, s, cred, instance, now, ws[i]).joins
             && Reconciled(p, s, cred, instance, now, ws[i]).record.state == LazyDetected
    ensures var k, cleared := WindowKey(instance, ws[i].bucketId), Clears(p, s, Reconcile(cred, instance, ws, now));
            && k in s.windows && Reconciled(p, s, cred, instance, now, ws[i]).record.baseline == s.windows[k].baseline
            && k in cleared && cleared[k] == s.windows[k].baseline.cycleId
  {
    NormalizedIsAcceptable(ws);
    ByBucketFaithful(ws);
    var k := WindowKey(instance, ws[i].bucketId);
    assert k in s.windows ==> WindowOk(k, s.windows[k]);
  }

  /** A window joins only when it is lazy or its reset, plus the grace, has passed. */
  lemma JoinsOnlyWhenDue(p: Params, s: PersistentState, cred: Credential, instance: InstanceKey, now: Time,
                         w: QuotaWindow)
    requires Reconciled(p, s, cred, instance, now, w).joins
    ensures w.lazyHint || now >= Reconciled(p, s, cred, instance, now, w).record.baseline.resetAt + p.cfg.resetGrace
    ensures p.For(instance).Can(Attributed(cred, w))
  {
  }

  // ----- all buckets -----

  /** The bucket is joined by the verdict of some observed window. */
  ghost predicate JoinsFrom(p: Params, s: PersistentState, cred: Credential, instance: InstanceKey,
                            ws: seq<QuotaWindow>, now: Time, r: WindowRecord, i: nat)
  {
    i < |ws| && Reconciled(p, s, cred, instance, now, ws[i]) == Verdict(r, true)
  }

  ghost predicate DistinctRecords(rs: seq<WindowRecord>) {
    forall i, j :: 0 <= i < j < |rs| ==> rs[i].key != rs[j].key
  }

  lemma ReconciledKey(p: Params, s: PersistentState, cred: Credential, instance: InstanceKey, now: Time, w: QuotaWindow)
    requires WindowsOk(s.windows)
    ensures Reconciled(p, s, cred, instance, now, w).record.key == WindowKey(instance, w.bucketId)
  {
    var k := WindowKey(instance, w.bucketId);
    assert k in s.windows ==> WindowOk(k, s.windows[k]);
  }

  lemma {:induction false} JoiningExact(p: Params, s: PersistentState, cred: Credential, instance: InstanceKey,
                                        ws: seq<QuotaWindow>, now: Time)
    requires WindowsOk(s.windows) && DistinctBuckets(ws)
    ensures var rs := Joining(p, s, cred, instance, ws, now);
            && DistinctRecords(rs)
            && (forall r :: r in rs ==> exists i: nat :: JoinsFrom(p, s, cred, instance, ws, now, r, i))
            && (forall i: nat, r :: JoinsFrom(p, s, cred, instance, ws, now, r, i) ==> r in rs)
  {
    if ws != [] {
      var init, last := ws[..|ws| - 1], ws[|ws| - 1];
      JoiningExact(p, s, cred, instance, init, now);
      var rs0, rs := Joining(p, s, cred, instance, init, now), Joining(p, s, cred, instance, ws, now);
      forall r | r in rs0 ensures r.key != WindowKey(instance, last.bucketId) && exists i: nat ::
                                    JoinsFrom(p, s, cred, instance, ws, now, r, i) {
        var i: nat :| JoinsFrom(p, s, cred, instance, init, now, r, i);
        ReconciledKey(p, s, cred, instance, now, init[i]);
        assert ws[i] == init[i];
        assert JoinsFrom(p, s, cred, instance, ws, now, r, i);
      }
      ReconciledKey(p, s, cred, instance, now, last);
      var v := Reconciled(p, s, cred, instance, now, last);
      if v.joins { assert JoinsFrom(p, s, cred, instance, ws, now, v.record, |ws| - 1); }
      forall i: nat, r | JoinsFrom(p, s, cred, instance, ws, now, r, i) ensures r in rs {
        if i < |init| { assert JoinsFrom(p, s, cred, instance, init, now, r, i); }
      }
    }
  }

  /** The groups are non-empty, and hold each record once, under its own group name. */
  ghost predicate Partitions(groups: map<string, seq<WindowRecord>>, rs: seq<WindowRecord>) {
    && (forall g :: g in groups ==> groups[g] != [] && DistinctRecords(groups[g]))
    && (forall g, r :: g in groups && r in groups[g] ==> r in rs && r.latest.GroupName() == g)
    && (forall r :: r in rs ==> r.latest.GroupName() in groups && r in groups[r.latest.GroupName()])
  }

  lemma GrownGroup(group: seq<WindowRecord>, rs: seq<WindowRecord>, last: WindowRecord)
    requires DistinctRecords(group) && DistinctRecords(rs + [last]) && forall r :: r in group ==> r in rs
    ensures DistinctRecords(group + [last])
  {
    forall i | 0 <= i < |group| ensures group[i].key != last.key {
      assert group[i] in rs;
      var j :| 0 <= j < |rs| && rs[j] == group[i];
      assert (rs + [last])[j] == rs[j] && (rs + [last])[|rs|] == last;
    }
  }

  lemma PartitionGrows(groups: map<string, seq<WindowRecord>>, rs: seq<WindowRecord>, last: WindowRecord)
    requires Partitions(groups, rs) && DistinctRecords(rs + [last])
    ensures var g := last.latest.GroupName();
            Partitions(groups[g := (if g in groups then groups[g] else []) + [last]], rs + [last])
  {
    var g := last.latest.GroupName();
    var before := if g in groups then groups[g] else [];
    var next := groups[g := before + [last]];
    GrownGroup(before, rs, last);
    forall h, r | h in next && r in next[h] ensures r in rs + [last] && r.latest.GroupName() == h {
      assert r == last || (h in groups && r in groups[h]);
    }
    forall r | r in rs + [last] ensures r.latest.GroupName() in next && r in next[r.latest.GroupName()] {
      assert r == last || r in rs;
    }
  }

  lemma {:induction false} GroupedPartitions(rs: seq<WindowRecord>)
    requires DistinctRecords(rs)
    ensures Partitions(Grouped(rs), rs)
  {
    if rs != [] {
      var init, last := rs[..|rs| - 1], rs[|rs| - 1];
      assert rs == init + [last];
      GroupedPartitions(init);
      PartitionGrows(Grouped(init), init, last);
    }
  }

  /** The groups of the table, listed by strictly increasing name. */
  ghost predicate ListsGroups(groups: seq<seq<WindowRecord>>, names: seq<string>,
                              table: map<string, seq<WindowRecord>>)
  {
    && |groups| == |names|
    && (forall i, j :: 0 <= i < j < |names| ==> Less(names[i], names[j]))
    && (forall i :: 0 <= i < |names| ==> names[i] in table && groups[i] == table[names[i]])
    && (forall g :: g in table ==> g in names)
  }

  ghost predicate DisjointRecords(a: seq<WindowRecord>, b: seq<WindowRecord>) {
    forall r, q :: r in a && q in b ==> r.key != q.key
  }

  lemma ListedApart(rs: seq<WindowRecord>, groups: seq<seq<WindowRecord>>, names: seq<string>, i: nat, j: nat)
    requires DistinctRecords(rs) && ListsGroups(groups, names, Grouped(rs)) && i < j < |groups|
    ensures DisjointRecords(groups[i], groups[j])
  {
    GroupedPartitions(rs);
    LessTotal(names[i], names[j]);
    forall r, q | r in groups[i] && q in groups[j] ensures r.key != q.key {
      assert r in Grouped(rs)[names[i]] && q in Grouped(rs)[names[j]];
      SameRecord(rs, r, q);
    }
  }

  lemma SameRecord(rs: seq<WindowRecord>, r: WindowRecord, q: WindowRecord)
    requires DistinctRecords(rs) && r in rs && q in rs && r != q
    ensures r.key != q.key
  {
    var i :| 0 <= i < |rs| && rs[i] == r;
    var j :| 0 <= j < |rs| && rs[j] == q;
  }

  /** Listed groups are non-empty, pairwise disjoint, and together hold exactly the records given. */
  lemma ListedGroupsPartition(rs: seq<WindowRecord>, groups: seq<seq<WindowRecord>>, names: seq<string>)
    requires DistinctRecords(rs) && ListsGroups(groups, names, Grouped(rs))
    ensures forall i :: 0 <= i < |groups| ==> groups[i] != [] && DistinctRecords(groups[i])
    ensures forall i, j :: 0 <= i < j < |groups| ==> DisjointRecords(groups[i], groups[j])
    ensures forall i, r :: 0 <= i < |groups| && r in groups[i] ==> r in rs
    ensures forall r :: r in rs ==> exists i :: 0 <= i < |groups| && r in groups[i]
  {
    forall i, j | 0 <= i < j < |groups| ensures DisjointRecords(groups[i], groups[j]) {
      ListedApart(rs, groups, names, i, j);
    }
    GroupedPartitions(rs);
    forall r | r in rs ensures exists i :: 0 <= i < |groups| && r in groups[i] {
      assert r.latest.GroupName() in names;
      var i :| 0 <= i < |names| && names[i] == r.latest.GroupName();
      assert r in groups[i];
    }
  }

  /** Whatever order the provider lists its windows in, reconciling gives the same state and the same groups. */
  lemma OrderIsIrrelevant(p: Params, s: PersistentState, cred: Credential, instance: InstanceKey, now: Time,
                          raw: seq<QuotaWindow>, shuffled: seq<QuotaWindow>, a: seq<QuotaWindow>, b: seq<QuotaWindow>)
    requires multiset(raw) == multiset(shuffled)
    requires Normalized(a) && multiset(a) == multiset(raw) && Normalized(b) && multiset(b) == multiset(shuffled)
    ensures Apply(p, s, Reconcile(cred, instance, a, now)) == Apply(p, s, Reconcile(cred, instance, b, now))
    ensures Grouped(Joining(p, s, cred, instance, a, now)) == Grouped(Joining(p, s, cred, instance, b, now))
  {
    NormalFormUnique(a, b);
  }

  /** Nor does the order decide whether the observation is accepted. */
  lemma OrderKeepsAcceptance(raw: seq<QuotaWindow>, shuffled: seq<QuotaWindow>)
    requires multiset(raw) == multiset(shuffled) && Acceptable(raw)
    ensures Acceptable(shuffled)
  {
    forall w | w in shuffled ensures w.Valid() {
      assert w in multiset(shuffled);
      assert w in raw;
    }
    forall i, j | 0 <= i < j < |shuffled| ensures shuffled[i].bucketId != shuffled[j].bucketId {
      OncePerBucket(raw, shuffled, i, j);
    }
  }

  /** Two positions of a list with distinct buckets' permutation never hold the same bucket. */
  lemma OncePerBucket(raw: seq<QuotaWindow>, shuffled: seq<QuotaWindow>, i: nat, j: nat)
    requires multiset(raw) == multiset(shuffled) && DistinctBuckets(raw) && i < j < |shuffled|
    ensures shuffled[i].bucketId != shuffled[j].bucketId
  {
    var x, y := shuffled[i], shuffled[j];
    assert x in multiset(shuffled) && y in multiset(shuffled);
    if x.bucketId == y.bucketId {
      var m :| 0 <= m < |raw| && raw[m] == x;
      var n :| 0 <= n < |raw| && raw[n] == y;
      assert x == y;
      assert shuffled == shuffled[..j] + [y] + shuffled[j + 1..];
      assert x in shuffled[..j];
      assert multiset(shuffled)[x] >= 2;
      OnceOnly(raw, m);
    }
  }

  lemma OnceOnly(raw: seq<QuotaWindow>, m: nat)
    requires DistinctBuckets(raw) && m < |raw|
    ensures multiset(raw)[raw[m]] == 1
  {
    var x := raw[m];
    assert raw == raw[..m] + [x] + raw[m + 1..];
    assert x !in raw[..m] && x !in raw[m + 1..];
    assert x !in multiset(raw[..m]) && x !in multiset(raw[m + 1..]);
  }
}
