/** The loops of core/controller.go's closures, run on the clone of the state that Update works on. */
module Loops {
  import opened Wrappers
  import opened Model
  import opened Adapters
  import opened Ordering
  import opened Normalize
  import opened Transactions
  import opened StateInvariant
  import opened Preservation
  import opened Machine
  import opened Grouping
  import opened Effects

  /**
   for _, key := range keys { x := s.Windows[key]; ...; s.Windows[key] = x }; each key is present, so none is
   invented.
   */
  method TouchKeys(p: Params, ws: map<WindowKey, WindowRecord>, keys: seq<WindowKey>, e: Edit)
    returns (out: map<WindowKey, WindowRecord>)
    requires DistinctKeys(keys) && forall k :: k in keys ==> k in ws
    ensures out == Touched(p, ws, keys, e)
  {
    out := ws;
    for i := 0 to |keys|
      invariant out == Touched(p, ws, keys[..i], e)
    {
      var key := keys[i];
      var x := out[key];
      out := out[key := EditRecord(p, e, x)];
      assert keys[..i + 1] == keys[..i] + [key];
    }
    assert keys[..|keys|] == keys;
  }

  /** for key, r := range s.Windows { if ... { s.Windows[key] = r } }, whatever order the map is ranged over in. */
  method EditWhere(ws: map<WindowKey, WindowRecord>, picks: (WindowKey, WindowRecord) -> bool,
                   edit: WindowRecord -> WindowRecord)
    returns (out: map<WindowKey, WindowRecord>)
    ensures out == map k | k in ws :: if picks(k, ws[k]) then edit(ws[k]) else ws[k]
  {
    out := ws;
    var todo := ws.Keys;
    while todo != {}
      invariant todo <= ws.Keys && out.Keys == ws.Keys
      invariant forall k :: k in todo ==> out[k] == ws[k]
      invariant forall k :: k in ws && k !in todo ==> out[k] == if picks(k, ws[k]) then edit(ws[k]) else ws[k]
      decreases |todo|
    {
      var key :| key in todo;
      todo := todo - {key};
      var r := out[key];
      if picks(key, r) {
        out := out[key := edit(r)];
      }
    }
  }

  method TouchWhere(p: Params, ws: map<WindowKey, WindowRecord>, sel: Selector, e: Edit)
    returns (out: map<WindowKey, WindowRecord>)
    ensures out == TouchedWhere(p, ws, sel, e)
  {
    out := EditWhere(ws, (k: WindowKey, x: WindowRecord) => sel.Picks(k, x), (x: WindowRecord) => EditRecord(p, e, x));
  }

  /** One turn of the loop below, after the windows before `i`. */
  method OneTurn(p: Params, s: PersistentState, windows: map<WindowKey, WindowRecord>, cred: Credential,
                 instance: InstanceKey, ws: seq<QuotaWindow>, now: Time, i: nat) returns (v: Verdict)
    requires DistinctBuckets(ws) && i < |ws| && windows == Upserted(p, s, cred, instance, ws[..i], now)
    ensures v == Reconciled(p, s, cred, instance, now, ws[i])
  {
    v := Turn(p, windows, s.ledger, cred, instance, now, ws[i]);
    UnseenUnchanged(p, s, cred, instance, ws, now, i);
  }

  /** The first loop of reconcileObservation. */
  method ReconcileBuckets(p: Params, s: PersistentState, cred: Credential, instance: InstanceKey,
                          ws: seq<QuotaWindow>, now: Time)
    returns (windows: map<WindowKey, WindowRecord>, groups: map<string, seq<WindowRecord>>, seen: set<WindowKey>)
    requires DistinctBuckets(ws)
    ensures windows == Upserted(p, s, cred, instance, ws, now)
    ensures groups == Grouped(Joining(p, s, cred, instance, ws, now))
    ensures seen == SeenKeys(instance, ws)
  {
    windows, groups, seen := s.windows, map[], {};
    for i := 0 to |ws|
      invariant windows == Upserted(p, s, cred, instance, ws[..i], now)
      invariant groups == Grouped(Joining(p, s, cred, instance, ws[..i], now))
      invariant seen == SeenKeys(instance, ws[..i])
    {
      var v := OneTurn(p, s, windows, cred, instance, ws, now, i);
      NextTurn(p, s, cred, instance, ws, now, i);
      var key := WindowKey(instance, ws[i].bucketId);
      seen := seen + {key};
      windows := windows[key := v.record];
      if v.joins {
        groups := AppendToGroup(groups, v.record);
      }
    }
    assert ws[..|ws|] == ws;
  }

  /** What one more turn adds to the table, the groups and the seen set. */
  lemma NextTurn(p: Params, s: PersistentState, cred: Credential, instance: InstanceKey, ws: seq<QuotaWindow>,
                 now: Time, i: nat)
    requires i < |ws|
    ensures var v, key := Reconciled(p, s, cred, instance, now, ws[i]), WindowKey(instance, ws[i].bucketId);
            && Upserted(p, s, cred, instance, ws[..i + 1], now)
               == Upserted(p, s, cred, instance, ws[..i], now)[key := v.record]
            && Grouped(Joining(p, s, cred, instance, ws[..i + 1], now))
               == (var groups := Grouped(Joining(p, s, cred, instance, ws[..i], now));
                   if v.joins then AppendToGroup(groups, v.record) else groups)
            && SeenKeys(instance, ws[..i + 1]) == SeenKeys(instance, ws[..i]) + {key}
  {
    assert ws[..i + 1] == ws[..i] + [ws[i]];
    UpsertedSnoc(p, s, cred, instance, ws[..i], now, ws[i]);
    JoiningSnoc(p, s, cred, instance, ws[..i], now, ws[i]);
  }

  function AppendToGroup(groups: map<string, seq<WindowRecord>>, r: WindowRecord): map<string, seq<WindowRecord>> {
    var g := r.latest.GroupName();
    groups[g := (if g in groups then groups[g] else []) + [r]]
  }

  /** No earlier turn of the loop has touched this bucket, so the turn sees what the transaction started from. */
  lemma UnseenUnchanged(p: Params, s: PersistentState, cred: Credential, instance: InstanceKey, ws: seq<QuotaWindow>,
                        now: Time, i: nat)
    requires DistinctBuckets(ws) && i < |ws|
    ensures Turn(p, Upserted(p, s, cred, instance, ws[..i], now), s.ledger, cred, instance, now, ws[i])
         == Reconciled(p, s, cred, instance, now, ws[i])
  {
    UpsertedAt(p, s, cred, instance, ws[..i], now);
    forall w | w in ws[..i] ensures w.bucketId != ws[i].bucketId {
      var j :| 0 <= j < i && ws[..i][j] == w;
      assert ws[j].bucketId != ws[i].bucketId;
    }
    var k := WindowKey(instance, ws[i].bucketId);
    assert k !in SeenKeys(instance, ws[..i]);
  }

  lemma UpsertedSnoc(p: Params, s: PersistentState, cred: Credential, instance: InstanceKey, ws: seq<QuotaWindow>,
                     now: Time, w: QuotaWindow)
    ensures Upserted(p, s, cred, instance, ws + [w], now)
         == Upserted(p, s, cred, instance, ws, now)
            [WindowKey(instance, w.bucketId) := Reconciled(p, s, cred, instance, now, w).record]
    ensures SeenKeys(instance, ws + [w]) == SeenKeys(instance, ws) + {WindowKey(instance, w.bucketId)}
  {
    assert KeysSeen(instance, ws + [w])[..|ws|] == KeysSeen(instance, ws);
    assert RecordsSeen(p, s, cred, instance, ws + [w], now)[..|ws|] == RecordsSeen(p, s, cred, instance, ws, now);
  }

  lemma JoiningSnoc(p: Params, s: PersistentState, cred: Credential, instance: InstanceKey, ws: seq<QuotaWindow>,
                    now: Time, w: QuotaWindow)
    ensures var rs, v := Joining(p, s, cred, instance, ws, now), Reconciled(p, s, cred, instance, now, w);
            && Joining(p, s, cred, instance, ws + [w], now) == rs + (if v.joins then [v.record] else [])
            && Grouped(Joining(p, s, cred, instance, ws + [w], now))
               == if v.joins then AppendToGroup(Grouped(rs), v.record) else Grouped(rs)
  {
    assert (ws + [w])[..|ws|] == ws;
    var rs, v := Joining(p, s, cred, instance, ws, now), Reconciled(p, s, cred, instance, now, w);
    GroupedSnoc(rs, v.record);
    assert rs + [] == rs;
  }

  lemma GroupedSnoc(rs: seq<WindowRecord>, r: WindowRecord)
    ensures Grouped(rs + [r]) == AppendToGroup(Grouped(rs), r)
  {
    assert (rs + [r])[..|rs|] == rs;
  }

  /** The names of the groups, each once, in the order the map yields them. */
  method NamesOf(table: map<string, seq<WindowRecord>>) returns (names: seq<string>)
    ensures forall i, j :: 0 <= i < j < |names| ==> names[i] != names[j]
    ensures forall k :: k in names <==> k in table
  {
    names := [];
    var todo := table.Keys;
    while todo != {}
      invariant todo <= table.Keys
      invariant forall i, j :: 0 <= i < j < |names| ==> names[i] != names[j]
      invariant forall k :: k in names <==> k in table && k !in todo
      decreases |todo|
    {
      var k :| k in todo;
      assert k !in names;
      names := names + [k];
      todo := todo - {k};
    }
  }

  /** sort.Strings over the group names, then the groups in that order. */
  method ListGroups(table: map<string, seq<WindowRecord>>)
    returns (groups: seq<seq<WindowRecord>>, ghost names: seq<string>)
    ensures ListsGroups(groups, names, table)
  {
    var keys := NamesOf(table);
    var sorted := Sort(keys, (k: string) => k);
    names := sorted;
    forall k ensures k in sorted <==> k in table {
      assert k in multiset(sorted) <==> k in sorted;
      assert k in multiset(keys) <==> k in keys;
    }
    groups := [];
    for i := 0 to |sorted|
      invariant |groups| == i
      invariant forall j :: 0 <= j < i ==> groups[j] == table[sorted[j]]
    {
      assert sorted[i] in sorted;
      groups := groups + [table[sorted[i]]];
    }
  }

  /** The records as an edit leaves them. */
  function EditedOf(p: Params, ws: map<WindowKey, WindowRecord>, records: seq<WindowRecord>, e: Edit): seq<WindowRecord>
    requires forall r :: r in records ==> r.key in ws
  {
    seq(|records|, i requires 0 <= i < |records| => EditRecord(p, e, ws[records[i].key]))
  }

  function LazyOf(records: seq<WindowRecord>): seq<WindowRecord> {
    if records == [] then []
    else
      var last := records[|records| - 1];
      LazyOf(records[..|records| - 1]) + if last.state == LazyDetected then [last] else []
  }

  /** The records an edit leaves LazyDetected, in order. */
  function ConfirmedBy(p: Params, ws: map<WindowKey, WindowRecord>, records: seq<WindowRecord>,
                       e: Edit): seq<WindowRecord>
    requires forall r :: r in records ==> r.key in ws
  {
    LazyOf(EditedOf(p, ws, records, e))
  }

  lemma {:induction false} LazyOfExact(records: seq<WindowRecord>)
    ensures forall r :: r in LazyOf(records) <==> r in records && r.state == LazyDetected
    ensures DistinctRecords(records) ==> DistinctRecords(LazyOf(records))
  {
    if records != [] {
      var init, last := records[..|records| - 1], records[|records| - 1];
      LazyOfExact(init);
      assert records == init + [last];
      if DistinctRecords(records) { LastIsNew(records, LazyOf(init)); }
    }
  }

  lemma LastIsNew(records: seq<WindowRecord>, part: seq<WindowRecord>)
    requires records != [] && DistinctRecords(records) && forall r :: r in part ==> r in records[..|records| - 1]
    ensures forall i :: 0 <= i < |part| ==> part[i].key != records[|records| - 1].key
  {
    forall i | 0 <= i < |part| ensures part[i].key != records[|records| - 1].key {
      assert part[i] in part;
      var j :| 0 <= j < |records| - 1 && records[..|records| - 1][j] == part[i];
      assert records[j].key == part[i].key;
    }
  }

  lemma EditKeepsKey(p: Params, e: Edit, x: WindowRecord)
    ensures EditRecord(p, e, x).key == x.key
  {
  }

  lemma EditedKeys(p: Params, ws: map<WindowKey, WindowRecord>, records: seq<WindowRecord>, e: Edit)
    requires forall r :: r in records ==> r.key in ws && ws[r.key].key == r.key
    ensures forall i :: 0 <= i < |records| ==> EditedOf(p, ws, records, e)[i].key == records[i].key
  {
    forall i | 0 <= i < |records| ensures EditedOf(p, ws, records, e)[i].key == records[i].key {
      assert records[i] in records;
      EditKeepsKey(p, e, ws[records[i].key]);
    }
  }

  /** Each confirmed record comes from one of the records, each at most once, and none is missed. */
  lemma ConfirmedExact(p: Params, ws: map<WindowKey, WindowRecord>, records: seq<WindowRecord>, e: Edit)
    requires DistinctRecords(records) && forall r :: r in records ==> r.key in ws && ws[r.key].key == r.key
    ensures var cs := ConfirmedBy(p, ws, records, e);
            && DistinctRecords(cs)
            && (forall c :: c in cs ==>
                              && c.key in KeysOf(records) && c.key in ws && c == EditRecord(p, e, ws[c.key])
                              && c.state == LazyDetected)
            && (forall r :: r in records && EditRecord(p, e, ws[r.key]).state == LazyDetected ==>
                              EditRecord(p, e, ws[r.key]) in cs)
  {
    var edited, cs := EditedOf(p, ws, records, e), ConfirmedBy(p, ws, records, e);
    EditedKeys(p, ws, records, e);
    LazyOfExact(edited);
    forall c | c in cs ensures c.key in KeysOf(records) && c.key in ws && c == EditRecord(p, e, ws[c.key]) {
      var i :| 0 <= i < |edited| && edited[i] == c;
      assert records[i] in records && KeysOf(records)[i] == c.key;
    }
    forall r | r in records ensures EditRecord(p, e, ws[r.key]) in edited {
      var i :| 0 <= i < |records| && records[i] == r;
      assert edited[i] == EditRecord(p, e, ws[r.key]);
    }
  }

  lemma PrecheckKeepsCandidate(p: Params, s: PersistentState, cleared: map<WindowKey, CycleId>,
                               instance: InstanceKey, rs: seq<WindowRecord>,
                               ws: seq<QuotaWindow>, now: Time, k: WindowKey)
    requires p.cfg.Valid() && StateInv(p, s) && now > 0 && GroupReady(s, cleared, instance, rs) && k in KeysOf(rs)
             && k in s.windows
    ensures var tx := PrecheckGroup(instance, KeysOf(rs), ws, now);
            var y := EditRecord(p, Precheck(ByBucket(ws), now), s.windows[k]);
            if y.state == LazyDetected then
              y.key == k && y.baseline == s.windows[k].baseline && y.baseline.cycleId !in s.ledger
              && k in Clears(p, s, tx) && Clears(p, s, tx)[k] == y.baseline.cycleId
            else Scheduled(y)
  {
    KeysOfMembers(rs, k);
    var r :| r in rs && r.key == k;
    assert Candidate(s, cleared, instance, r);
    assert WindowOk(k, s.windows[k]);
    EditKeepsKey(p, Precheck(ByBucket(ws), now), s.windows[k]);
    PrecheckSchedules(p, ByBucket(ws), now, s.windows[k]);
  }

  lemma ConfirmedIsCandidate(p: Params, s: PersistentState, t: PersistentState, cleared: map<WindowKey, CycleId>,
                             instance: InstanceKey, rs: seq<WindowRecord>, ws: seq<QuotaWindow>, now: Time,
                             c: WindowRecord)
    requires p.cfg.Valid() && StateInv(p, s) && now > 0 && GroupReady(s, cleared, instance, rs)
    requires c.key in KeysOf(rs) && c.key in s.windows && c.state == LazyDetected
    requires c == EditRecord(p, Precheck(ByBucket(ws), now), s.windows[c.key])
    requires t.ledger == s.ledger && c.key in t.windows && t.windows[c.key] == c
    ensures Candidate(t, cleared + Clears(p, s, PrecheckGroup(instance, KeysOf(rs), ws, now)), instance, c)
    ensures exists r :: r in rs && r.key == c.key && r.baseline.cycleId == c.baseline.cycleId
  {
    KeysOfMembers(rs, c.key);
    PrecheckKeepsCandidate(p, s, cleared, instance, rs, ws, now, c.key);
    var r :| r in rs && r.key == c.key;
    assert Candidate(s, cleared, instance, r);
  }

  /** After a precheck the confirmed records are candidates, cleared by the second read; the others are scheduled. */
  lemma PrecheckYieldsCandidates(p: Params, s: PersistentState, cleared: map<WindowKey, CycleId>,
                                 instance: InstanceKey, rs: seq<WindowRecord>,
                                 ws: seq<QuotaWindow>, now: Time)
    requires p.cfg.Valid() && StateInv(p, s) && now > 0 && GroupReady(s, cleared, instance, rs)
    ensures forall r :: r in rs ==> r.key in s.windows
    ensures var tx, e := PrecheckGroup(instance, KeysOf(rs), ws, now), Precheck(ByBucket(ws), now);
            var t, cs := NextState(p, s, tx), ConfirmedBy(p, s.windows, rs, e);
            && GroupReady(t, cleared + Clears(p, s, tx), instance, cs)
            && (forall c :: c in cs ==> c.key in KeysOf(rs) && c.state == LazyDetected)
            && (forall c :: c in cs ==> exists r ::
                                && r in rs && r.key == c.key
                                && r.baseline.cycleId == c.baseline.cycleId)
            && (forall r :: r in rs ==> r.key in t.windows && (Scheduled(t.windows[r.key]) || t.windows[r.key] in cs))
  {
    var tx, e := PrecheckGroup(instance, KeysOf(rs), ws, now), Precheck(ByBucket(ws), now);
    forall r | r in rs ensures r.key in s.windows && s.windows[r.key].key == r.key {
      assert Candidate(s, cleared, instance, r);
    }
    PrecheckedTable(p, s, rs, ws, now, instance);
    ConfirmedAreCandidates(p, s, NextState(p, s, tx), cleared, instance, rs, ws, now, ConfirmedBy(p, s.windows, rs, e));
    PrecheckedOrScheduled(p, s, NextState(p, s, tx), rs, ws, now, ConfirmedBy(p, s.windows, rs, e));
  }

  lemma PrecheckedTable(p: Params, s: PersistentState, rs: seq<WindowRecord>, ws: seq<QuotaWindow>, now: Time,
                        instance: InstanceKey)
    requires forall r :: r in rs ==> r.key in s.windows
    ensures var t := NextState(p, s, PrecheckGroup(instance, KeysOf(rs), ws, now));
            && t.ledger == s.ledger && t.windows.Keys == s.windows.Keys
            && forall r :: r in rs ==> t.windows[r.key] == EditRecord(p, Precheck(ByBucket(ws), now), s.windows[r.key])
  {
    forall r | r in rs ensures r.key in KeysOf(rs) { KeysOfMembers(rs, r.key); }
  }

  lemma ConfirmedAreCandidates(p: Params, s: PersistentState, t: PersistentState, cleared: map<WindowKey, CycleId>,
                               instance: InstanceKey, rs: seq<WindowRecord>, ws: seq<QuotaWindow>, now: Time,
                               cs: seq<WindowRecord>)
    requires p.cfg.Valid() && StateInv(p, s) && now > 0 && GroupReady(s, cleared, instance, rs)
    requires forall r :: r in rs ==> r.key in s.windows && s.windows[r.key].key == r.key
    requires t == NextState(p, s, PrecheckGroup(instance, KeysOf(rs), ws, now))
    requires cs == ConfirmedBy(p, s.windows, rs, Precheck(ByBucket(ws), now))
    ensures GroupReady(t, cleared + Clears(p, s, PrecheckGroup(instance, KeysOf(rs), ws, now)), instance, cs)
    ensures forall c :: c in cs ==> c.key in KeysOf(rs) && c.state == LazyDetected
    ensures forall c :: c in cs ==> exists r :: r in rs && r.key == c.key && r.baseline.cycleId == c.baseline.cycleId
  {
    var tx := PrecheckGroup(instance, KeysOf(rs), ws, now);
    ConfirmedExact(p, s.windows, rs, Precheck(ByBucket(ws), now));
    PrecheckedTable(p, s, rs, ws, now, instance);
    forall c | c in cs
      ensures Candidate(t, cleared + Clears(p, s, tx), instance, c)
      ensures exists r :: r in rs && r.key == c.key && r.baseline.cycleId == c.baseline.cycleId
    {
      KeysOfMembers(rs, c.key);
      ConfirmedIsCandidate(p, s, t, cleared, instance, rs, ws, now, c);
    }
  }

  lemma PrecheckedOrScheduled(p: Params, s: PersistentState, t: PersistentState, rs: seq<WindowRecord>,
                              ws: seq<QuotaWindow>, now: Time, cs: seq<WindowRecord>)
    requires p.cfg.Valid() && now > 0 && DistinctRecords(rs)
    requires forall r :: r in rs ==> r.key in s.windows && s.windows[r.key].key == r.key && r.key in t.windows
    requires forall r :: r in rs ==> t.windows[r.key] == EditRecord(p, Precheck(ByBucket(ws), now), s.windows[r.key])
    requires cs == ConfirmedBy(p, s.windows, rs, Precheck(ByBucket(ws), now))
    ensures forall r :: r in rs ==> Scheduled(t.windows[r.key]) || t.windows[r.key] in cs
  {
    ConfirmedExact(p, s.windows, rs, Precheck(ByBucket(ws), now));
    forall r | r in rs ensures Scheduled(t.windows[r.key]) || t.windows[r.key] in cs {
      EditConfirmsOrSchedules(p, ByBucket(ws), now, s.windows[r.key]);
    }
  }

  lemma EditConfirmsOrSchedules(p: Params, byBucket: map<string, QuotaWindow>, now: Time, x: WindowRecord)
    requires p.cfg.Valid() && now > 0
    ensures var y := EditRecord(p, Precheck(byBucket, now), x); y.state == LazyDetected || Scheduled(y)
  {
    PrecheckSchedules(p, byBucket, now, x);
  }

  lemma TouchedSnoc(p: Params, ws: map<WindowKey, WindowRecord>, keys: seq<WindowKey>, k: WindowKey, e: Edit)
    requires k in ws && k !in keys
    ensures Touched(p, ws, keys, e)[k] == ws[k]
    ensures Touched(p, ws, keys + [k], e) == Touched(p, ws, keys, e)[k := EditRecord(p, e, ws[k])]
  {
  }

  lemma ConfirmedSnoc(p: Params, ws: map<WindowKey, WindowRecord>, records: seq<WindowRecord>, r: WindowRecord, e: Edit)
    requires forall q :: q in records + [r] ==> q.key in ws
    ensures (forall q :: q in records ==> q.key in ws) && r.key in ws
    ensures var y := EditRecord(p, e, ws[r.key]);
            ConfirmedBy(p, ws, records + [r], e)
            == ConfirmedBy(p, ws, records, e) + if y.state == LazyDetected then [y] else []
  {
    assert r in records + [r];
    assert forall q :: q in records ==> q in records + [r];
    assert EditedOf(p, ws, records + [r], e) == EditedOf(p, ws, records, e) + [EditRecord(p, e, ws[r.key])];
    LazySnoc(EditedOf(p, ws, records, e), EditRecord(p, e, ws[r.key]));
  }

  lemma LazySnoc(records: seq<WindowRecord>, y: WindowRecord)
    ensures LazyOf(records + [y]) == LazyOf(records) + if y.state == LazyDetected then [y] else []
  {
    assert (records + [y])[..|records|] == records;
  }

  lemma NotYetVisited(records: seq<WindowRecord>, i: nat)
    requires DistinctRecords(records) && i < |records|
    ensures records[i].key !in KeysOf(records[..i])
            && KeysOf(records[..i + 1]) == KeysOf(records[..i]) + [records[i].key]
    ensures records[i] in records && records[..i + 1][..i] == records[..i]
  {
  }

  /** What one turn of the loop below adds. */
  lemma PrecheckSnoc(p: Params, ws: map<WindowKey, WindowRecord>, records: seq<WindowRecord>, i: nat, e: Edit)
    requires DistinctRecords(records) && i < |records| && forall r :: r in records ==> r.key in ws
    ensures records[i].key in ws && forall r :: r in records[..i + 1] ==> r.key in ws
    ensures forall r :: r in records[..i] ==> r.key in ws
    ensures var k, out := records[i].key, Touched(p, ws, KeysOf(records[..i]), e);
            var y := EditRecord(p, e, ws[k]);
            && k in out && out[k] == ws[k] && Touched(p, ws, KeysOf(records[..i + 1]), e) == out[k := y]
            && ConfirmedBy(p, ws, records[..i + 1], e)
               == ConfirmedBy(p, ws, records[..i], e) + if y.state == LazyDetected then [y] else []
  {
    NotYetVisited(records, i);
    TouchedSnoc(p, ws, KeysOf(records[..i]), records[i].key, e);
    assert records[..i + 1] == records[..i] + [records[i]];
    ConfirmedSnoc(p, ws, records[..i], records[i], e);
  }

  /** The loop of precheckGroup, with the records it confirms. */
  method PrecheckRecords(p: Params, ws: map<WindowKey, WindowRecord>, records: seq<WindowRecord>,
                         byBucket: map<string, QuotaWindow>, now: Time)
    returns (out: map<WindowKey, WindowRecord>, confirmed: seq<WindowRecord>)
    requires DistinctRecords(records) && forall r :: r in records ==> r.key in ws
    ensures out == Touched(p, ws, KeysOf(records), Precheck(byBucket, now))
    ensures confirmed == ConfirmedBy(p, ws, records, Precheck(byBucket, now))
  {
    out, confirmed := ws, [];
    var e := Precheck(byBucket, now);
    for i := 0 to |records|
      invariant out == Touched(p, ws, KeysOf(records[..i]), e)
      invariant confirmed == ConfirmedBy(p, ws, records[..i], e)
    {
      var key := records[i].key;
      PrecheckSnoc(p, ws, records, i, e);
      var edited := EditRecord(p, e, out[key]);
      out := out[key := edited];
      if edited.state == LazyDetected {
        confirmed := confirmed + [edited];
      }
    }
    assert records[..|records|] == records;
  }

  method FenceCycles(ledger: map<CycleId, LedgerEntry>, cycles: seq<CycleId>, id: AttemptId, now: Time)
    returns (out: map<CycleId, LedgerEntry>)
    ensures out == FencedLedger(ledger, cycles, id, now)
  {
    out := ledger;
    for i := 0 to |cycles|
      invariant out == FencedLedger(ledger, cycles[..i], id, now)
    {
      out := out[cycles[i] := LedgerEntry(cycles[i], id, now, ResultUnknown)];
      assert cycles[..i + 1] == cycles[..i] + [cycles[i]];
    }
    assert cycles[..|cycles|] == cycles;
  }

  /** entry := s.CycleLedger[cycle]; each cycle is present, so no entry without an attempt appears. */
  method NoteCycles(ledger: map<CycleId, LedgerEntry>, cycles: seq<CycleId>, result: SendResult)
    returns (out: map<CycleId, LedgerEntry>)
    requires forall c :: c in cycles ==> c in ledger
    ensures out == NotedLedger(ledger, cycles, result)
  {
    out := ledger;
    for i := 0 to |cycles|
      invariant out == NotedLedger(ledger, cycles[..i], result)
    {
      assert cycles[i] in cycles;
      var entry := out[cycles[i]];
      out := out[cycles[i] := entry.(outcome := result)];
      assert cycles[..i + 1] == cycles[..i] + [cycles[i]];
    }
    assert cycles[..|cycles|] == cycles;
  }

  method FindFenced(ledger: map<CycleId, LedgerEntry>, cycles: seq<CycleId>) returns (found: bool)
    ensures found <==> AnyFenced(cycles, ledger)
  {
    for i := 0 to |cycles|
      invariant forall j :: 0 <= j < i ==> cycles[j] !in ledger
    {
      if cycles[i] in ledger {
        assert cycles[i] in cycles;
        return true;
      }
    }
    found := false;
  }

  /** attempt.WindowKeys and attempt.CycleIDs, appended record by record. */
  method CollectTargets(records: seq<WindowRecord>) returns (keys: seq<WindowKey>, cycles: seq<CycleId>)
    ensures keys == KeysOf(records) && cycles == CyclesOf(records)
  {
    keys, cycles := [], [];
    for i := 0 to |records|
      invariant keys == KeysOf(records[..i]) && cycles == CyclesOf(records[..i])
    {
      keys := keys + [records[i].key];
      cycles := cycles + [records[i].baseline.cycleId];
    }
    assert records[..|records|] == records;
  }
}
