/** normalizeWindows of core/model.go. */
module Normalize {
  import opened Wrappers
  import opened Model
  import opened Ordering

  datatype WindowError = InvalidWindow(bucketId: string) | DuplicateBucket(bucketId: string)

  /** What an observation must satisfy to be used at all. */
  ghost predicate Acceptable(ws: seq<QuotaWindow>) {
    (forall w :: w in ws ==> w.Valid()) && DistinctBuckets(ws)
  }

  /** What every consumer of an observation may rely on. */
  ghost predicate Normalized(ws: seq<QuotaWindow>) {
    (forall w :: w in ws ==> w.Valid()) && forall i, j :: 0 <= i < j < |ws| ==> Less(ws[i].bucketId, ws[j].bucketId)
  }

  /** The first offending window is the one reported. */
  ghost predicate Rejects(ws: seq<QuotaWindow>, i: nat, e: WindowError)
    requires i < |ws|
  {
    && Acceptable(ws[..i])
    && e.bucketId == ws[i].bucketId
    && (if e.InvalidWindow? then !ws[i].Valid()
        else ws[i].Valid() && exists j :: 0 <= j < i && ws[j].bucketId == ws[i].bucketId)
  }

  method NormalizeWindows(input: seq<QuotaWindow>) returns (r: Result<seq<QuotaWindow>, WindowError>)
    ensures r.Ok? <==> Acceptable(input)
    ensures r.Ok? ==> Normalized(r.value) && multiset(r.value) == multiset(input)
    ensures r.Err? ==> exists i :: 0 <= i < |input| && Rejects(input, i, r.error)
  {
    var seen: set<string> := {};
    for i := 0 to |input|
      invariant Acceptable(input[..i])
      invariant seen == set w | w in input[..i] :: w.bucketId
    {
      var w := input[i];
      if !w.Valid() {
        assert Rejects(input, i, InvalidWindow(w.bucketId));
        return Err(InvalidWindow(w.bucketId));
      }
      if w.bucketId in seen {
        var dup :| dup in input[..i] && dup.bucketId == w.bucketId;
        var j :| 0 <= j < i && input[..i][j] == dup;
        assert input[j].bucketId == input[i].bucketId;
        assert Rejects(input, i, DuplicateBucket(w.bucketId));
        return Err(DuplicateBucket(w.bucketId));
      }
      forall j | 0 <= j < i ensures input[j].bucketId != w.bucketId {
        assert input[..i][j] in input[..i];
      }
      assert input[..i + 1] == input[..i] + [w];
      seen := seen + {w.bucketId};
    }
    assert input[..|input|] == input;
    var out := Sort(input, (w: QuotaWindow) => w.bucketId);
    forall w | w in out ensures w.Valid() {
      assert w in multiset(out);
      assert w in input;
    }
    r := Ok(out);
  }

  lemma NormalizedIsAcceptable(ws: seq<QuotaWindow>)
    requires Normalized(ws)
    ensures Acceptable(ws)
  {
    forall i, j | 0 <= i < j < |ws| ensures ws[i].bucketId != ws[j].bucketId {
      LessTotal(ws[i].bucketId, ws[j].bucketId);
    }
  }

  /** There is one normal form: the order in which the provider lists its buckets cannot matter. */
  lemma NormalFormUnique(a: seq<QuotaWindow>, b: seq<QuotaWindow>)
    requires Normalized(a) && Normalized(b) && multiset(a) == multiset(b)
    ensures a == b
  {
    forall x ensures x in a <==> x in b {
      assert x in multiset(a) <==> x in a;
      assert x in multiset(b) <==> x in b;
    }
    SortedUnique(a, b, (w: QuotaWindow) => w.bucketId);
  }
}
