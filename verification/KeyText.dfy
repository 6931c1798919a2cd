/** The textual keys of core/model.go: Credential.InstanceKey and WindowKey. */
module KeyText {
  import opened Model

  function InstanceText(i: InstanceKey): string {
    i.adapterId + "|" + i.authIndex + "|" + i.fingerprint
  }

  function WindowText(k: WindowKey): string {
    InstanceText(k.instance) + "|" + k.bucketId
  }

  /** Two instance texts can only produce a common window key when one, with its separator, begins the other. */
  predicate Entangled(x: string, y: string) {
    x + "|" <= y + "|" || y + "|" <= x + "|"
  }

  /** A window key shared by two instances exists exactly when their texts are entangled. */
  lemma SharedWindowKeyIff(x: InstanceKey, y: InstanceKey)
    ensures (exists b, c :: WindowText(WindowKey(x, b)) == WindowText(WindowKey(y, c)))
       <==> Entangled(InstanceText(x), InstanceText(y))
  {
    var s, t := InstanceText(x) + "|", InstanceText(y) + "|";
    if s <= t {
      assert WindowText(WindowKey(x, t[|s|..])) == WindowText(WindowKey(y, ""));
    }
    if t <= s {
      assert WindowText(WindowKey(x, "")) == WindowText(WindowKey(y, s[|t|..]));
    }
    forall b, c | WindowText(WindowKey(x, b)) == WindowText(WindowKey(y, c))
      ensures s <= t || t <= s
    {
      PrefixesOfOne(s, b, t, c);
    }
  }

  lemma PrefixesOfOne(s: string, b: string, t: string, c: string)
    requires s + b == t + c
    ensures s <= t || t <= s
  {
    if |s| <= |t| {
      assert s == (s + b)[..|s|] == t[..|s|];
    } else {
      assert t == (t + c)[..|t|] == s[..|t|];
    }
  }

  predicate PipeFree(s: string) { '|' !in s }

  /** Reading up to the first separator is unambiguous. */
  lemma {:induction false} FirstField(a: string, s: string, b: string, t: string)
    requires PipeFree(a) && PipeFree(b) && a + "|" + s == b + "|" + t
    ensures a == b && s == t
  {
    var u, v := a + "|" + s, b + "|" + t;
    assert u[0] == (if a == "" then '|' else a[0]) && v[0] == (if b == "" then '|' else b[0]);
    if a == "" || b == "" {
      assert s == u[|a| + 1..] && t == v[|b| + 1..];
    } else {
      assert u[1..] == a[1..] + "|" + s && v[1..] == b[1..] + "|" + t;
      FirstField(a[1..], s, b[1..], t);
      assert a == [a[0]] + a[1..] && b == [b[0]] + b[1..];
    }
  }

  /** With no separator inside its three fields an instance owns its window keys, whatever the bucket names are. */
  lemma WindowKeyInjective(k: WindowKey, l: WindowKey)
    requires PipeFree(k.instance.adapterId) && PipeFree(k.instance.authIndex) && PipeFree(k.instance.fingerprint)
    requires PipeFree(l.instance.adapterId) && PipeFree(l.instance.authIndex) && PipeFree(l.instance.fingerprint)
    requires WindowText(k) == WindowText(l)
    ensures k == l
  {
    var k2, l2 := k.instance.fingerprint + "|" + k.bucketId, l.instance.fingerprint + "|" + l.bucketId;
    var k1, l1 := k.instance.authIndex + "|" + k2, l.instance.authIndex + "|" + l2;
    assert WindowText(k) == k.instance.adapterId + "|" + k1;
    assert WindowText(l) == l.instance.adapterId + "|" + l1;
    FirstField(k.instance.adapterId, k1, l.instance.adapterId, l1);
    FirstField(k.instance.authIndex, k2, l.instance.authIndex, l2);
    FirstField(k.instance.fingerprint, k.bucketId, l.instance.fingerprint, l.bucketId);
  }

  /** A separator inside an AuthIndex can make two credentials share a window key. */
  lemma PipeInAuthIndexCollides()
    ensures exists k: WindowKey, l: WindowKey :: k.instance != l.instance && WindowText(k) == WindowText(l)
  {
    var k := WindowKey(InstanceKey("codex", "a|f", "g"), "b");
    var l := WindowKey(InstanceKey("codex", "a", "f"), "g|b");
    assert WindowText(k) == "codex|a|f|g|b" == WindowText(l);
  }
}
