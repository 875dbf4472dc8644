/** Index operations, their buffer keys, and what a sequence of them leaves in the
    search backend. */
module Ops {
  import opened Json

  /** One document operation; the Go code's UpsertOp/DeleteOp and pendingOp. */
  datatype Op = Upsert(index: string, doc: Json) | Delete(index: string, id: string)

  type UpsertOp = op: Op | op.Upsert? witness Upsert("", Null)
  type DeleteOp = op: Op | op.Delete? witness Delete("", "")

  /** A document's identifier: its string "uid", or "" when it has none. */
  function DocId(doc: Json): string {
    if doc.Object? then StringAt(doc.fields, "uid") else ""
  }

  function OpId(op: Op): string {
    match op
    case Upsert(_, doc) => DocId(doc)
    case Delete(_, id) => id
  }

  function Key(index: string, id: string): string { index + "/" + id }

  function OpKey(op: Op): string { Key(op.index, OpId(op)) }

  // ---- what the backend holds -------------------------------------------------

  datatype Target = Target(index: string, id: string)

  type Contents = map<Target, Json>

  function TargetOf(op: Op): Target { Target(op.index, OpId(op)) }

  function ApplyOp(c: Contents, op: Op): Contents {
    match op
    case Upsert(_, doc) => c[TargetOf(op) := doc]
    case Delete(_, _) => c - {TargetOf(op)}
  }

  function ApplyOps(c: Contents, ops: seq<Op>): Contents {
    if ops == [] then c else ApplyOp(ApplyOps(c, ops[..|ops| - 1]), ops[|ops| - 1])
  }

  lemma {:induction false} ApplyOpsConcat(c: Contents, a: seq<Op>, b: seq<Op>)
    ensures ApplyOps(c, a + b) == ApplyOps(ApplyOps(c, a), b)
    decreases |b|
  {
    if b == [] {
      assert a + b == a;
    } else {
      var b' := b[..|b| - 1];
      assert (a + b)[..|a + b| - 1] == a + b';
      ApplyOpsConcat(c, a, b');
    }
  }

  // ---- the latest operation per key -------------------------------------------

  /** The coalescing map: the last operation in `ops` for every key. */
  function Latest(ops: seq<Op>): map<string, Op> {
    if ops == [] then map[] else Latest(ops[..|ops| - 1])[OpKey(ops[|ops| - 1]) := ops[|ops| - 1]]
  }

  lemma {:induction false} LatestConcat(a: seq<Op>, b: seq<Op>)
    ensures Latest(a + b) == Latest(a) + Latest(b)
    decreases |b|
  {
    if b == [] {
      assert a + b == a;
    } else {
      assert (a + b)[..|a + b| - 1] == a + b[..|b| - 1];
      LatestConcat(a, b[..|b| - 1]);
    }
  }

  lemma {:induction false} LatestEntry(ops: seq<Op>, k: string)
    ensures k in Latest(ops) <==> exists op :: op in ops && OpKey(op) == k
    ensures k in Latest(ops) ==> Latest(ops)[k] in ops && OpKey(Latest(ops)[k]) == k
  {
    if ops != [] {
      var init, last := ops[..|ops| - 1], ops[|ops| - 1];
      assert ops == init + [last];
      LatestEntry(init, k);
    }
  }

  /** Operations of `ops` that share a key are equal, so their order is irrelevant. */
  ghost predicate KeyFunctional(ops: seq<Op>) {
    forall a, b :: a in ops && b in ops && OpKey(a) == OpKey(b) ==> a == b
  }

  ghost predicate DistinctKeys(ops: seq<Op>) {
    forall i, j :: 0 <= i < j < |ops| ==> OpKey(ops[i]) != OpKey(ops[j])
  }

  /** Any two listings of the same key-functional operations coalesce alike. */
  lemma LatestBySet(a: seq<Op>, b: seq<Op>)
    requires KeyFunctional(a)
    requires forall op :: op in a <==> op in b
    ensures Latest(a) == Latest(b)
  {
    forall k ensures (k in Latest(a) <==> k in Latest(b)) && (k in Latest(a) ==> Latest(a)[k] == Latest(b)[k]) {
      LatestEntry(a, k);
      LatestEntry(b, k);
    }
  }

  lemma MergeAssoc<K, V>(a: map<K, V>, b: map<K, V>, c: map<K, V>)
    ensures a + b + c == a + (b + c)
  {}

  // ---- when string keys identify documents -------------------------------------

  /** No index name extends another one by a '/'. */
  ghost predicate Separable(names: set<string>) {
    forall a, b :: a in names && b in names ==> !(a + "/" <= b)
  }

  ghost predicate Over(ops: seq<Op>, names: set<string>) {
    forall op :: op in ops ==> op.index in names
  }

  /** Two indexes have colliding buffer keys exactly when one name extends the other by '/'. */
  lemma KeysCollide(i1: string, i2: string)
    requires i1 != i2
    ensures (exists d1, d2 :: Key(i1, d1) == Key(i2, d2)) <==> (i1 + "/" <= i2 || i2 + "/" <= i1)
  {
    if i1 + "/" <= i2 {
      assert Key(i1, i2[|i1| + 1..] + "/") == Key(i2, "");
    } else if i2 + "/" <= i1 {
      assert Key(i2, i1[|i2| + 1..] + "/") == Key(i1, "");
    }
    forall d1, d2 | Key(i1, d1) == Key(i2, d2) ensures i1 + "/" <= i2 || i2 + "/" <= i1 {
      KeyPrefix(i1, d1, i2, d2);
    }
  }

  lemma KeyPrefix(i1: string, d1: string, i2: string, d2: string)
    requires Key(i1, d1) == Key(i2, d2)
    ensures (i1 == i2 && d1 == d2) || i1 + "/" <= i2 || i2 + "/" <= i1
  {
    var k := Key(i1, d1);
    assert k[..|i1| + 1] == i1 + "/" && k[|i1| + 1..] == d1;
    assert k[..|i2| + 1] == i2 + "/" && k[|i2| + 1..] == d2;
    if |i1| == |i2| {
      assert i1 == (i1 + "/")[..|i1|] == (i2 + "/")[..|i2|] == i2;
    } else if |i1| < |i2| {
      assert i2 == k[..|i2|];
      assert i2[..|i1| + 1] == k[..|i1| + 1];
    } else {
      assert i1 == k[..|i1|];
      assert i1[..|i2| + 1] == k[..|i2| + 1];
    }
  }

  lemma KeyIdentifies(names: set<string>, s: Target, t: Target)
    requires Separable(names) && s.index in names && t.index in names
    requires Key(s.index, s.id) == Key(t.index, t.id)
    ensures s == t
  {
    KeyPrefix(s.index, s.id, t.index, t.id);
  }

  /** The document a coalescing map prescribes for a target. */
  function Prescribed(m: map<string, Op>, t: Target): Option<Json> {
    var k := Key(t.index, t.id);
    if k in m && m[k].Upsert? && TargetOf(m[k]) == t then Some(m[k].doc) else None
  }

  /** Under separable names, replaying operations leaves exactly what their coalescing map prescribes. */
  lemma {:induction false} ReplayIsPrescribed(names: set<string>, ops: seq<Op>, t: Target)
    requires Separable(names) && Over(ops, names)
    ensures Lookup(ApplyOps(map[], ops), t) == Prescribed(Latest(ops), t)
  {
    if ops != [] {
      var init, last := ops[..|ops| - 1], ops[|ops| - 1];
      assert ops == init + [last];
      ReplayIsPrescribed(names, init, t);
      if OpKey(last) == Key(t.index, t.id) && t.index in names {
        KeyIdentifies(names, TargetOf(last), t);
      } else if OpKey(last) == Key(t.index, t.id) {
        NeverTouched(init, t);
      }
    }
  }

  lemma {:induction false} NeverTouched(ops: seq<Op>, t: Target)
    requires forall op :: op in ops ==> op.index != t.index
    ensures t !in ApplyOps(map[], ops)
  {
    if ops != [] {
      assert ops == ops[..|ops| - 1] + [ops[|ops| - 1]];
      NeverTouched(ops[..|ops| - 1], t);
    }
  }

  /** Equal coalescing maps leave equal backend contents. */
  lemma SameLatestSameContents(names: set<string>, a: seq<Op>, b: seq<Op>)
    requires Separable(names) && Over(a, names) && Over(b, names)
    requires Latest(a) == Latest(b)
    ensures ApplyOps(map[], a) == ApplyOps(map[], b)
  {
    var x, y := ApplyOps(map[], a), ApplyOps(map[], b);
    forall t: Target ensures Lookup(x, t) == Lookup(y, t) {
      ReplayIsPrescribed(names, a, t);
      ReplayIsPrescribed(names, b, t);
    }
    SameLookups(x, y);
  }

  lemma SameLookups<K(!new), V>(x: map<K, V>, y: map<K, V>)
    requires forall t :: Lookup(x, t) == Lookup(y, t)
    ensures x == y
  {
    forall t ensures (t in x <==> t in y) && (t in x ==> x[t] == y[t]) {
      assert Lookup(x, t) == Lookup(y, t);
    }
  }

  /** `s` lists each entry of the coalescing map of `ops` once, in any order. */
  ghost predicate Coalesced(s: seq<Op>, ops: seq<Op>) {
    DistinctKeys(s) && Latest(s) == Latest(ops)
  }

  /** The buffer's coalescing never changes the outcome exactly when the index names are separable. */
  lemma CoalescingExact(names: set<string>)
    ensures (forall s, ops :: Over(ops, names) && Coalesced(s, ops) ==> ApplyOps(map[], s) == ApplyOps(map[], ops))
       <==> Separable(names)
  {
    if Separable(names) {
      forall s, ops | Over(ops, names) && Coalesced(s, ops)
        ensures ApplyOps(map[], s) == ApplyOps(map[], ops)
      {
        CoalescedOver(s, ops, names);
        SameLatestSameContents(names, s, ops);
      }
    } else {
      var a, b :| a in names && b in names && a + "/" <= b;
      CoalescingLoses(a, b);
      var first, second := Upsert(a, Named(b[|a| + 1..] + "/x")), Upsert(b, Named("x"));
      assert Over([first, second], names);
      assert Coalesced([second], [first, second]);
    }
  }

  lemma CoalescedOver(s: seq<Op>, ops: seq<Op>, names: set<string>)
    requires Coalesced(s, ops) && Over(ops, names)
    ensures Over(s, names)
  {
    forall i | 0 <= i < |s| ensures s[i].index in names {
      LatestOfDistinct(s, i);
      LatestEntry(ops, OpKey(s[i]));
    }
  }

  /** With distinct keys every operation is the latest for its own key. */
  lemma {:induction false} LatestOfDistinct(s: seq<Op>, i: nat)
    requires DistinctKeys(s) && i < |s|
    ensures OpKey(s[i]) in Latest(s) && Latest(s)[OpKey(s[i])] == s[i]
  {
    if i < |s| - 1 {
      LatestOfDistinct(s[..|s| - 1], i);
    }
  }

  function Named(uid: string): Json { Object(map["uid" := Str(uid)]) }

  /** The failing family: an index whose name extends another's by '/' can displace that index's upsert. */
  lemma CoalescingLoses(a: string, b: string)
    requires a + "/" <= b
    ensures var first, second := Upsert(a, Named(b[|a| + 1..] + "/x")), Upsert(b, Named("x"));
            Coalesced([second], [first, second]) && ApplyOps(map[], [second]) != ApplyOps(map[], [first, second])
  {
    var first, second := Upsert(a, Named(b[|a| + 1..] + "/x")), Upsert(b, Named("x"));
    assert b == a + "/" + b[|a| + 1..];
    assert OpKey(first) == OpKey(second);
    assert [first, second][..1] == [first] && [first][..0] == [] && [second][..0] == [];
    assert ApplyOps(map[], [first]) == ApplyOp(ApplyOps(map[], []), first);
    assert ApplyOps(map[], [first, second]) == ApplyOp(ApplyOps(map[], [first]), second);
    assert ApplyOps(map[], [second]) == ApplyOp(ApplyOps(map[], []), second);
    assert Latest([first, second]) == Latest([first])[OpKey(second) := second];
    assert Latest([first]) == Latest([])[OpKey(first) := first];
    assert Latest([second]) == Latest([])[OpKey(second) := second];
    assert TargetOf(first) in ApplyOps(map[], [first, second]);
    assert TargetOf(first) != TargetOf(second);
  }
}
