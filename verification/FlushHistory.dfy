/** What buffer and batches hold in terms of the submissions: each taken batch is the
    coalescing of one contiguous stretch of them, and the buffer of the rest. */
module FlushHistory {
  import opened Json
  import opened Ops
  import opened Buffering
  import opened FlushProtocol

  function OpsOf(subs: seq<Submission>): seq<Op> {
    if subs == [] then [] else OpsOf(subs[..|subs| - 1]) + SubOps(subs[|subs| - 1])
  }

  /** The deliveries trackMessage keeps of a stretch of submissions. */
  function Tracking(subs: seq<Submission>): seq<Msg> {
    if subs == [] then [] else TrackOpt(Tracking(subs[..|subs| - 1]), subs[|subs| - 1].msg)
  }

  lemma {:induction false} OpsOfConcat(a: seq<Submission>, b: seq<Submission>)
    ensures OpsOf(a + b) == OpsOf(a) + OpsOf(b)
    decreases |b|
  {
    if b == [] {
      assert a + b == a;
    } else {
      assert (a + b)[..|a + b| - 1] == a + b[..|b| - 1];
      OpsOfConcat(a, b[..|b| - 1]);
    }
  }

  /** The batch is the coalescing of submissions lo..hi, with their messages. */
  ghost predicate Carries(history: seq<Submission>, bt: Batch) {
    && bt.lo <= bt.hi <= |history|
    && KeyFunctional(BatchOps(bt))
    && Latest(BatchOps(bt)) == Latest(OpsOf(history[bt.lo..bt.hi]))
    && bt.msgs == Tracking(history[bt.lo..bt.hi])
  }

  ghost function Carried(history: seq<Submission>): iset<Batch> { iset bt | Carries(history, bt) }

  ghost predicate Holds(history: seq<Submission>, cut: nat, buf: Buffer) {
    && cut <= |history|
    && buf.pending == Latest(OpsOf(history[cut..])) && KeyedRight(buf.pending)
    && buf.msgs == Tracking(history[cut..])
  }

  ghost predicate Within<T>(xs: seq<T>, good: iset<T>) { forall i :: 0 <= i < |xs| ==> xs[i] in good }

  lemma WithinSet<T>(xs: seq<T>, good: iset<T>, i: nat, x: T)
    requires Within(xs, good) && i < |xs| && x in good
    ensures Within(xs[i := x], good)
  {}

  lemma WithinAppend<T>(xs: seq<T>, good: iset<T>, x: T)
    requires Within(xs, good) && x in good
    ensures Within(xs + [x], good)
  {}

  ghost predicate Loads(history: seq<Submission>, cut: nat, batches: seq<Batch>) {
    && Within(batches, Carried(history))
    && batches in Chains()
    && cut == if |batches| == 0 then 0 else batches[|batches| - 1].hi
  }

  ghost predicate HistInv(s: State) {
    Holds(s.history, s.cut, s.buf) && Loads(s.history, s.cut, s.batches)
  }

  /** Batch i starts where its predecessor ended. */
  ghost predicate Adjacent(batches: seq<Batch>, i: nat)
    requires i < |batches|
  {
    batches[i].lo == if i == 0 then 0 else batches[i - 1].hi
  }

  ghost predicate Chained(batches: seq<Batch>) {
    forall i :: 0 <= i < |batches| ==> Adjacent(batches, i)
  }

  ghost function Chains(): iset<seq<Batch>> { iset batches | Chained(batches) }

  predicate SameLoad(a: Batch, b: Batch) {
    && a.upserts == b.upserts && a.deletes == b.deletes && a.msgs == b.msgs
    && a.lo == b.lo && a.hi == b.hi && a.launcher == b.launcher
  }

  lemma CarriesSame(history: seq<Submission>, a: Batch, b: Batch)
    requires a in Carried(history) && SameLoad(a, b)
    ensures b in Carried(history)
  {
    assert Carries(history, a) && BatchOps(b) == BatchOps(a);
    assert Carries(history, b);
  }

  lemma LoadsSet(history: seq<Submission>, cut: nat, batches: seq<Batch>, b: nat, bt: Batch)
    requires Loads(history, cut, batches) && b < |batches| && SameLoad(batches[b], bt)
    ensures Loads(history, cut, batches[b := bt])
  {
    assert batches[b] in Carried(history);
    CarriesSame(history, batches[b], bt);
    WithinSet(batches, Carried(history), b, bt);
    ChainedSet(batches, b, bt);
  }

  lemma ChainedSet(batches: seq<Batch>, b: nat, bt: Batch)
    requires batches in Chains() && b < |batches| && SameLoad(batches[b], bt)
    ensures batches[b := bt] in Chains()
  {
    var batches' := batches[b := bt];
    assert Chained(batches);
    forall i | 0 <= i < |batches'| ensures Adjacent(batches', i) {
      assert Adjacent(batches, i);
    }
  }

  lemma LoadsTake(history: seq<Submission>, cut: nat, batches: seq<Batch>, bt: Batch)
    requires Loads(history, cut, batches) && bt in Carried(history) && bt.lo == cut
    ensures Loads(history, bt.hi, batches + [bt])
  {
    WithinAppend(batches, Carried(history), bt);
    ChainedTake(batches, cut, bt);
  }

  lemma ChainedTake(batches: seq<Batch>, cut: nat, bt: Batch)
    requires batches in Chains() && bt.lo == cut == if |batches| == 0 then 0 else batches[|batches| - 1].hi
    ensures batches + [bt] in Chains()
  {
    var batches' := batches + [bt];
    assert Chained(batches);
    forall i | 0 <= i < |batches'| ensures Adjacent(batches', i) {
      if i < |batches| {
        assert Adjacent(batches, i);
      }
    }
  }

  lemma CarriesLonger(history: seq<Submission>, sub: Submission, bt: Batch)
    requires Carries(history, bt)
    ensures Carries(history + [sub], bt)
  {
    assert (history + [sub])[bt.lo..bt.hi] == history[bt.lo..bt.hi];
  }

  lemma LoadsAbsorb(history: seq<Submission>, cut: nat, batches: seq<Batch>, sub: Submission)
    requires Loads(history, cut, batches)
    ensures Loads(history + [sub], cut, batches)
  {
    forall i | 0 <= i < |batches| ensures Carries(history + [sub], batches[i]) {
      CarriesLonger(history, sub, batches[i]);
    }
  }

  lemma TakenCarries(history: seq<Submission>, cut: nat, buf: Buffer, bt: Batch)
    requires Holds(history, cut, buf) && Lists(bt.upserts, bt.deletes, buf.pending)
    requires bt.msgs == buf.msgs && bt.lo == cut && bt.hi == |history|
    ensures Carries(history, bt)
  {
    ListsIsLatest(bt.upserts, bt.deletes, buf.pending);
    assert history[cut..] == history[cut..|history|];
  }

  lemma HoldsAbsorb(history: seq<Submission>, cut: nat, buf: Buffer, sub: Submission)
    requires Holds(history, cut, buf)
    ensures Holds(history + [sub], cut, Absorb(buf, sub))
  {
    var tail, tail' := history[cut..], (history + [sub])[cut..];
    assert tail' == tail + [sub] && tail'[..|tail'| - 1] == tail;
    LatestConcat(OpsOf(tail), SubOps(sub));
    assert OpsOf(tail') == OpsOf(tail) + SubOps(sub);
    var pending := Absorb(buf, sub).pending;
    forall k | k in pending ensures OpKey(pending[k]) == k {
      LatestEntry(SubOps(sub), k);
    }
  }

  lemma HistTake(s: State, who: Actor, upserts: seq<UpsertOp>, deletes: seq<DeleteOp>)
    requires HistInv(s) && Lists(upserts, deletes, s.buf.pending)
    ensures HistInv(Take(s, who, upserts, deletes))
  {
    var s' := Take(s, who, upserts, deletes);
    var bt := s'.batches[|s.batches|];
    TakenCarries(s.history, s.cut, s.buf, bt);
    LoadsTake(s.history, s.cut, s.batches, bt);
    assert s'.history[s'.cut..] == [];
  }

  lemma HistAbsorb(s: State, sub: Submission)
    requires HistInv(s)
    ensures HistInv(Absorbed(s, sub))
  {
    HoldsAbsorb(s.history, s.cut, s.buf, sub);
    LoadsAbsorb(s.history, s.cut, s.batches, sub);
  }

  lemma HistSubmit(c: Config, s: State, a: Action)
    requires HistInv(s) && a.Submit?
    requires SubOps(a.sub) != [] && Due(c.batchSize, Absorb(s.buf, a.sub)) ==>
               Lists(a.upserts, a.deletes, Absorb(s.buf, a.sub).pending)
    ensures HistInv(Submitted(c, s, a))
  {
    if SubOps(a.sub) != [] {
      var full := Absorbed(s, a.sub);
      HistAbsorb(s, a.sub);
      if Due(c.batchSize, full.buf) {
        HistTake(full, Submitter, a.upserts, a.deletes);
      }
    }
  }

  lemma HistInit()
    ensures HistInv(Initial)
  {}

  lemma MovedSameLoad(bt: Batch, a: Action)
    requires IsMove(a)
    ensures SameLoad(bt, Moved(bt, a))
  {}

  lemma HistMove(c: Config, s: State, a: Action)
    requires HistInv(s) && IsMove(a) && MoveEnabled(c, s, a)
    ensures HistInv(MoveTo(s, a))
  {
    MovedSameLoad(s.batches[a.b], a);
    LoadsSet(s.history, s.cut, s.batches, a.b, Moved(s.batches[a.b], a));
  }

  lemma HistCall(c: Config, s: State, a: Action)
    requires HistInv(s) && IsCall(a) && CallEnabled(c, s, a)
    ensures HistInv(CallTo(c, s, a))
  {
    LoadsSet(s.history, s.cut, s.batches, a.b, CallTo(c, s, a).batches[a.b]);
  }

  lemma HistStep(c: Config, s: State, a: Action)
    requires HistInv(s) && Enabled(c, s, a)
    ensures HistInv(Next(c, s, a))
  {
    if IsMove(a) {
      HistMove(c, s, a);
    } else if IsCall(a) {
      HistCall(c, s, a);
    } else if a.Submit? {
      HistSubmit(c, s, a);
    } else if a.Tick? {
      HistTake(s, Ticker, a.upserts, a.deletes);
    }
  }

  // ---- a message's operations travel with it -----------------------------------------------

  /** Where the operation that decides `k` in a stretch of submissions comes from. */
  lemma {:induction false} LatestSource(subs: seq<Submission>, i: nat, op: Op) returns (j: nat)
    requires i < |subs| && op in SubOps(subs[i])
    ensures OpKey(op) in Latest(OpsOf(subs))
    ensures i <= j < |subs| && Latest(OpsOf(subs))[OpKey(op)] in SubOps(subs[j])
  {
    var init, last := subs[..|subs| - 1], subs[|subs| - 1];
    var k := OpKey(op);
    LatestConcat(OpsOf(init), SubOps(last));
    LatestEntry(SubOps(last), k);
    if k in Latest(SubOps(last)) {
      j := |subs| - 1;
    } else {
      assert i < |init|;
      j := LatestSource(init, i, op);
    }
  }

  lemma {:induction false} TrackingSource(subs: seq<Submission>, m: Msg)
    requires m in Tracking(subs)
    ensures exists i :: 0 <= i < |subs| && subs[i].msg == Some(m)
  {
    var init, last := subs[..|subs| - 1], subs[|subs| - 1];
    if m in Tracking(init) {
      TrackingSource(init, m);
      var i :| 0 <= i < |init| && init[i].msg == Some(m);
      assert subs[i].msg == Some(m);
    } else {
      assert last.msg == Some(m);
    }
  }

  /** The batch that owns message m holds, for every operation submitted with m, that operation
      or one submitted with or after it for the same document in the same batch. */
  lemma MessageKeepsOps(s: State, b: nat, i: nat, op: Op) returns (kept: Op, j: nat)
    requires HistInv(s) && b < |s.batches| && s.batches[b].lo <= i < s.batches[b].hi
    requires op in SubOps(s.history[i])
    ensures kept in BatchOps(s.batches[b]) && OpKey(kept) == OpKey(op)
    ensures i <= j < s.batches[b].hi && kept in SubOps(s.history[j])
  {
    assert s.batches[b] in Carried(s.history);
    kept, j := KeptOp(s.history, s.batches[b], i, op);
  }

  lemma KeptOp(history: seq<Submission>, bt: Batch, i: nat, op: Op) returns (kept: Op, j: nat)
    requires Carries(history, bt) && bt.lo <= i < bt.hi && op in SubOps(history[i])
    ensures kept in BatchOps(bt) && OpKey(kept) == OpKey(op)
    ensures i <= j < bt.hi && kept in SubOps(history[j])
  {
    var subs := history[bt.lo..bt.hi];
    var k := LatestSource(subs, i - bt.lo, op);
    j := k + bt.lo;
    kept := Latest(OpsOf(subs))[OpKey(op)];
    assert subs[k] == history[j];
    LatestEntry(OpsOf(subs), OpKey(op));
    LatestEntry(BatchOps(bt), OpKey(op));
  }
}
