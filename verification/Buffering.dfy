/** The batcher's buffer: the state guarded by `Batcher.mu`, as a value with the
    specification of submitting and taking, and as the class that updates it in place. */
module Buffering {
  import opened Json
  import opened Ops

  /** One JetStream delivery. `streamSeq` is None when its metadata cannot be read. */
  datatype Msg = Msg(delivery: nat, streamSeq: Option<nat>)

  /** The arguments of one `Submit` call. */
  datatype Submission = Submission(msg: Option<Msg>, upserts: seq<UpsertOp>, deletes: seq<DeleteOp>)

  /** The operations of a submission in the order they are buffered: deletes first. */
  function SubOps(sub: Submission): seq<Op> { sub.deletes + sub.upserts }

  /** `last` is the done channel of the batch taken most recently; `made` counts channels made so far. */
  datatype Buffer = Buffer(pending: map<string, Op>, msgs: seq<Msg>, last: nat, made: nat)

  /** A taken batch, with the channels of its enqueue turn. */
  datatype Taken = Taken(upserts: seq<UpsertOp>, deletes: seq<DeleteOp>, msgs: seq<Msg>, prev: nat, done: nat)

  function UpsertKeys(pending: map<string, Op>): set<string> {
    set k | k in pending && pending[k].Upsert?
  }

  function Seqs(msgs: seq<Msg>): set<nat> {
    set m | m in msgs && m.streamSeq.Some? :: m.streamSeq.value
  }

  /** Messages are tracked once per stream sequence; an unreadable one always counts as new. */
  function Track(msgs: seq<Msg>, m: Msg): seq<Msg> {
    if m.streamSeq.Some? && m.streamSeq.value in Seqs(msgs) then msgs else msgs + [m]
  }

  function TrackOpt(msgs: seq<Msg>, m: Option<Msg>): seq<Msg> {
    if m.Some? then Track(msgs, m.value) else msgs
  }

  function Absorb(buf: Buffer, sub: Submission): Buffer {
    buf.(pending := buf.pending + Latest(SubOps(sub)), msgs := TrackOpt(buf.msgs, sub.msg))
  }

  predicate Due(batchSize: int, buf: Buffer) {
    |buf.msgs| >= batchSize || |UpsertKeys(buf.pending)| >= batchSize
  }

  /** The two lists hold every pending operation exactly once, in any order. */
  ghost predicate Lists(upserts: seq<UpsertOp>, deletes: seq<DeleteOp>, pending: map<string, Op>) {
    var ops: seq<Op> := deletes + upserts;
    && DistinctKeys(ops)
    && (forall op :: op in ops ==> OpKey(op) in pending && pending[OpKey(op)] == op)
    && (forall k :: k in pending ==> pending[k] in ops)
  }

  function AfterTake(buf: Buffer): Buffer { Buffer(map[], [], buf.made, buf.made + 1) }

  ghost predicate Takes(buf: Buffer, bt: Taken) {
    && Lists(bt.upserts, bt.deletes, buf.pending)
    && bt.msgs == buf.msgs && bt.prev == buf.last && bt.done == buf.made
  }

  ghost predicate KeyedRight(pending: map<string, Op>) {
    forall k :: k in pending ==> OpKey(pending[k]) == k
  }

  lemma ListsIsLatest(upserts: seq<UpsertOp>, deletes: seq<DeleteOp>, pending: map<string, Op>)
    requires Lists(upserts, deletes, pending) && KeyedRight(pending)
    ensures Latest(deletes + upserts) == pending
    ensures KeyFunctional(deletes + upserts)
  {
    var ops: seq<Op> := deletes + upserts;
    forall k ensures (k in Latest(ops) <==> k in pending) && (k in pending ==> Latest(ops)[k] == pending[k]) {
      LatestEntry(ops, k);
      if k in pending {
        assert pending[k] in ops;
      }
    }
  }

  lemma KeyedAbsorb(buf: Buffer, sub: Submission)
    requires KeyedRight(buf.pending)
    ensures KeyedRight(Absorb(buf, sub).pending)
  {
    forall k | k in Absorb(buf, sub).pending ensures OpKey(Absorb(buf, sub).pending[k]) == k {
      LatestEntry(SubOps(sub), k);
    }
  }

  lemma UpsertKeysPut(pending: map<string, Op>, op: Op)
    ensures |UpsertKeys(pending[OpKey(op) := op])|
         == |UpsertKeys(pending)|
            - (if OpKey(op) in pending && pending[OpKey(op)].Upsert? then 1 else 0)
            + (if op.Upsert? then 1 else 0)
  {
    var k := OpKey(op);
    var rest := UpsertKeys(pending) - {k};
    if k in pending && pending[k].Upsert? {
      assert UpsertKeys(pending) == rest + {k};
    } else {
      assert UpsertKeys(pending) == rest;
    }
    if op.Upsert? {
      assert UpsertKeys(pending[k := op]) == rest + {k};
    } else {
      assert UpsertKeys(pending[k := op]) == rest;
    }
  }

  lemma UpsertKeysBounded(pending: map<string, Op>)
    ensures |UpsertKeys(pending)| <= |pending|
  {
    SubsetCard(UpsertKeys(pending), pending.Keys);
  }

  lemma SubsetCard<T>(a: set<T>, b: set<T>)
    requires a <= b
    ensures |a| <= |b|
  {
    assert b == a + (b - a);
  }

  /** Splits the pending map into its upserts and its deletes, visiting it in arbitrary order. */
  method ListPending(pending: map<string, Op>) returns (upserts: seq<UpsertOp>, deletes: seq<DeleteOp>)
    requires KeyedRight(pending)
    ensures Lists(upserts, deletes, pending)
  {
    upserts, deletes := [], [];
    var remaining := pending.Keys;
    while remaining != {}
      invariant remaining <= pending.Keys
      invariant forall op :: op in upserts ==> Visited(op, pending, remaining)
      invariant forall op :: op in deletes ==> Visited(op, pending, remaining)
      invariant forall k :: k in pending && k !in remaining ==> pending[k] in deletes + upserts
      invariant DistinctKeys(upserts) && DistinctKeys(deletes)
      decreases remaining
    {
      var key :| key in remaining;
      var op := pending[key];
      assert OpKey(op) == key;
      if op.Delete? {
        DistinctAppend(deletes, op);
        deletes := deletes + [op];
      } else {
        DistinctAppend(upserts, op);
        upserts := upserts + [op];
      }
      remaining := remaining - {key};
    }
    DistinctConcat(deletes, upserts);
  }

  /** The mutable fields of the Go `Batcher` that its mutex guards. */
  class Batcher {
    const batchSize: int
    var pending: map<string, Op>
    var pendingUpserts: int
    var msgs: seq<Msg>
    var msgSeqs: set<nat>
    var lastEnqueue: nat
    var channels: nat

    ghost predicate Valid()
      reads this
    {
      && pendingUpserts == |UpsertKeys(pending)|
      && msgSeqs == Seqs(msgs)
      && KeyedRight(pending)
    }

    ghost function View(): Buffer
      reads this
    {
      Buffer(pending, msgs, lastEnqueue, channels)
    }

    constructor (batchSize: int)
      ensures Valid() && this.batchSize == batchSize
      ensures View() == Buffer(map[], [], 0, 1)
    {
      this.batchSize := batchSize;
      pending, pendingUpserts := map[], 0;
      msgs, msgSeqs := [], {};
      lastEnqueue, channels := 0, 1;
    }

    /** Records `op` as the latest operation for its document. */
    method SetPending(op: Op)
      requires Valid()
      modifies this`pending, this`pendingUpserts
      ensures Valid()
      ensures pending == old(pending)[OpKey(op) := op]
    {
      UpsertKeysPut(pending, op);
      var key := Key(op.index, OpId(op));
      if key in pending && !pending[key].Delete? {
        pendingUpserts := pendingUpserts - 1;
      }
      if !op.Delete? {
        pendingUpserts := pendingUpserts + 1;
      }
      pending := pending[key := op];
    }

    method SetAll(ops: seq<Op>)
      requires Valid()
      modifies this`pending, this`pendingUpserts
      ensures Valid()
      ensures pending == old(pending) + Latest(ops)
    {
      ghost var start := pending;
      for i := 0 to |ops|
        invariant Valid() && pending == start + Latest(ops[..i])
      {
        LatestStep(start, ops, i);
        SetPending(ops[i]);
      }
      assert ops[..|ops|] == ops;
    }

    method TrackMessage(msg: Msg)
      requires Valid()
      modifies this`msgs, this`msgSeqs
      ensures Valid()
      ensures msgs == Track(old(msgs), msg)
      ensures msg.streamSeq.Some? && (exists m :: m in old(msgs) && m.streamSeq == msg.streamSeq) ==> msgs == old(msgs)
      ensures msg.streamSeq.None? || (forall m :: m in old(msgs) ==> m.streamSeq != msg.streamSeq) ==> msgs == old(msgs) + [msg]
    {
      TrackMeans(msgs, msg);
      if msg.streamSeq.None? {
        msgs := msgs + [msg];
        assert Seqs(msgs) == Seqs(old(msgs));
        return;
      }
      var seqNo := msg.streamSeq.value;
      if seqNo in msgSeqs {
        return;
      }
      msgSeqs := msgSeqs + {seqNo};
      msgs := msgs + [msg];
      assert Seqs(msgs) == Seqs(old(msgs)) + {seqNo} by {
        assert msg in msgs;
        assert forall m :: m in msgs <==> m in old(msgs) || m == msg;
      }
    }

    /** Captures and resets the buffer and reserves the batch's place in the enqueue order. */
    method TakeBatch() returns (bt: Taken)
      requires Valid()
      modifies this
      ensures Valid()
      ensures Takes(old(View()), bt)
      ensures View() == AfterTake(old(View()))
    {
      UpsertKeysBounded(pending);
      assert 0 <= pendingUpserts <= |pending|;  // neither `make` capacity is negative
      var upserts, deletes := ListPending(pending);
      bt := Taken(upserts, deletes, msgs, lastEnqueue, channels);
      lastEnqueue, channels := channels, channels + 1;
      pending, pendingUpserts := map[], 0;
      msgs, msgSeqs := [], {};
    }

    /** Buffers the deletes and then the upserts, so that within one message a match wins. */
    method BufferOps(sub: Submission)
      requires Valid()
      modifies this`pending, this`pendingUpserts
      ensures Valid()
      ensures pending == old(pending) + Latest(SubOps(sub))
      ensures forall i :: 0 <= i < |sub.upserts| && NoneLater(sub.upserts, i) ==>
                Lookup(pending, OpKey(sub.upserts[i])) == Some(sub.upserts[i])
      ensures forall i :: 0 <= i < |sub.deletes| && NoneLater(sub.deletes, i) && Untouched(sub.upserts, OpKey(sub.deletes[i])) ==>
                Lookup(pending, OpKey(sub.deletes[i])) == Some(sub.deletes[i])
      ensures forall k :: Untouched(sub.deletes, k) && Untouched(sub.upserts, k) ==> Lookup(pending, k) == Lookup(old(pending), k)
    {
      SetAll(sub.deletes);
      SetAll(sub.upserts);
      AbsorbInOrder(old(pending), sub);
      UpsertsWin(old(pending), sub);
    }

    /** Buffers everything one message brings. */
    method AbsorbAll(sub: Submission)
      requires Valid()
      modifies this`pending, this`pendingUpserts, this`msgs, this`msgSeqs
      ensures Valid() && View() == Absorb(old(View()), sub)
    {
      BufferOps(sub);
      if sub.msg.Some? {
        TrackMessage(sub.msg.value);
      }
    }

    /** Buffers every operation of one message, then takes the batch if it became due. */
    method Submit(sub: Submission) returns (due: bool, bt: Taken)
      requires Valid()
      modifies this
      ensures Valid()
      ensures SubOps(sub) == [] ==> !due && View() == old(View())
      ensures SubOps(sub) != [] ==>
                var full := Absorb(old(View()), sub);
                && (due <==> || |full.msgs| >= batchSize
                             || |set k | k in full.pending && full.pending[k].Upsert?| >= batchSize)
                && View() == (if due then AfterTake(full) else full)
                && (due ==> Takes(full, bt))
    {
      due, bt := false, Taken([], [], [], 0, 0);
      if sub.upserts == [] && sub.deletes == [] {
        return;
      }
      AbsorbAll(sub);
      if |msgs| >= batchSize || pendingUpserts >= batchSize {
        bt := TakeBatch();
        due := true;
      }
    }

    /** The ticker's flush: takes whatever is buffered. */
    method Flush() returns (due: bool, bt: Taken)
      requires Valid()
      modifies this
      ensures Valid()
      ensures due == (old(View()).msgs != [] || old(View()).pending != map[])
      ensures View() == (if due then AfterTake(old(View())) else old(View()))
      ensures due ==> Takes(old(View()), bt)
    {
      due, bt := false, Taken([], [], [], 0, 0);
      if |msgs| == 0 && |pending| == 0 {
        return;
      }
      bt := TakeBatch();
      due := true;
    }
  }

  ghost predicate Visited(op: Op, pending: map<string, Op>, remaining: set<string>) {
    OpKey(op) in pending && OpKey(op) !in remaining && pending[OpKey(op)] == op
  }

  lemma DistinctAppend(ops: seq<Op>, op: Op)
    requires DistinctKeys(ops) && forall o :: o in ops ==> OpKey(o) != OpKey(op)
    ensures DistinctKeys(ops + [op])
  {
    forall i, j | 0 <= i < j < |ops + [op]| ensures OpKey((ops + [op])[i]) != OpKey((ops + [op])[j]) {
      assert ops[i] in ops;
    }
  }

  lemma DistinctConcat(a: seq<Op>, b: seq<Op>)
    requires DistinctKeys(a) && DistinctKeys(b)
    requires forall x, y :: x in a && y in b ==> OpKey(x) != OpKey(y)
    ensures DistinctKeys(a + b)
  {
    forall i, j | 0 <= i < j < |a + b| ensures OpKey((a + b)[i]) != OpKey((a + b)[j]) {
      if i < |a| <= j {
        assert a[i] in a && b[j - |a|] in b;
      }
    }
  }

  /** No later operation of the list has the key of operation i. */
  ghost predicate NoneLater(ops: seq<Op>, i: nat)
    requires i < |ops|
  {
    forall j :: i < j < |ops| ==> OpKey(ops[j]) != OpKey(ops[i])
  }

  ghost predicate Untouched(ops: seq<Op>, k: string) { forall op :: op in ops ==> OpKey(op) != k }

  lemma {:induction false} LatestIsLast(ops: seq<Op>, i: nat)
    requires i < |ops| && NoneLater(ops, i)
    ensures Lookup(Latest(ops), OpKey(ops[i])) == Some(ops[i])
  {
    if i < |ops| - 1 {
      LatestIsLast(ops[..|ops| - 1], i);
    }
  }

  lemma LatestUntouched(ops: seq<Op>, k: string)
    requires Untouched(ops, k)
    ensures k !in Latest(ops)
  {
    LatestEntry(ops, k);
  }

  /** The last upsert for a document wins; without one the last delete does; the rest stays. */
  lemma UpsertsWin(start: map<string, Op>, sub: Submission)
    ensures var after := start + Latest(SubOps(sub));
            && (forall i :: 0 <= i < |sub.upserts| && NoneLater(sub.upserts, i) ==>
                  Lookup(after, OpKey(sub.upserts[i])) == Some(sub.upserts[i]))
            && (forall i :: 0 <= i < |sub.deletes| && NoneLater(sub.deletes, i)
                            && Untouched(sub.upserts, OpKey(sub.deletes[i])) ==>
                  Lookup(after, OpKey(sub.deletes[i])) == Some(sub.deletes[i]))
            && (forall k :: Untouched(sub.deletes, k) && Untouched(sub.upserts, k) ==> Lookup(after, k) == Lookup(start, k))
  {
    LatestConcat(sub.deletes, sub.upserts);
    forall i | 0 <= i < |sub.upserts| && NoneLater(sub.upserts, i)
      ensures Lookup(Latest(sub.upserts), OpKey(sub.upserts[i])) == Some(sub.upserts[i])
    {
      LatestIsLast(sub.upserts, i);
    }
    forall i | 0 <= i < |sub.deletes| && NoneLater(sub.deletes, i)
      ensures Lookup(Latest(sub.deletes), OpKey(sub.deletes[i])) == Some(sub.deletes[i])
    {
      LatestIsLast(sub.deletes, i);
    }
    forall k | Untouched(sub.upserts, k) ensures k !in Latest(sub.upserts) {
      LatestUntouched(sub.upserts, k);
    }
    forall k | Untouched(sub.deletes, k) ensures k !in Latest(sub.deletes) {
      LatestUntouched(sub.deletes, k);
    }
  }

  /** A message is left out exactly when one with its readable sequence is already there. */
  lemma TrackMeans(msgs: seq<Msg>, m: Msg)
    ensures Track(msgs, m) == (if m.streamSeq.Some? && Sequenced(msgs, m.streamSeq.value) then msgs else msgs + [m])
  {}

  ghost predicate Sequenced(msgs: seq<Msg>, n: nat) { exists m :: m in msgs && m.streamSeq == Some(n) }

  lemma AbsorbInOrder(start: map<string, Op>, sub: Submission)
    ensures start + Latest(sub.deletes) + Latest(sub.upserts) == start + Latest(SubOps(sub))
  {
    LatestConcat(sub.deletes, sub.upserts);
    MergeAssoc(start, Latest(sub.deletes), Latest(sub.upserts));
  }

  lemma LatestStep(start: map<string, Op>, ops: seq<Op>, i: nat)
    requires i < |ops|
    ensures (start + Latest(ops[..i]))[OpKey(ops[i]) := ops[i]] == start + Latest(ops[..i + 1])
  {
    assert ops[..i + 1][..i] == ops[..i];
  }
}
