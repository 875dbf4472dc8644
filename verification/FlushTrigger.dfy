/** When a batch is taken: the buffer never holds a full batch, and the handler takes one only
    when it has enough messages or enough upserts. */
module FlushTrigger {
  import opened Ops
  import opened Buffering
  import opened FlushProtocol
  import opened FlushHistory
  import opened FlushTheorems
  import opened FlushRuns

  /** How many operations of the pending map are upserts. */
  function UpsertCount(pending: map<string, Op>): nat { |set k | k in pending && pending[k].Upsert?| }

  ghost predicate Below(c: Config, buf: Buffer) {
    |buf.msgs| < c.batchSize && UpsertCount(buf.pending) < c.batchSize
  }

  /** A batch the handler launched is full; one the ticker launched is not. */
  ghost predicate Triggered(c: Config, bt: Batch) {
    bt.launcher.Submitter? <==> |bt.msgs| >= c.batchSize || |bt.upserts| >= c.batchSize
  }

  ghost predicate TriggerInv(c: Config, s: State) {
    Below(c, s.buf) && forall i :: 0 <= i < |s.batches| ==> Triggered(c, s.batches[i])
  }

  /** The upserts of a batch are the pending ones, each once. */
  lemma {:induction false} ListedCount(upserts: seq<UpsertOp>, deletes: seq<DeleteOp>, pending: map<string, Op>)
    requires Lists(upserts, deletes, pending) && KeyedRight(pending)
    ensures |upserts| == UpsertCount(pending)
  {
    var keys := set k | k in pending && pending[k].Upsert?;
    var ops: seq<Op> := deletes + upserts;
    assert forall i :: 0 <= i < |upserts| ==> ops[|deletes| + i] == upserts[i];
    forall k | k in keys ensures exists i :: 0 <= i < |upserts| && OpKey(upserts[i]) == k {
      assert pending[k] in ops;
      var j :| 0 <= j < |ops| && ops[j] == pending[k];
      assert j >= |deletes| && OpKey(upserts[j - |deletes|]) == k;
    }
    CountKeys(upserts, keys);
  }

  /** Distinct keys that make up a set are as many as the set. */
  lemma {:induction false} CountKeys(ops: seq<UpsertOp>, keys: set<string>)
    requires forall i, j :: 0 <= i < j < |ops| ==> OpKey(ops[i]) != OpKey(ops[j])
    requires forall i :: 0 <= i < |ops| ==> OpKey(ops[i]) in keys
    requires forall k :: k in keys ==> exists i :: 0 <= i < |ops| && OpKey(ops[i]) == k
    ensures |ops| == |keys|
  {
    if ops == [] {
      assert keys == {};
    } else {
      var init, last := ops[..|ops| - 1], OpKey(ops[|ops| - 1]);
      forall k | k in keys - {last} ensures exists i :: 0 <= i < |init| && OpKey(init[i]) == k {
        var i :| 0 <= i < |ops| && OpKey(ops[i]) == k;
        assert init[i] == ops[i];
      }
      CountKeys(init, keys - {last});
    }
  }

  lemma TriggerTake(c: Config, s: State, who: Actor, upserts: seq<UpsertOp>, deletes: seq<DeleteOp>)
    requires ConfigOk(c) && Lists(upserts, deletes, s.buf.pending) && KeyedRight(s.buf.pending)
    requires forall i :: 0 <= i < |s.batches| ==> Triggered(c, s.batches[i])
    requires who.Submitter? <==> !Below(c, s.buf)
    ensures TriggerInv(c, Take(s, who, upserts, deletes))
  {
    ListedCount(upserts, deletes, s.buf.pending);
    var s' := Take(s, who, upserts, deletes);
    assert UpsertCount(s'.buf.pending) == 0;
    forall i | 0 <= i < |s'.batches| ensures Triggered(c, s'.batches[i]) {
      assert i < |s.batches| ==> s'.batches[i] == s.batches[i];
    }
  }

  lemma TriggerSubmit(c: Config, s: State, a: Action)
    requires ConfigOk(c) && TriggerInv(c, s) && KeyedRight(s.buf.pending) && a.Submit? && Enabled(c, s, a)
    ensures TriggerInv(c, Submitted(c, s, a))
  {
    if SubOps(a.sub) != [] {
      KeyedAbsorb(s.buf, a.sub);
      var full := Absorbed(s, a.sub);
      assert UpsertKeys(full.buf.pending) == set k | k in full.buf.pending && full.buf.pending[k].Upsert?;
      if Due(c.batchSize, full.buf) {
        TriggerTake(c, full, Submitter, a.upserts, a.deletes);
      }
    }
  }

  lemma TriggerKept(c: Config, s: State, a: Action)
    requires TriggerInv(c, s) && Enabled(c, s, a) && !a.Submit? && !a.Tick?
    ensures TriggerInv(c, Next(c, s, a))
  {
    if IsMove(a) {
      MovedSameLoad(s.batches[a.b], a);
    }
  }

  lemma TriggerStep(c: Config, s: State, a: Action)
    requires ConfigOk(c) && TriggerInv(c, s) && KeyedRight(s.buf.pending) && Enabled(c, s, a)
    ensures TriggerInv(c, Next(c, s, a))
  {
    if a.Submit? {
      TriggerSubmit(c, s, a);
    } else if a.Tick? {
      TriggerTake(c, s, Ticker, a.upserts, a.deletes);
    } else {
      TriggerKept(c, s, a);
    }
  }

  ghost function TriggerOk(c: Config): iset<State> { iset s | TriggerInv(c, s) }

  lemma TriggerNext(c: Config, s: State, a: Action, s': State)
    requires ConfigOk(c) && s in Runs(c) && s in TriggerOk(c) && Stepped(c, s, a, s')
    ensures s' in TriggerOk(c)
  {
    ReachableInv(c, s);
    TriggerStep(c, s, a);
    assert TriggerInv(c, s');
  }

  lemma TriggerRun(c: Config, s: State)
    requires Reachable(c, s)
    ensures s in TriggerOk(c)
  {
    assert UpsertCount(Initial.buf.pending) == 0;
    assert TriggerInv(c, Initial);
    forall p, q ensures Keeps(c, TriggerOk(c), p, q) {
      if (p, q) in Steps(c) && p in Runs(c) && p in TriggerOk(c) {
        var a := StepOf(c, p, q);
        TriggerNext(c, p, a, q);
      }
    }
    Always(c, TriggerOk(c), s);
  }

  /** In every reachable state the buffer holds fewer messages and fewer pending upserts than a
      batch, and a taken batch has enough of either exactly when the handler took it; deletes
      alone never make it take one. */
  lemma TakenWhenFull(c: Config, s: State)
    requires Reachable(c, s)
    ensures |s.buf.msgs| < c.batchSize
    ensures |set k | k in s.buf.pending && s.buf.pending[k].Upsert?| < c.batchSize
    ensures forall i :: 0 <= i < |s.batches| ==>
              (s.batches[i].launcher.Submitter? <==>
                 |s.batches[i].msgs| >= c.batchSize || |s.batches[i].upserts| >= c.batchSize)
  {
    TriggerRun(c, s);
    forall i | 0 <= i < |s.batches| ensures Triggered(c, s.batches[i]) {}
  }
}
