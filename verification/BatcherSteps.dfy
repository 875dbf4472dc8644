/** The batcher class implements the protocol's submit and tick steps. */
module BatcherSteps {
  import opened Buffering
  import opened FlushProtocol

  /** The launch of a taken batch: the newest batch of the state is exactly `bt`. */
  ghost predicate Launches(s: State, bt: Taken, who: Actor) {
    && |s.batches| > 0
    && var b := s.batches[|s.batches| - 1];
       && b.upserts == bt.upserts && b.deletes == bt.deletes && b.msgs == bt.msgs
       && b.prev == bt.prev && b.done == bt.done && b.launcher == who && b.phase.AwaitTurn?
  }

  /** Running `Submit` on the object is the protocol's submit step on the state it represents. */
  method SubmitStep(batcher: Batcher, sub: Submission, ghost c: Config, ghost s: State)
    returns (due: bool, bt: Taken, ghost s': State)
    requires batcher.Valid() && batcher.View() == s.buf && c.batchSize == batcher.batchSize
    requires Submitter !in s.blocked && (sub.msg.Some? ==> sub.msg.value.delivery !in s.seen)
    modifies batcher
    ensures Stepped(c, s, Action.Submit(sub, bt.upserts, bt.deletes), s')
    ensures batcher.Valid() && batcher.View() == s'.buf
    ensures if due then |s'.batches| == |s.batches| + 1 && Launches(s', bt, Submitter) else s'.batches == s.batches
  {
    due, bt := batcher.Submit(sub);
    SubmitIsStep(c, s, sub, due, bt, batcher.View());
    s' := Submitted(c, s, Action.Submit(sub, bt.upserts, bt.deletes));
  }

  /** What `Submit` promises of the buffer is what the step does to it. */
  lemma SubmitIsStep(c: Config, s: State, sub: Submission, due: bool, bt: Taken, after: Buffer)
    requires Submitter !in s.blocked && (sub.msg.Some? ==> sub.msg.value.delivery !in s.seen)
    requires SubOps(sub) == [] ==> !due && after == s.buf
    requires SubOps(sub) != [] ==>
               var full := Absorb(s.buf, sub);
               && (due <==> || |full.msgs| >= c.batchSize
                            || |set k | k in full.pending && full.pending[k].Upsert?| >= c.batchSize)
               && after == (if due then AfterTake(full) else full)
               && (due ==> Takes(full, bt))
    ensures var a := Action.Submit(sub, bt.upserts, bt.deletes);
            var s' := Submitted(c, s, a);
            && Stepped(c, s, a, s') && after == s'.buf
            && if due then |s'.batches| == |s.batches| + 1 && Launches(s', bt, Submitter) else s'.batches == s.batches
  {
    if SubOps(sub) != [] {
      assert Absorbed(s, sub).buf == Absorb(s.buf, sub);
    }
  }

  /** Running the ticker's `Flush` is the tick step, or nothing when the buffer is empty. */
  method TickStep(batcher: Batcher, ghost c: Config, ghost s: State)
    returns (due: bool, bt: Taken, ghost s': State)
    requires batcher.Valid() && batcher.View() == s.buf && Ticker !in s.blocked
    modifies batcher
    ensures if due then Stepped(c, s, Tick(bt.upserts, bt.deletes), s') && Launches(s', bt, Ticker) else s' == s
    ensures due <==> s.buf.msgs != [] || s.buf.pending != map[]
    ensures batcher.Valid() && batcher.View() == s'.buf
  {
    due, bt := batcher.Flush();
    s' := if due then Next(c, s, Tick(bt.upserts, bt.deletes)) else s;
  }

  /** A new object represents the initial buffer. */
  method NewBatcher(batchSize: int) returns (batcher: Batcher)
    ensures fresh(batcher) && batcher.Valid() && batcher.batchSize == batchSize
    ensures batcher.View() == Initial.buf
  {
    batcher := new Batcher(batchSize);
  }
}
