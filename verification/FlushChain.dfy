/** The chain of enqueue turns: every batch waits on its predecessor's channel, every
    channel is closed at most once, and a batch's calls never overlap an earlier batch's. */
module FlushChain {
  import opened Ops
  import opened Buffering
  import opened FlushProtocol

  /** Batch i waits on channel i and owns channel i+1; a channel is closed exactly when its
      owner has passed, and only once. */
  ghost predicate ChainInv(s: State) {
    && s.buf.last == |s.batches| && s.buf.made == |s.batches| + 1
    && s.closed[0] == 1
    && (forall ch: nat :: ch > |s.batches| ==> s.closed[ch] == 0)
    && (forall i :: 0 <= i < |s.batches| ==> LinkOk(s.closed, i, s.batches[i]))
  }

  ghost predicate LinkOk(closed: multiset<nat>, i: nat, b: Batch) {
    && b.prev == i && b.done == i + 1
    && closed[i + 1] == (if Passed(b) then 1 else 0)
    && (HadTurn(b) ==> closed[i] == 1)
  }

  /** Replacing batch b, and closing its channel if it has just passed, keeps the chain. */
  lemma ChainSet(s: State, s': State, b: nat)
    requires ChainInv(s) && b < |s.batches| == |s'.batches|
    requires s'.batches == s.batches[b := s'.batches[b]]
    requires s'.buf.last == s.buf.last && s'.buf.made == s.buf.made
    requires s'.batches[b].prev == s.batches[b].prev && s'.batches[b].done == s.batches[b].done
    requires HadTurn(s'.batches[b]) ==> HadTurn(s.batches[b]) || s.batches[b].prev in s.closed
    requires Passed(s.batches[b]) ==> Passed(s'.batches[b])
    requires s'.closed == if Passed(s'.batches[b]) && !Passed(s.batches[b])
                          then s.closed + multiset{s.batches[b].done} else s.closed
    ensures ChainInv(s')
  {
    assert LinkOk(s.closed, b, s.batches[b]);
    assert s.closed[b] <= 1 by {
      if b > 0 {
        assert LinkOk(s.closed, b - 1, s.batches[b - 1]);
      }
    }
    forall i | 0 <= i < |s'.batches| ensures LinkOk(s'.closed, i, s'.batches[i]) {
      assert LinkOk(s.closed, i, s.batches[i]);
    }
  }

  lemma ChainTake(s: State, who: Actor, upserts: seq<UpsertOp>, deletes: seq<DeleteOp>)
    requires ChainInv(s)
    ensures ChainInv(Take(s, who, upserts, deletes))
  {
    var s' := Take(s, who, upserts, deletes);
    forall i | 0 <= i < |s'.batches| ensures LinkOk(s'.closed, i, s'.batches[i]) {
      if i < |s.batches| {
        assert LinkOk(s.closed, i, s.batches[i]);
      }
    }
  }

  lemma ChainSame(s: State, s': State)
    requires ChainInv(s) && s'.batches == s.batches && s'.closed == s.closed
    requires s'.buf.last == s.buf.last && s'.buf.made == s.buf.made
    ensures ChainInv(s')
  {
    forall i | 0 <= i < |s'.batches| ensures LinkOk(s'.closed, i, s'.batches[i]) {
      assert LinkOk(s.closed, i, s.batches[i]);
    }
  }

  lemma ChainMove(c: Config, s: State, a: Action)
    requires ChainInv(s) && IsMove(a) && MoveEnabled(c, s, a)
    ensures ChainInv(MoveTo(s, a))
  {
    assert LinkOk(s.closed, a.b, s.batches[a.b]);
    ChainSet(s, MoveTo(s, a), a.b);
  }

  lemma ChainStep(c: Config, s: State, a: Action)
    requires ChainInv(s) && Enabled(c, s, a)
    ensures ChainInv(Next(c, s, a))
  {
    var s' := Next(c, s, a);
    if IsMove(a) {
      ChainMove(c, s, a);
    } else if IsCall(a) {
      ChainSet(s, s', a.b);
    } else if a.Submit? {
      if SubOps(a.sub) != [] {
        ChainSame(s, Absorbed(s, a.sub));
        ChainTake(Absorbed(s, a.sub), Submitter, a.upserts, a.deletes);
      }
    } else if a.Tick? {
      ChainTake(s, Ticker, a.upserts, a.deletes);
    } else {
      ChainSame(s, s');
    }
  }
}
