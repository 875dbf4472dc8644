/** Enqueue order. An earlier-taken batch has finished all its enqueue calls before a later
    one starts any, unless a batch between them was abandoned while still awaiting its turn. */
module FlushOrder {
  import opened FlushProtocol
  import opened FlushChain
  import opened FlushCalls

  /** Some batch strictly between i and j gave up before its predecessor had enqueued. */
  ghost predicate SkippedBetween(s: State, i: nat, j: nat) {
    exists k :: i < k < j && k < |s.batches| && s.batches[k].phase == Abandoned(true)
  }

  /** Having had one's turn means that the whole chain behind has passed, up to the last skip. */
  lemma {:induction false} ChainBehind(s: State, i: nat, j: nat)
    requires ChainInv(s) && i < j < |s.batches| && HadTurn(s.batches[j])
    ensures Passed(s.batches[i]) || SkippedBetween(s, i, j)
    decreases j
  {
    assert LinkOk(s.closed, j, s.batches[j]);
    assert LinkOk(s.closed, j - 1, s.batches[j - 1]);
    if i < j - 1 {
      if HadTurn(s.batches[j - 1]) {
        ChainBehind(s, i, j - 1);
        if SkippedBetween(s, i, j - 1) {
          var k :| i < k < j - 1 && s.batches[k].phase == Abandoned(true);
        }
      } else {
        assert s.batches[j - 1].phase == Abandoned(true);
      }
    }
  }

  /** All enqueue calls of batch i have returned before any call of a later batch j begins. */
  lemma CallsInTurn(c: Config, s: State, i: nat, j: nat, g: nat, h: nat)
    requires ChainInv(s) && CallsInv(c, s) && i < j && HasGroup(s, i, g) && HasGroup(s, j, h)
    requires !SkippedBetween(s, i, j)
    ensures Returned(s.batches[i].groups[g]) && Passed(s.batches[i])
  {
    assert BatchOk(c, s.log, j, s.batches[j]);
    assert BatchOk(c, s.log, i, s.batches[i]);
    ChainBehind(s, i, j);
    assert s.batches[i].groups[g] in s.batches[i].groups;
  }

  /** The backend's queue is in take order, except across a skipped batch. */
  ghost predicate OrderInv(s: State) {
    forall p, q :: 0 <= p < q < |s.log| && s.log[q].batch < s.log[p].batch ==>
      SkippedBetween(s, s.log[q].batch, s.log[p].batch)
  }

  lemma OrderKept(s: State, s': State)
    requires OrderInv(s) && |s'.log| == |s.log| && Extends(s.log, s'.log)
    requires |s.batches| <= |s'.batches|
    requires forall k :: 0 <= k < |s.batches| && s.batches[k].phase == Abandoned(true) ==> s'.batches[k].phase == Abandoned(true)
    ensures OrderInv(s')
  {
    forall p, q | 0 <= p < q < |s'.log| && s'.log[q].batch < s'.log[p].batch
      ensures SkippedBetween(s', s'.log[q].batch, s'.log[p].batch)
    {
      assert s'.log[p].(status := s.log[p].status) == s.log[p];
      assert s'.log[q].(status := s.log[q].status) == s.log[q];
      assert SkippedBetween(s, s.log[q].batch, s.log[p].batch);
      var k :| s.log[q].batch < k < s.log[p].batch && k < |s.batches| && s.batches[k].phase == Abandoned(true);
    }
  }

  /** While a batch has a call running, whatever later batches put in the queue is behind a skip. */
  lemma NothingLater(c: Config, s: State, b: nat, g: nat, p: nat)
    requires ChainInv(s) && CallsInv(c, s) && HasGroup(s, b, g) && !Returned(s.batches[b].groups[g])
    requires p < |s.log| && s.log[p].batch > b
    ensures SkippedBetween(s, b, s.log[p].batch)
  {
    assert TaskOk(s, p);
    if !SkippedBetween(s, b, s.log[p].batch) {
      CallsInTurn(c, s, b, s.log[p].batch, g, s.log[p].group);
    }
  }

  lemma SkipsStay(s: State, s': State, i: nat, j: nat)
    requires |s.batches| <= |s'.batches| && SkippedBetween(s, i, j)
    requires forall k :: 0 <= k < |s.batches| ==> s'.batches[k].phase == s.batches[k].phase
    ensures SkippedBetween(s', i, j)
  {
    var k :| i < k < j && k < |s.batches| && s.batches[k].phase == Abandoned(true);
    assert s'.batches[k].phase == s.batches[k].phase;
  }

  lemma OrderCall(c: Config, s: State, a: Action)
    requires ChainInv(s) && CallsInv(c, s) && OrderInv(s) && IsCall(a) && CallEnabled(c, s, a)
    ensures OrderInv(CallTo(c, s, a))
  {
    var s' := CallTo(c, s, a);
    forall p, q | 0 <= p < q < |s'.log| && s'.log[q].batch < s'.log[p].batch
      ensures SkippedBetween(s', s'.log[q].batch, s'.log[p].batch)
    {
      if q < |s.log| {
        assert SkippedBetween(s, s.log[q].batch, s.log[p].batch);
      } else {
        NothingLater(c, s, a.b, a.g, p);
      }
      SkipsStay(s, s', s'.log[q].batch, s'.log[p].batch);
    }
  }

  lemma OrderMove(c: Config, s: State, a: Action)
    requires OrderInv(s) && IsMove(a) && MoveEnabled(c, s, a)
    ensures OrderInv(MoveTo(s, a))
  {
    OrderKept(s, MoveTo(s, a));
  }

  lemma OrderStep(c: Config, s: State, a: Action)
    requires ChainInv(s) && CallsInv(c, s) && OrderInv(s) && Enabled(c, s, a)
    ensures OrderInv(Next(c, s, a))
  {
    if IsMove(a) {
      OrderMove(c, s, a);
    } else if IsCall(a) {
      OrderCall(c, s, a);
    } else {
      OrderKept(s, Next(c, s, a));
    }
  }
}
