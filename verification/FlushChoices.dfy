/** What the surroundings of the protocol may do at any moment: submissions and ticks, shutdown,
    network answers, task results and waits. The safety results hold for all of it. */
module FlushChoices {
  import opened Ops
  import opened Buffering
  import opened SdkCall
  import opened FlushProtocol
  import opened FlushTheorems

  /** Some single step leads from s to s'. */
  ghost predicate MayBecome(c: Config, s: State, s': State) { exists a :: Stepped(c, s, a, s') }

  // ---- submitting and ticking --------------------------------------------------------------------

  lemma ListsWith(upserts: seq<UpsertOp>, deletes: seq<DeleteOp>, pending: map<string, Op>, k: string)
    requires k in pending && KeyedRight(pending) && Lists(upserts, deletes, pending - {k})
    ensures pending[k].Upsert? ==> Lists(upserts + [pending[k]], deletes, pending)
    ensures pending[k].Delete? ==> Lists(upserts, deletes + [pending[k]], pending)
  {
    var op := pending[k];
    assert OpKey(op) == k;
    var ops: seq<Op> := deletes + upserts;
    forall x | x in deletes || x in upserts ensures OpKey(x) != k {
      assert x in ops;
    }
    var rest := pending - {k};
    forall k' | k' in pending && k' != k ensures pending[k'] in ops {
      assert k' in rest && rest[k'] == pending[k'];
    }
    forall x | x in ops ensures OpKey(x) in pending && pending[OpKey(x)] == x {
      assert OpKey(x) in rest && rest[OpKey(x)] == x;
    }
    if op.Upsert? {
      DistinctInsert(ops, [], op);
      assert ops + [op] + [] == deletes + (upserts + [op]);
      ListsMore(deletes + (upserts + [op]), ops, op, pending);
    } else {
      DistinctInsert(deletes, upserts, op);
      ListsMore(deletes + [op] + upserts, ops, op, pending);
    }
  }

  lemma ListsMore(ops': seq<Op>, ops: seq<Op>, op: Op, pending: map<string, Op>)
    requires OpKey(op) in pending && pending[OpKey(op)] == op
    requires forall x :: x in ops' <==> x in ops || x == op
    requires forall x :: x in ops ==> OpKey(x) in pending && pending[OpKey(x)] == x
    requires forall k :: k in pending && k != OpKey(op) ==> pending[k] in ops
    ensures forall x :: x in ops' ==> OpKey(x) in pending && pending[OpKey(x)] == x
    ensures forall k :: k in pending ==> pending[k] in ops'
  {}

  lemma DistinctInsert(deletes: seq<Op>, upserts: seq<Op>, op: Op)
    requires DistinctKeys(deletes + upserts) && forall x :: x in deletes || x in upserts ==> OpKey(x) != OpKey(op)
    ensures DistinctKeys(deletes + [op] + upserts)
  {
    var ops, ops' := deletes + upserts, deletes + [op] + upserts;
    forall i, j | 0 <= i < j < |ops'| ensures OpKey(ops'[i]) != OpKey(ops'[j]) {
      var n := |deletes|;
      if i != n && j != n {
        assert ops'[i] == ops[if i < n then i else i - 1] && ops'[j] == ops[if j < n then j else j - 1];
      } else {
        assert i == n ==> ops'[j] in upserts;
        assert j == n ==> ops'[i] in deletes;
      }
    }
  }

  /** Every pending map can be listed. */
  lemma {:induction false} CanList(pending: map<string, Op>) returns (upserts: seq<UpsertOp>, deletes: seq<DeleteOp>)
    requires KeyedRight(pending)
    ensures Lists(upserts, deletes, pending)
    decreases pending.Keys
  {
    if pending == map[] {
      upserts, deletes := [], [];
    } else {
      var k :| k in pending;
      var ups, dels := CanList(pending - {k});
      upserts, deletes := ListsGrow(ups, dels, pending, k);
    }
  }

  lemma ListsGrow(upserts: seq<UpsertOp>, deletes: seq<DeleteOp>, pending: map<string, Op>, k: string)
    returns (upserts': seq<UpsertOp>, deletes': seq<DeleteOp>)
    requires k in pending && KeyedRight(pending) && Lists(upserts, deletes, pending - {k})
    ensures Lists(upserts', deletes', pending)
  {
    ListsWith(upserts, deletes, pending, k);
    if pending[k].Upsert? {
      upserts', deletes' := upserts + [pending[k]], deletes;
    } else {
      upserts', deletes' := upserts, deletes + [pending[k]];
    }
  }

  /** A handler that is not held up can submit anything that comes with a new delivery. */
  lemma CanSubmit(c: Config, s: State, sub: Submission) returns (s': State)
    requires Reachable(c, s) && Submitter !in s.blocked && SubOps(sub) != []
    requires sub.msg.Some? ==> sub.msg.value.delivery !in s.seen
    ensures MayBecome(c, s, s') && s'.history == s.history + [sub]
  {
    ReachableKeyed(c, s);
    KeyedAbsorb(s.buf, sub);
    var upserts, deletes := CanList(Absorb(s.buf, sub).pending);
    var a := Submit(sub, upserts, deletes);
    s' := Submitted(c, s, a);
    assert Stepped(c, s, a, s');
  }

  /** A ticker that is not held up can take a buffer that holds anything. */
  lemma CanTick(c: Config, s: State) returns (s': State)
    requires Reachable(c, s) && Ticker !in s.blocked && (s.buf.msgs != [] || s.buf.pending != map[])
    ensures MayBecome(c, s, s') && |s'.batches| == |s.batches| + 1
    ensures s'.buf.msgs == [] && s'.buf.pending == map[] && s'.batches[|s.batches|].msgs == s.buf.msgs
  {
    ReachableKeyed(c, s);
    var upserts, deletes := CanList(s.buf.pending);
    s' := Take(s, Ticker, upserts, deletes);
    assert Stepped(c, s, Tick(upserts, deletes), s');
  }

  // ---- shutdown -------------------------------------------------------------------------------------

  /** Shutdown can come at any time. */
  lemma CanShutDown(c: Config, s: State)
    ensures MayBecome(c, s, s.(cancelled := true))
  {
    assert Stepped(c, s, Cancel, s.(cancelled := true));
  }

  /** Then every batch still waiting for its turn or a slot can be given up: its channel is closed, its
      launcher goes free, and its messages get no answer. */
  lemma CanGiveUp(c: Config, s: State, b: nat) returns (s': State)
    requires s.cancelled && b < |s.batches| && Awaiting(s.batches[b])
    ensures MayBecome(c, s, s') && |s'.batches| == |s.batches| && s'.events == s.events
    ensures s'.batches == s.batches[b := s'.batches[b]]
    ensures s'.batches[b].phase.Abandoned? && s'.batches[b].msgs == s.batches[b].msgs
    ensures s.batches[b].done in s'.closed && s.batches[b].launcher !in s'.blocked
  {
    s' := MoveTo(s, Abandon(b));
    assert Stepped(c, s, Abandon(b), s');
  }

  // ---- network, backend and waits ---------------------------------------------------------------------

  /** Every attempt of a running call may be refused or lost on the way, leaving the queue alone, and
      may be lost on the way back, leaving the chunk queued although the call does not move on. */
  lemma CanLose(c: Config, s: State, b: nat, g: nat, applied: bool) returns (s': State)
    requires Reachable(c, s) && HasGroup(s, b, g)
    requires s.batches[b].groups[g].phase.Calling? && s.batches[b].groups[g].call.status.Running?
    requires s.batches[b].groups[g].call.sent <= |s.batches[b].groups[g].items|
    ensures MayBecome(c, s, s') && HasGroup(s', b, g) && s.log <= s'.log
    ensures |s'.log| == |s.log| + (if applied then 1 else 0)
    ensures s'.batches[b].groups[g].call.sent == s.batches[b].groups[g].call.sent
    ensures s'.batches[b].groups[g].tasks == s.batches[b].groups[g].tasks
    ensures s'.batches[b].groups[g].call.status
         == if s.batches[b].groups[g].call.tries + 1 < c.retries then Running else Failed
  {
    var a := Send(b, g, Transient(applied));
    s' := CallTo(c, s, a);
    assert Stepped(c, s, a, s');
  }

  /** The first queued task of an index may succeed, which applies its operations, or fail, which
      applies nothing. */
  lemma CanFinish(c: Config, s: State, t: nat, ok: bool) returns (s': State)
    requires t < |s.log| && s.log[t].status.Queued?
    requires forall p :: 0 <= p < t && s.log[p].index == s.log[t].index ==> !s.log[p].status.Queued?
    ensures MayBecome(c, s, s') && s'.batches == s.batches && |s'.log| == |s.log|
    ensures s'.log[t] == s.log[t].(status := if ok then Succeeded else TaskFailed)
    ensures s'.index == if ok then ApplyOps(s.index, s.log[t].ops) else s.index
  {
    s' := FinishTask(s, t, ok);
    assert Stepped(c, s, TaskDone(t, ok), s');
  }

  /** A wait for tasks may end in failure at any time, and then its batch counts an error. */
  lemma CanTimeOut(c: Config, s: State, b: nat, g: nat) returns (s': State)
    requires HasGroup(s, b, g) && s.batches[b].groups[g].phase.Enqueued? && s.batches[b].groups[g].tasks != []
    ensures MayBecome(c, s, s') && HasGroup(s', b, g) && s'.log == s.log
    ensures s'.batches[b].groups[g].phase.WaitFailed? && s'.batches[b].errs == s.batches[b].errs + 1
  {
    var a := WaitReturns(b, g, false);
    s' := CallTo(c, s, a);
    assert s.log + SentTasks(c, s.batches[b].groups[g], a) == s.log;
    assert Stepped(c, s, a, s');
  }
}
