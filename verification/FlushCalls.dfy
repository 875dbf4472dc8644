/** What every batch, its enqueue goroutines and the backend's task log keep to: tasks
    cover exactly the sent items, failures are counted, and the decision to ack follows
    from every call and every task having succeeded. */
module FlushCalls {
  import opened Ops
  import opened Buffering
  import opened SdkCall
  import opened FlushProtocol

  function TaskOps(log: seq<Task>, tasks: seq<nat>): seq<Op> {
    if tasks == [] then []
    else
      var t := tasks[|tasks| - 1];
      TaskOps(log, tasks[..|tasks| - 1]) + (if t < |log| then log[t].ops else [])
  }

  /** The call's accepted tasks carry exactly the items sent so far, in order. */
  ghost predicate GroupOk(c: Config, log: seq<Task>, b: nat, g: nat, gr: Group) {
    && (gr.phase.Idle? ==> gr.call == Call(0, 0, Running) && gr.tasks == [])
    && (!gr.phase.Idle? ==> CallOk(|gr.items|, c.retries, gr.call))
    && (gr.phase.Enqueued? || gr.phase.Finished? || gr.phase.WaitFailed? ==> gr.call.status.Ok?)
    && (gr.phase.CallFailed? ==> gr.call.status.Failed?)
    && (forall t :: t in gr.tasks ==> t < |log| && log[t].batch == b && log[t].group == g)
    && (gr.phase.Finished? ==> forall t :: t in gr.tasks ==> log[t].status.Succeeded?)
    && gr.call.sent <= |gr.items|
    && TaskOps(log, gr.tasks) == gr.items[..gr.call.sent]
    && (forall op :: op in gr.items ==> op.index == gr.index)
  }

  predicate Droppable(op: Op) { op.Delete? && op.id == "" }

  /** The groups hold the batch's operations, except deletes without an id, and nothing else. */
  ghost predicate Covers(groups: seq<Group>, ops: seq<Op>) {
    && (forall g, op :: g in groups && op in g.items ==> op in ops)
    && (forall op :: op in ops && !Droppable(op) ==> exists g :: g in groups && op in g.items)
  }

  predicate Launched(bt: Batch) { InFlight(bt) || bt.phase.Resolved? }

  ghost predicate BatchOk(c: Config, log: seq<Task>, b: nat, bt: Batch) {
    && (!Launched(bt) ==> bt.groups == [] && bt.errs == 0)
    && (Launched(bt) ==> Covers(bt.groups, BatchOps(bt)))
    && (bt.beating <==> bt.phase.Enqueueing? || bt.phase.Waiting?)
    && (Passed(bt) ==> forall g :: g in bt.groups ==> Returned(g))
    && (bt.phase.Settling? || bt.phase.Resolved? ==>
          (forall g :: g in bt.groups ==> Terminal(g)) && (bt.phase.ok <==> bt.errs == 0))
    && (bt.phase.Settling? ==> bt.phase.next <= |bt.msgs|)
    && (bt.errs == 0 <==> forall g :: g in bt.groups ==> !FailedGroup(g))
    && (forall g :: 0 <= g < |bt.groups| ==> GroupOk(c, log, b, g, bt.groups[g]))
  }

  /** A task names a chunk of an existing group. A task whose answer was lost is either the
      chunk now being retried or followed by an accepted task of the same group. */
  ghost predicate TaskOk(s: State, t: nat)
    requires t < |s.log|
  {
    var k := s.log[t];
    && HasGroup(s, k.batch, k.group)
    && TaskFits(s.batches[k.batch].groups[k.group], k, t)
  }

  ghost predicate TaskFits(gr: Group, k: Task, t: nat) {
    && k.index == gr.index && k.lo < k.hi <= |gr.items| && k.ops == gr.items[k.lo..k.hi]
    && (t in gr.tasks || (exists q :: q in gr.tasks && q > t) || gr.call.sent == k.lo)
    && !gr.phase.Idle?
  }

  ghost predicate CallsInv(c: Config, s: State) {
    && (forall b :: 0 <= b < |s.batches| ==> BatchOk(c, s.log, b, s.batches[b]))
    && (forall t :: 0 <= t < |s.log| ==> TaskOk(s, t))
  }

  // ---- the log only grows, and a finished task stays finished -----------------------------

  ghost predicate Extends(log: seq<Task>, log': seq<Task>) {
    && |log| <= |log'|
    && (forall t :: 0 <= t < |log| ==> log'[t].(status := log[t].status) == log[t])
    && (forall t :: 0 <= t < |log| && !log[t].status.Queued? ==> log'[t] == log[t])
  }

  lemma {:induction false} TaskOpsExtend(log: seq<Task>, log': seq<Task>, tasks: seq<nat>)
    requires Extends(log, log') && forall t :: t in tasks ==> t < |log|
    ensures TaskOps(log', tasks) == TaskOps(log, tasks)
  {
    if tasks != [] {
      var init, last := tasks[..|tasks| - 1], tasks[|tasks| - 1];
      assert last in tasks;
      forall i | 0 <= i < |init| ensures init[i] in tasks {
        assert init[i] == tasks[i];
      }
      TaskOpsExtend(log, log', init);
      assert log'[last].(status := log[last].status).ops == log[last].ops;
    }
  }

  lemma GroupExtend(c: Config, log: seq<Task>, log': seq<Task>, b: nat, g: nat, gr: Group)
    requires GroupOk(c, log, b, g, gr) && Extends(log, log')
    ensures GroupOk(c, log', b, g, gr)
  {
    TaskOpsExtend(log, log', gr.tasks);
    forall t | t in gr.tasks ensures t < |log'| && log'[t].batch == b && log'[t].group == g {
      assert log'[t].(status := log[t].status) == log[t];
    }
  }

  lemma BatchExtend(c: Config, log: seq<Task>, log': seq<Task>, b: nat, bt: Batch)
    requires BatchOk(c, log, b, bt) && Extends(log, log')
    ensures BatchOk(c, log', b, bt)
  {
    forall g | 0 <= g < |bt.groups| ensures GroupOk(c, log', b, g, bt.groups[g]) {
      GroupExtend(c, log, log', b, g, bt.groups[g]);
    }
  }

  // ---- starting a flush ------------------------------------------------------------------

  lemma {:induction false} SendableMeans(ops: seq<Op>)
    ensures forall op :: op in Sendable(ops) <==> op in ops && !Droppable(op)
  {
    if ops != [] {
      assert ops == ops[..|ops| - 1] + [ops[|ops| - 1]];
      SendableMeans(ops[..|ops| - 1]);
    }
  }

  ghost predicate Fresh(gr: Group) {
    gr.phase.Idle? && gr.call == Call(0, 0, Running) && gr.tasks == []
    && forall op :: op in gr.items ==> op.index == gr.index
  }

  lemma {:induction false} UpsertGroupsMean(ops: seq<Op>, order: seq<string>)
    ensures forall g :: g in UpsertGroups(ops, order) ==> Fresh(g) && forall op :: op in g.items ==> op in ops
    ensures forall op :: op in ops && op.index in order ==> exists g :: g in UpsertGroups(ops, order) && op in g.items
  {
    if order != [] {
      var init, last := order[..|order| - 1], order[|order| - 1];
      assert order == init + [last];
      UpsertGroupsMean(ops, init);
      ItemsForMeans(ops, last);
      var g := NewGroup(last, ItemsFor(ops, last));
      assert UpsertGroups(ops, order) == UpsertGroups(ops, init) + [g];
      assert g in UpsertGroups(ops, order);
    }
  }

  lemma {:induction false} DeleteGroupsMean(ops: seq<Op>, order: seq<string>)
    ensures forall g :: g in DeleteGroups(ops, order) ==> Fresh(g) && forall op :: op in g.items ==> op in ops
    ensures forall op :: op in ops && op.index in order && !Droppable(op) ==>
              exists g :: g in DeleteGroups(ops, order) && op in g.items
  {
    if order != [] {
      var init, last := order[..|order| - 1], order[|order| - 1];
      assert order == init + [last];
      DeleteGroupsMean(ops, init);
      ItemsForMeans(ops, last);
      SendableMeans(ItemsFor(ops, last));
      var g := NewGroup(last, Sendable(ItemsFor(ops, last)));
      assert DeleteGroups(ops, order) == DeleteGroups(ops, init) + [g];
      assert g in DeleteGroups(ops, order);
    }
  }

  lemma FlushingOk(c: Config, log: seq<Task>, b: nat, bt: Batch, us: seq<string>, ds: seq<string>)
    requires BatchOk(c, log, b, bt) && bt.phase.AwaitSlot? && Orders(us, bt.upserts) && Orders(ds, bt.deletes)
    ensures BatchOk(c, log, b, Flushing(bt, us, ds))
    ensures forall g :: g in Flushing(bt, us, ds).groups ==> Fresh(g)
  {
    var bt' := Flushing(bt, us, ds);
    UpsertGroupsMean(bt.upserts, us);
    DeleteGroupsMean(bt.deletes, ds);
    forall op | op in BatchOps(bt) && !Droppable(op) ensures exists g :: g in bt'.groups && op in g.items {
      if op in bt.upserts {
        assert op.index in IndexesOf(bt.upserts);
        var g :| g in UpsertGroups(bt.upserts, us) && op in g.items;
        assert g in bt'.groups;
      } else {
        assert op.index in IndexesOf(bt.deletes);
        var g :| g in DeleteGroups(bt.deletes, ds) && op in g.items;
        assert g in bt'.groups;
      }
    }
    forall g | 0 <= g < |bt'.groups| ensures GroupOk(c, log, b, g, bt'.groups[g]) {
      assert bt'.groups[g] in bt'.groups;
      assert Fresh(bt'.groups[g]);
    }
  }

  lemma MovedOk(c: Config, log: seq<Task>, b: nat, bt: Batch, a: Action)
    requires BatchOk(c, log, b, bt) && IsMove(a) && CanMove(bt, a)
    ensures BatchOk(c, log, b, Moved(bt, a))
  {
    if a.StartFlush? {
      FlushingOk(c, log, b, bt, a.upsertOrder, a.deleteOrder);
    } else {
      forall g | 0 <= g < |bt.groups| ensures GroupOk(c, log, b, g, Moved(bt, a).groups[g]) {}
    }
  }

  // ---- one goroutine step --------------------------------------------------------------------

  lemma SentExtends(c: Config, s: State, a: Action)
    requires IsCall(a) && CallEnabled(c, s, a)
    ensures Extends(s.log, CallTo(c, s, a).log)
  {}

  lemma AcceptedOk(c: Config, log: seq<Task>, b: nat, g: nat, gr: Group)
    requires ConfigOk(c) && GroupOk(c, log, b, g, gr) && gr.phase.Calling? && gr.call.status.Running?
    ensures var a := Send(b, g, Accepted);
            GroupOk(c, log + SentTasks(c, gr, a), b, g, Called(c, gr, |log|, a))
  {
    var a := Send(b, g, Accepted);
    var log' := log + SentTasks(c, gr, a);
    var end := ChunkEnd(|gr.items|, c.chunk, gr.call.sent);
    var tasks := gr.tasks + [|log|];
    TaskOpsExtend(log, log', gr.tasks);
    assert tasks[..|tasks| - 1] == gr.tasks;
    assert gr.items[..end] == gr.items[..gr.call.sent] + gr.items[gr.call.sent..end];
    assert log'[|log|].ops == gr.items[gr.call.sent..end];
    assert TaskOps(log', tasks) == gr.items[..end];
  }

  lemma UnacceptedOk(c: Config, log: seq<Task>, log': seq<Task>, bt: Batch, gr: Group, a: Action)
    requires ConfigOk(c) && IsCall(a) && CanCall(log, bt, gr, a) && !(a.Send? && a.outcome.Accepted?)
    requires GroupOk(c, log, a.b, a.g, gr) && Extends(log, log')
    ensures GroupOk(c, log', a.b, a.g, Called(c, gr, |log|, a))
  {
    GroupExtend(c, log, log', a.b, a.g, gr);
  }

  lemma CalledOk(c: Config, log: seq<Task>, bt: Batch, gr: Group, a: Action)
    requires ConfigOk(c) && IsCall(a) && CanCall(log, bt, gr, a) && GroupOk(c, log, a.b, a.g, gr)
    ensures GroupOk(c, log + SentTasks(c, gr, a), a.b, a.g, Called(c, gr, |log|, a))
  {
    if a.Send? && a.outcome.Accepted? {
      AcceptedOk(c, log, a.b, a.g, gr);
    } else {
      UnacceptedOk(c, log, log + SentTasks(c, gr, a), bt, gr, a);
    }
  }

  lemma CallBatchOk(c: Config, log: seq<Task>, bt: Batch, a: Action)
    requires ConfigOk(c) && IsCall(a) && a.g < |bt.groups| && CanCall(log, bt, bt.groups[a.g], a)
    requires BatchOk(c, log, a.b, bt)
    ensures var gr := bt.groups[a.g];
            BatchOk(c, log + SentTasks(c, gr, a), a.b, WithGroup(bt, a.g, Called(c, gr, |log|, a)))
  {
    var gr := bt.groups[a.g];
    var gr' := Called(c, gr, |log|, a);
    var log', bt' := log + SentTasks(c, gr, a), WithGroup(bt, a.g, gr');
    CalledOk(c, log, bt, gr, a);
    forall g | 0 <= g < |bt'.groups| ensures GroupOk(c, log', a.b, g, bt'.groups[g]) {
      if g != a.g {
        GroupExtend(c, log, log', a.b, g, bt.groups[g]);
      }
    }
    GroupsUpdated(bt.groups, a.g, gr');
    assert gr in bt.groups;
  }

  /** Facts about all members of a sequence after one of them was replaced. */
  lemma GroupsUpdated(groups: seq<Group>, g: nat, gr': Group)
    requires g < |groups| && gr'.items == groups[g].items
    ensures forall x :: x in groups[g := gr'] ==> x == gr' || x in groups
    ensures gr' in groups[g := gr']
    ensures forall x :: x in groups ==> x in groups[g := gr'] || x == groups[g]
    ensures forall ops :: Covers(groups, ops) ==> Covers(groups[g := gr'], ops)
  {
    var groups' := groups[g := gr'];
    assert groups'[g] == gr';
    forall x | x in groups ensures x in groups' || x == groups[g] {
      var i :| 0 <= i < |groups| && groups[i] == x;
      assert groups'[i] == if i == g then gr' else x;
    }
    forall ops | Covers(groups, ops) ensures Covers(groups', ops) {
      forall op | op in ops && !Droppable(op) ensures exists x :: x in groups' && op in x.items {
        var x :| x in groups && op in x.items;
        if x !in groups' {
          assert op in gr'.items;
        }
      }
      forall x, op | x in groups' && op in x.items ensures op in ops {
        assert groups[g] in groups;
      }
    }
  }

  lemma CallTasksOk(c: Config, s: State, a: Action, t: nat)
    requires ConfigOk(c) && IsCall(a) && CallEnabled(c, s, a) && CallsInv(c, s)
    requires t < |CallTo(c, s, a).log|
    ensures TaskOk(CallTo(c, s, a), t)
  {
    var s' := CallTo(c, s, a);
    var gr, gr' := s.batches[a.b].groups[a.g], s'.batches[a.b].groups[a.g];
    assert BatchOk(c, s.log, a.b, s.batches[a.b]);
    assert GroupOk(c, s.log, a.b, a.g, gr);
    if t < |s.log| {
      assert TaskOk(s, t);
      assert s'.log[t] == s.log[t];
      if s.log[t].batch == a.b && s.log[t].group == a.g && a.Send? && a.outcome.Accepted? {
        assert |s.log| in gr'.tasks;
      }
    } else if a.outcome.Accepted? {
      assert t in gr'.tasks;
    }
  }

  lemma CallsCall(c: Config, s: State, a: Action)
    requires ConfigOk(c) && IsCall(a) && CallEnabled(c, s, a) && CallsInv(c, s)
    ensures CallsInv(c, CallTo(c, s, a))
  {
    var s' := CallTo(c, s, a);
    SentExtends(c, s, a);
    forall b | 0 <= b < |s'.batches| ensures BatchOk(c, s'.log, b, s'.batches[b]) {
      if b == a.b {
        CallBatchOk(c, s.log, s.batches[a.b], a);
      } else {
        BatchExtend(c, s.log, s'.log, b, s.batches[b]);
      }
    }
    forall t | 0 <= t < |s'.log| ensures TaskOk(s', t) {
      CallTasksOk(c, s, a, t);
    }
  }

  lemma CallsMove(c: Config, s: State, a: Action)
    requires IsMove(a) && MoveEnabled(c, s, a) && CallsInv(c, s)
    ensures CallsInv(c, MoveTo(s, a))
  {
    var s' := MoveTo(s, a);
    MovedOk(c, s.log, a.b, s.batches[a.b], a);
    forall b | 0 <= b < |s'.batches| ensures BatchOk(c, s'.log, b, s'.batches[b]) {
      assert b != a.b ==> BatchOk(c, s.log, b, s.batches[b]);
    }
    forall t | 0 <= t < |s'.log| ensures TaskOk(s', t) {
      assert TaskOk(s, t);
      if s.log[t].batch == a.b {
        assert BatchOk(c, s.log, a.b, s.batches[a.b]);
        assert Moved(s.batches[a.b], a).groups == s.batches[a.b].groups;
      }
    }
  }

  lemma CallsTake(c: Config, s: State, who: Actor, upserts: seq<UpsertOp>, deletes: seq<DeleteOp>)
    requires CallsInv(c, s)
    ensures CallsInv(c, Take(s, who, upserts, deletes))
  {
    var s' := Take(s, who, upserts, deletes);
    forall b | 0 <= b < |s'.batches| ensures BatchOk(c, s'.log, b, s'.batches[b]) {
      assert b < |s.batches| ==> BatchOk(c, s.log, b, s.batches[b]);
    }
    forall t | 0 <= t < |s'.log| ensures TaskOk(s', t) {
      assert TaskOk(s, t);
    }
  }

  lemma CallsSame(c: Config, s: State, s': State)
    requires CallsInv(c, s) && s'.batches == s.batches && |s'.log| == |s.log| && Extends(s.log, s'.log)
    ensures CallsInv(c, s')
  {
    forall b | 0 <= b < |s'.batches| ensures BatchOk(c, s'.log, b, s'.batches[b]) {
      BatchExtend(c, s.log, s'.log, b, s.batches[b]);
    }
    forall t | 0 <= t < |s'.log| ensures TaskOk(s', t) {
      assert TaskOk(s, t);
      assert s'.log[t].(status := s.log[t].status) == s.log[t];
    }
  }

  lemma CallsStep(c: Config, s: State, a: Action)
    requires ConfigOk(c) && CallsInv(c, s) && Enabled(c, s, a)
    ensures CallsInv(c, Next(c, s, a))
  {
    if IsMove(a) {
      CallsMove(c, s, a);
    } else if IsCall(a) {
      CallsCall(c, s, a);
    } else if a.Submit? {
      if SubOps(a.sub) != [] {
        CallsSame(c, s, Absorbed(s, a.sub));
        CallsTake(c, Absorbed(s, a.sub), Submitter, a.upserts, a.deletes);
      }
    } else if a.Tick? {
      CallsTake(c, s, Ticker, a.upserts, a.deletes);
    } else {
      CallsSame(c, s, Next(c, s, a));
    }
  }
}
