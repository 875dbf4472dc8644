/** The search backend. It works off each index's tasks in queue order, so its contents are
    those of the succeeded tasks applied in queue order, although tasks of different
    indexes finish in any interleaving. */
module FlushBackend {
  import opened Json
  import opened Ops
  import opened SdkCall
  import opened FlushProtocol
  import opened FlushCalls
  import opened FlushRefinement

  function DoneOps(log: seq<Task>): seq<Op> {
    if log == [] then []
    else DoneOps(log[..|log| - 1]) + (if log[|log| - 1].status.Succeeded? then log[|log| - 1].ops else [])
  }

  ghost predicate Fifo(log: seq<Task>) {
    forall p, q :: 0 <= p < q < |log| && log[p].index == log[q].index && log[p].status.Queued? ==> log[q].status.Queued?
  }

  ghost predicate Homogeneous(log: seq<Task>) {
    forall t, op :: 0 <= t < |log| && op in log[t].ops ==> op.index == log[t].index
  }

  ghost predicate BackendInv(s: State) {
    Fifo(s.log) && Homogeneous(s.log) && s.index == ApplyOps(map[], DoneOps(s.log))
  }

  lemma {:induction false} DoneOpsConcat(a: seq<Task>, b: seq<Task>)
    ensures DoneOps(a + b) == DoneOps(a) + DoneOps(b)
    decreases |b|
  {
    if b == [] {
      assert a + b == a;
    } else {
      assert (a + b)[..|a + b| - 1] == a + b[..|b| - 1];
      DoneOpsConcat(a, b[..|b| - 1]);
    }
  }

  lemma {:induction false} DoneOpsMean(log: seq<Task>, op: Op)
    requires op in DoneOps(log)
    ensures exists t :: 0 <= t < |log| && log[t].status.Succeeded? && op in log[t].ops
  {
    var init := log[..|log| - 1];
    if op in DoneOps(init) {
      DoneOpsMean(init, op);
      var t :| 0 <= t < |init| && init[t].status.Succeeded? && op in init[t].ops;
      assert log[t] == init[t];
    }
  }

  /** Operations on different indexes commute. */
  lemma Commute(c: Contents, a: seq<Op>, b: seq<Op>)
    requires forall x, y :: x in a && y in b ==> x.index != y.index
    ensures ApplyOps(ApplyOps(c, a), b) == ApplyOps(ApplyOps(c, b), a)
  {
    var ab, ba := ApplyOps(ApplyOps(c, a), b), ApplyOps(ApplyOps(c, b), a);
    forall t: Target ensures Lookup(ab, t) == Lookup(ba, t) {
      AppliedLookup(c, a, t);
      AppliedLookup(ApplyOps(c, a), b, t);
      AppliedLookup(c, b, t);
      AppliedLookup(ApplyOps(c, b), a, t);
      if x :| x in a && TargetOf(x) == t {
        NoLast(b, t);
      } else {
        NoLast(a, t);
      }
    }
    SameLookups(ab, ba);
  }

  lemma DoneSplit(log: seq<Task>, t: nat, k: Task)
    requires t < |log|
    ensures DoneOps(log[t := k]) == DoneOps(log[..t]) + ((if k.status.Succeeded? then k.ops else []) + DoneOps(log[t + 1..]))
  {
    assert log[t := k] == log[..t] + ([k] + log[t + 1..]);
    DoneOpsConcat(log[..t], [k] + log[t + 1..]);
    DoneOpsConcat([k], log[t + 1..]);
    assert [k][..0] == [];
  }

  /** What finished after a queued task is on other indexes. */
  lemma LaterElsewhere(log: seq<Task>, t: nat, x: Op, y: Op)
    requires t < |log| && log[t].status.Queued? && Fifo(log) && Homogeneous(log)
    requires x in log[t].ops && y in DoneOps(log[t + 1..])
    ensures x.index != y.index
  {
    var post := log[t + 1..];
    DoneOpsMean(post, y);
    var q :| 0 <= q < |post| && post[q].status.Succeeded? && y in post[q].ops;
    assert post[q] == log[t + 1 + q];
    assert y in log[t + 1 + q].ops;
  }

  /** Finishing task t late has the effect of having applied it in its queue position. */
  lemma FinishInPlace(log: seq<Task>, t: nat)
    requires t < |log| && log[t].status.Queued? && Fifo(log) && Homogeneous(log)
    ensures ApplyOps(ApplyOps(map[], DoneOps(log)), log[t].ops)
         == ApplyOps(map[], DoneOps(log[t := log[t].(status := Succeeded)]))
  {
    var pre, post, ops := DoneOps(log[..t]), DoneOps(log[t + 1..]), log[t].ops;
    DoneSplit(log, t, log[t]);
    DoneSplit(log, t, log[t].(status := Succeeded));
    assert log[t := log[t]] == log;
    assert [] + post == post;
    forall x, y | x in ops && y in post ensures x.index != y.index {
      LaterElsewhere(log, t, x, y);
    }
    InPlace(pre, ops, post);
  }

  lemma InPlace(pre: seq<Op>, ops: seq<Op>, post: seq<Op>)
    requires forall x, y :: x in ops && y in post ==> x.index != y.index
    ensures ApplyOps(ApplyOps(map[], pre + post), ops) == ApplyOps(map[], pre + (ops + post))
  {
    var c := ApplyOps(map[], pre);
    ApplyOpsConcat(map[], pre, post);
    ApplyOpsConcat(map[], pre, ops + post);
    ApplyOpsConcat(c, ops, post);
    Commute(c, ops, post);
  }

  lemma BackendFinish(s: State, t: nat, ok: bool)
    requires BackendInv(s) && t < |s.log| && s.log[t].status.Queued?
    requires forall p :: 0 <= p < t && s.log[p].index == s.log[t].index ==> !s.log[p].status.Queued?
    ensures BackendInv(FinishTask(s, t, ok))
  {
    var log' := FinishTask(s, t, ok).log;
    if ok {
      FinishInPlace(s.log, t);
    } else {
      FailInPlace(s.log, t);
    }
    forall p, q | 0 <= p < q < |log'| && log'[p].index == log'[q].index && log'[p].status.Queued?
      ensures log'[q].status.Queued?
    {
      assert s.log[p].index == s.log[q].index;
    }
  }

  lemma FailInPlace(log: seq<Task>, t: nat)
    requires t < |log| && log[t].status.Queued?
    ensures DoneOps(log[t := log[t].(status := TaskFailed)]) == DoneOps(log)
  {
    DoneSplit(log, t, log[t]);
    DoneSplit(log, t, log[t].(status := TaskFailed));
    assert log[t := log[t]] == log;
  }

  lemma BackendCall(c: Config, s: State, a: Action)
    requires CallsInv(c, s) && BackendInv(s) && IsCall(a) && CallEnabled(c, s, a)
    ensures BackendInv(CallTo(c, s, a))
  {
    var gr := s.batches[a.b].groups[a.g];
    assert BatchOk(c, s.log, a.b, s.batches[a.b]);
    assert GroupOk(c, s.log, a.b, a.g, gr);
    NewTasks(c, gr, a);
    QueueNew(s.log, SentTasks(c, gr, a));
  }

  lemma NewTasks(c: Config, gr: Group, a: Action)
    requires IsCall(a) && forall op :: op in gr.items ==> op.index == gr.index
    ensures var tasks := SentTasks(c, gr, a);
            |tasks| <= 1 && forall k :: k in tasks ==> k.status.Queued? && forall op :: op in k.ops ==> op.index == k.index
  {
    var tasks := SentTasks(c, gr, a);
    if tasks != [] {
      var end := ChunkEnd(|gr.items|, c.chunk, gr.call.sent);
      forall op | op in gr.items[gr.call.sent..end] ensures op.index == gr.index {
        assert op in gr.items;
      }
    }
  }

  lemma QueueNew(log: seq<Task>, more: seq<Task>)
    requires Fifo(log) && Homogeneous(log) && |more| <= 1
    requires forall k :: k in more ==> k.status.Queued? && forall op :: op in k.ops ==> op.index == k.index
    ensures Fifo(log + more) && Homogeneous(log + more) && DoneOps(log + more) == DoneOps(log)
  {
    DoneOpsConcat(log, more);
    if more != [] {
      assert more[0] in more;
      assert more[..0] == [] && DoneOps(more) == [];
    }
  }

  lemma BackendStep(c: Config, s: State, a: Action)
    requires CallsInv(c, s) && BackendInv(s) && Enabled(c, s, a)
    ensures BackendInv(Next(c, s, a))
  {
    if IsCall(a) {
      BackendCall(c, s, a);
    } else if a.TaskDone? {
      BackendFinish(s, a.t, a.ok);
    }
  }

  // ---- when everything has settled -----------------------------------------------------------------

  /** Every taken batch was acked and nothing is buffered. */
  ghost predicate AllAcked(s: State) {
    (forall b :: 0 <= b < |s.batches| ==> s.batches[b].phase == Resolved(true)) && s.buf.pending == map[]
  }

  /** Then every task has succeeded, lost answers and re-sends included. */
  lemma AckedMeansDone(c: Config, s: State, t: nat)
    requires CallsInv(c, s) && BackendInv(s) && Clean(s) && AllAcked(s) && t < |s.log|
    ensures s.log[t].status.Succeeded?
  {
    assert TaskOk(s, t);
    var k := s.log[t];
    var bt := s.batches[k.batch];
    var gr := bt.groups[k.group];
    assert BatchOk(c, s.log, k.batch, bt) && GroupOk(c, s.log, k.batch, k.group, gr);
    assert gr in bt.groups && gr.phase.Finished?;
    if t !in gr.tasks {
      var q :| q in gr.tasks && q > t;
      assert TaskOk(s, q) && s.log[q].index == k.index;
    }
  }

  lemma {:induction false} DoneIsLog(log: seq<Task>)
    requires forall t :: 0 <= t < |log| ==> log[t].status.Succeeded?
    ensures DoneOps(log) == LogOps(log)
  {
    if log != [] {
      DoneIsLog(log[..|log| - 1]);
    }
  }
}
