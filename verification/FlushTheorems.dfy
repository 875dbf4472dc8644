/** The guarantees of the flush protocol, for every state of every run. */
module FlushTheorems {
  import opened Json
  import opened Ops
  import opened Buffering
  import opened FlushProtocol
  import opened FlushChain
  import opened FlushCalls
  import opened FlushOrder
  import opened FlushHistory
  import opened FlushRefinement
  import opened FlushBackend
  import opened FlushDelivery
  import opened FlushBounds
  import opened FlushProgress
  import opened FlushRuns

  /** A delivery is handed to Submit once. */
  ghost predicate SeenInv(s: State) {
    && (forall i :: 0 <= i < |s.history| && s.history[i].msg.Some? ==> s.history[i].msg.value.delivery in s.seen)
    && (forall i, j :: 0 <= i < j < |s.history| && s.history[i].msg.Some? && s.history[j].msg.Some? ==>
          s.history[i].msg.value.delivery != s.history[j].msg.value.delivery)
  }

  lemma SeenStep(c: Config, s: State, a: Action)
    requires SeenInv(s) && Enabled(c, s, a)
    ensures SeenInv(Next(c, s, a))
  {
    if a.Submit? {
      assert SeenInv(Absorbed(s, a.sub));
    }
  }

  ghost predicate Structure(c: Config, s: State) {
    ConfigOk(c) && ChainInv(s) && CallsInv(c, s) && OrderInv(s) && HistInv(s) && SeenInv(s)
  }

  ghost predicate Effects(c: Config, s: State) {
    RefInv(s) && BackendInv(s) && PlaceInv(s) && EventInv(s) && SlotInv(c, s) && HeldInv(c, s)
  }

  ghost predicate Inv(c: Config, s: State) { Structure(c, s) && Effects(c, s) }

  /** The states that satisfy the invariant. */
  ghost function Good(c: Config): iset<State> { iset s: State | Inv(c, s) }

  lemma StructureStep(c: Config, s: State, a: Action)
    requires Structure(c, s) && Enabled(c, s, a)
    ensures Structure(c, Next(c, s, a))
  {
    ChainStep(c, s, a);
    CallsStep(c, s, a);
    OrderStep(c, s, a);
    HistStep(c, s, a);
    SeenStep(c, s, a);
  }

  lemma EffectsStep(c: Config, s: State, a: Action)
    requires Structure(c, s) && Effects(c, s) && Enabled(c, s, a)
    ensures Effects(c, Next(c, s, a))
  {
    RefStep(c, s, a);
    BackendStep(c, s, a);
    PlaceStep(c, s, a);
    EventsStep(c, s, a);
    SlotStep(c, s, a);
    HeldStep(c, s, a);
  }

  lemma InvInit(c: Config)
    requires ConfigOk(c)
    ensures Initial in Good(c)
  {
    InitStructure(c);
    InitEffects(c);
    assert Inv(c, Initial);
  }

  lemma InitStructure(c: Config)
    requires ConfigOk(c)
    ensures Structure(c, Initial)
  {
    HistInit();
  }

  lemma InitEffects(c: Config)
    requires ConfigOk(c)
    ensures Effects(c, Initial)
  {
    InitRefines();
    InitDelivery();
    InitBounds(c);
  }

  lemma InitRefines()
    ensures RefInv(Initial) && BackendInv(Initial)
  {}

  lemma InitDelivery()
    ensures PlaceInv(Initial) && EventInv(Initial)
  {}

  lemma InitBounds(c: Config)
    requires ConfigOk(c)
    ensures SlotInv(c, Initial) && HeldInv(c, Initial)
  {}

  lemma InvStep(c: Config, s: State, a: Action, s': State)
    requires s in Good(c) && Stepped(c, s, a, s')
    ensures s' in Good(c)
  {
    StructureStep(c, s, a);
    EffectsStep(c, s, a);
    assert Inv(c, s');
  }

  /** Every reachable state satisfies the invariant. */
  lemma ReachableInv(c: Config, s: State)
    requires Reachable(c, s)
    ensures Inv(c, s)
  {
    InvInit(c);
    forall p, q ensures Keeps(c, Good(c), p, q) {
      if (p, q) in Steps(c) && p in Runs(c) && p in Good(c) {
        var a := StepOf(c, p, q);
        InvStep(c, p, a, q);
      }
    }
    Always(c, Good(c), s);
  }

  lemma ReachableCalls(c: Config, s: State)
    requires Reachable(c, s)
    ensures CallsInv(c, s)
  {
    ReachableInv(c, s);
  }

  lemma ReachableSlots(c: Config, s: State)
    requires Reachable(c, s)
    ensures s.slotsUsed == Sums.Sum(s.batches, SlotOf) <= c.slots
    ensures s.uploadsUsed == Sums.Sum(s.batches, CallsOf) <= c.uploads
  {
    ReachableInv(c, s);
  }

  lemma ReachableChain(c: Config, s: State)
    requires Reachable(c, s)
    ensures ChainInv(s)
  {
    ReachableInv(c, s);
  }

  lemma ReachableKeyed(c: Config, s: State)
    requires Reachable(c, s)
    ensures KeyedRight(s.buf.pending)
  {
    ReachableInv(c, s);
  }

  // ---- refinement ---------------------------------------------------------------------------------------

  /** What the taken batches still have to send, in take order. */
  function RestOps(batches: seq<Batch>): seq<Op> {
    if batches == [] then [] else RestOps(batches[..|batches| - 1]) + Rest(batches[|batches| - 1])
  }

  lemma {:induction false} RestOpsLatest(batches: seq<Batch>)
    ensures Latest(RestOps(batches)) == Rests(batches)
  {
    if batches != [] {
      var init, last := batches[..|batches| - 1], batches[|batches| - 1];
      assert batches == init + [last];
      RestOpsLatest(init);
      RestsTake(init, last);
      LatestConcat(RestOps(init), Rest(last));
    }
  }

  lemma {:induction false} RestOpsMean(batches: seq<Batch>, op: Op)
    requires op in RestOps(batches)
    ensures exists b :: 0 <= b < |batches| && op in Rest(batches[b])
  {
    var init, last := batches[..|batches| - 1], batches[|batches| - 1];
    if op in RestOps(init) {
      RestOpsMean(init, op);
      var b :| 0 <= b < |init| && op in Rest(init[b]);
      assert batches[b] == init[b];
    } else {
      assert op in Rest(batches[|batches| - 1]);
    }
  }

  lemma BatchOpsSubmitted(s: State, b: nat, op: Op)
    requires HistInv(s) && b < |s.batches| && op in BatchOps(s.batches[b])
    ensures op in OpsOf(s.history)
  {
    var bt := s.batches[b];
    assert Carries(s.history, bt);
    var subs := s.history[bt.lo..bt.hi];
    LatestEntry(BatchOps(bt), OpKey(op));
    LatestEntry(OpsOf(subs), OpKey(op));
    OpsOfSlice(s.history, bt.lo, bt.hi, op);
  }

  lemma OpsOfSlice(subs: seq<Submission>, lo: nat, hi: nat, op: Op)
    requires lo <= hi <= |subs| && op in OpsOf(subs[lo..hi])
    ensures op in OpsOf(subs)
  {
    assert subs[..hi][lo..] == subs[lo..hi];
    SuffixIn(subs[..hi], lo, op);
    OpsOfConcat(subs[..hi], subs[hi..]);
    assert subs[..hi] + subs[hi..] == subs;
  }

  lemma {:induction false} LogOpsMean(log: seq<Task>, op: Op)
    requires op in LogOps(log)
    ensures exists t :: 0 <= t < |log| && op in log[t].ops
  {
    var init := log[..|log| - 1];
    if op in LogOps(init) {
      LogOpsMean(init, op);
      var t :| 0 <= t < |init| && op in init[t].ops;
      assert log[t] == init[t];
    } else {
      assert op in log[|log| - 1].ops;
    }
  }

  lemma LogOpsSubmitted(c: Config, s: State, op: Op)
    requires CallsInv(c, s) && HistInv(s) && op in LogOps(s.log)
    ensures op in OpsOf(s.history)
  {
    LogOpsMean(s.log, op);
    var t :| 0 <= t < |s.log| && op in s.log[t].ops;
    var b := TaskOfBatch(c, s, t, op);
    BatchOpsSubmitted(s, b, op);
  }

  lemma TaskOfBatch(c: Config, s: State, t: nat, op: Op) returns (b: nat)
    requires CallsInv(c, s) && t < |s.log| && op in s.log[t].ops
    ensures b < |s.batches| && op in BatchOps(s.batches[b])
  {
    assert TaskOk(s, t);
    b := s.log[t].batch;
    var bt := s.batches[b];
    assert BatchOk(c, s.log, b, bt);
    assert bt.groups[s.log[t].group] in bt.groups && op in bt.groups[s.log[t].group].items;
  }

  lemma RestSubmitted(c: Config, s: State, b: nat, op: Op)
    requires CallsInv(c, s) && HistInv(s) && b < |s.batches| && op in Rest(s.batches[b])
    ensures op in OpsOf(s.history)
  {
    var bt := s.batches[b];
    assert BatchOk(c, s.log, b, bt) && Carries(s.history, bt);
    if Launched(bt) {
      UnsentOfBatch(c, s.log, b, bt);
    }
    BatchOpsSubmitted(s, b, op);
  }

  lemma PendingSubmitted(s: State, upserts: seq<UpsertOp>, deletes: seq<DeleteOp>, op: Op)
    requires Holds(s.history, s.cut, s.buf) && Lists(upserts, deletes, s.buf.pending) && op in deletes + upserts
    ensures op in OpsOf(s.history)
  {
    assert OpKey(op) in s.buf.pending && s.buf.pending[OpKey(op)] == op;
    LatestIn(s.history, s.cut, OpKey(op));
  }

  /** What the submissions from `cut` on coalesce to was submitted. */
  lemma LatestIn(subs: seq<Submission>, cut: nat, k: string)
    requires cut <= |subs| && k in Latest(OpsOf(subs[cut..]))
    ensures Latest(OpsOf(subs[cut..]))[k] in OpsOf(subs)
  {
    LatestEntry(OpsOf(subs[cut..]), k);
    SuffixIn(subs, cut, Latest(OpsOf(subs[cut..]))[k]);
  }

  lemma SuffixIn(subs: seq<Submission>, cut: nat, op: Op)
    requires cut <= |subs| && op in OpsOf(subs[cut..])
    ensures op in OpsOf(subs)
  {
    OpsOfConcat(subs[..cut], subs[cut..]);
    assert subs[..cut] + subs[cut..] == subs;
  }

  /** Enqueued tasks, then the batches' rests in take order, then the buffer in any order, leave
      the index that replaying every submission in lock order leaves. */
  lemma Refinement(c: Config, s: State, upserts: seq<UpsertOp>, deletes: seq<DeleteOp>, names: set<string>)
    requires Reachable(c, s) && Clean(s) && Identified(s.history)
    requires Separable(names) && Ops.Over(OpsOf(s.history), names)
    requires Lists(upserts, deletes, s.buf.pending)
    ensures ApplyOps(map[], LogOps(s.log) + RestOps(s.batches) + (deletes + upserts)) == ApplyOps(map[], OpsOf(s.history))
  {
    ReachableInv(c, s);
    var all: seq<Op> := LogOps(s.log) + RestOps(s.batches) + (deletes + upserts);
    RestOpsLatest(s.batches);
    ListsIsLatest(upserts, deletes, s.buf.pending);
    LatestConcat(LogOps(s.log) + RestOps(s.batches), deletes + upserts);
    LatestConcat(LogOps(s.log), RestOps(s.batches));
    forall op | op in all ensures op.index in names {
      if op in LogOps(s.log) {
        LogOpsSubmitted(c, s, op);
      } else if op in RestOps(s.batches) {
        RestOpsMean(s.batches, op);
        var b :| 0 <= b < |s.batches| && op in Rest(s.batches[b]);
        RestSubmitted(c, s, b, op);
      } else {
        PendingSubmitted(s, upserts, deletes, op);
      }
    }
    SameLatestSameContents(names, all, OpsOf(s.history));
  }

  /** Once everything submitted has been acked, the backend itself holds that index. */
  lemma SettledContents(c: Config, s: State, names: set<string>)
    requires Reachable(c, s) && Clean(s) && AllAcked(s) && Identified(s.history)
    requires Separable(names) && Ops.Over(OpsOf(s.history), names)
    ensures s.index == ApplyOps(map[], OpsOf(s.history))
  {
    AckedBackend(c, s);
    assert Lists([], [], s.buf.pending);
    Refinement(c, s, [], [], names);
    var none: seq<Op> := [];
    assert LogOps(s.log) + none + (none + none) == LogOps(s.log);
  }

  lemma AckedBackend(c: Config, s: State)
    requires Reachable(c, s) && Clean(s) && AllAcked(s)
    ensures s.index == ApplyOps(map[], LogOps(s.log)) && RestOps(s.batches) == []
  {
    ReachableInv(c, s);
    forall t | 0 <= t < |s.log| ensures s.log[t].status.Succeeded? {
      AckedMeansDone(c, s, t);
    }
    DoneIsLog(s.log);
    forall b | 0 <= b < |s.batches| ensures Rest(s.batches[b]) == [] {
      PassedSent(c, s, b);
    }
    NothingLeft(s.batches);
  }

  lemma {:induction false} NothingLeft(batches: seq<Batch>)
    requires forall b :: 0 <= b < |batches| ==> Rest(batches[b]) == []
    ensures RestOps(batches) == []
  {
    if batches != [] {
      NothingLeft(batches[..|batches| - 1]);
    }
  }

  // ---- order ----------------------------------------------------------------------------------------------

  /** Before any call of a later batch starts, every call of an earlier one has returned; the
      backend's queue is in take order; at most one batch is enqueueing. The only exception is
      a batch in between that shutdown made give up its turn. */
  lemma EnqueueOrder(c: Config, s: State, i: nat, j: nat)
    requires Reachable(c, s) && i < j < |s.batches| && !SkippedBetween(s, i, j)
    ensures s.batches[j].groups != [] ==> forall g :: g in s.batches[i].groups ==> Returned(g)
    ensures s.batches[j].phase.Enqueueing? || s.batches[j].groups != [] ==> !s.batches[i].phase.Enqueueing?
    ensures forall p, q :: 0 <= p < q < |s.log| && s.log[p].batch == j ==> s.log[q].batch != i
  {
    ReachableInv(c, s);
    if s.batches[j].phase.Enqueueing? {
      ChainBehind(s, i, j);
    }
    if s.batches[j].groups != [] {
      assert BatchOk(c, s.log, j, s.batches[j]);
      assert BatchOk(c, s.log, i, s.batches[i]);
      ChainBehind(s, i, j);
    }
  }

  ghost predicate NoneAbandoned(s: State) {
    forall b :: 0 <= b < |s.batches| ==> !s.batches[b].phase.Abandoned?
  }

  lemma NoneAbandonedStep(c: Config, s: State, a: Action)
    requires Enabled(c, s, a) && NoneAbandoned(s) && !s.cancelled
    ensures NoneAbandoned(Next(c, s, a))
  {
    if IsMove(a) {
      assert !Moved(s.batches[a.b], a).phase.Abandoned?;
    }
  }

  ghost function Unabandoned(): iset<State> { iset s: State | s.cancelled || NoneAbandoned(s) }

  lemma StillUnabandoned(c: Config, s: State, a: Action, s': State)
    requires s in Unabandoned() && Stepped(c, s, a, s')
    ensures s' in Unabandoned()
  {
    if !s'.cancelled {
      StillGoing(c, s, a, s');
      NoneAbandonedStep(c, s, a);
    }
  }

  lemma StillGoing(c: Config, s: State, a: Action, s': State)
    requires Stepped(c, s, a, s') && !s'.cancelled
    ensures !s.cancelled
  {}

  /** Without shutdown no batch is ever abandoned, so the order has no exception. */
  lemma NoShutdownNoSkip(c: Config, s: State)
    requires Reachable(c, s) && !s.cancelled
    ensures NoneAbandoned(s)
    ensures forall i, j :: !SkippedBetween(s, i, j)
  {
    forall p, q ensures Keeps(c, Unabandoned(), p, q) {
      if (p, q) in Steps(c) && p in Runs(c) && p in Unabandoned() {
        var a := StepOf(c, p, q);
        StillUnabandoned(c, p, a, q);
      }
    }
    assert NoneAbandoned(Initial);
    Always(c, Unabandoned(), s);
  }

  // ---- acknowledgement -------------------------------------------------------------------------------------

  ghost predicate Landed(s: State, b: nat, op: Op) {
    exists t :: 0 <= t < |s.log| && s.log[t].batch == b && s.log[t].status.Succeeded? && op in s.log[t].ops
  }

  lemma {:induction false} TaskOpsMean(log: seq<Task>, tasks: seq<nat>, op: Op)
    requires op in TaskOps(log, tasks)
    ensures exists t :: t in tasks && t < |log| && op in log[t].ops
  {
    var init, last := tasks[..|tasks| - 1], tasks[|tasks| - 1];
    assert last in tasks;
    if op in TaskOps(log, init) {
      TaskOpsMean(log, init, op);
      var t :| t in init && t < |log| && op in log[t].ops;
      var i :| 0 <= i < |init| && init[i] == t;
      assert tasks[i] == t;
    }
  }

  /** In a batch that settled without error every operation is in a succeeded task. */
  lemma AllLanded(c: Config, s: State, b: nat, op: Op)
    requires CallsInv(c, s) && b < |s.batches| && op in BatchOps(s.batches[b]) && !Droppable(op)
    requires (s.batches[b].phase.Settling? || s.batches[b].phase.Resolved?) && s.batches[b].phase.ok
    ensures Landed(s, b, op)
  {
    var bt := s.batches[b];
    assert BatchOk(c, s.log, b, bt);
    var gr :| gr in bt.groups && op in gr.items;
    var g :| 0 <= g < |bt.groups| && bt.groups[g] == gr;
    assert GroupOk(c, s.log, b, g, gr) && gr.phase.Finished?;
    assert gr.items[..gr.call.sent] == gr.items;
    TaskOpsMean(s.log, gr.tasks, op);
    var t :| t in gr.tasks && t < |s.log| && op in s.log[t].ops;
    assert s.log[t].batch == b && s.log[t].status.Succeeded?;
  }

  /** An ack of message m means: its batch had no error, and each operation submitted with m, or
      the newer one with its key that replaced it in the same batch, is in a task that succeeded.
      Over separable index names that newer one is for the same document. */
  lemma AckSafety(c: Config, s: State, m: Msg, i: nat, op: Op, names: set<string>)
    returns (b: nat, kept: Op, j: nat)
    requires Reachable(c, s) && Ack(m) in s.events
    requires i < |s.history| && s.history[i].msg == Some(m) && op in SubOps(s.history[i])
    ensures b < |s.batches| && m in s.batches[b].msgs && s.batches[b].errs == 0
    ensures s.batches[b].lo <= i <= j < s.batches[b].hi <= |s.history|
    ensures kept in BatchOps(s.batches[b]) && OpKey(kept) == OpKey(op) && kept in SubOps(s.history[j])
    ensures Separable(names) && Ops.Over(OpsOf(s.history), names) ==> TargetOf(kept) == TargetOf(op)
    ensures Droppable(kept) || Landed(s, b, kept)
    ensures Nak(m) !in s.events
  {
    ReachableInv(c, s);
    b := AckedBatch(c, s, m);
    OwnSubmission(s, b, m, i);
    kept, j := MessageKeepsOps(s, b, i, op);
    if !Droppable(kept) {
      AllLanded(c, s, b, kept);
    }
    if Separable(names) && Ops.Over(OpsOf(s.history), names) {
      SameDocument(s.history, i, op, j, kept, names);
    }
  }

  /** An acked message is in a batch that settled without error. */
  lemma AckedBatch(c: Config, s: State, m: Msg) returns (b: nat)
    requires CallsInv(c, s) && EventInv(s) && Ack(m) in s.events
    ensures b < |s.batches| && m in s.batches[b].msgs && s.batches[b].errs == 0
    ensures (s.batches[b].phase.Settling? || s.batches[b].phase.Resolved?) && s.batches[b].phase.ok
    ensures Nak(m) !in s.events
  {
    assert Sourced(s, Ack(m));
    var k: nat;
    b, k :| b < |s.batches| && SettledAs(s.batches[b], k, true) && s.batches[b].msgs[k] == m;
    assert BatchOk(c, s.log, b, s.batches[b]);
    OneVerdict(s, m);
  }

  lemma {:induction false} SubmittedIn(subs: seq<Submission>, i: nat, op: Op)
    requires i < |subs| && op in SubOps(subs[i])
    ensures op in OpsOf(subs)
  {
    if i < |subs| - 1 {
      SubmittedIn(subs[..|subs| - 1], i, op);
    }
  }

  /** Over separable index names, submitted operations with one key are for one document. */
  lemma SameDocument(subs: seq<Submission>, i: nat, op: Op, j: nat, kept: Op, names: set<string>)
    requires Separable(names) && Ops.Over(OpsOf(subs), names) && OpKey(kept) == OpKey(op)
    requires i < |subs| && op in SubOps(subs[i]) && j < |subs| && kept in SubOps(subs[j])
    ensures TargetOf(kept) == TargetOf(op)
  {
    SubmittedIn(subs, i, op);
    SubmittedIn(subs, j, kept);
    KeyIdentifies(names, TargetOf(kept), TargetOf(op));
  }

  lemma OwnSubmission(s: State, b: nat, m: Msg, i: nat)
    requires HistInv(s) && SeenInv(s) && b < |s.batches| && m in s.batches[b].msgs
    requires i < |s.history| && s.history[i].msg == Some(m)
    ensures s.batches[b].lo <= i < s.batches[b].hi
  {
    var bt := s.batches[b];
    assert Carries(s.history, bt);
    var subs := s.history[bt.lo..bt.hi];
    TrackingSource(subs, m);
    var k :| 0 <= k < |subs| && subs[k].msg == Some(m);
    SameSubmission(s, i, bt.lo + k);
  }

  lemma SameSubmission(s: State, i: nat, j: nat)
    requires SeenInv(s) && i < |s.history| && j < |s.history|
    requires s.history[i].msg.Some? && s.history[i].msg == s.history[j].msg
    ensures i == j
  {}

  lemma OneVerdict(s: State, m: Msg)
    requires EventInv(s)
    ensures !(Ack(m) in s.events && Nak(m) in s.events)
  {
    if p :| 0 <= p < |s.events| && s.events[p] == Ack(m) {
      forall q | 0 <= q < |s.events| ensures s.events[q] != Nak(m) {
        assert q < p && IsSettle(s.events[q]) ==> s.events[p].msg.delivery != s.events[q].msg.delivery;
        assert p < q ==> s.events[q].msg.delivery != s.events[p].msg.delivery;
      }
    }
  }

  /** A resolved batch's messages all got the same verdict: all acked if no call, task or wait
      failed, all nacked and none acked otherwise. */
  lemma OneVerdictPerBatch(c: Config, s: State, b: nat, k: nat)
    requires Reachable(c, s) && b < |s.batches| && s.batches[b].phase.Resolved? && k < |s.batches[b].msgs|
    ensures var bt := s.batches[b];
            if exists g :: g in bt.groups && FailedGroup(g)
            then Nak(bt.msgs[k]) in s.events && Ack(bt.msgs[k]) !in s.events
            else Ack(bt.msgs[k]) in s.events && Nak(bt.msgs[k]) !in s.events
  {
    ReachableInv(c, s);
    var bt := s.batches[b];
    assert BatchOk(c, s.log, b, bt);
    assert SettledAs(bt, k, bt.phase.ok);
    assert SettleOf(bt, k, bt.phase.ok) in s.events;
    OneVerdict(s, bt.msgs[k]);
  }

  // ---- deliveries --------------------------------------------------------------------------------------------

  ghost predicate Among(msgs: seq<Msg>, d: nat) { exists k: nat :: In(msgs, k, d) }
  ghost predicate InBatch(s: State, d: nat) { Listed(MsgLists(s.batches), d) }
  ghost predicate Listed(lists: seq<seq<Msg>>, d: nat) { exists b: nat, k: nat :: At(lists, b, k, d) }

  /** The events hold an ack (ok) or a nak of the delivery. */
  ghost predicate Verdict(events: seq<Event>, d: nat, ok: bool) {
    exists p :: 0 <= p < |events| && IsSettle(events[p]) && events[p].Ack? == ok && events[p].msg.delivery == d
  }

  datatype Fate = Unlaunched | Flying | Acked | Nacked | GivenUp

  /** What has become of message k of a batch. */
  function FateOf(bt: Batch, k: nat): Fate {
    if SettledAs(bt, k, true) then Acked
    else if SettledAs(bt, k, false) then Nacked
    else if Awaiting(bt) then Unlaunched
    else if bt.phase.Abandoned? then GivenUp
    else Flying
  }

  lemma {:induction false} FlattenPlaces(lists: seq<seq<Msg>>, d: nat)
    ensures Among(Flatten(lists), d) <==> Listed(lists, d)
  {
    if lists != [] {
      var init, last := lists[..|lists| - 1], lists[|lists| - 1];
      FlattenPlaces(init, d);
      AppendPlaces(Flatten(init), last, d);
      ListedLast(init, last, d);
      assert init + [last] == lists;
    }
  }

  lemma ListedLast(init: seq<seq<Msg>>, last: seq<Msg>, d: nat)
    ensures Listed(init + [last], d) <==> Listed(init, d) || Among(last, d)
  {
    var lists := init + [last];
    if b: nat, k: nat :| At(init, b, k, d) {
      assert At(lists, b, k, d);
    }
    if k: nat :| In(last, k, d) {
      assert At(lists, |init|, k, d);
    }
    if b: nat, k: nat :| At(lists, b, k, d) {
      assert if b < |init| then At(init, b, k, d) else In(last, k, d);
    }
  }

  lemma AppendPlaces(a: seq<Msg>, b: seq<Msg>, d: nat)
    ensures Among(a + b, d) <==> Among(a, d) || Among(b, d)
  {
    if k: nat :| In(a + b, k, d) {
      assert if k < |a| then In(a, k, d) else In(b, k - |a|, d);
    }
    if k: nat :| In(a, k, d) {
      assert In(a + b, k, d);
    }
    if k: nat :| In(b, k, d) {
      assert In(a + b, |a| + k, d);
    }
  }

  lemma TrackedPlaces(s: State, d: nat)
    requires PlaceInv(s)
    ensures Among(s.tracked, d) <==> Among(s.buf.msgs, d) || InBatch(s, d)
  {
    FlattenPlaces(MsgLists(s.batches), d);
    AppendPlaces(Flatten(MsgLists(s.batches)), s.buf.msgs, d);
  }

  /** A verdict belongs to the one place of its delivery, which is settled that way. */
  lemma VerdictSource(s: State, d: nat, ok: bool)
    requires EventsSourced(s) && Verdict(s.events, d, ok)
    ensures exists b: nat, k: nat :: At(MsgLists(s.batches), b, k, d) && SettledAs(s.batches[b], k, ok)
  {
    var p :| 0 <= p < |s.events| && IsSettle(s.events[p]) && s.events[p].Ack? == ok && s.events[p].msg.delivery == d;
    var e := s.events[p];
    assert e in s.events && Sourced(s, e);
    var b: nat, k: nat :| b < |s.batches| && SettledAs(s.batches[b], k, e.Ack?) && s.batches[b].msgs[k] == e.msg;
    assert At(MsgLists(s.batches), b, k, d);
  }

  lemma VerdictAt(s: State, b: nat, k: nat, d: nat, ok: bool)
    requires PlaceInv(s) && EventsSourced(s) && SettledSeen(s) && At(MsgLists(s.batches), b, k, d)
    ensures Verdict(s.events, d, ok) <==> SettledAs(s.batches[b], k, ok)
  {
    if Verdict(s.events, d, ok) {
      VerdictSource(s, d, ok);
    }
    if SettledAs(s.batches[b], k, ok) {
      var e := SettleOf(s.batches[b], k, ok);
      assert e in s.events;
      var p :| 0 <= p < |s.events| && s.events[p] == e;
    }
  }

  lemma NoVerdictElsewhere(s: State, d: nat)
    requires EventsSourced(s) && !InBatch(s, d)
    ensures !Verdict(s.events, d, true) && !Verdict(s.events, d, false)
  {
    if Verdict(s.events, d, true) {
      VerdictSource(s, d, true);
    }
    if Verdict(s.events, d, false) {
      VerdictSource(s, d, false);
    }
  }

  /** The events tell the fate of message k of batch b, whose delivery is d. */
  ghost predicate Told(s: State, b: nat, k: nat, d: nat)
    requires b < |s.batches|
  {
    && (Verdict(s.events, d, true) <==> FateOf(s.batches[b], k) == Acked)
    && (Verdict(s.events, d, false) <==> FateOf(s.batches[b], k) == Nacked)
  }

  lemma EventsTell(s: State, d: nat)
    requires PlaceInv(s) && EventInv(s)
    ensures forall b: nat, k: nat :: At(MsgLists(s.batches), b, k, d) ==> Told(s, b, k, d)
    ensures !InBatch(s, d) ==> !Verdict(s.events, d, true) && !Verdict(s.events, d, false)
  {
    forall b: nat, k: nat | At(MsgLists(s.batches), b, k, d) ensures Told(s, b, k, d) {
      VerdictAt(s, b, k, d, true);
      VerdictAt(s, b, k, d, false);
    }
    if !InBatch(s, d) {
      NoVerdictElsewhere(s, d);
    }
  }

  lemma ClosedOnce(s: State)
    requires ChainInv(s)
    ensures forall ch :: s.closed[ch] <= 1
  {
    forall ch ensures s.closed[ch] <= 1 {
      if 0 < ch <= |s.batches| {
        assert LinkOk(s.closed, ch - 1, s.batches[ch - 1]);
      }
    }
  }

  /** In every run, shutdown included, a tracked delivery is at exactly one position, of the buffer
      or of one batch. */
  lemma OnePlace(c: Config, s: State, d: nat)
    requires Reachable(c, s)
    ensures Among(s.tracked, d) <==> Among(s.buf.msgs, d) || InBatch(s, d)
    ensures !(Among(s.buf.msgs, d) && InBatch(s, d))
    ensures forall k: nat, k': nat :: In(s.buf.msgs, k, d) && In(s.buf.msgs, k', d) ==> k == k'
    ensures forall b: nat, k: nat, b': nat, k': nat ::
              At(MsgLists(s.batches), b, k, d) && At(MsgLists(s.batches), b', k', d) ==> b == b' && k == k'
  {
    ReachableInv(c, s);
    TrackedPlaces(s, d);
  }

  /** And its fate there is what the events say: acked or nacked iff its position is settled so,
      neither while it is buffered, waiting, in flight or abandoned; nothing happens to it after
      its ack or nak; and no channel is closed twice. */
  lemma Conservation(c: Config, s: State, d: nat)
    requires Reachable(c, s)
    ensures forall b: nat, k: nat :: At(MsgLists(s.batches), b, k, d) ==> Told(s, b, k, d)
    ensures !InBatch(s, d) ==> !Verdict(s.events, d, true) && !Verdict(s.events, d, false)
    ensures LastWord(s.events)
    ensures forall ch :: s.closed[ch] <= 1
  {
    ReachableInv(c, s);
    EventsTell(s, d);
    ClosedOnce(s);
  }

  /** With the handler as the one submitter beside the ticker, memory is bounded by configuration. */
  lemma BoundedMemory(c: Config, s: State)
    requires Reachable(c, s)
    ensures Sums.Sum(s.batches, SlotOf) <= c.slots
    ensures Sums.Sum(s.batches, CallsOf) <= c.uploads
    ensures forall i :: 0 <= i < |s.batches| ==> |s.batches[i].msgs| <= c.batchSize
    ensures Outstanding(s) <= (c.slots + 2) * c.batchSize - 1
  {
    ReachableInv(c, s);
    MemoryBound(c, s);
  }

  /** From every reachable state, a run that keeps taking progress steps, with heartbeats and
      submissions below the trigger in between, resolves all taken batches; and such a run can
      always go on (`SomeStep`). */
  lemma Progress(c: Config, f: nat -> State) returns (n: nat)
    requires Reachable(c, f(0)) && KeepsGoing(c, f)
    ensures AllRetired(f(n))
  {
    ReachableInv(c, f(0));
    assert Sound(c, f(0));
    n := EveryBatchResolves(c, f, 0);
  }
}
