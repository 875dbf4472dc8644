/** The refinement: as long as nothing failed and nothing was abandoned, the tasks enqueued
    so far, then what the taken batches still have to send, then the buffer, coalesce to
    exactly what the submissions in lock order coalesce to. */
module FlushRefinement {
  import opened Ops
  import opened Buffering
  import opened SdkCall
  import opened FlushProtocol
  import opened FlushChain
  import opened FlushCalls
  import opened FlushOrder
  import opened FlushHistory

  function LogOps(log: seq<Task>): seq<Op> {
    if log == [] then [] else LogOps(log[..|log| - 1]) + log[|log| - 1].ops
  }

  function Unsent(groups: seq<Group>): seq<Op> {
    if groups == [] then []
    else
      var g := groups[|groups| - 1];
      Unsent(groups[..|groups| - 1]) + (if g.call.sent <= |g.items| then g.items[g.call.sent..] else [])
  }

  /** What a batch still has to put in the backend's queue. */
  function Rest(bt: Batch): seq<Op> { if Launched(bt) then Unsent(bt.groups) else BatchOps(bt) }

  function RestMaps(batches: seq<Batch>): seq<map<string, Op>> {
    seq(|batches|, i requires 0 <= i < |batches| => Latest(Rest(batches[i])))
  }

  /** Merges maps from left to right, later entries winning. */
  function MergeAll<K, V>(ms: seq<map<K, V>>): map<K, V> {
    if ms == [] then map[] else MergeAll(ms[..|ms| - 1]) + ms[|ms| - 1]
  }

  function Rests(batches: seq<Batch>): map<string, Op> { MergeAll(RestMaps(batches)) }

  /** No batch was abandoned, no call or wait failed and no task failed. */
  ghost predicate Clean(s: State) {
    && (forall b :: 0 <= b < |s.batches| ==> !s.batches[b].phase.Abandoned? && s.batches[b].errs == 0)
    && (forall t :: 0 <= t < |s.log| ==> !s.log[t].status.TaskFailed?)
  }

  /** Every submitted delete names a document. */
  ghost predicate Identified(history: seq<Submission>) {
    forall op :: op in OpsOf(history) ==> !Droppable(op)
  }

  ghost predicate Refines(s: State) {
    Latest(LogOps(s.log)) + Rests(s.batches) + s.buf.pending == Latest(OpsOf(s.history))
  }

  ghost predicate RefInv(s: State) {
    Clean(s) && Identified(s.history) ==> Refines(s)
  }

  // ---- map algebra over the batches ----------------------------------------------------------

  lemma {:induction false} MergeEmpty<K, V>(ms: seq<map<K, V>>)
    requires forall i :: 0 <= i < |ms| ==> ms[i] == map[]
    ensures MergeAll(ms) == map[]
  {
    if ms != [] {
      MergeEmpty(ms[..|ms| - 1]);
    }
  }

  lemma EmptyLeft<K, V>(m: map<K, V>)
    ensures map[] + m == m
  {}

  /** Moving entries from the first non-empty map to its left changes nothing. */
  lemma {:induction false} MergeShift<K, V>(x: map<K, V>, x': map<K, V>, ms: seq<map<K, V>>, b: nat, m: map<K, V>)
    requires b < |ms| && forall i :: 0 <= i < b ==> ms[i] == map[]
    requires x' + m == x + ms[b]
    ensures x' + MergeAll(ms[b := m]) == x + MergeAll(ms)
  {
    var init, last := ms[..|ms| - 1], ms[|ms| - 1];
    if b == |ms| - 1 {
      assert ms[b := m][..|ms| - 1] == init;
      MergeEmpty(init);
      EmptyLeft(last);
      EmptyLeft(m);
      assert MergeAll(ms) == last && MergeAll(ms[b := m]) == m;
    } else {
      assert ms[b := m][..|ms| - 1] == init[b := m];
      MergeShift(x, x', init, b, m);
      MergeAssoc(x, MergeAll(init), last);
      MergeAssoc(x', MergeAll(init[b := m]), last);
    }
  }

  lemma RestMapsSet(batches: seq<Batch>, b: nat, bt: Batch)
    requires b < |batches|
    ensures RestMaps(batches[b := bt]) == RestMaps(batches)[b := Latest(Rest(bt))]
  {}

  lemma RestsSame(batches: seq<Batch>, b: nat, bt: Batch)
    requires b < |batches| && Latest(Rest(bt)) == Latest(Rest(batches[b]))
    ensures Rests(batches[b := bt]) == Rests(batches)
  {
    RestMapsSet(batches, b, bt);
    assert RestMaps(batches)[b := Latest(Rest(bt))] == RestMaps(batches);
  }

  lemma RestsShift(x: map<string, Op>, x': map<string, Op>, batches: seq<Batch>, b: nat, bt: Batch)
    requires b < |batches| && forall i :: 0 <= i < b ==> Rest(batches[i]) == []
    requires x' + Latest(Rest(bt)) == x + Latest(Rest(batches[b]))
    ensures x' + Rests(batches[b := bt]) == x + Rests(batches)
  {
    RestMapsSet(batches, b, bt);
    MergeShift(x, x', RestMaps(batches), b, Latest(Rest(bt)));
  }

  lemma RestsTake(batches: seq<Batch>, bt: Batch)
    ensures Rests(batches + [bt]) == Rests(batches) + Latest(Rest(bt))
  {
    var ms := RestMaps(batches + [bt]);
    assert ms[..|ms| - 1] == RestMaps(batches);
  }

  ghost predicate StillHas(g: Group, op: Op) { g.call.sent <= |g.items| && op in g.items[g.call.sent..] }

  lemma {:induction false} InUnsent(groups: seq<Group>, op: Op)
    ensures op in Unsent(groups) <==> SomeHas(groups, op)
  {
    if groups != [] {
      var init, last := groups[..|groups| - 1], groups[|groups| - 1];
      InUnsent(init, op);
      SomeHasLast(init, last, op);
      assert init + [last] == groups;
    }
  }

  ghost predicate SomeHas(groups: seq<Group>, op: Op) { exists i :: 0 <= i < |groups| && StillHas(groups[i], op) }

  lemma SomeHasLast(init: seq<Group>, last: Group, op: Op)
    ensures SomeHas(init + [last], op) <==> SomeHas(init, op) || StillHas(last, op)
  {
    var groups := init + [last];
    if i :| 0 <= i < |init| && StillHas(init[i], op) {
      assert groups[i] == init[i];
    }
    assert groups[|init|] == last;
  }

  lemma UnsentMeans(groups: seq<Group>)
    requires forall i :: 0 <= i < |groups| ==> groups[i].call.sent <= |groups[i].items|
    ensures forall op :: op in Unsent(groups) <==>
              exists i :: 0 <= i < |groups| && op in groups[i].items[groups[i].call.sent..]
  {
    forall op ensures op in Unsent(groups) <==>
                      exists i :: 0 <= i < |groups| && op in groups[i].items[groups[i].call.sent..]
    {
      InUnsent(groups, op);
      if i :| 0 <= i < |groups| && op in groups[i].items[groups[i].call.sent..] {
        assert StillHas(groups[i], op);
      }
    }
  }

  lemma {:induction false} AllSent(groups: seq<Group>)
    requires forall i :: 0 <= i < |groups| ==> groups[i].call.sent == |groups[i].items|
    ensures Unsent(groups) == []
  {
    if groups != [] {
      AllSent(groups[..|groups| - 1]);
    }
  }

  lemma FunctionalSubset(a: seq<Op>, b: seq<Op>)
    requires KeyFunctional(b) && forall op :: op in a ==> op in b
    ensures KeyFunctional(a)
  {}

  /** `part + after` lists the same operations as `before`. */
  lemma PartThenRest(before: seq<Op>, part: seq<Op>, after: seq<Op>, x: map<string, Op>)
    requires KeyFunctional(before) && forall op :: op in before <==> op in part || op in after
    ensures x + Latest(part) + Latest(after) == x + Latest(before)
  {
    LatestBySet(before, part + after);
    LatestConcat(part, after);
    MergeAssoc(x, Latest(part), Latest(after));
  }

  // ---- a batch that passed without failure has nothing left ---------------------------------

  lemma PassedSent(c: Config, s: State, i: nat)
    requires CallsInv(c, s) && i < |s.batches| && Passed(s.batches[i])
    requires !s.batches[i].phase.Abandoned? && s.batches[i].errs == 0
    ensures Rest(s.batches[i]) == []
  {
    var bt := s.batches[i];
    assert BatchOk(c, s.log, i, bt);
    forall g | 0 <= g < |bt.groups| ensures bt.groups[g].call.sent == |bt.groups[g].items| {
      assert bt.groups[g] in bt.groups;
      assert GroupOk(c, s.log, i, g, bt.groups[g]);
    }
    AllSent(bt.groups);
  }

  lemma SentBefore(c: Config, s: State, b: nat)
    requires ChainInv(s) && CallsInv(c, s) && Clean(s) && b < |s.batches| && HadTurn(s.batches[b])
    ensures forall i :: 0 <= i < b ==> Rest(s.batches[i]) == []
  {
    forall i | 0 <= i < b ensures Rest(s.batches[i]) == [] {
      ChainBehind(s, i, b);
      PassedSent(c, s, i);
    }
  }

  // ---- one goroutine step ----------------------------------------------------------------------

  lemma {:induction false} UnsentSame(groups: seq<Group>, g: nat, gr: Group)
    requires g < |groups| && gr.items == groups[g].items && gr.call.sent == groups[g].call.sent
    ensures Unsent(groups[g := gr]) == Unsent(groups)
  {
    var init := groups[..|groups| - 1];
    if g == |groups| - 1 {
      assert groups[g := gr][..|groups| - 1] == init;
    } else {
      assert groups[g := gr][..|groups| - 1] == init[g := gr];
      UnsentSame(init, g, gr);
    }
  }

  /** Sending items sent..end leaves, with them, exactly what was unsent before. */
  lemma SendSplits(groups: seq<Group>, g: nat, gr: Group, end: nat)
    requires forall i :: 0 <= i < |groups| ==> groups[i].call.sent <= |groups[i].items|
    requires g < |groups| && gr.items == groups[g].items
    requires groups[g].call.sent <= end <= |gr.items| && (gr.call.sent == end || gr.call.sent == groups[g].call.sent)
    ensures forall op :: op in Unsent(groups) <==>
              op in gr.items[groups[g].call.sent..end] || op in Unsent(groups[g := gr])
  {
    var groups' := groups[g := gr];
    var part := gr.items[groups[g].call.sent..end];
    UnsentMeans(groups);
    UnsentMeans(groups');
    assert groups[g].items[groups[g].call.sent..] == part + gr.items[end..];
    forall op ensures op in Unsent(groups) <==> op in part || op in Unsent(groups') {
      if i :| 0 <= i < |groups| && op in groups[i].items[groups[i].call.sent..] {
        assert i != g ==> groups'[i] == groups[i];
        assert i == g && op !in part ==> op in groups'[g].items[groups'[g].call.sent..];
      }
      if i :| 0 <= i < |groups'| && op in groups'[i].items[groups'[i].call.sent..] {
        assert i != g ==> groups[i] == groups'[i];
        assert i == g ==> op in groups[g].items[groups[g].call.sent..];
      }
      assert op in part ==> op in groups[g].items[groups[g].call.sent..];
    }
  }

  lemma UnsentOfBatch(c: Config, log: seq<Task>, b: nat, bt: Batch)
    requires BatchOk(c, log, b, bt) && Launched(bt) && KeyFunctional(BatchOps(bt))
    ensures forall i :: 0 <= i < |bt.groups| ==> bt.groups[i].call.sent <= |bt.groups[i].items|
    ensures forall op :: op in Unsent(bt.groups) ==> op in BatchOps(bt)
    ensures KeyFunctional(Unsent(bt.groups))
  {
    forall i | 0 <= i < |bt.groups| ensures bt.groups[i].call.sent <= |bt.groups[i].items| {
      assert GroupOk(c, log, b, i, bt.groups[i]);
    }
    UnsentMeans(bt.groups);
    forall op | op in Unsent(bt.groups) ensures op in BatchOps(bt) {
      var i :| 0 <= i < |bt.groups| && op in bt.groups[i].items[bt.groups[i].call.sent..];
      assert bt.groups[i] in bt.groups && op in bt.groups[i].items;
    }
    FunctionalSubset(Unsent(bt.groups), BatchOps(bt));
  }

  /** The batch after one step of goroutine a.g. */
  function AfterCall(c: Config, log: seq<Task>, bt: Batch, a: Action): Batch
    requires IsCall(a) && a.g < |bt.groups| && (a.Send? ==> bt.groups[a.g].call.status.Running?)
  {
    WithGroup(bt, a.g, Called(c, bt.groups[a.g], |log|, a))
  }

  lemma SendShift(c: Config, log: seq<Task>, bt: Batch, a: Action, x: map<string, Op>)
    requires ConfigOk(c) && a.Send? && Reached(a.outcome)
    requires a.g < |bt.groups| && CanCall(log, bt, bt.groups[a.g], a)
    requires BatchOk(c, log, a.b, bt) && Launched(bt) && KeyFunctional(BatchOps(bt))
    ensures x + Latest(LogOps(SentTasks(c, bt.groups[a.g], a))) + Latest(Unsent(AfterCall(c, log, bt, a).groups))
         == x + Latest(Unsent(bt.groups))
  {
    var gr := bt.groups[a.g];
    assert GroupOk(c, log, a.b, a.g, gr);
    var gr' := Called(c, gr, |log|, a);
    var tasks := SentTasks(c, gr, a);
    var part := tasks[0].ops;
    assert tasks == [tasks[0]];
    OneTask(tasks[0]);
    UnsentOfBatch(c, log, a.b, bt);
    SendSplits(bt.groups, a.g, gr', ChunkEnd(|gr.items|, c.chunk, gr.call.sent));
    PartThenRest(Unsent(bt.groups), part, Unsent(bt.groups[a.g := gr']), x);
  }

  /** What a goroutine step adds to the log, followed by the batch's new rest, is its old rest. */
  lemma CallShift(c: Config, log: seq<Task>, bt: Batch, a: Action, x: map<string, Op>)
    requires ConfigOk(c) && IsCall(a) && a.g < |bt.groups| && CanCall(log, bt, bt.groups[a.g], a)
    requires BatchOk(c, log, a.b, bt) && Launched(bt) && KeyFunctional(BatchOps(bt))
    ensures x + Latest(LogOps(SentTasks(c, bt.groups[a.g], a))) + Latest(Unsent(AfterCall(c, log, bt, a).groups))
         == x + Latest(Unsent(bt.groups))
  {
    var gr := bt.groups[a.g];
    if a.Send? && Reached(a.outcome) {
      SendShift(c, log, bt, a, x);
    } else {
      QuietStep(c, log, bt, a);
      EmptyRight(x);
    }
  }

  lemma QuietStep(c: Config, log: seq<Task>, bt: Batch, a: Action)
    requires IsCall(a) && a.g < |bt.groups| && CanCall(log, bt, bt.groups[a.g], a)
    requires GroupOk(c, log, a.b, a.g, bt.groups[a.g]) && !(a.Send? && Reached(a.outcome))
    ensures Latest(LogOps(SentTasks(c, bt.groups[a.g], a))) == map[]
    ensures Unsent(AfterCall(c, log, bt, a).groups) == Unsent(bt.groups)
  {
    UnsentSame(bt.groups, a.g, Called(c, bt.groups[a.g], |log|, a));
  }

  lemma EmptyRight<K, V>(x: map<K, V>)
    ensures x + map[] == x
  {}

  lemma OneTask(k: Task)
    ensures LogOps([k]) == k.ops
  {
    assert [k][..0] == [];
  }

  lemma {:induction false} LogOpsConcat(a: seq<Task>, b: seq<Task>)
    ensures LogOps(a + b) == LogOps(a) + LogOps(b)
    decreases |b|
  {
    if b == [] {
      assert a + b == a;
    } else {
      assert (a + b)[..|a + b| - 1] == a + b[..|b| - 1];
      LogOpsConcat(a, b[..|b| - 1]);
    }
  }

  lemma CallRest(c: Config, s: State, a: Action)
    requires ConfigOk(c) && CallsInv(c, s) && HistInv(s) && IsCall(a) && CallEnabled(c, s, a)
    ensures Launched(s.batches[a.b])
    ensures Latest(LogOps(CallTo(c, s, a).log)) + Latest(Rest(AfterCall(c, s.log, s.batches[a.b], a)))
         == Latest(LogOps(s.log)) + Latest(Rest(s.batches[a.b]))
  {
    var bt := s.batches[a.b];
    assert BatchOk(c, s.log, a.b, bt);
    assert KeyFunctional(BatchOps(bt)) by {
      assert Carries(s.history, bt);
    }
    CallRestOf(c, s.log, bt, a);
  }

  /** What a call adds to the log it takes from the batch's rest. */
  lemma CallRestOf(c: Config, log: seq<Task>, bt: Batch, a: Action)
    requires ConfigOk(c) && IsCall(a) && a.g < |bt.groups| && CanCall(log, bt, bt.groups[a.g], a)
    requires BatchOk(c, log, a.b, bt) && KeyFunctional(BatchOps(bt))
    ensures Launched(bt)
    ensures Latest(LogOps(log + SentTasks(c, bt.groups[a.g], a))) + Latest(Rest(AfterCall(c, log, bt, a)))
         == Latest(LogOps(log)) + Latest(Rest(bt))
  {
    var sent := SentTasks(c, bt.groups[a.g], a);
    CallShift(c, log, bt, a, Latest(LogOps(log)));
    assert Latest(LogOps(log + sent)) == Latest(LogOps(log)) + Latest(LogOps(sent)) by {
      LogOpsConcat(log, sent);
      LatestConcat(LogOps(log), LogOps(sent));
    }
  }

  lemma RefCall(c: Config, s: State, a: Action)
    requires ConfigOk(c) && ChainInv(s) && CallsInv(c, s) && HistInv(s) && Clean(s)
    requires IsCall(a) && CallEnabled(c, s, a) && Refines(s)
    ensures Refines(CallTo(c, s, a))
  {
    var bt' := AfterCall(c, s.log, s.batches[a.b], a);
    var log' := CallTo(c, s, a).log;
    CallRest(c, s, a);
    SentBefore(c, s, a.b);
    RestsShift(Latest(LogOps(s.log)), Latest(LogOps(log')), s.batches, a.b, bt');
    RefinesVia(s, CallTo(c, s, a), log', s.batches[a.b := bt']);
  }

  lemma RefinesVia(s: State, s': State, log': seq<Task>, batches': seq<Batch>)
    requires Refines(s) && s'.buf.pending == s.buf.pending && s'.history == s.history
    requires s'.log == log' && s'.batches == batches'
    requires Latest(LogOps(log')) + Rests(batches') == Latest(LogOps(s.log)) + Rests(s.batches)
    ensures Refines(s')
  {}

  // ---- moves -------------------------------------------------------------------------------------

  lemma {:induction false} AllUnsent(groups: seq<Group>)
    requires forall g :: g in groups ==> Fresh(g)
    ensures forall op :: op in Unsent(groups) <==> exists g :: g in groups && op in g.items
  {
    if groups != [] {
      var init, last := groups[..|groups| - 1], groups[|groups| - 1];
      assert groups == init + [last];
      AllUnsent(init);
      assert last in groups && Fresh(last);
      assert last.items[last.call.sent..] == last.items;
    }
  }

  lemma FlushKeepsRest(c: Config, log: seq<Task>, b: nat, bt: Batch, us: seq<string>, ds: seq<string>)
    requires BatchOk(c, log, b, bt) && bt.phase.AwaitSlot? && Orders(us, bt.upserts) && Orders(ds, bt.deletes)
    requires KeyFunctional(BatchOps(bt)) && forall op :: op in BatchOps(bt) ==> !Droppable(op)
    ensures Latest(Rest(Flushing(bt, us, ds))) == Latest(Rest(bt))
  {
    var bt' := Flushing(bt, us, ds);
    FlushingOk(c, log, b, bt, us, ds);
    AllUnsent(bt'.groups);
    assert Covers(bt'.groups, BatchOps(bt'));
    LatestBySet(BatchOps(bt), Unsent(bt'.groups));
  }

  lemma BatchIdentified(s: State, b: nat)
    requires HistInv(s) && Identified(s.history) && b < |s.batches|
    ensures forall op :: op in BatchOps(s.batches[b]) ==> !Droppable(op)
  {
    var bt := s.batches[b];
    assert Carries(s.history, bt);
    var subs := s.history[bt.lo..bt.hi];
    assert s.history == s.history[..bt.lo] + subs + s.history[bt.hi..];
    OpsOfConcat(s.history[..bt.lo] + subs, s.history[bt.hi..]);
    OpsOfConcat(s.history[..bt.lo], subs);
    forall op | op in BatchOps(bt) ensures !Droppable(op) {
      LatestEntry(BatchOps(bt), OpKey(op));
      LatestEntry(OpsOf(subs), OpKey(op));
      assert Latest(BatchOps(bt))[OpKey(op)] == op;
      assert op in OpsOf(s.history);
    }
  }

  lemma OtherMoveRest(bt: Batch, a: Action)
    requires IsMove(a) && CanMove(bt, a) && !a.Abandon? && !a.StartFlush?
    ensures Rest(Moved(bt, a)) == Rest(bt)
  {}

  lemma StartKeepsRest(c: Config, s: State, a: Action)
    requires CallsInv(c, s) && HistInv(s) && Identified(s.history)
    requires a.StartFlush? && MoveEnabled(c, s, a)
    ensures Latest(Rest(Moved(s.batches[a.b], a))) == Latest(Rest(s.batches[a.b]))
  {
    assert Carries(s.history, s.batches[a.b]);
    BatchIdentified(s, a.b);
    FlushKeepsRest(c, s.log, a.b, s.batches[a.b], a.upsertOrder, a.deleteOrder);
  }

  lemma MoveKeepsRest(c: Config, s: State, a: Action)
    requires CallsInv(c, s) && HistInv(s) && Identified(s.history)
    requires IsMove(a) && MoveEnabled(c, s, a) && !a.Abandon?
    ensures Latest(Rest(Moved(s.batches[a.b], a))) == Latest(Rest(s.batches[a.b]))
  {
    if a.StartFlush? {
      StartKeepsRest(c, s, a);
    } else {
      OtherMoveRest(s.batches[a.b], a);
    }
  }

  lemma RefMove(c: Config, s: State, a: Action)
    requires CallsInv(c, s) && HistInv(s) && Identified(s.history)
    requires IsMove(a) && MoveEnabled(c, s, a) && !a.Abandon? && Refines(s)
    ensures Refines(MoveTo(s, a))
  {
    MoveKeepsRest(c, s, a);
    RestsSame(s.batches, a.b, Moved(s.batches[a.b], a));
  }

  // ---- the buffer ----------------------------------------------------------------------------------

  lemma RefTake(s: State, who: Actor, upserts: seq<UpsertOp>, deletes: seq<DeleteOp>)
    requires Refines(s) && Lists(upserts, deletes, s.buf.pending) && KeyedRight(s.buf.pending)
    ensures Refines(Take(s, who, upserts, deletes))
  {
    var s' := Take(s, who, upserts, deletes);
    var bt := s'.batches[|s.batches|];
    var x := Latest(LogOps(s.log));
    RestsTake(s.batches, bt);
    ListsIsLatest(upserts, deletes, s.buf.pending);
    assert Rest(bt) == deletes + upserts;
    TakeAlgebra(x, Rests(s.batches), s.buf.pending);
  }

  lemma TakeAlgebra<K, V>(x: map<K, V>, r: map<K, V>, p: map<K, V>)
    ensures x + (r + p) + map[] == x + r + p
  {}

  lemma RefAbsorb(s: State, sub: Submission)
    requires Refines(s)
    ensures Refines(Absorbed(s, sub))
  {
    var s' := Absorbed(s, sub);
    assert s'.history[..|s'.history| - 1] == s.history;
    LatestConcat(OpsOf(s.history), SubOps(sub));
    MergeAssoc(Latest(LogOps(s.log)) + Rests(s.batches), s.buf.pending, Latest(SubOps(sub)));
  }

  lemma RefSubmit(c: Config, s: State, a: Action)
    requires HistInv(s) && a.Submit? && Refines(s)
    requires SubOps(a.sub) != [] && Due(c.batchSize, Absorb(s.buf, a.sub)) ==>
               Lists(a.upserts, a.deletes, Absorb(s.buf, a.sub).pending)
    ensures Refines(Submitted(c, s, a))
  {
    if SubOps(a.sub) != [] {
      var full := Absorbed(s, a.sub);
      RefAbsorb(s, a.sub);
      HistAbsorb(s, a.sub);
      if Due(c.batchSize, full.buf) {
        RefTake(full, Submitter, a.upserts, a.deletes);
      }
    }
  }

  lemma {:induction false} LogOpsExtend(log: seq<Task>, log': seq<Task>)
    requires |log| == |log'| && Extends(log, log')
    ensures LogOps(log') == LogOps(log)
  {
    if log != [] {
      var n := |log| - 1;
      assert log'[n].(status := log[n].status) == log[n];
      forall t | 0 <= t < n ensures log'[..n][t].(status := log[..n][t].status) == log[..n][t] {
        assert log'[t].(status := log[t].status) == log[t];
      }
      LogOpsExtend(log[..n], log'[..n]);
    }
  }

  // ---- failures never go away -------------------------------------------------------------------

  lemma CleanMove(c: Config, s: State, a: Action)
    requires IsMove(a) && MoveEnabled(c, s, a) && Clean(MoveTo(s, a))
    ensures Clean(s) && !a.Abandon?
  {
    var s' := MoveTo(s, a);
    assert !s'.batches[a.b].phase.Abandoned? && s'.batches[a.b].errs == 0;
    forall b | 0 <= b < |s.batches| ensures !s.batches[b].phase.Abandoned? && s.batches[b].errs == 0 {
      assert !s'.batches[b].phase.Abandoned? && s'.batches[b].errs == 0;
    }
  }

  lemma CleanCall(c: Config, s: State, a: Action)
    requires IsCall(a) && CallEnabled(c, s, a) && Clean(CallTo(c, s, a))
    ensures Clean(s)
  {
    var s' := CallTo(c, s, a);
    forall b | 0 <= b < |s.batches| ensures !s.batches[b].phase.Abandoned? && s.batches[b].errs == 0 {
      assert !s'.batches[b].phase.Abandoned? && s'.batches[b].errs == 0;
    }
    forall t | 0 <= t < |s.log| ensures !s.log[t].status.TaskFailed? {
      assert !s'.log[t].status.TaskFailed?;
    }
  }

  lemma CleanRest(c: Config, s: State, a: Action)
    requires !IsMove(a) && !IsCall(a) && Enabled(c, s, a) && Clean(Next(c, s, a))
    ensures Clean(s)
  {
    var s' := Next(c, s, a);
    forall b | 0 <= b < |s.batches| ensures !s.batches[b].phase.Abandoned? && s.batches[b].errs == 0 {
      assert s'.batches[b] == s.batches[b];
    }
    forall t | 0 <= t < |s.log| ensures !s.log[t].status.TaskFailed? {
      assert !s'.log[t].status.TaskFailed?;
    }
  }

  lemma IdentifiedBack(s: State, sub: Submission)
    requires Identified(Absorbed(s, sub).history)
    ensures Identified(s.history)
  {
    assert Absorbed(s, sub).history[..|s.history|] == s.history;
  }

  lemma RefRest(c: Config, s: State, a: Action)
    requires HistInv(s) && !IsMove(a) && !IsCall(a) && Enabled(c, s, a) && Refines(s)
    ensures Refines(Next(c, s, a))
  {
    if a.Submit? {
      RefSubmit(c, s, a);
    } else if a.Tick? {
      RefTake(s, Ticker, a.upserts, a.deletes);
    } else if a.TaskDone? {
      LogOpsExtend(s.log, Next(c, s, a).log);
    }
  }

  lemma RefStep(c: Config, s: State, a: Action)
    requires ConfigOk(c) && ChainInv(s) && CallsInv(c, s) && HistInv(s) && RefInv(s) && Enabled(c, s, a)
    ensures RefInv(Next(c, s, a))
  {
    if IsMove(a) {
      RefInvMove(c, s, a);
    } else if IsCall(a) {
      RefInvCall(c, s, a);
    } else {
      RefInvRest(c, s, a);
    }
  }

  lemma RefInvMove(c: Config, s: State, a: Action)
    requires CallsInv(c, s) && HistInv(s) && RefInv(s) && IsMove(a) && MoveEnabled(c, s, a)
    ensures RefInv(MoveTo(s, a))
  {
    if Clean(MoveTo(s, a)) && Identified(s.history) {
      CleanMove(c, s, a);
      RefMove(c, s, a);
    }
  }

  lemma RefInvCall(c: Config, s: State, a: Action)
    requires ConfigOk(c) && ChainInv(s) && CallsInv(c, s) && HistInv(s) && RefInv(s) && IsCall(a) && CallEnabled(c, s, a)
    ensures RefInv(CallTo(c, s, a))
  {
    if Clean(CallTo(c, s, a)) && Identified(s.history) {
      CleanCall(c, s, a);
      RefCall(c, s, a);
    }
  }

  lemma RefInvRest(c: Config, s: State, a: Action)
    requires HistInv(s) && RefInv(s) && !IsMove(a) && !IsCall(a) && Enabled(c, s, a)
    ensures RefInv(Next(c, s, a))
  {
    if Clean(Next(c, s, a)) && Identified(Next(c, s, a).history) {
      CleanRest(c, s, a);
      if a.Submit? && SubOps(a.sub) != [] {
        IdentifiedBack(s, a.sub);
      }
      RefRest(c, s, a);
    }
  }
}
