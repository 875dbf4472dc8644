/** The concurrent flush protocol as a transition system: the submitting handler, the
    ticker, the flush goroutines, the per-index enqueue goroutines, the heartbeat and the
    search backend, each step being one action. */
module FlushProtocol {
  import opened Ops
  import opened Buffering
  import opened SdkCall

  // ---- per-index groups ---------------------------------------------------------------

  function ItemsFor(ops: seq<Op>, index: string): seq<Op> {
    if ops == [] then []
    else
      ItemsFor(ops[..|ops| - 1], index)
      + (if ops[|ops| - 1].index == index then [ops[|ops| - 1]] else [])
  }

  function IndexesOf(ops: seq<Op>): set<string> { set op | op in ops :: op.index }

  /** Deletes with an empty id are dropped by the SDK before anything is sent. */
  function Sendable(ops: seq<Op>): seq<Op> {
    if ops == [] then []
    else
      Sendable(ops[..|ops| - 1])
      + (if ops[|ops| - 1].Delete? && ops[|ops| - 1].id == "" then [] else [ops[|ops| - 1]])
  }

  function Ids(ops: seq<Op>): seq<string> {
    if ops == [] then [] else Ids(ops[..|ops| - 1]) + [OpId(ops[|ops| - 1])]
  }

  lemma {:induction false} IdsMean(ops: seq<Op>)
    ensures |Ids(ops)| == |ops| && forall i :: 0 <= i < |ops| ==> Ids(ops)[i] == OpId(ops[i])
  {
    if ops != [] {
      IdsMean(ops[..|ops| - 1]);
    }
  }

  lemma IdsMore(ops: seq<Op>, op: Op)
    ensures Ids(ops + [op]) == Ids(ops) + [OpId(op)]
  {
    assert (ops + [op])[..|ops|] == ops;
  }

  lemma SendableMore(ops: seq<Op>, op: Op)
    ensures op.Delete? && op.id == "" ==> Sendable(ops + [op]) == Sendable(ops)
    ensures !(op.Delete? && op.id == "") ==> Sendable(ops + [op]) == Sendable(ops) + [op]
  {
    assert (ops + [op])[..|ops|] == ops;
  }

  lemma UniqueMore(ids: seq<string>, id: string)
    requires id !in ids
    ensures Unique(ids + [id]) == if id == "" then Unique(ids) else Unique(ids) + [id]
  {
    UniqueMeans(ids);
    assert (ids + [id])[..|ids|] == ids;
  }

  /** For deletes with distinct ids the SDK's own filter sends exactly these. */
  lemma {:induction false} SendableIsUnique(ops: seq<Op>)
    requires forall i :: 0 <= i < |ops| ==> ops[i].Delete?
    requires forall i, j :: 0 <= i < j < |ops| ==> OpId(ops[i]) != OpId(ops[j])
    ensures Ids(Sendable(ops)) == Unique(Ids(ops))
  {
    if ops != [] {
      var init, last := ops[..|ops| - 1], ops[|ops| - 1];
      SendableIsUnique(init);
      assert OpId(last) !in Ids(init) by {
        IdsMean(init);
      }
      assert ops == init + [last];
      IdsMore(init, last);
      SendableMore(init, last);
      UniqueMore(Ids(init), OpId(last));
      if last.id != "" {
        IdsMore(Sendable(init), last);
      }
    }
  }

  /** Groups items by index, keeping their order within each index. */
  method GroupByIndex(items: seq<Op>) returns (groups: map<string, seq<Op>>)
    ensures groups.Keys == IndexesOf(items)
    ensures forall n :: n in groups ==> groups[n] == ItemsFor(items, n)
  {
    groups := map[];
    for i := 0 to |items|
      invariant groups.Keys == IndexesOf(items[..i])
      invariant forall n :: n in groups ==> groups[n] == ItemsFor(items[..i], n)
    {
      var item := items[i];
      assert items[..i + 1] == items[..i] + [item];
      var sofar := if item.index in groups then groups[item.index] else [];
      if item.index !in groups {
        NoneFor(items[..i], item.index);
      }
      ItemsForMore(items[..i], item);
      groups := groups[item.index := sofar + [item]];
    }
    assert items[..|items|] == items;
  }

  lemma ItemsForMore(ops: seq<Op>, op: Op)
    ensures IndexesOf(ops + [op]) == IndexesOf(ops) + {op.index}
    ensures forall n :: ItemsFor(ops + [op], n) == ItemsFor(ops, n) + (if op.index == n then [op] else [])
  {
    assert (ops + [op])[..|ops|] == ops;
  }

  lemma {:induction false} ItemsForMeans(ops: seq<Op>, index: string)
    ensures forall op :: op in ItemsFor(ops, index) <==> op in ops && op.index == index
  {
    if ops != [] {
      assert ops == ops[..|ops| - 1] + [ops[|ops| - 1]];
      ItemsForMeans(ops[..|ops| - 1], index);
    }
  }

  lemma {:induction false} NoneFor(ops: seq<Op>, index: string)
    requires forall op :: op in ops ==> op.index != index
    ensures ItemsFor(ops, index) == []
  {
    if ops != [] {
      assert ops == ops[..|ops| - 1] + [ops[|ops| - 1]];
      NoneFor(ops[..|ops| - 1], index);
    }
  }

  // ---- state ---------------------------------------------------------------------------

  datatype GroupPhase = Idle | Calling | Enqueued | CallFailed | Finished | WaitFailed

  /** One enqueue goroutine: its items, its SDK call, and the log positions of its tasks. */
  datatype Group = Group(index: string, items: seq<Op>, phase: GroupPhase, call: Call, tasks: seq<nat>)

  datatype TaskStatus = Queued | Succeeded | TaskFailed

  /** A task in the backend's queue: items lo..hi of one group of one batch. */
  datatype Task = Task(batch: nat, group: nat, lo: nat, hi: nat, index: string, ops: seq<Op>, status: TaskStatus)

  datatype Actor = Submitter | Ticker

  datatype Phase =
    | AwaitTurn
    | AwaitSlot
    | Enqueueing
    | Waiting
    | Settling(ok: bool, next: nat)
    | Resolved(ok: bool)
    | Abandoned(early: bool)

  /** A taken batch. `lo..hi` are the submissions it carries. */
  datatype Batch = Batch(
    upserts: seq<UpsertOp>, deletes: seq<DeleteOp>, msgs: seq<Msg>, prev: nat, done: nat,
    launcher: Actor, lo: nat, hi: nat,
    phase: Phase, groups: seq<Group>, errs: nat, beating: bool)

  datatype Event = Ack(msg: Msg) | Nak(msg: Msg) | Progress(msg: Msg)

  datatype Config = Config(batchSize: nat, slots: nat, uploads: nat, chunk: nat, retries: nat)

  /** `closed` counts channel closes, `blocked` says which launch each actor is stuck in,
      `tracked` lists the deliveries trackMessage kept, `history` the submissions so far and
      `cut` how many of them have been taken. */
  datatype State = State(
    buf: Buffer, batches: seq<Batch>, closed: multiset<nat>, slotsUsed: nat, uploadsUsed: nat,
    log: seq<Task>, index: Contents, events: seq<Event>, blocked: map<Actor, nat>,
    tracked: seq<Msg>, seen: set<nat>, history: seq<Submission>, cut: nat, cancelled: bool)

  ghost predicate ConfigOk(c: Config) {
    c.batchSize >= 1 && c.slots >= 1 && c.uploads >= 1 && c.chunk >= 1 && c.retries >= 1
  }

  const Initial: State := State(
    Buffer(map[], [], 0, 1), [], multiset{0}, 0, 0, [], map[], [], map[], [], {}, [], 0, false)

  // ---- phases --------------------------------------------------------------------------

  predicate Awaiting(b: Batch) { b.phase.AwaitTurn? || b.phase.AwaitSlot? }
  predicate InFlight(b: Batch) { b.phase.Enqueueing? || b.phase.Waiting? || b.phase.Settling? }
  predicate Retired(b: Batch) { b.phase.Resolved? || b.phase.Abandoned? }

  /** The batch has closed its done channel. */
  predicate Passed(b: Batch) { b.phase.Waiting? || b.phase.Settling? || Retired(b) }

  /** The batch saw its predecessor's done channel closed. */
  predicate HadTurn(b: Batch) { !b.phase.AwaitTurn? && !(b.phase.Abandoned? && b.phase.early) }

  predicate Returned(g: Group) { !g.phase.Idle? && !g.phase.Calling? }
  predicate Terminal(g: Group) { g.phase.CallFailed? || g.phase.Finished? || g.phase.WaitFailed? }
  predicate FailedGroup(g: Group) { g.phase.CallFailed? || g.phase.WaitFailed? }

  function BatchOps(b: Batch): seq<Op> { b.deletes + b.upserts }

  // ---- actions ---------------------------------------------------------------------------

  datatype Action =
    | Submit(sub: Submission, upserts: seq<UpsertOp>, deletes: seq<DeleteOp>)
    | Tick(upserts: seq<UpsertOp>, deletes: seq<DeleteOp>)
    | Turn(b: nat)
    | StartFlush(b: nat, upsertOrder: seq<string>, deleteOrder: seq<string>)
    | BeginCall(b: nat, g: nat)
    | Send(b: nat, g: nat, outcome: Outcome)
    | EndCall(b: nat, g: nat)
    | CloseDone(b: nat)
    | TaskDone(t: nat, ok: bool)
    | WaitReturns(b: nat, g: nat, ok: bool)
    | Heartbeat(b: nat, m: nat)
    | StopHeartbeat(b: nat)
    | Settle(b: nat)
    | Release(b: nat)
    | Cancel
    | Abandon(b: nat)

  /** `order` names every index of `ops` once. */
  ghost predicate Orders(order: seq<string>, ops: seq<Op>) {
    && (forall n :: n in order <==> n in IndexesOf(ops))
    && (forall i, j :: 0 <= i < j < |order| ==> order[i] != order[j])
  }

  function NewGroup(index: string, items: seq<Op>): Group {
    Group(index, items, Idle, Call(0, 0, Running), [])
  }

  function UpsertGroups(ops: seq<Op>, order: seq<string>): seq<Group> {
    if order == [] then []
    else UpsertGroups(ops, order[..|order| - 1])
         + [NewGroup(order[|order| - 1], ItemsFor(ops, order[|order| - 1]))]
  }

  function DeleteGroups(ops: seq<Op>, order: seq<string>): seq<Group> {
    if order == [] then []
    else DeleteGroups(ops, order[..|order| - 1])
         + [NewGroup(order[|order| - 1], Sendable(ItemsFor(ops, order[|order| - 1])))]
  }

  predicate HasGroup(s: State, b: nat, g: nat) {
    b < |s.batches| && g < |s.batches[b].groups|
  }

  /** Steps of one batch through its phases. */
  predicate IsMove(a: Action) {
    a.Turn? || a.StartFlush? || a.CloseDone? || a.StopHeartbeat? || a.Settle? || a.Release? || a.Abandon?
  }

  /** Steps of one enqueue goroutine. */
  predicate IsCall(a: Action) { a.BeginCall? || a.Send? || a.EndCall? || a.WaitReturns? }

  /** What the move needs of the batch itself. */
  ghost predicate CanMove(bt: Batch, a: Action)
    requires IsMove(a)
  {
    match a
    case Turn(_) => bt.phase.AwaitTurn?
    case StartFlush(_, us, ds) => bt.phase.AwaitSlot? && Orders(us, bt.upserts) && Orders(ds, bt.deletes)
    case CloseDone(_) => bt.phase.Enqueueing? && forall g :: g in bt.groups ==> Returned(g)
    case StopHeartbeat(_) => bt.phase.Waiting? && forall g :: g in bt.groups ==> Terminal(g)
    case Settle(_) => bt.phase.Settling? && bt.phase.next < |bt.msgs|
    case Release(_) => bt.phase.Settling? && bt.phase.next == |bt.msgs|
    case Abandon(_) => Awaiting(bt)
  }

  ghost predicate CanCall(log: seq<Task>, bt: Batch, gr: Group, a: Action)
    requires IsCall(a)
  {
    match a
    case BeginCall(_, _) => bt.phase.Enqueueing? && gr.phase.Idle?
    case Send(_, _, _) => gr.phase.Calling? && gr.call.status.Running? && gr.call.sent <= |gr.items|
    case EndCall(_, _) => gr.phase.Calling? && !gr.call.status.Running?
    case WaitReturns(_, _, ok) =>
      && gr.phase.Enqueued?
      && (ok ==> forall t :: t in gr.tasks ==> t < |log| && log[t].status.Succeeded?)
      && (!ok ==> gr.tasks != [])
  }

  /** Besides its own phase, a move may wait for a channel, a slot or the shutdown signal. */
  ghost predicate MoveEnabled(c: Config, s: State, a: Action)
    requires IsMove(a)
  {
    && a.b < |s.batches| && CanMove(s.batches[a.b], a)
    && (a.Turn? ==> s.batches[a.b].prev in s.closed)
    && (a.StartFlush? ==> s.slotsUsed < c.slots)
    && (a.Release? ==> s.slotsUsed > 0)
    && (a.Abandon? ==> s.cancelled)
  }

  /** An enqueue call starts only with an upload slot and gives it back when it returns. */
  ghost predicate CallEnabled(c: Config, s: State, a: Action)
    requires IsCall(a)
  {
    && HasGroup(s, a.b, a.g) && CanCall(s.log, s.batches[a.b], s.batches[a.b].groups[a.g], a)
    && (a.BeginCall? ==> s.uploadsUsed < c.uploads)
    && (a.EndCall? ==> s.uploadsUsed > 0)
  }

  ghost predicate Enabled(c: Config, s: State, a: Action) {
    if IsMove(a) then MoveEnabled(c, s, a)
    else if IsCall(a) then CallEnabled(c, s, a)
    else
      match a
      case Submit(sub, upserts, deletes) =>
        && Submitter !in s.blocked
        && (sub.msg.Some? ==> sub.msg.value.delivery !in s.seen)
        && (SubOps(sub) != [] && Due(c.batchSize, Absorb(s.buf, sub)) ==>
              Lists(upserts, deletes, Absorb(s.buf, sub).pending))
      case Tick(upserts, deletes) =>
        && Ticker !in s.blocked
        && (s.buf.msgs != [] || s.buf.pending != map[])
        && Lists(upserts, deletes, s.buf.pending)
      case TaskDone(t, _) =>
        && t < |s.log| && s.log[t].status.Queued?
        && forall p :: 0 <= p < t && s.log[p].index == s.log[t].index ==> !s.log[p].status.Queued?
      case Heartbeat(b, m) => b < |s.batches| && s.batches[b].beating && m < |s.batches[b].msgs|
      case Cancel => true
  }

  /** Takes the buffer as a new batch launched by `who`. */
  function Take(s: State, who: Actor, upserts: seq<UpsertOp>, deletes: seq<DeleteOp>): State {
    var b := Batch(upserts, deletes, s.buf.msgs, s.buf.last, s.buf.made, who, s.cut, |s.history|,
                   AwaitTurn, [], 0, false);
    s.(buf := AfterTake(s.buf), batches := s.batches + [b],
       blocked := s.blocked[who := |s.batches|], cut := |s.history|)
  }

  function Absorbed(s: State, sub: Submission): State {
    var buf := Absorb(s.buf, sub);
    s.(buf := buf,
       tracked := s.tracked + buf.msgs[|s.buf.msgs|..],
       seen := if sub.msg.Some? then s.seen + {sub.msg.value.delivery} else s.seen,
       history := s.history + [sub])
  }

  function Flushing(b: Batch, us: seq<string>, ds: seq<string>): Batch {
    b.(phase := Enqueueing, beating := true,
       groups := UpsertGroups(b.upserts, us) + DeleteGroups(b.deletes, ds))
  }

  /** The batch after one of its own moves. */
  function Moved(bt: Batch, a: Action): Batch
    requires IsMove(a)
  {
    match a
    case Turn(_) => bt.(phase := AwaitSlot)
    case StartFlush(_, us, ds) => Flushing(bt, us, ds)
    case CloseDone(_) => bt.(phase := Waiting)
    case StopHeartbeat(_) => bt.(beating := false, phase := Settling(bt.errs == 0, 0))
    case Settle(_) => if bt.phase.Settling? then bt.(phase := Settling(bt.phase.ok, bt.phase.next + 1)) else bt
    case Release(_) => if bt.phase.Settling? then bt.(phase := Resolved(bt.phase.ok)) else bt
    case Abandon(_) => bt.(phase := Abandoned(bt.phase.AwaitTurn?))
  }

  function SettleEvents(bt: Batch): seq<Event> {
    if bt.phase.Settling? && bt.phase.next < |bt.msgs| then
      [if bt.phase.ok then Ack(bt.msgs[bt.phase.next]) else Nak(bt.msgs[bt.phase.next])]
    else []
  }

  function MoveTo(s: State, a: Action): State
    requires IsMove(a) && a.b < |s.batches|
    requires a.Release? ==> s.slotsUsed > 0
  {
    var bt := s.batches[a.b];
    s.(batches := s.batches[a.b := Moved(bt, a)],
       closed := if a.CloseDone? || a.Abandon? then s.closed + multiset{bt.done} else s.closed,
       slotsUsed := if a.StartFlush? then s.slotsUsed + 1 else if a.Release? then s.slotsUsed - 1 else s.slotsUsed,
       blocked := if a.StartFlush? || a.Abandon? then s.blocked - {bt.launcher} else s.blocked,
       events := if a.Settle? then s.events + SettleEvents(bt) else s.events)
  }

  /** The goroutine after one of its own steps; `at` is where its next task would be logged. */
  function Called(c: Config, gr: Group, at: nat, a: Action): Group
    requires IsCall(a) && (a.Send? ==> gr.call.status.Running?)
  {
    match a
    case BeginCall(_, _) => gr.(phase := Calling, call := Begin(|gr.items|))
    case Send(_, _, o) =>
      gr.(call := Attempt(|gr.items|, c.chunk, c.retries, gr.call, o),
          tasks := if o.Accepted? then gr.tasks + [at] else gr.tasks)
    case EndCall(_, _) => gr.(phase := if gr.call.status.Ok? then Enqueued else CallFailed)
    case WaitReturns(_, _, ok) => gr.(phase := if ok then Finished else WaitFailed)
  }

  /** What a send leaves in the backend's queue: one task if the request got there. */
  function SentTasks(c: Config, gr: Group, a: Action): seq<Task>
    requires IsCall(a)
  {
    if a.Send? && Reached(a.outcome) && gr.call.sent <= |gr.items| then
      var end := ChunkEnd(|gr.items|, c.chunk, gr.call.sent);
      [Task(a.b, a.g, gr.call.sent, end, gr.index, gr.items[gr.call.sent..end], Queued)]
    else []
  }

  /** Replaces one goroutine's state, recording an error if it has just failed. */
  function WithGroup(bt: Batch, g: nat, gr: Group): Batch
    requires g < |bt.groups|
  {
    bt.(groups := bt.groups[g := gr],
        errs := if FailedGroup(gr) && !FailedGroup(bt.groups[g]) then bt.errs + 1 else bt.errs)
  }

  function CallTo(c: Config, s: State, a: Action): State
    requires IsCall(a) && HasGroup(s, a.b, a.g)
    requires a.Send? ==> s.batches[a.b].groups[a.g].call.status.Running?
    requires a.EndCall? ==> s.uploadsUsed > 0
  {
    var bt := s.batches[a.b];
    var gr := bt.groups[a.g];
    s.(batches := s.batches[a.b := WithGroup(bt, a.g, Called(c, gr, |s.log|, a))],
       uploadsUsed := if a.BeginCall? then s.uploadsUsed + 1 else if a.EndCall? then s.uploadsUsed - 1 else s.uploadsUsed,
       log := s.log + SentTasks(c, gr, a))
  }

  function Submitted(c: Config, s: State, a: Action): State
    requires a.Submit?
  {
    if SubOps(a.sub) == [] then s
    else
      var full := Absorbed(s, a.sub);
      if Due(c.batchSize, full.buf) then Take(full, Submitter, a.upserts, a.deletes) else full
  }

  function FinishTask(s: State, t: nat, ok: bool): State
    requires t < |s.log|
  {
    s.(log := s.log[t := s.log[t].(status := if ok then Succeeded else TaskFailed)],
       index := if ok then ApplyOps(s.index, s.log[t].ops) else s.index)
  }

  ghost function Next(c: Config, s: State, a: Action): State
    requires Enabled(c, s, a)
  {
    if IsMove(a) then MoveTo(s, a)
    else if IsCall(a) then CallTo(c, s, a)
    else
      match a
      case Submit(_, _, _) => Submitted(c, s, a)
      case Tick(upserts, deletes) => Take(s, Ticker, upserts, deletes)
      case TaskDone(t, ok) => FinishTask(s, t, ok)
      case Heartbeat(b, m) => s.(events := s.events + [Progress(s.batches[b].msgs[m])])
      case Cancel => s.(cancelled := true)
  }

  // ---- runs ------------------------------------------------------------------------------

  ghost predicate Stepped(c: Config, s: State, a: Action, s': State) {
    Enabled(c, s, a) && s' == Next(c, s, a)
  }

  /** Some run of n actions leads from the initial state to s. */
  ghost predicate ReachableIn(c: Config, s: State, n: nat)
    decreases n
  {
    if n == 0 then s == Initial else exists p, a :: ReachableIn(c, p, n - 1) && Stepped(c, p, a, s)
  }

  ghost predicate Reachable(c: Config, s: State) {
    ConfigOk(c) && exists n :: ReachableIn(c, s, n)
  }
}
