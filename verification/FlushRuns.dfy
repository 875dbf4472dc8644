/** Stretches of runs, for building reachable states. */
module FlushRuns {
  import opened Ops
  import opened Buffering
  import opened SdkCall
  import opened FlushProtocol

  ghost function Runs(c: Config): iset<State> { iset s | Reachable(c, s) }

  lemma Start(c: Config)
    requires ConfigOk(c)
    ensures Initial in Runs(c)
  {
    assert ReachableIn(c, Initial, 0);
  }

  lemma Extend(c: Config, s: State, a: Action, s': State)
    requires s in Runs(c) && Enabled(c, s, a) && s' == Next(c, s, a)
    ensures s' in Runs(c)
  {
    var n: nat :| ReachableIn(c, s, n);
    assert Stepped(c, s, a, s');
    assert ReachableIn(c, s', n + 1);
  }

  /** The pairs of states that are one step apart. */
  ghost function Steps(c: Config): iset<(State, State)> { iset p: (State, State) | exists a :: Stepped(c, p.0, a, p.1) }

  lemma StepOf(c: Config, s: State, s': State) returns (a: Action)
    requires (s, s') in Steps(c)
    ensures Stepped(c, s, a, s')
  {
    a :| Stepped(c, s, a, s');
  }

  lemma LastStep(c: Config, s: State, n: nat) returns (p: State)
    requires n > 0 && ReachableIn(c, s, n)
    ensures ReachableIn(c, p, n - 1) && (p, s) in Steps(c)
  {
    var a: Action;
    p, a :| ReachableIn(c, p, n - 1) && Stepped(c, p, a, s);
  }

  ghost predicate Keeps(c: Config, good: iset<State>, p: State, q: State) {
    (p, q) in Steps(c) && p in Runs(c) && p in good ==> q in good
  }

  /** States of layer k + 1 come one step after some state of layer k. */
  ghost predicate Preceded<S(!new)>(layer: nat -> iset<S>, steps: iset<(S, S)>, k: nat, x: S) {
    x in layer(k + 1) ==> exists p :: p in layer(k) && (p, x) in steps
  }

  ghost predicate Preserved<S(!new)>(layer: nat -> iset<S>, steps: iset<(S, S)>, good: iset<S>, k: nat, p: S, q: S) {
    p in layer(k) && (p, q) in steps && p in good ==> q in good
  }

  /** Walks a run back to its first state. */
  lemma Backward<S(!new)>(layer: nat -> iset<S>, steps: iset<(S, S)>, good: iset<S>, s: S, n: nat)
    requires s in layer(n) && layer(0) <= good
    requires forall k: nat, x :: Preceded(layer, steps, k, x)
    requires forall k: nat, p, q :: Preserved(layer, steps, good, k, p, q)
    ensures s in good
  {
    var k, x := n, s;
    while k > 0
      invariant x in layer(k) && (x in good ==> s in good)
    {
      assert Preceded(layer, steps, k - 1, x);
      var p :| p in layer(k - 1) && (p, x) in steps;
      assert Preserved(layer, steps, good, k - 1, p, x);
      x, k := p, k - 1;
    }
  }

  ghost function After(c: Config, n: nat): iset<State> { iset s | ReachableIn(c, s, n) }

  ghost function Layers(c: Config): nat -> iset<State> { (k: nat) => After(c, k) }

  lemma LayerPreceded(c: Config, k: nat, x: State)
    ensures Preceded(Layers(c), Steps(c), k, x)
  {
    if x in After(c, k + 1) {
      var p := LastStep(c, x, k + 1);
      assert p in Layers(c)(k);
    }
  }

  lemma LayerPreserved(c: Config, good: iset<State>, k: nat, p: State, q: State)
    requires ConfigOk(c) && Keeps(c, good, p, q)
    ensures Preserved(Layers(c), Steps(c), good, k, p, q)
  {
    if p in After(c, k) {
      InRuns(c, p, k);
    }
  }

  lemma FirstLayer(c: Config, s: State)
    requires s in After(c, 0)
    ensures s == Initial
  {}

  lemma AlwaysAfter(c: Config, good: iset<State>, s: State, n: nat)
    requires ConfigOk(c) && s in After(c, n) && Initial in good && forall p, q :: Keeps(c, good, p, q)
    ensures s in good
  {
    forall k: nat, x ensures Preceded(Layers(c), Steps(c), k, x) {
      LayerPreceded(c, k, x);
    }
    forall k: nat, p, q ensures Preserved(Layers(c), Steps(c), good, k, p, q) {
      assert Keeps(c, good, p, q);
      LayerPreserved(c, good, k, p, q);
    }
    forall x | x in Layers(c)(0) ensures x in good {
      FirstLayer(c, x);
    }
    Backward(Layers(c), Steps(c), good, s, n);
  }

  /** Whatever holds initially and is kept by every step holds in every reachable state. */
  lemma Always(c: Config, good: iset<State>, s: State)
    requires Reachable(c, s) && Initial in good && forall p, q :: Keeps(c, good, p, q)
    ensures s in good
  {
    var n: nat :| ReachableIn(c, s, n);
    AlwaysAfter(c, good, s, n);
  }

  lemma InRuns(c: Config, s: State, n: nat)
    requires ConfigOk(c) && ReachableIn(c, s, n)
    ensures s in Runs(c)
  {}

  /** Some run of n steps leads from s to s'. */
  ghost predicate Leads(c: Config, s: State, s': State, n: nat)
    decreases n
  {
    if n == 0 then s' == s else exists p, a :: Leads(c, s, p, n - 1) && Stepped(c, p, a, s')
  }

  lemma LastLead(c: Config, s: State, s': State, n: nat) returns (p: State)
    requires n > 0 && Leads(c, s, s', n)
    ensures Leads(c, s, p, n - 1) && (p, s') in Steps(c)
  {
    var a: Action;
    p, a :| Leads(c, s, p, n - 1) && Stepped(c, p, a, s');
  }

  // ---- taking a batch -----------------------------------------------------------------------------

  predicate Empty(buf: Buffer) { buf.pending == map[] && buf.msgs == [] }

  /** The batch that a submission to an empty buffer becomes. */
  function Alone(s: State, who: Actor, sub: Submission, upserts: seq<UpsertOp>, deletes: seq<DeleteOp>): Batch {
    Batch(upserts, deletes, TrackOpt([], sub.msg), s.buf.last, s.buf.made, who, s.cut, |s.history| + 1,
          AwaitTurn, [], 0, false)
  }

  /** Slots, channels, queue and shutdown signal are as before. */
  predicate SameElse(s: State, s': State) {
    && s'.closed == s.closed && s'.slotsUsed == s.slotsUsed && s'.uploadsUsed == s.uploadsUsed
    && s'.log == s.log && s'.cancelled == s.cancelled
  }

  lemma AbsorbsAlone(buf: Buffer, sub: Submission)
    requires Empty(buf) && SubOps(sub) != []
    ensures Absorb(buf, sub).pending == Latest(SubOps(sub)) != map[]
    ensures Absorb(buf, sub).msgs == TrackOpt([], sub.msg)
  {
    var ops := SubOps(sub);
    assert OpKey(ops[|ops| - 1]) in Latest(ops);
  }

  lemma TookFields(s: State, who: Actor, sub: Submission, upserts: seq<UpsertOp>, deletes: seq<DeleteOp>)
    requires Empty(s.buf) && SubOps(sub) != []
    ensures var s' := Take(Absorbed(s, sub), who, upserts, deletes);
            && s'.batches == s.batches + [Alone(s, who, sub, upserts, deletes)]
            && s'.buf == Buffer(map[], [], s.buf.made, s.buf.made + 1)
            && s'.blocked == s.blocked[who := |s.batches|] && SameElse(s, s')
            && s'.history == s.history + [sub]
            && s'.seen == s.seen + (if sub.msg.Some? then {sub.msg.value.delivery} else {})
  {
    AbsorbsAlone(s.buf, sub);
  }

  lemma TakenNow(c: Config, s: State, sub: Submission, upserts: seq<UpsertOp>, deletes: seq<DeleteOp>)
    requires s in Runs(c) && Empty(s.buf) && Submitter !in s.blocked && SubOps(sub) != []
    requires sub.msg.Some? ==> sub.msg.value.delivery !in s.seen
    requires Lists(upserts, deletes, Latest(SubOps(sub))) && Due(c.batchSize, Absorb(s.buf, sub))
    ensures Take(Absorbed(s, sub), Submitter, upserts, deletes) in Runs(c)
  {
    AbsorbsAlone(s.buf, sub);
    Extend(c, s, Submit(sub, upserts, deletes), Take(Absorbed(s, sub), Submitter, upserts, deletes));
  }

  lemma TakenLater(c: Config, s: State, sub: Submission, upserts: seq<UpsertOp>, deletes: seq<DeleteOp>)
    requires s in Runs(c) && Empty(s.buf) && Submitter !in s.blocked && Ticker !in s.blocked && SubOps(sub) != []
    requires sub.msg.Some? ==> sub.msg.value.delivery !in s.seen
    requires Lists(upserts, deletes, Latest(SubOps(sub))) && !Due(c.batchSize, Absorb(s.buf, sub))
    ensures Take(Absorbed(s, sub), Ticker, upserts, deletes) in Runs(c)
  {
    AbsorbsAlone(s.buf, sub);
    var s1 := Absorbed(s, sub);
    assert s1.buf == Absorb(s.buf, sub) && s1.blocked == s.blocked;
    Extend(c, s, Submit(sub, upserts, deletes), s1);
    Extend(c, s1, Tick(upserts, deletes), Take(s1, Ticker, upserts, deletes));
  }

  /** A submission to an empty buffer is taken as a batch, at once or on the next tick. */
  lemma TakesAlone(c: Config, s: State, sub: Submission, upserts: seq<UpsertOp>, deletes: seq<DeleteOp>)
    returns (who: Actor, s': State)
    requires s in Runs(c) && Empty(s.buf) && s.blocked == map[] && SubOps(sub) != []
    requires sub.msg.Some? ==> sub.msg.value.delivery !in s.seen
    requires Lists(upserts, deletes, Latest(SubOps(sub)))
    ensures s' in Runs(c)
    ensures s'.batches == s.batches + [Alone(s, who, sub, upserts, deletes)]
    ensures s'.buf == Buffer(map[], [], s.buf.made, s.buf.made + 1)
    ensures s'.blocked == map[who := |s.batches|] && SameElse(s, s')
    ensures s'.history == s.history + [sub]
    ensures s'.seen == s.seen + (if sub.msg.Some? then {sub.msg.value.delivery} else {})
  {
    if Due(c.batchSize, Absorb(s.buf, sub)) {
      who := Submitter;
      TakenNow(c, s, sub, upserts, deletes);
    } else {
      who := Ticker;
      TakenLater(c, s, sub, upserts, deletes);
    }
    TookFields(s, who, sub, upserts, deletes);
    s' := Take(Absorbed(s, sub), who, upserts, deletes);
  }

  /** Operations with distinct keys are listed as they are. */
  lemma ListsDistinct(upserts: seq<UpsertOp>, deletes: seq<DeleteOp>)
    requires DistinctKeys(deletes + upserts)
    ensures Lists(upserts, deletes, Latest(deletes + upserts))
  {
    var ops: seq<Op> := deletes + upserts;
    forall op | op in ops ensures OpKey(op) in Latest(ops) && Latest(ops)[OpKey(op)] == op {
      var i :| 0 <= i < |ops| && ops[i] == op;
      LatestOfDistinct(ops, i);
    }
    forall k | k in Latest(ops) ensures Latest(ops)[k] in ops {
      LatestEntry(ops, k);
    }
  }

  // ---- moving a batch ------------------------------------------------------------------------------

  /** Everything but batches, slots, blocked actors and the shutdown signal. */
  predicate SameQueue(s: State, s': State) {
    s'.buf == s.buf && s'.log == s.log && s'.history == s.history && s'.seen == s.seen
  }

  /** The batch gets its turn and a slot, and launches its goroutines. */
  lemma Launch(c: Config, s: State, b: nat, us: seq<string>, ds: seq<string>) returns (s': State)
    requires s in Runs(c) && b < |s.batches| && s.batches[b].phase == AwaitTurn && s.batches[b].prev in s.closed
    requires s.slotsUsed < c.slots && Orders(us, s.batches[b].upserts) && Orders(ds, s.batches[b].deletes)
    ensures s' in Runs(c) && SameQueue(s, s')
    ensures s'.batches == s.batches[b := Flushing(s.batches[b], us, ds)]
    ensures s'.slotsUsed == s.slotsUsed + 1 && s'.uploadsUsed == s.uploadsUsed
    ensures s'.blocked == s.blocked - {s.batches[b].launcher} && s'.closed == s.closed && s'.cancelled == s.cancelled
  {
    var s1 := MoveTo(s, Turn(b));
    Extend(c, s, Turn(b), s1);
    var a := StartFlush(b, us, ds);
    assert s1.batches == s.batches[b := s.batches[b].(phase := AwaitSlot)];
    s' := MoveTo(s1, a);
    Extend(c, s1, a, s');
  }

  /** Shutdown arrives, and a batch still waiting for its turn gives up. */
  lemma GivesUp(c: Config, s: State, b: nat) returns (s': State)
    requires s in Runs(c) && b < |s.batches| && s.batches[b].phase == AwaitTurn
    ensures s' in Runs(c) && SameQueue(s, s') && s'.cancelled
    ensures s'.batches == s.batches[b := s.batches[b].(phase := Abandoned(true))]
    ensures s'.slotsUsed == s.slotsUsed && s'.uploadsUsed == s.uploadsUsed
    ensures s'.blocked == s.blocked - {s.batches[b].launcher} && s'.closed == s.closed + multiset{s.batches[b].done}
  {
    var s1 := s.(cancelled := true);
    Extend(c, s, Cancel, s1);
    s' := MoveTo(s1, Abandon(b));
    Extend(c, s1, Abandon(b), s');
  }

  // ---- calls ------------------------------------------------------------------------------------------

  /** A goroutine that has just got its upload slot. */
  function Begun(gr: Group): Group { gr.(phase := Calling, call := Begin(|gr.items|)) }

  lemma Begins(c: Config, s: State, b: nat, g: nat) returns (s': State)
    requires s in Runs(c) && HasGroup(s, b, g) && s.batches[b].phase == Enqueueing
    requires s.batches[b].groups[g].phase == Idle && s.uploadsUsed < c.uploads
    ensures s' in Runs(c) && SameQueue(s, s')
    ensures s'.batches == s.batches[b := s.batches[b].(groups := s.batches[b].groups[g := Begun(s.batches[b].groups[g])])]
    ensures s'.slotsUsed == s.slotsUsed && s'.uploadsUsed == s.uploadsUsed + 1
    ensures s'.blocked == s.blocked && s'.closed == s.closed && s'.cancelled == s.cancelled
  {
    var bt, a := s.batches[b], BeginCall(b, g);
    assert Called(c, bt.groups[g], |s.log|, a) == Begun(bt.groups[g]);
    assert s.log + SentTasks(c, bt.groups[g], a) == s.log;
    s' := CallTo(c, s, a);
    Extend(c, s, a, s');
  }
}
