/** Resources: the flush slots and upload slots in use are exactly the batches and calls
    holding them, and the messages held in memory are bounded by configuration alone. */
module FlushBounds {
  import opened Ops
  import opened Buffering
  import opened FlushProtocol
  import opened FlushCalls
  import opened FlushHistory
  import opened Sums

  function SlotOf(b: Batch): nat { if InFlight(b) then 1 else 0 }
  function CallOf(g: Group): nat { if g.phase.Calling? then 1 else 0 }
  function CallsOf(b: Batch): nat { Sum(b.groups, CallOf) }

  function SubmitterHeld(b: Batch): nat { if Awaiting(b) && b.launcher.Submitter? then |b.msgs| else 0 }
  function TickerHeld(b: Batch): nat { if Awaiting(b) && b.launcher.Ticker? then |b.msgs| else 0 }
  function FlightHeld(b: Batch): nat { if InFlight(b) then |b.msgs| else 0 }
  function Held(b: Batch): nat { if Retired(b) then 0 else |b.msgs| }

  ghost predicate SlotInv(c: Config, s: State) {
    && s.slotsUsed == Sum(s.batches, SlotOf) && s.slotsUsed <= c.slots
    && s.uploadsUsed == Sum(s.batches, CallsOf) && s.uploadsUsed <= c.uploads
  }

  /** An actor stuck in launchFlush is stuck in its only waiting batch. */
  ghost predicate BlockOk(s: State, i: nat)
    requires i < |s.batches|
  {
    var b := s.batches[i];
    Awaiting(b) ==> b.launcher in s.blocked && s.blocked[b.launcher] == i
  }

  ghost predicate SizeOk(c: Config, b: Batch) {
    |b.msgs| <= (if b.launcher.Ticker? then c.batchSize - 1 else c.batchSize)
  }

  ghost predicate Placed(c: Config, s: State) {
    && (forall w :: w in s.blocked ==> s.blocked[w] < |s.batches|)
    && (forall i :: 0 <= i < |s.batches| ==> BlockOk(s, i))
    && (forall i :: 0 <= i < |s.batches| ==> SizeOk(c, s.batches[i]))
  }

  /** What each actor holds is the batch it is stuck in. */
  ghost predicate HeldByActors(s: State) { HeldBy(s.batches, s.blocked) }

  /** Everything but the buffer bounds, which absorbing may overstep until the batch is taken. */
  ghost predicate HeldBatches(c: Config, s: State) { Placed(c, s) && HeldByActors(s) }

  ghost predicate HeldInv(c: Config, s: State) {
    && |s.buf.msgs| <= c.batchSize - 1
    && (Submitter in s.blocked ==> s.buf.msgs == [])
    && HeldBatches(c, s)
  }

  lemma SlotMove(c: Config, s: State, a: Action)
    requires SlotInv(c, s) && CallsInv(c, s) && IsMove(a) && MoveEnabled(c, s, a)
    ensures SlotInv(c, MoveTo(s, a))
  {
    var bt, bt' := s.batches[a.b], Moved(s.batches[a.b], a);
    SumUpdate(s.batches, a.b, bt', SlotOf);
    SumUpdate(s.batches, a.b, bt', CallsOf);
    assert BatchOk(c, s.log, a.b, bt);
    MoveSlots(c, s.log, bt, a);
  }

  lemma MoveSlots(c: Config, log: seq<Task>, bt: Batch, a: Action)
    requires IsMove(a) && CanMove(bt, a) && BatchOk(c, log, a.b, bt)
    ensures CallsOf(Moved(bt, a)) == CallsOf(bt)
    ensures SlotOf(Moved(bt, a)) == if a.StartFlush? then 1 else if a.Release? then 0 else SlotOf(bt)
    ensures SlotOf(bt) == if a.StartFlush? then 0 else if a.Release? then 1 else SlotOf(bt)
  {
    if a.StartFlush? {
      var bt' := Moved(bt, a);
      FlushingOk(c, log, a.b, bt, a.upsertOrder, a.deleteOrder);
      forall i | 0 <= i < |bt'.groups| ensures CallOf(bt'.groups[i]) == 0 {
        assert bt'.groups[i] in bt'.groups;
        assert Fresh(bt'.groups[i]);
      }
      SumZero(bt'.groups, CallOf);
    }
  }

  lemma SlotCall(c: Config, s: State, a: Action)
    requires SlotInv(c, s) && IsCall(a) && CallEnabled(c, s, a)
    ensures SlotInv(c, CallTo(c, s, a))
  {
    var bt := s.batches[a.b];
    var gr := bt.groups[a.g];
    var gr' := Called(c, gr, |s.log|, a);
    var bt' := WithGroup(bt, a.g, gr');
    SumUpdate(s.batches, a.b, bt', SlotOf);
    SumUpdate(s.batches, a.b, bt', CallsOf);
    CallSlots(c, s.log, bt, a);
  }

  /** Only beginning and ending a call changes how many the batch has running. */
  lemma CallSlots(c: Config, log: seq<Task>, bt: Batch, a: Action)
    requires IsCall(a) && a.g < |bt.groups| && CanCall(log, bt, bt.groups[a.g], a)
    ensures var bt' := WithGroup(bt, a.g, Called(c, bt.groups[a.g], |log|, a));
            && SlotOf(bt') == SlotOf(bt)
            && CallsOf(bt') + (if a.EndCall? then 1 else 0) == CallsOf(bt) + (if a.BeginCall? then 1 else 0)
  {
    SumUpdate(bt.groups, a.g, Called(c, bt.groups[a.g], |log|, a), CallOf);
  }

  lemma SlotTake(c: Config, s: State, who: Actor, upserts: seq<UpsertOp>, deletes: seq<DeleteOp>)
    requires SlotInv(c, s)
    ensures SlotInv(c, Take(s, who, upserts, deletes))
  {
    var bt := Take(s, who, upserts, deletes).batches[|s.batches|];
    SumAppend(s.batches, bt, SlotOf);
    SumAppend(s.batches, bt, CallsOf);
  }

  lemma SlotStep(c: Config, s: State, a: Action)
    requires SlotInv(c, s) && CallsInv(c, s) && Enabled(c, s, a)
    ensures SlotInv(c, Next(c, s, a))
  {
    if IsMove(a) {
      SlotMove(c, s, a);
    } else if IsCall(a) {
      SlotCall(c, s, a);
    } else if a.Submit? {
      SlotTake(c, Absorbed(s, a.sub), Submitter, a.upserts, a.deletes);
    } else if a.Tick? {
      SlotTake(c, s, Ticker, a.upserts, a.deletes);
    }
  }

  // ---- held messages ---------------------------------------------------------------------------------

  lemma HeldSums(s: State, b: nat, bt: Batch)
    requires b < |s.batches|
    ensures Sum(s.batches[b := bt], SubmitterHeld) + SubmitterHeld(s.batches[b])
         == Sum(s.batches, SubmitterHeld) + SubmitterHeld(bt)
    ensures Sum(s.batches[b := bt], TickerHeld) + TickerHeld(s.batches[b]) == Sum(s.batches, TickerHeld) + TickerHeld(bt)
  {
    SumUpdate(s.batches, b, bt, SubmitterHeld);
    SumUpdate(s.batches, b, bt, TickerHeld);
  }

  /** Only leaving launchFlush changes what an actor holds. */
  lemma MoveHeld(bt: Batch, a: Action)
    requires IsMove(a) && CanMove(bt, a)
    ensures SameLoad(bt, Moved(bt, a))
    ensures a.StartFlush? || a.Abandon? ==>
              Awaiting(bt) && !Awaiting(Moved(bt, a)) && SubmitterHeld(Moved(bt, a)) == 0 == TickerHeld(Moved(bt, a))
    ensures !a.StartFlush? && !a.Abandon? ==>
              && Awaiting(Moved(bt, a)) == Awaiting(bt)
              && SubmitterHeld(Moved(bt, a)) == SubmitterHeld(bt) && TickerHeld(Moved(bt, a)) == TickerHeld(bt)
  {}

  lemma PlacedMove(c: Config, s: State, a: Action)
    requires Placed(c, s) && IsMove(a) && MoveEnabled(c, s, a)
    ensures Placed(c, MoveTo(s, a))
  {
    var s' := MoveTo(s, a);
    MoveHeld(s.batches[a.b], a);
    assert BlockOk(s, a.b);
    forall i | 0 <= i < |s'.batches| ensures BlockOk(s', i) {
      assert BlockOk(s, i);
    }
    forall i | 0 <= i < |s'.batches| ensures SizeOk(c, s'.batches[i]) {
      assert SizeOk(c, s.batches[i]);
    }
  }

  lemma HeldMove(c: Config, s: State, a: Action)
    requires HeldInv(c, s) && IsMove(a) && MoveEnabled(c, s, a)
    ensures HeldInv(c, MoveTo(s, a))
  {
    PlacedMove(c, s, a);
    HeldByMove(c, s, a);
  }

  lemma HeldByMove(c: Config, s: State, a: Action)
    requires Placed(c, s) && HeldByActors(s) && IsMove(a) && MoveEnabled(c, s, a)
    ensures HeldByActors(MoveTo(s, a))
  {
    var bt := s.batches[a.b];
    MoveHeld(bt, a);
    HeldSums(s, a.b, Moved(bt, a));
    assert BlockOk(s, a.b);
    if a.StartFlush? || a.Abandon? {
      LeavesLaunch(s, a.b, Moved(bt, a), s.blocked - {bt.launcher});
    } else {
      StaysHeld(s, a.b, Moved(bt, a));
    }
  }

  /** What the two actors hold, given which launch each is stuck in. */
  ghost predicate HeldBy(batches: seq<Batch>, blocked: map<Actor, nat>) {
    && Sum(batches, SubmitterHeld)
       == (if Submitter in blocked && blocked[Submitter] < |batches| then SubmitterHeld(batches[blocked[Submitter]]) else 0)
    && Sum(batches, TickerHeld)
       == (if Ticker in blocked && blocked[Ticker] < |batches| then TickerHeld(batches[blocked[Ticker]]) else 0)
  }

  /** Leaving launchFlush frees the actor and what it held. */
  lemma LeavesLaunch(s: State, b: nat, bt: Batch, blocked: map<Actor, nat>)
    requires HeldByActors(s) && b < |s.batches| && SameLoad(s.batches[b], bt) && Awaiting(s.batches[b]) && !Awaiting(bt)
    requires var who := s.batches[b].launcher; who in s.blocked && s.blocked[who] == b && blocked == s.blocked - {who}
    requires Sum(s.batches[b := bt], SubmitterHeld) + SubmitterHeld(s.batches[b]) == Sum(s.batches, SubmitterHeld)
    requires Sum(s.batches[b := bt], TickerHeld) + TickerHeld(s.batches[b]) == Sum(s.batches, TickerHeld)
    ensures HeldBy(s.batches[b := bt], blocked)
  {}

  lemma StaysHeld(s: State, b: nat, bt: Batch)
    requires HeldByActors(s) && b < |s.batches|
    requires SubmitterHeld(bt) == SubmitterHeld(s.batches[b]) && TickerHeld(bt) == TickerHeld(s.batches[b])
    requires Sum(s.batches[b := bt], SubmitterHeld) == Sum(s.batches, SubmitterHeld)
    requires Sum(s.batches[b := bt], TickerHeld) == Sum(s.batches, TickerHeld)
    ensures HeldBy(s.batches[b := bt], s.blocked)
  {}

  lemma PlacedCall(c: Config, s: State, a: Action)
    requires Placed(c, s) && IsCall(a) && CallEnabled(c, s, a)
    ensures Placed(c, CallTo(c, s, a))
  {
    var s' := CallTo(c, s, a);
    forall i | 0 <= i < |s'.batches| ensures BlockOk(s', i) {
      assert BlockOk(s, i);
    }
    forall i | 0 <= i < |s'.batches| ensures SizeOk(c, s'.batches[i]) {
      assert SizeOk(c, s.batches[i]);
    }
  }

  lemma HeldCall(c: Config, s: State, a: Action)
    requires HeldInv(c, s) && IsCall(a) && CallEnabled(c, s, a)
    ensures HeldInv(c, CallTo(c, s, a))
  {
    PlacedCall(c, s, a);
    HeldSums(s, a.b, CallTo(c, s, a).batches[a.b]);
  }

  lemma HeldTake(c: Config, s: State, who: Actor, upserts: seq<UpsertOp>, deletes: seq<DeleteOp>)
    requires ConfigOk(c) && HeldBatches(c, s) && who !in s.blocked
    requires |s.buf.msgs| <= (if who.Ticker? then c.batchSize - 1 else c.batchSize)
    ensures HeldInv(c, Take(s, who, upserts, deletes))
  {
    var s' := Take(s, who, upserts, deletes);
    var bt := s'.batches[|s.batches|];
    SumAppend(s.batches, bt, SubmitterHeld);
    SumAppend(s.batches, bt, TickerHeld);
    forall i | 0 <= i < |s'.batches| ensures BlockOk(s', i) {
      assert i < |s.batches| ==> BlockOk(s, i);
    }
    forall i | 0 <= i < |s'.batches| ensures SizeOk(c, s'.batches[i]) {
      assert i < |s.batches| ==> SizeOk(c, s.batches[i]);
    }
  }

  lemma HeldSubmit(c: Config, s: State, a: Action)
    requires ConfigOk(c) && HeldInv(c, s) && a.Submit? && Submitter !in s.blocked
    ensures HeldInv(c, Submitted(c, s, a))
  {
    if SubOps(a.sub) != [] {
      var full := Absorbed(s, a.sub);
      forall i | 0 <= i < |full.batches| ensures BlockOk(full, i) {
        assert BlockOk(s, i);
      }
      if Due(c.batchSize, full.buf) {
        HeldTake(c, full, Submitter, a.upserts, a.deletes);
      }
    }
  }

  lemma HeldSame(c: Config, s: State, s': State)
    requires HeldInv(c, s) && s'.batches == s.batches && s'.buf == s.buf && s'.blocked == s.blocked
    ensures HeldInv(c, s')
  {
    forall i | 0 <= i < |s'.batches| ensures BlockOk(s', i) {
      assert BlockOk(s, i);
    }
  }

  lemma HeldStep(c: Config, s: State, a: Action)
    requires ConfigOk(c) && HeldInv(c, s) && Enabled(c, s, a)
    ensures HeldInv(c, Next(c, s, a))
  {
    if IsMove(a) {
      HeldMove(c, s, a);
    } else if IsCall(a) {
      HeldCall(c, s, a);
    } else if a.Submit? {
      HeldSubmit(c, s, a);
    } else if a.Tick? {
      HeldTake(c, s, Ticker, a.upserts, a.deletes);
    } else {
      HeldSame(c, s, Next(c, s, a));
    }
  }

  /** The deliveries neither acked, nacked nor abandoned. */
  function Outstanding(s: State): nat { Sum(s.batches, Held) + |s.buf.msgs| }

  /** In-flight flushes stay within the slots, batches within the batch size, and outstanding
      messages within (slots + 2) * batchSize - 1. */
  lemma MemoryBound(c: Config, s: State)
    requires ConfigOk(c) && SlotInv(c, s) && HeldInv(c, s)
    ensures Sum(s.batches, SlotOf) <= c.slots
    ensures forall i :: 0 <= i < |s.batches| ==> |s.batches[i].msgs| <= c.batchSize
    ensures Outstanding(s) <= (c.slots + 2) * c.batchSize - 1
  {
    forall i | 0 <= i < |s.batches| ensures |s.batches[i].msgs| <= c.batchSize {
      assert SizeOk(c, s.batches[i]);
    }
    SumSplit(s.batches, Held, FlightHeld, SubmitterHeld, TickerHeld);
    FlightBound(c, s);
    if Submitter in s.blocked {
      assert SizeOk(c, s.batches[s.blocked[Submitter]]);
    }
    if Ticker in s.blocked {
      assert SizeOk(c, s.batches[s.blocked[Ticker]]);
    }
    assert (c.slots + 2) * c.batchSize == c.batchSize * c.slots + 2 * c.batchSize;
  }

  lemma FlightBound(c: Config, s: State)
    requires SlotInv(c, s) && forall i :: 0 <= i < |s.batches| ==> |s.batches[i].msgs| <= c.batchSize
    ensures Sum(s.batches, FlightHeld) <= c.batchSize * c.slots
  {
    forall i | 0 <= i < |s.batches| ensures FlightHeld(s.batches[i]) <= c.batchSize * SlotOf(s.batches[i]) {
      assert |s.batches[i].msgs| <= c.batchSize;
    }
    SumBounded(s.batches, FlightHeld, SlotOf, c.batchSize);
    MulMono(c.batchSize, s.slotsUsed, c.slots);
  }
}
