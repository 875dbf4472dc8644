/** Upload slots: exactly when an enqueue call can be kept waiting for one, before shutdown and
    at any time, counted in enqueue calls per flush and in indexes per flush. */
module Uploads {
  import opened Json
  import opened Ops
  import opened Buffering
  import opened FlushProtocol
  import opened FlushChain
  import opened FlushCalls
  import opened FlushOrder
  import opened FlushBounds
  import opened FlushTheorems
  import opened FlushRuns
  import opened Sums

  /** The goroutine has its batch's go-ahead but no upload slot to begin with. */
  ghost predicate Waits(c: Config, s: State, b: nat, g: nat) {
    && HasGroup(s, b, g) && s.batches[b].phase.Enqueueing? && s.batches[b].groups[g].phase.Idle?
    && !Enabled(c, s, BeginCall(b, g))
  }

  /** Each flush of the state makes at most `width` enqueue calls. */
  ghost predicate Narrow(s: State, width: nat) {
    forall i :: 0 <= i < |s.batches| ==> |s.batches[i].groups| <= width
  }

  /** The batch writes to at most k indexes. */
  ghost predicate Spans(bt: Batch, k: nat) { |IndexesOf(bt.upserts) + IndexesOf(bt.deletes)| <= k }

  // ---- nobody waits ----------------------------------------------------------------------------------

  lemma CallsWithin(bt: Batch, width: nat)
    requires |bt.groups| <= width
    requires !InFlight(bt) ==> forall g :: g in bt.groups ==> !g.phase.Calling?
    ensures CallsOf(bt) <= width * SlotOf(bt)
  {
    if InFlight(bt) {
      AtMostAll(bt.groups);
    } else {
      SumZero(bt.groups, CallOf);
    }
  }

  lemma {:induction false} AtMostAll(groups: seq<Group>)
    ensures Sum(groups, CallOf) <= |groups|
  {
    if groups != [] {
      AtMostAll(groups[..|groups| - 1]);
    }
  }

  lemma {:induction false} IdleLeaves(groups: seq<Group>, g: nat)
    requires g < |groups| && groups[g].phase.Idle?
    ensures Sum(groups, CallOf) < |groups|
  {
    if g == |groups| - 1 {
      AtMostAll(groups[..g]);
    } else {
      IdleLeaves(groups[..|groups| - 1], g);
    }
  }

  lemma {:induction false} Room(batches: seq<Batch>, width: nat, b: nat)
    requires forall i :: 0 <= i < |batches| ==> CallsOf(batches[i]) <= width * SlotOf(batches[i])
    requires b < |batches| && CallsOf(batches[b]) < width * SlotOf(batches[b])
    ensures Sum(batches, CallsOf) < width * Sum(batches, SlotOf)
  {
    var init, last := batches[..|batches| - 1], batches[|batches| - 1];
    assert width * (Sum(init, SlotOf) + SlotOf(last)) == width * Sum(init, SlotOf) + width * SlotOf(last);
    if b == |batches| - 1 {
      SumBounded(init, CallsOf, SlotOf, width);
    } else {
      Room(init, width, b);
    }
  }

  lemma BatchNarrow(c: Config, log: seq<Task>, b: nat, bt: Batch, width: nat)
    requires BatchOk(c, log, b, bt) && |bt.groups| <= width
    ensures CallsOf(bt) <= width * SlotOf(bt)
  {
    CallsWithin(bt, width);
  }

  lemma AllNarrow(c: Config, s: State, width: nat)
    requires Reachable(c, s) && Narrow(s, width)
    ensures forall i :: 0 <= i < |s.batches| ==> CallsOf(s.batches[i]) <= width * SlotOf(s.batches[i])
  {
    ReachableCalls(c, s);
    forall i | 0 <= i < |s.batches| ensures CallsOf(s.batches[i]) <= width * SlotOf(s.batches[i]) {
      BatchNarrow(c, s.log, i, s.batches[i], width);
    }
  }

  /** The state has room for every in-flight flush at its widest. */
  lemma RoomForAll(batches: seq<Batch>, width: nat, slots: nat, b: nat, g: nat)
    requires forall i :: 0 <= i < |batches| ==> CallsOf(batches[i]) <= width * SlotOf(batches[i])
    requires b < |batches| && InFlight(batches[b]) && g < |batches[b].groups| <= width
    requires batches[b].groups[g].phase.Idle? && Sum(batches, SlotOf) <= slots
    ensures Sum(batches, CallsOf) < width * slots
  {
    IdleLeaves(batches[b].groups, g);
    Room(batches, width, b);
    MulMono(width, Sum(batches, SlotOf), slots);
  }

  /** With upload slots for every in-flight flush at its widest, no enqueue call ever waits for
      one, not even during shutdown. */
  lemma NeverWaits(c: Config, s: State, width: nat, b: nat, g: nat)
    requires Reachable(c, s) && Narrow(s, width) && c.slots * width <= c.uploads
    ensures !Waits(c, s, b, g)
  {
    if Waits(c, s, b, g) {
      AllNarrow(c, s, width);
      ReachableSlots(c, s);
      RoomForAll(s.batches, width, c.slots, b, g);
    }
  }

  /** A batch that is not enqueueing has no call running. */
  lemma NotCalling(c: Config, log: seq<Task>, b: nat, bt: Batch)
    requires BatchOk(c, log, b, bt) && !bt.phase.Enqueueing?
    ensures CallsOf(bt) == 0
  {
    forall i | 0 <= i < |bt.groups| ensures CallOf(bt.groups[i]) == 0 {
      assert bt.groups[i] in bt.groups;
    }
    SumZero(bt.groups, CallOf);
  }

  /** Without skipped batches all calls running are those of the one enqueueing batch. */
  lemma OneCaller(c: Config, s: State, b: nat)
    requires ChainInv(s) && CallsInv(c, s) && NoneAbandoned(s) && b < |s.batches| && s.batches[b].phase.Enqueueing?
    ensures Sum(s.batches, CallsOf) == CallsOf(s.batches[b])
  {
    forall i | 0 <= i < |s.batches| && i != b ensures CallsOf(s.batches[i]) == 0 {
      if s.batches[i].phase.Enqueueing? {
        ChainBehind(s, if i < b then i else b, if i < b then b else i);
      } else {
        NotCalling(c, s.log, i, s.batches[i]);
      }
    }
    SumSingle(s.batches, b, CallsOf);
  }

  lemma CallsBefore(c: Config, s: State, b: nat)
    requires Reachable(c, s) && !s.cancelled && b < |s.batches| && s.batches[b].phase.Enqueueing?
    ensures Sum(s.batches, CallsOf) == CallsOf(s.batches[b])
  {
    NoShutdownNoSkip(c, s);
    ReachableChain(c, s);
    ReachableCalls(c, s);
    OneCaller(c, s, b);
  }

  /** Before shutdown upload slots for one flush are enough for all. */
  lemma NeverWaitsBefore(c: Config, s: State, b: nat, g: nat)
    requires Reachable(c, s) && !s.cancelled && b < |s.batches| && |s.batches[b].groups| <= c.uploads
    ensures !Waits(c, s, b, g)
  {
    if Waits(c, s, b, g) {
      CallsBefore(c, s, b);
      ReachableSlots(c, s);
      IdleLeaves(s.batches[b].groups, g);
    }
  }

  // ---- flushes as wide as you like ---------------------------------------------------------------------

  /** A different index name for every number. */
  function Name(k: nat): string { seq(k, _ => 'a') }

  function Names(n: nat): seq<string> { if n == 0 then [] else Names(n - 1) + [Name(n - 1)] }

  function WideUpserts(n: nat): seq<UpsertOp> {
    if n == 0 then [] else WideUpserts(n - 1) + [Upsert(Name(n - 1), Named("u"))]
  }

  function WideDeletes(n: nat): seq<DeleteOp> {
    if n == 0 then [] else WideDeletes(n - 1) + [Delete(Name(n - 1), "d")]
  }

  lemma {:induction false} WideMeans(n: nat)
    ensures |Names(n)| == |WideUpserts(n)| == |WideDeletes(n)| == n
    ensures forall i :: 0 <= i < n ==> Names(n)[i] == Name(i)
    ensures forall i :: 0 <= i < n ==> WideUpserts(n)[i] == Upsert(Name(i), Named("u"))
    ensures forall i :: 0 <= i < n ==> WideDeletes(n)[i] == Delete(Name(i), "d")
  {
    if n > 0 {
      WideMeans(n - 1);
    }
  }

  lemma KeyLength(i: nat, id: string)
    requires |id| == 1
    ensures |Key(Name(i), id)| == i + 2 && Key(Name(i), id)[i + 1] == id[0]
  {}

  lemma WideKey(n: nat, m: nat, i: nat)
    requires i < n + m
    ensures var ops: seq<Op> := WideDeletes(m) + WideUpserts(n);
            |ops| == n + m && OpKey(ops[i]) == if i < m then Key(Name(i), "d") else Key(Name(i - m), "u")
  {
    WideMeans(n);
    WideMeans(m);
    if i < m {
      DeleteKey(i);
    } else {
      UpsertKey(i - m);
    }
  }

  lemma DeleteKey(i: nat)
    ensures OpKey(Delete(Name(i), "d")) == Key(Name(i), "d")
  {}

  lemma UpsertKey(i: nat)
    ensures OpKey(Upsert(Name(i), Named("u"))) == Key(Name(i), "u")
  {}

  lemma WideDistinct(n: nat, m: nat)
    ensures DistinctKeys(WideDeletes(m) + WideUpserts(n))
  {
    WideMeans(n);
    WideMeans(m);
    var ops: seq<Op> := WideDeletes(m) + WideUpserts(n);
    forall i, j | 0 <= i < j < |ops| ensures OpKey(ops[i]) != OpKey(ops[j]) {
      WideKey(n, m, i);
      WideKey(n, m, j);
      KeyLength(if i < m then i else i - m, if i < m then "d" else "u");
      KeyLength(if j < m then j else j - m, if j < m then "d" else "u");
    }
  }

  lemma WideOrders(n: nat)
    ensures Orders(Names(n), WideUpserts(n)) && Orders(Names(n), WideDeletes(n))
  {
    WideMeans(n);
    WideIndexes(n);
    forall i, j | 0 <= i < j < n ensures Names(n)[i] != Names(n)[j] {
      assert |Names(n)[i]| == i && |Names(n)[j]| == j;
    }
  }

  lemma WideIndexes(n: nat)
    ensures forall x :: x in Names(n) <==> x in IndexesOf(WideUpserts(n))
    ensures forall x :: x in Names(n) <==> x in IndexesOf(WideDeletes(n))
  {
    WideMeans(n);
    forall x | x in Names(n) ensures x in IndexesOf(WideUpserts(n)) && x in IndexesOf(WideDeletes(n)) {
      var i :| 0 <= i < n && Names(n)[i] == x;
      assert WideUpserts(n)[i] in WideUpserts(n) && WideDeletes(n)[i] in WideDeletes(n);
    }
    forall op | op in WideUpserts(n) ensures op.index in Names(n) {
      var i :| 0 <= i < n && WideUpserts(n)[i] == op;
      assert Names(n)[i] == op.index;
    }
    forall op | op in WideDeletes(n) ensures op.index in Names(n) {
      var i :| 0 <= i < n && WideDeletes(n)[i] == op;
      assert Names(n)[i] == op.index;
    }
  }

  lemma {:induction false} GroupsIdle(ops: seq<Op>, order: seq<string>)
    ensures |UpsertGroups(ops, order)| == |DeleteGroups(ops, order)| == |order|
    ensures forall i :: 0 <= i < |order| ==> UpsertGroups(ops, order)[i].phase.Idle? && DeleteGroups(ops, order)[i].phase.Idle?
  {
    if order != [] {
      GroupsIdle(ops, order[..|order| - 1]);
    }
  }

  // ---- somebody waits ------------------------------------------------------------------------------------

  /** Nothing is buffered, no launch is waiting, and the next batch's turn has come. */
  ghost predicate Calm(s: State) { Empty(s.buf) && s.blocked == map[] && s.buf.last in s.closed }

  predicate AllIdle(groups: seq<Group>) { forall g :: 0 <= g < |groups| ==> groups[g].phase.Idle? }

  /** The state has one batch more: an enqueueing one of n upsert calls and m delete calls, none begun. */
  ghost predicate Widened(s: State, s': State, n: nat, m: nat) {
    && |s'.batches| == |s.batches| + 1 && s'.batches[..|s.batches|] == s.batches
    && var bt := s'.batches[|s.batches|];
       && bt.phase == Enqueueing && bt.upserts == WideUpserts(n) && bt.deletes == WideDeletes(m)
       && |bt.groups| == n + m && AllIdle(bt.groups)
  }

  lemma WideListed(n: nat, m: nat)
    requires n + m >= 1
    ensures var sub := Submission(None, WideUpserts(n), WideDeletes(m));
            SubOps(sub) != [] && Lists(sub.upserts, sub.deletes, Latest(SubOps(sub)))
  {
    WideMeans(n);
    WideMeans(m);
    WideDistinct(n, m);
    ListsDistinct(WideUpserts(n), WideDeletes(m));
  }

  lemma WideGroups(bt: Batch, n: nat, m: nat)
    requires bt.upserts == WideUpserts(n) && bt.deletes == WideDeletes(m)
    ensures Orders(Names(n), bt.upserts) && Orders(Names(m), bt.deletes)
    ensures var fl := Flushing(bt, Names(n), Names(m));
            |fl.groups| == n + m && AllIdle(fl.groups)
  {
    WideOrders(n);
    WideOrders(m);
    WideMeans(n);
    WideMeans(m);
    GroupsIdle(bt.upserts, Names(n));
    GroupsIdle(bt.deletes, Names(m));
  }

  lemma Widens(c: Config, s: State, n: nat, m: nat) returns (s': State)
    requires s in Runs(c) && Calm(s) && s.slotsUsed < c.slots && n + m >= 1
    ensures s' in Runs(c) && Widened(s, s', n, m) && Empty(s'.buf) && s'.blocked == map[]
    ensures s'.slotsUsed == s.slotsUsed + 1 && s'.uploadsUsed == s.uploadsUsed && s'.cancelled == s.cancelled
  {
    WideListed(n, m);
    var b := |s.batches|;
    var who, s1 := TakesAlone(c, s, Submission(None, WideUpserts(n), WideDeletes(m)), WideUpserts(n), WideDeletes(m));
    WideGroups(s1.batches[b], n, m);
    s' := Launch(c, s1, b, Names(n), Names(m));
  }

  /** As before, except for batch b, which keeps its operations and the number of its calls. */
  ghost predicate OnlyCalls(s: State, s': State, b: nat)
    requires b < |s.batches|
  {
    && |s'.batches| == |s.batches| && s'.batches == s.batches[b := s'.batches[b]]
    && s'.batches[b].phase == s.batches[b].phase && |s'.batches[b].groups| == |s.batches[b].groups|
    && s'.batches[b].upserts == s.batches[b].upserts && s'.batches[b].deletes == s.batches[b].deletes
    && s'.buf == s.buf && s'.slotsUsed == s.slotsUsed && s'.blocked == s.blocked && s'.closed == s.closed
    && s'.cancelled == s.cancelled
  }

  /** The first k goroutines begin their calls. */
  lemma {:induction false} BeginsMany(c: Config, s: State, b: nat, k: nat) returns (s': State)
    requires s in Runs(c) && b < |s.batches| && s.batches[b].phase == Enqueueing && AllIdle(s.batches[b].groups)
    requires k <= |s.batches[b].groups| && s.uploadsUsed + k <= c.uploads
    ensures s' in Runs(c) && OnlyCalls(s, s', b) && s'.uploadsUsed == s.uploadsUsed + k
    ensures forall g :: k <= g < |s'.batches[b].groups| ==> s'.batches[b].groups[g].phase.Idle?
  {
    if k == 0 {
      s' := s;
    } else {
      var s1 := BeginsMany(c, s, b, k - 1);
      s' := Begins(c, s1, b, k - 1);
    }
  }

  /** A flush with more calls than free upload slots comes to a point where one waits. */
  lemma Stalls(c: Config, s: State, b: nat) returns (s': State, g: nat)
    requires s in Runs(c) && b < |s.batches| && s.batches[b].phase == Enqueueing && AllIdle(s.batches[b].groups)
    requires s.uploadsUsed <= c.uploads < s.uploadsUsed + |s.batches[b].groups|
    ensures s' in Runs(c) && OnlyCalls(s, s', b) && Waits(c, s', b, g)
  {
    g := c.uploads - s.uploadsUsed;
    s' := BeginsMany(c, s, b, g);
  }

  /** After i rounds of shutdown overtaking, i flushes of n + m calls hold all their upload slots. */
  lemma {:induction false} Rounds(c: Config, n: nat, m: nat, i: nat) returns (s: State)
    requires ConfigOk(c) && n + m >= 1 && i <= c.slots && i * (n + m) <= c.uploads
    ensures s in Runs(c) && Calm(s) && s.slotsUsed == i && s.uploadsUsed == i * (n + m)
    ensures AllModerate(s, n, m)
  {
    if i == 0 {
      s := RoundZero(c, n, m);
    } else {
      Distribute(i - 1, 1, n + m);
      var s1 := Rounds(c, n, m, i - 1);
      s := Round(c, s1, n, m);
    }
  }

  lemma RoundZero(c: Config, n: nat, m: nat) returns (s: State)
    requires ConfigOk(c)
    ensures s in Runs(c) && Calm(s) && s.slotsUsed == s.uploadsUsed == 0 && AllModerate(s, n, m)
  {
    Start(c);
    s := Initial;
  }

  /** The batch makes no more calls, and writes to no more indexes, than n upserts and m deletes need. */
  ghost predicate Moderate(bt: Batch, n: nat, m: nat) {
    && |bt.groups| <= n + m
    && IndexesOf(bt.upserts) <= IndexesOf(WideUpserts(n)) && IndexesOf(bt.deletes) <= IndexesOf(WideDeletes(m))
  }

  ghost predicate AllModerate(s: State, n: nat, m: nat) {
    forall b :: 0 <= b < |s.batches| ==> Moderate(s.batches[b], n, m)
  }

  /** One wide flush begins all its calls, and the batch behind it gives up its turn. */
  lemma Round(c: Config, s: State, n: nat, m: nat) returns (s': State)
    requires s in Runs(c) && Calm(s) && s.slotsUsed < c.slots && n + m >= 1 && s.uploadsUsed + n + m <= c.uploads
    requires AllModerate(s, n, m)
    ensures s' in Runs(c) && Calm(s') && s'.slotsUsed == s.slotsUsed + 1 && s'.uploadsUsed == s.uploadsUsed + n + m
    ensures AllModerate(s', n, m)
  {
    var b := |s.batches|;
    var s1 := Widens(c, s, n, m);
    var s2 := BeginsMany(c, s1, b, n + m);
    assert forall i :: 0 <= i < b ==> s2.batches[i] == s.batches[i];
    s' := Overtaken(c, s2, n, m);
  }

  lemma Overtaken(c: Config, s: State, n: nat, m: nat) returns (s': State)
    requires s in Runs(c) && Empty(s.buf) && s.blocked == map[] && n + m >= 1
    requires AllModerate(s, n, m)
    ensures s' in Runs(c) && Calm(s') && s'.slotsUsed == s.slotsUsed && s'.uploadsUsed == s.uploadsUsed
    ensures AllModerate(s', n, m)
  {
    WideListed(n, m);
    var who, s1 := TakesAlone(c, s, Submission(None, WideUpserts(n), WideDeletes(m)), WideUpserts(n), WideDeletes(m));
    s' := GivesUp(c, s1, |s.batches|);
  }

  /** Under overtaking, some run of flushes of n + m calls makes one wait. */
  lemma StallsEver(c: Config, n: nat, m: nat) returns (s: State, b: nat, g: nat)
    requires ConfigOk(c) && n + m >= 1 && c.slots * (n + m) > c.uploads
    ensures s in Runs(c) && AllModerate(s, n, m) && Waits(c, s, b, g)
  {
    var i := FullRounds(c.uploads, n + m, c.slots);
    var s1 := Rounds(c, n, m, i);
    b := |s1.batches|;
    var s2 := Widens(c, s1, n, m);
    assert forall j :: 0 <= j < b ==> s2.batches[j] == s1.batches[j];
    s, g := Stalls(c, s2, b);
  }

  /** How many whole flushes fit the upload slots. */
  lemma {:induction false} FullRounds(uploads: nat, width: nat, slots: nat) returns (i: nat)
    requires width >= 1 && slots * width > uploads
    ensures i < slots && i * width <= uploads < i * width + width
  {
    if (slots - 1) * width <= uploads {
      i := slots - 1;
      Distribute(slots - 1, 1, width);
    } else {
      i := FullRounds(uploads, width, slots - 1);
    }
  }

  /** Before shutdown, some flush of n + m calls makes one wait. */
  lemma StallsBefore(c: Config, n: nat, m: nat) returns (s: State, g: nat)
    requires ConfigOk(c) && n + m > c.uploads
    ensures s in Runs(c) && !s.cancelled && |s.batches| == 1 && Moderate(s.batches[0], n, m) && Waits(c, s, 0, g)
  {
    Start(c);
    var s1 := Widens(c, Initial, n, m);
    s, g := Stalls(c, s1, 0);
  }

  // ---- calls per flush ---------------------------------------------------------------------------------

  /** Some run before shutdown keeps a call of a flush of at most `width` calls waiting. */
  ghost predicate CallWaits(c: Config, width: nat) {
    exists s, b: nat, g: nat ::
      Reachable(c, s) && !s.cancelled && Waits(c, s, b, g) && |s.batches[b].groups| <= width
  }

  /** Some run does, shutdown included, with no flush of more than `width` calls. */
  ghost predicate CallWaitsEver(c: Config, width: nat) {
    exists s, b: nat, g: nat :: Reachable(c, s) && Narrow(s, width) && Waits(c, s, b, g)
  }

  /** Before shutdown a call can be kept waiting exactly when one flush alone has more calls than
      there are upload slots. */
  lemma CallWaitsExactly(c: Config, width: nat)
    requires ConfigOk(c)
    ensures CallWaits(c, width) <==> width > c.uploads
  {
    if CallWaits(c, width) {
      var s, b: nat, g: nat :|
        Reachable(c, s) && !s.cancelled && Waits(c, s, b, g) && |s.batches[b].groups| <= width;
      if width <= c.uploads {
        NeverWaitsBefore(c, s, b, g);
      }
    } else if width > c.uploads {
      var s, g := StallsBefore(c, width, 0);
    }
  }

  /** At any time, exactly when all slots' flushes together do. */
  lemma CallWaitsEverExactly(c: Config, width: nat)
    requires ConfigOk(c)
    ensures CallWaitsEver(c, width) <==> c.slots * width > c.uploads
  {
    if CallWaitsEver(c, width) {
      var s, b: nat, g: nat :| Reachable(c, s) && Narrow(s, width) && Waits(c, s, b, g);
      if c.slots * width <= c.uploads {
        NeverWaits(c, s, width, b, g);
      }
    } else if c.slots * width > c.uploads {
      var s, b, g := StallsEver(c, width, 0);
      assert Narrow(s, width);
    }
  }

  // ---- indexes per flush -------------------------------------------------------------------------------

  /** A launched flush makes one upsert call and one delete call per index it has them for. */
  ghost predicate Counted(bt: Batch) {
    Launched(bt) ==> |bt.groups| == |IndexesOf(bt.upserts)| + |IndexesOf(bt.deletes)|
  }

  lemma {:induction false} OrderLength(order: seq<string>, names: set<string>)
    requires forall n :: n in order <==> n in names
    requires forall i, j :: 0 <= i < j < |order| ==> order[i] != order[j]
    ensures |order| == |names|
  {
    if order != [] {
      var init, last := order[..|order| - 1], order[|order| - 1];
      assert order == init + [last];
      OrderLength(init, names - {last});
    }
  }

  lemma CountedMove(bt: Batch, a: Action)
    requires IsMove(a) && CanMove(bt, a) && Counted(bt)
    ensures Counted(Moved(bt, a))
  {
    if a.StartFlush? {
      GroupsIdle(bt.upserts, a.upsertOrder);
      GroupsIdle(bt.deletes, a.deleteOrder);
      OrderLength(a.upsertOrder, IndexesOf(bt.upserts));
      OrderLength(a.deleteOrder, IndexesOf(bt.deletes));
    }
  }

  ghost predicate AllCounted(batches: seq<Batch>) { forall b :: 0 <= b < |batches| ==> Counted(batches[b]) }

  lemma CountedStep(c: Config, s: State, a: Action)
    requires Enabled(c, s, a) && AllCounted(s.batches)
    ensures AllCounted(Next(c, s, a).batches)
  {
    if IsMove(a) {
      CountedMove(s.batches[a.b], a);
    } else if IsCall(a) {
      CountedCall(s.batches[a.b], a.g, Called(c, s.batches[a.b].groups[a.g], |s.log|, a));
    } else {
      CountedElse(c, s, a);
    }
  }

  lemma CountedCall(bt: Batch, g: nat, gr: Group)
    requires g < |bt.groups| && Counted(bt)
    ensures Counted(WithGroup(bt, g, gr))
  {}

  lemma CountedElse(c: Config, s: State, a: Action)
    requires !IsMove(a) && !IsCall(a) && Enabled(c, s, a) && AllCounted(s.batches)
    ensures AllCounted(Next(c, s, a).batches)
  {
    ElseBatches(c, s, a);
  }

  /** Other steps leave the batches alone or add one that has not been launched. */
  lemma ElseBatches(c: Config, s: State, a: Action)
    requires !IsMove(a) && !IsCall(a) && Enabled(c, s, a)
    ensures Next(c, s, a).batches == s.batches
         || exists bt :: !Launched(bt) && Next(c, s, a).batches == s.batches + [bt]
  {
    if a.Tick? {
      TakeAdds(s, Ticker, a.upserts, a.deletes);
    } else if a.Submit? && SubOps(a.sub) != [] {
      TakeAdds(Absorbed(s, a.sub), Submitter, a.upserts, a.deletes);
    }
  }

  lemma TakeAdds(s: State, who: Actor, upserts: seq<UpsertOp>, deletes: seq<DeleteOp>)
    ensures exists bt :: !Launched(bt) && Take(s, who, upserts, deletes).batches == s.batches + [bt]
  {
    var bt := Take(s, who, upserts, deletes).batches[|s.batches|];
    assert !Launched(bt);
  }

  ghost function CountedStates(): iset<State> { iset s: State | AllCounted(s.batches) }

  lemma CountedNext(c: Config, s: State, a: Action, s': State)
    requires s in CountedStates() && Stepped(c, s, a, s')
    ensures s' in CountedStates()
  {
    CountedStep(c, s, a);
    assert AllCounted(s'.batches);
  }

  lemma CountedRun(c: Config, s: State)
    requires Reachable(c, s)
    ensures AllCounted(s.batches)
  {
    assert AllCounted(Initial.batches);
    forall p, q ensures Keeps(c, CountedStates(), p, q) {
      if (p, q) in Steps(c) && p in Runs(c) && p in CountedStates() {
        var a := StepOf(c, p, q);
        CountedNext(c, p, a, q);
      }
    }
    Always(c, CountedStates(), s);
  }

  lemma CallsPerIndex(c: Config, s: State, b: nat, k: nat)
    requires Reachable(c, s) && b < |s.batches| && Spans(s.batches[b], k)
    ensures |s.batches[b].groups| <= 2 * k
  {
    CountedRun(c, s);
    var bt := s.batches[b];
    assert Counted(bt);
    SubsetCard(IndexesOf(bt.upserts), IndexesOf(bt.upserts) + IndexesOf(bt.deletes));
    SubsetCard(IndexesOf(bt.deletes), IndexesOf(bt.upserts) + IndexesOf(bt.deletes));
    if !Launched(bt) {
      NoGroupsYet(c, s, b);
    }
  }

  lemma NoGroupsYet(c: Config, s: State, b: nat)
    requires Reachable(c, s) && b < |s.batches| && !Launched(s.batches[b])
    ensures s.batches[b].groups == []
  {
    ReachableCalls(c, s);
    assert BatchOk(c, s.log, b, s.batches[b]);
  }

  lemma ModerateSpans(bt: Batch, k: nat)
    requires Moderate(bt, k, k)
    ensures Spans(bt, k)
  {
    var all := IndexesOf(WideUpserts(k));
    WideIndexes(k);
    WideOrders(k);
    WideMeans(k);
    assert IndexesOf(WideDeletes(k)) == all;
    OrderLength(Names(k), all);
    SubsetCard(IndexesOf(bt.upserts) + IndexesOf(bt.deletes), all);
  }

  ghost predicate AllSpan(s: State, k: nat) { forall i :: 0 <= i < |s.batches| ==> Spans(s.batches[i], k) }

  ghost predicate IndexWaits(c: Config, k: nat) {
    exists s, b: nat, g: nat :: Reachable(c, s) && !s.cancelled && Waits(c, s, b, g) && Spans(s.batches[b], k)
  }

  ghost predicate IndexWaitsEver(c: Config, k: nat) {
    exists s, b: nat, g: nat :: Reachable(c, s) && AllSpan(s, k) && Waits(c, s, b, g)
  }

  /** Before shutdown a call of a flush to at most k indexes can be kept waiting exactly when there
      are fewer than 2k upload slots. */
  lemma IndexWaitsExactly(c: Config, k: nat)
    requires ConfigOk(c)
    ensures IndexWaits(c, k) <==> 2 * k > c.uploads
  {
    if IndexWaits(c, k) {
      var s, b: nat, g: nat :| Reachable(c, s) && !s.cancelled && Waits(c, s, b, g) && Spans(s.batches[b], k);
      CallsPerIndex(c, s, b, k);
      if 2 * k <= c.uploads {
        NeverWaitsBefore(c, s, b, g);
      }
    } else if 2 * k > c.uploads {
      var s, g := StallsBefore(c, k, k);
      ModerateSpans(s.batches[0], k);
    }
  }

  /** At any time, exactly when there are fewer than that for every flush slot. */
  lemma IndexWaitsEverExactly(c: Config, k: nat)
    requires ConfigOk(c)
    ensures IndexWaitsEver(c, k) <==> c.slots * (2 * k) > c.uploads
  {
    if IndexWaitsEver(c, k) {
      var s, b: nat, g: nat :| Reachable(c, s) && AllSpan(s, k) && Waits(c, s, b, g);
      forall i | 0 <= i < |s.batches| ensures |s.batches[i].groups| <= 2 * k {
        CallsPerIndex(c, s, i, k);
      }
      if c.slots * (2 * k) <= c.uploads {
        NeverWaits(c, s, 2 * k, b, g);
      }
    } else if c.slots * (2 * k) > c.uploads {
      assert k + k == 2 * k;
      var s, b, g := StallsEver(c, k, k);
      forall i | 0 <= i < |s.batches| ensures Spans(s.batches[i], k) {
        ModerateSpans(s.batches[i], k);
      }
    }
  }
}
