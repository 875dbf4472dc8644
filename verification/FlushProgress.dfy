/** Progress: while any taken batch is unresolved some step other than a new submission,
    tick or heartbeat is possible, every such step lowers a measure, and so every run that
    keeps taking them resolves all its batches, before and after shutdown alike. */
module FlushProgress {
  import opened SdkCall
  import opened FlushProtocol
  import opened FlushChain
  import opened FlushCalls
  import opened FlushBounds
  import opened Sums

  predicate IsProgress(a: Action) { IsMove(a) || IsCall(a) || a.TaskDone? }

  ghost predicate Sound(c: Config, s: State) {
    ConfigOk(c) && ChainInv(s) && CallsInv(c, s) && SlotInv(c, s)
  }

  lemma SoundStep(c: Config, s: State, a: Action)
    requires Sound(c, s) && Enabled(c, s, a)
    ensures Sound(c, Next(c, s, a))
  {
    ChainStep(c, s, a);
    CallsStep(c, s, a);
    SlotStep(c, s, a);
  }

  // ---- the measure ---------------------------------------------------------------------------------

  function LaunchOf(b: Batch): nat {
    if b.phase.AwaitTurn? then 2 else if b.phase.AwaitSlot? then 1 else 0
  }

  function SendsLeft(retries: nat, g: Group): nat {
    if g.call.sent <= |g.items| && g.call.tries <= retries
    then (|g.items| - g.call.sent) * retries + (retries - g.call.tries) else 0
  }

  function GroupWork(retries: nat, g: Group): nat {
    match g.phase
    case Idle => 2 * SendsLeft(retries, g) + 5
    case Calling => if g.call.status.Running? then 2 * SendsLeft(retries, g) + 4 else 3
    case Enqueued => 2
    case _ => 0
  }

  function GroupWorkOf(retries: nat): Group -> nat { g => GroupWork(retries, g) }

  function PhaseWork(b: Batch): nat {
    match b.phase
    case Enqueueing => |b.msgs| + 4
    case Waiting => |b.msgs| + 3
    case Settling(_, next) => if next <= |b.msgs| then |b.msgs| - next + 1 else 0
    case _ => 0
  }

  function FlightWork(retries: nat, b: Batch): nat { PhaseWork(b) + Sum(b.groups, GroupWorkOf(retries)) }

  function FlightWorkOf(retries: nat): Batch -> nat { b => FlightWork(retries, b) }

  function QueuedOf(k: Task): nat { if k.status.Queued? then 1 else 0 }

  /** First component: batches still to be launched. Second: calls, tasks and settling to do. */
  function Launches(s: State): nat { Sum(s.batches, LaunchOf) }
  function Work(c: Config, s: State): nat { Sum(s.batches, FlightWorkOf(c.retries)) + Sum(s.log, QueuedOf) }

  ghost predicate Less(c: Config, s': State, s: State) {
    Launches(s') < Launches(s) || (Launches(s') == Launches(s) && Work(c, s') < Work(c, s))
  }

  lemma AtLeastOnce(b: nat, k: nat)
    requires b >= 1
    ensures b * k >= k
  {}

  lemma MulStep(n: nat, sent: nat, end: nat, k: nat)
    requires sent < end <= n
    ensures (n - sent) * k >= (n - end) * k + k
  {
    Distribute(n - end, end - sent, k);
    AtLeastOnce(end - sent, k);
    assert (n - end) + (end - sent) == n - sent;
  }

  /** An accepted chunk saves more sends than the tries it had left. */
  lemma AcceptLess(c: Config, gr: Group, gr': Group)
    requires ConfigOk(c) && CallOk(|gr.items|, c.retries, gr.call) && gr.call.status.Running?
    requires gr'.items == gr.items && gr'.call == Attempt(|gr.items|, c.chunk, c.retries, gr.call, Accepted)
    ensures SendsLeft(c.retries, gr') + 1 <= SendsLeft(c.retries, gr)
  {
    MulStep(|gr.items|, gr.call.sent, ChunkEnd(|gr.items|, c.chunk, gr.call.sent), c.retries);
  }

  lemma SendLess(c: Config, gr: Group, at: nat, a: Action)
    requires ConfigOk(c) && a.Send? && gr.phase.Calling? && gr.call.status.Running?
    requires CallOk(|gr.items|, c.retries, gr.call)
    ensures GroupWork(c.retries, Called(c, gr, at, a)) + 2 <= GroupWork(c.retries, gr)
  {
    if a.outcome.Accepted? {
      AcceptLess(c, gr, Called(c, gr, at, a));
    } else {
      assert SendsLeft(c.retries, gr) >= c.retries - gr.call.tries;
    }
  }

  lemma CallLess(c: Config, log: seq<Task>, bt: Batch, gr: Group, at: nat, a: Action)
    requires ConfigOk(c) && IsCall(a) && CanCall(log, bt, gr, a) && GroupOk(c, log, a.b, a.g, gr)
    ensures GroupWork(c.retries, Called(c, gr, at, a)) + |SentTasks(c, gr, a)| < GroupWork(c.retries, gr)
  {
    if a.Send? {
      SendLess(c, gr, at, a);
    }
  }

  lemma QueuedSent(c: Config, log: seq<Task>, gr: Group, a: Action)
    requires IsCall(a)
    ensures Sum(log + SentTasks(c, gr, a), QueuedOf) <= Sum(log, QueuedOf) + |SentTasks(c, gr, a)|
  {
    var tasks := SentTasks(c, gr, a);
    if tasks == [] {
      assert log + tasks == log;
    } else {
      assert tasks == [tasks[0]];
      SumAppend(log, tasks[0], QueuedOf);
    }
  }

  lemma CallBatchLess(c: Config, log: seq<Task>, bt: Batch, a: Action)
    requires ConfigOk(c) && IsCall(a) && a.g < |bt.groups| && CanCall(log, bt, bt.groups[a.g], a)
    requires BatchOk(c, log, a.b, bt)
    ensures FlightWork(c.retries, WithGroup(bt, a.g, Called(c, bt.groups[a.g], |log|, a)))
            + |SentTasks(c, bt.groups[a.g], a)| < FlightWork(c.retries, bt)
  {
    var gr := bt.groups[a.g];
    assert GroupOk(c, log, a.b, a.g, gr);
    CallLess(c, log, bt, gr, |log|, a);
    SumUpdate(bt.groups, a.g, Called(c, gr, |log|, a), GroupWorkOf(c.retries));
  }

  lemma LessCall(c: Config, s: State, a: Action)
    requires Sound(c, s) && IsCall(a) && CallEnabled(c, s, a)
    ensures Less(c, CallTo(c, s, a), s)
  {
    assert BatchOk(c, s.log, a.b, s.batches[a.b]);
    LessCallOf(c, s.log, s.batches, a);
  }

  lemma LessCallOf(c: Config, log: seq<Task>, batches: seq<Batch>, a: Action)
    requires ConfigOk(c) && IsCall(a) && a.b < |batches| && BatchOk(c, log, a.b, batches[a.b])
    requires a.g < |batches[a.b].groups| && CanCall(log, batches[a.b], batches[a.b].groups[a.g], a)
    ensures var bt := batches[a.b];
            var batches' := batches[a.b := WithGroup(bt, a.g, Called(c, bt.groups[a.g], |log|, a))];
            var log' := log + SentTasks(c, bt.groups[a.g], a);
            && Sum(batches', LaunchOf) == Sum(batches, LaunchOf)
            && Sum(batches', FlightWorkOf(c.retries)) + Sum(log', QueuedOf)
               < Sum(batches, FlightWorkOf(c.retries)) + Sum(log, QueuedOf)
  {
    var bt := batches[a.b];
    var bt' := WithGroup(bt, a.g, Called(c, bt.groups[a.g], |log|, a));
    CallBatchLess(c, log, bt, a);
    QueuedSent(c, log, bt.groups[a.g], a);
    SumUpdate(batches, a.b, bt', LaunchOf);
    SumUpdate(batches, a.b, bt', FlightWorkOf(c.retries));
  }

  lemma MoveLess(c: Config, log: seq<Task>, bt: Batch, a: Action)
    requires IsMove(a) && CanMove(bt, a) && BatchOk(c, log, a.b, bt)
    ensures LaunchOf(Moved(bt, a)) <= LaunchOf(bt)
    ensures LaunchOf(Moved(bt, a)) == LaunchOf(bt) ==> FlightWork(c.retries, Moved(bt, a)) < FlightWork(c.retries, bt)
  {}

  lemma LessMove(c: Config, s: State, a: Action)
    requires Sound(c, s) && IsMove(a) && MoveEnabled(c, s, a)
    ensures Less(c, MoveTo(s, a), s)
  {
    var bt' := Moved(s.batches[a.b], a);
    assert BatchOk(c, s.log, a.b, s.batches[a.b]);
    MoveLess(c, s.log, s.batches[a.b], a);
    SumUpdate(s.batches, a.b, bt', LaunchOf);
    SumUpdate(s.batches, a.b, bt', FlightWorkOf(c.retries));
  }

  /** Every progress step lowers the measure. */
  lemma ProgressLowers(c: Config, s: State, a: Action)
    requires Sound(c, s) && IsProgress(a) && Enabled(c, s, a)
    ensures Less(c, Next(c, s, a), s)
  {
    if IsMove(a) {
      LessMove(c, s, a);
    } else if IsCall(a) {
      LessCall(c, s, a);
    } else {
      SumUpdate(s.log, a.t, Next(c, s, a).log[a.t], QueuedOf);
    }
  }

  // ---- some step is always possible -------------------------------------------------------------------

  lemma {:induction false} Enumerate(names: set<string>) returns (order: seq<string>)
    ensures forall n :: n in order <==> n in names
    ensures forall i, j :: 0 <= i < j < |order| ==> order[i] != order[j]
    decreases names
  {
    if names == {} {
      order := [];
    } else {
      var n :| n in names;
      var rest := Enumerate(names - {n});
      order := rest + [n];
    }
  }

  lemma CallingStep(c: Config, s: State, b: nat, g: nat) returns (a: Action)
    requires Sound(c, s) && HasGroup(s, b, g) && s.batches[b].groups[g].phase.Calling?
    ensures IsProgress(a) && Enabled(c, s, a)
  {
    var bt := s.batches[b];
    var gr := bt.groups[g];
    assert BatchOk(c, s.log, b, bt) && GroupOk(c, s.log, b, g, gr);
    SumUpdate(bt.groups, g, gr, CallOf);
    SumUpdate(s.batches, b, bt, CallsOf);
    a := if gr.call.status.Running? then Send(b, g, Fatal(false)) else EndCall(b, g);
  }

  lemma EnqueueingStep(c: Config, s: State, b: nat) returns (a: Action)
    requires Sound(c, s) && b < |s.batches| && s.batches[b].phase.Enqueueing?
    ensures IsProgress(a) && Enabled(c, s, a)
  {
    var bt := s.batches[b];
    if forall g :: g in bt.groups ==> Returned(g) {
      a := CloseDone(b);
    } else {
      var gr :| gr in bt.groups && !Returned(gr);
      var g :| 0 <= g < |bt.groups| && bt.groups[g] == gr;
      if gr.phase.Calling? {
        a := CallingStep(c, s, b, g);
      } else if s.uploadsUsed < c.uploads {
        a := BeginCall(b, g);
      } else {
        var b' := SumPositive(s.batches, CallsOf);
        var g' := SumPositive(s.batches[b'].groups, CallOf);
        a := CallingStep(c, s, b', g');
      }
    }
  }

  lemma InFlightStep(c: Config, s: State, b: nat) returns (a: Action)
    requires Sound(c, s) && b < |s.batches| && InFlight(s.batches[b])
    ensures IsProgress(a) && Enabled(c, s, a)
  {
    var bt := s.batches[b];
    assert BatchOk(c, s.log, b, bt);
    if bt.phase.Enqueueing? {
      a := EnqueueingStep(c, s, b);
    } else if bt.phase.Settling? {
      SumUpdate(s.batches, b, bt, SlotOf);
      a := if bt.phase.next < |bt.msgs| then Settle(b) else Release(b);
    } else if forall g :: g in bt.groups ==> Terminal(g) {
      a := StopHeartbeat(b);
    } else {
      var gr :| gr in bt.groups && !Terminal(gr);
      var g :| 0 <= g < |bt.groups| && bt.groups[g] == gr;
      assert GroupOk(c, s.log, b, g, gr) && Returned(gr);
      a := WaitReturns(b, g, gr.tasks == []);
    }
  }

  lemma AwaitingStep(c: Config, s: State, b: nat) returns (a: Action)
    requires Sound(c, s) && b < |s.batches| && Awaiting(s.batches[b])
    requires forall i :: 0 <= i < b ==> Retired(s.batches[i])
    ensures IsProgress(a) && Enabled(c, s, a)
  {
    if s.batches[b].phase.AwaitTurn? {
      assert LinkOk(s.closed, b, s.batches[b]);
      if b > 0 {
        assert LinkOk(s.closed, b - 1, s.batches[b - 1]);
      }
      a := Turn(b);
    } else if s.slotsUsed < c.slots {
      var us := Enumerate(IndexesOf(s.batches[b].upserts));
      var ds := Enumerate(IndexesOf(s.batches[b].deletes));
      a := StartFlush(b, us, ds);
    } else {
      var b' := SumPositive(s.batches, SlotOf);
      a := InFlightStep(c, s, b');
    }
  }

  ghost predicate AllRetired(s: State) { forall b :: 0 <= b < |s.batches| ==> Retired(s.batches[b]) }

  lemma {:induction false} FirstUnretired(batches: seq<Batch>) returns (b: nat)
    requires exists i :: 0 <= i < |batches| && !Retired(batches[i])
    ensures b < |batches| && !Retired(batches[b]) && forall i :: 0 <= i < b ==> Retired(batches[i])
  {
    b := 0;
    while Retired(batches[b])
      invariant b < |batches| && forall i :: 0 <= i < b ==> Retired(batches[i])
      decreases |batches| - b
    {
      assert exists i :: b < i < |batches| && !Retired(batches[i]);
      b := b + 1;
    }
  }

  /** An unresolved batch always leaves a progress step enabled. */
  lemma SomeStep(c: Config, s: State) returns (a: Action)
    requires Sound(c, s) && !AllRetired(s)
    ensures IsProgress(a) && Enabled(c, s, a)
  {
    var b := FirstUnretired(s.batches);
    if InFlight(s.batches[b]) {
      a := InFlightStep(c, s, b);
    } else {
      a := AwaitingStep(c, s, b);
    }
  }

  // ---- runs that keep going -----------------------------------------------------------------------------

  ghost predicate Progresses(c: Config, s: State, s': State) {
    exists a :: IsProgress(a) && Enabled(c, s, a) && s' == Next(c, s, a)
  }

  /** A step that takes no batch and does none of the work: a submission that leaves the buffer
      below its trigger, a heartbeat, or the cancellation. */
  ghost predicate Idles(c: Config, s: State, s': State) {
    exists a :: !IsProgress(a) && Enabled(c, s, a) && s' == Next(c, s, a) && |s'.batches| == |s.batches|
  }

  ghost function SoundStates(c: Config): iset<State> { iset s | Sound(c, s) }

  /** Steps as pairs of states. */
  ghost function Progressing(c: Config): iset<(State, State)> { iset p: (State, State) | Progresses(c, p.0, p.1) }
  ghost function Idling(c: Config): iset<(State, State)> { iset p: (State, State) | Idles(c, p.0, p.1) }

  lemma Progressed(c: Config, s: State, s': State)
    requires s in SoundStates(c) && (s, s') in Progressing(c)
    ensures s' in SoundStates(c) && Less(c, s', s)
  {
    assert Progresses(c, s, s');
    var a :| IsProgress(a) && Enabled(c, s, a) && s' == Next(c, s, a);
    SoundStep(c, s, a);
    ProgressLowers(c, s, a);
    assert Sound(c, s');
  }

  lemma Idled(c: Config, s: State, s': State)
    requires s in SoundStates(c) && (s, s') in Idling(c)
    ensures s' in SoundStates(c) && s'.batches == s.batches && s'.log == s.log
  {
    assert Idles(c, s, s');
    var a :| !IsProgress(a) && Enabled(c, s, a) && s' == Next(c, s, a) && |s'.batches| == |s.batches|;
    SoundStep(c, s, a);
    assert Sound(c, s');
    IdleSame(c, s, a);
  }

  lemma IdleSame(c: Config, s: State, a: Action)
    requires !IsProgress(a) && Enabled(c, s, a) && |Next(c, s, a).batches| == |s.batches|
    ensures Next(c, s, a).batches == s.batches && Next(c, s, a).log == s.log
  {}

  ghost predicate ProgressAt(c: Config, f: nat -> State, k: nat) { (f(k), f(k + 1)) in Progressing(c) }

  ghost predicate StepAt(c: Config, f: nat -> State, k: nat) {
    ProgressAt(c, f, k) || (f(k), f(k + 1)) in Idling(c) || f(k + 1) == f(k)
  }

  ghost predicate ProgressAfter(c: Config, f: nat -> State, j: nat) { exists k: nat :: k >= j && ProgressAt(c, f, k) }

  /** While some batch is unresolved the run takes progress steps and idle steps, and another
      progress step is always still to come. */
  ghost predicate KeepsGoing(c: Config, f: nat -> State) {
    forall j: nat :: GoesOn(c, f, j)
  }

  ghost predicate GoesOn(c: Config, f: nat -> State, j: nat) {
    AllRetired(f(j)) || (StepAt(c, f, j) && ProgressAfter(c, f, j))
  }

  ghost predicate SameWork(s: State, s': State) { s'.batches == s.batches && s'.log == s.log }

  lemma OneStep(c: Config, f: nat -> State, i: nat)
    requires KeepsGoing(c, f) && f(i) in SoundStates(c) && !AllRetired(f(i)) && !ProgressAt(c, f, i)
    ensures f(i + 1) in SoundStates(c) && SameWork(f(i), f(i + 1)) && !AllRetired(f(i + 1))
  {
    assert GoesOn(c, f, i);
    if (f(i), f(i + 1)) in Idling(c) {
      Idled(c, f(i), f(i + 1));
    }
  }

  /** Idle steps lead unchanged to the next progress step. */
  lemma {:induction false} NextProgress(c: Config, f: nat -> State, i: nat, k: nat) returns (m: nat)
    requires KeepsGoing(c, f) && f(i) in SoundStates(c) && !AllRetired(f(i)) && i <= k && ProgressAt(c, f, k)
    ensures m >= i && ProgressAt(c, f, m) && f(m) in SoundStates(c) && SameWork(f(i), f(m))
    decreases k - i
  {
    if ProgressAt(c, f, i) {
      m := i;
    } else {
      OneStep(c, f, i);
      m := NextProgress(c, f, i + 1, k);
    }
  }

  lemma SomeProgress(c: Config, f: nat -> State, i: nat) returns (m: nat)
    requires KeepsGoing(c, f) && f(i) in SoundStates(c) && !AllRetired(f(i))
    ensures ProgressAt(c, f, m) && f(m) in SoundStates(c) && SameWork(f(i), f(m))
  {
    assert GoesOn(c, f, i);
    var k: nat :| k >= i && ProgressAt(c, f, k);
    m := NextProgress(c, f, i, k);
  }

  lemma LowerNext(c: Config, s: State, s1: State, s2: State)
    requires SameWork(s, s1) && s1 in SoundStates(c) && (s1, s2) in Progressing(c)
    ensures s2 in SoundStates(c) && Less(c, s2, s)
  {
    Progressed(c, s1, s2);
  }

  /** One progress step later the measure is lower. */
  lemma MeasureFalls(c: Config, f: nat -> State, i: nat) returns (m: nat)
    requires KeepsGoing(c, f) && f(i) in SoundStates(c) && !AllRetired(f(i))
    ensures f(m) in SoundStates(c) && Less(c, f(m), f(i))
  {
    var n := SomeProgress(c, f, i);
    LowerNext(c, f(i), f(n), f(n + 1));
    m := n + 1;
  }

  /** Whatever order the goroutines and the backend are scheduled in, and whatever they return,
      a run that keeps going resolves every taken batch. */
  lemma {:induction false} EveryBatchResolves(c: Config, f: nat -> State, i: nat) returns (n: nat)
    requires KeepsGoing(c, f) && f(i) in SoundStates(c)
    ensures AllRetired(f(n))
    decreases Launches(f(i)), Work(c, f(i))
  {
    if AllRetired(f(i)) {
      n := i;
    } else {
      var m := MeasureFalls(c, f, i);
      n := EveryBatchResolves(c, f, m);
    }
  }
}
