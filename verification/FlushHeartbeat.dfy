/** Heartbeats: while its flush runs, every message of a batch can be kept alive at each tick;
    before that and after that, none is. */
module FlushHeartbeat {
  import opened Buffering
  import opened FlushProtocol
  import opened FlushCalls
  import opened FlushDelivery
  import opened FlushTheorems
  import opened FlushRuns

  /** The heartbeat goroutine of the batch is running. */
  predicate InFlush(bt: Batch) { bt.phase.Enqueueing? || bt.phase.Waiting? }

  /** It has been joined, or was never started because the batch was given up. */
  predicate Stopped(bt: Batch) { bt.phase.Settling? || bt.phase.Resolved? || bt.phase.Abandoned? }

  // ---- one tick -----------------------------------------------------------------------------------

  /** An in-progress call on each message, in order. */
  function Beats(msgs: seq<Msg>): seq<Event> { seq(|msgs|, i requires 0 <= i < |msgs| => Event.Progress(msgs[i])) }

  lemma Beat(c: Config, s: State, b: nat, k: nat)
    requires b < |s.batches| && s.batches[b].beating && k < |s.batches[b].msgs|
    ensures Stepped(c, s, Heartbeat(b, k), s.(events := s.events + [Event.Progress(s.batches[b].msgs[k])]))
  {}

  function Beaten(s: State, b: nat, k: nat): State
    requires b < |s.batches| && k <= |s.batches[b].msgs|
  {
    s.(events := s.events + Beats(s.batches[b].msgs[..k]))
  }

  lemma NextBeat(c: Config, s: State, b: nat, k: nat)
    requires b < |s.batches| && s.batches[b].beating && k < |s.batches[b].msgs|
    ensures Stepped(c, Beaten(s, b, k), Heartbeat(b, k), Beaten(s, b, k + 1))
  {
    var msgs := s.batches[b].msgs;
    Beat(c, Beaten(s, b, k), b, k);
    assert Beats(msgs[..k + 1]) == Beats(msgs[..k]) + [Event.Progress(msgs[k])];
    assert s.events + Beats(msgs[..k + 1]) == s.events + Beats(msgs[..k]) + [Event.Progress(msgs[k])];
  }

  lemma {:induction false} BeatsUpTo(c: Config, s: State, b: nat, k: nat)
    requires b < |s.batches| && s.batches[b].beating && k <= |s.batches[b].msgs|
    ensures Leads(c, s, Beaten(s, b, k), k)
  {
    if k == 0 {
      assert s.events + Beats(s.batches[b].msgs[..0]) == s.events;
    } else {
      BeatsUpTo(c, s, b, k - 1);
      NextBeat(c, s, b, k - 1);
    }
  }

  /** While a batch's flush runs, some run of one step per message heartbeats each of its messages,
      in order, and changes nothing else. */
  lemma EveryMessageBeats(c: Config, s: State, b: nat)
    requires Reachable(c, s) && b < |s.batches| && InFlush(s.batches[b])
    ensures Leads(c, s, s.(events := s.events + Beats(s.batches[b].msgs)), |s.batches[b].msgs|)
  {
    ReachableCalls(c, s);
    assert BatchOk(c, s.log, b, s.batches[b]);
    var msgs := s.batches[b].msgs;
    BeatsUpTo(c, s, b, |msgs|);
    assert msgs[..|msgs|] == msgs;
  }

  // ---- none after the flush -----------------------------------------------------------------------

  /** The events hold no heartbeat of a message of the batch. */
  ghost predicate Silent(events: seq<Event>, msgs: seq<Msg>) {
    forall p, k :: 0 <= p < |events| && 0 <= k < |msgs| && events[p].Progress? ==>
      events[p].msg.delivery != msgs[k].delivery
  }

  lemma SilentAppend(xs: seq<Event>, ys: seq<Event>, msgs: seq<Msg>)
    requires Silent(xs, msgs) && Silent(ys, msgs)
    ensures Silent(xs + ys, msgs)
  {}

  /** A step leaves a stopped batch stopped and heartbeats none of its messages. */
  ghost predicate Quiet(s: State, s': State, b: nat)
    requires b < |s.batches|
  {
    && b < |s'.batches| && Stopped(s'.batches[b]) && s'.batches[b].msgs == s.batches[b].msgs
    && s.events <= s'.events && Silent(s'.events[|s.events|..], s.batches[b].msgs)
  }

  lemma QuietMove(c: Config, s: State, a: Action, b: nat)
    requires IsMove(a) && MoveEnabled(c, s, a) && b < |s.batches| && Stopped(s.batches[b])
    ensures Quiet(s, MoveTo(s, a), b)
  {
    var added := MoveTo(s, a).events[|s.events|..];
    assert forall e :: e in added ==> e in SettleEvents(s.batches[a.b]);
  }

  lemma QuietHeartbeat(c: Config, s: State, b': nat, m: nat, b: nat)
    requires PlaceInv(s) && b < |s.batches| && Stopped(s.batches[b]) && BatchOk(c, s.log, b, s.batches[b])
    requires b' < |s.batches| && s.batches[b'].beating && m < |s.batches[b'].msgs|
    ensures Quiet(s, s.(events := s.events + [Event.Progress(s.batches[b'].msgs[m])]), b)
  {
    var e := Event.Progress(s.batches[b'].msgs[m]);
    assert (s.events + [e])[|s.events|..] == [e];
    forall k | 0 <= k < |s.batches[b].msgs| ensures e.msg.delivery != s.batches[b].msgs[k].delivery {
      var lists := MsgLists(s.batches);
      assert At(lists, b', m, e.msg.delivery) && At(lists, b, k, s.batches[b].msgs[k].delivery);
    }
  }

  lemma QuietStep(c: Config, s: State, a: Action, b: nat)
    requires PlaceInv(s) && CallsInv(c, s) && Enabled(c, s, a) && b < |s.batches| && Stopped(s.batches[b])
    ensures Quiet(s, Next(c, s, a), b)
  {
    if IsMove(a) {
      QuietMove(c, s, a, b);
    } else if a.Heartbeat? {
      assert BatchOk(c, s.log, b, s.batches[b]);
      QuietHeartbeat(c, s, a.b, a.m, b);
    } else {
      QuietElse(c, s, a, b);
    }
  }

  lemma QuietElse(c: Config, s: State, a: Action, b: nat)
    requires !IsMove(a) && !a.Heartbeat? && Enabled(c, s, a) && b < |s.batches| && Stopped(s.batches[b])
    ensures Quiet(s, Next(c, s, a), b)
  {
    assert Next(c, s, a).events == s.events;
  }

  lemma QuietReachable(c: Config, s: State, s': State, b: nat)
    requires s in Runs(c) && (s, s') in Steps(c) && b < |s.batches| && Stopped(s.batches[b])
    ensures s' in Runs(c) && Quiet(s, s', b)
  {
    var a := StepOf(c, s, s');
    Extend(c, s, a, s');
    ReachableInv(c, s);
    QuietStep(c, s, a, b);
  }

  lemma QuietThen(s: State, p: State, s': State, b: nat)
    requires b < |s.batches| && Quiet(s, p, b) && Quiet(p, s', b)
    ensures Quiet(s, s', b)
  {
    var msgs := s.batches[b].msgs;
    SilentAppend(p.events[|s.events|..], s'.events[|p.events|..], msgs);
    assert s'.events[|s.events|..] == p.events[|s.events|..] + s'.events[|p.events|..];
  }

  lemma {:induction false} QuietRun(c: Config, s: State, s': State, n: nat, b: nat)
    requires s in Runs(c) && Leads(c, s, s', n) && b < |s.batches| && Stopped(s.batches[b])
    ensures s' in Runs(c) && Quiet(s, s', b)
    decreases n
  {
    if n == 0 {
      assert s'.events[|s.events|..] == [];
    } else {
      var p := LastLead(c, s, s', n);
      QuietRun(c, s, p, n - 1, b);
      QuietReachable(c, p, s', b);
      QuietThen(s, p, s', b);
    }
  }

  /** Once a batch's flush has stopped its heartbeat, no run ever heartbeats one of its messages again. */
  lemma NoBeatAfter(c: Config, s: State, s': State, n: nat, b: nat)
    requires Reachable(c, s) && Leads(c, s, s', n) && b < |s.batches| && Stopped(s.batches[b])
    ensures s.events <= s'.events && Silent(s'.events[|s.events|..], s.batches[b].msgs)
  {
    QuietRun(c, s, s', n, b);
  }

  // ---- none before the flush ----------------------------------------------------------------------

  /** A heartbeat is of a message whose batch has been flushed or is being flushed. */
  ghost predicate BeatSourced(batches: seq<Batch>, e: Event) {
    exists b: nat, k: nat :: b < |batches| && Launched(batches[b]) && k < |batches[b].msgs| && batches[b].msgs[k] == e.msg
  }

  ghost predicate BeatsSourced(s: State) { forall e :: e in s.events && e.Progress? ==> BeatSourced(s.batches, e) }

  ghost predicate KeepsLaunched(batches: seq<Batch>, batches': seq<Batch>) {
    && |batches| <= |batches'|
    && forall b :: 0 <= b < |batches| ==>
         batches'[b].msgs == batches[b].msgs && (Launched(batches[b]) ==> Launched(batches'[b]))
  }

  lemma SourcedLater(batches: seq<Batch>, batches': seq<Batch>, e: Event)
    requires BeatSourced(batches, e) && KeepsLaunched(batches, batches')
    ensures BeatSourced(batches', e)
  {
    var b: nat, k: nat :| b < |batches| && Launched(batches[b]) && k < |batches[b].msgs| && batches[b].msgs[k] == e.msg;
    assert batches'[b].msgs == batches[b].msgs;
  }

  lemma LaunchedKept(c: Config, s: State, a: Action)
    requires Enabled(c, s, a)
    ensures KeepsLaunched(s.batches, Next(c, s, a).batches)
  {
    if IsMove(a) {
      KeptMove(s.batches[a.b], a);
      KeptSet(s.batches, a.b, Moved(s.batches[a.b], a));
    } else if IsCall(a) {
      var bt := s.batches[a.b];
      KeptCall(bt, a.g, Called(c, bt.groups[a.g], |s.log|, a));
      KeptSet(s.batches, a.b, WithGroup(bt, a.g, Called(c, bt.groups[a.g], |s.log|, a)));
    } else {
      KeptElse(c, s, a);
    }
  }

  lemma KeptSet(batches: seq<Batch>, b: nat, bt: Batch)
    requires b < |batches| && bt.msgs == batches[b].msgs && (Launched(batches[b]) ==> Launched(bt))
    ensures KeepsLaunched(batches, batches[b := bt])
  {}

  lemma KeptMove(bt: Batch, a: Action)
    requires IsMove(a) && CanMove(bt, a)
    ensures Moved(bt, a).msgs == bt.msgs && (Launched(bt) ==> Launched(Moved(bt, a)))
  {}

  lemma KeptCall(bt: Batch, g: nat, gr: Group)
    requires g < |bt.groups|
    ensures WithGroup(bt, g, gr).msgs == bt.msgs && WithGroup(bt, g, gr).phase == bt.phase
  {}

  lemma KeptElse(c: Config, s: State, a: Action)
    requires !IsMove(a) && !IsCall(a) && Enabled(c, s, a)
    ensures s.batches <= Next(c, s, a).batches
  {}

  /** The step's new events are heartbeats only of a batch that has its goroutine running. */
  lemma NewBeats(c: Config, s: State, a: Action, e: Event)
    requires Enabled(c, s, a) && CallsInv(c, s) && e in Next(c, s, a).events && e.Progress?
    ensures e in s.events || BeatSourced(s.batches, e)
  {
    if a.Heartbeat? && e !in s.events {
      assert BatchOk(c, s.log, a.b, s.batches[a.b]);
      assert e.msg == s.batches[a.b].msgs[a.m];
    }
  }

  lemma BeatsStep(c: Config, s: State, a: Action)
    requires CallsInv(c, s) && BeatsSourced(s) && Enabled(c, s, a)
    ensures BeatsSourced(Next(c, s, a))
  {
    LaunchedKept(c, s, a);
    forall e | e in Next(c, s, a).events && e.Progress? ensures BeatSourced(Next(c, s, a).batches, e) {
      NewBeats(c, s, a, e);
      SourcedLater(s.batches, Next(c, s, a).batches, e);
    }
  }

  ghost function Sourcing(): iset<State> { iset s | BeatsSourced(s) }

  lemma BeatsNext(c: Config, s: State, a: Action, s': State)
    requires ConfigOk(c) && s in Runs(c) && s in Sourcing() && Stepped(c, s, a, s')
    ensures s' in Sourcing()
  {
    ReachableCalls(c, s);
    BeatsStep(c, s, a);
    assert BeatsSourced(s');
  }

  lemma BeatsRun(c: Config, s: State)
    requires Reachable(c, s)
    ensures s in Sourcing()
  {
    assert BeatsSourced(Initial);
    forall p, q ensures Keeps(c, Sourcing(), p, q) {
      if (p, q) in Steps(c) && p in Runs(c) && p in Sourcing() {
        var a := StepOf(c, p, q);
        BeatsNext(c, p, a, q);
      }
    }
    Always(c, Sourcing(), s);
  }

  /** A batch whose flush has not started, or was given up, has had no message heartbeated. */
  lemma NoBeatBefore(c: Config, s: State, b: nat)
    requires Reachable(c, s) && b < |s.batches| && (Awaiting(s.batches[b]) || s.batches[b].phase.Abandoned?)
    ensures Silent(s.events, s.batches[b].msgs)
  {
    BeatsRun(c, s);
    ReachableInv(c, s);
    SilentBefore(s, b);
  }

  lemma SilentBefore(s: State, b: nat)
    requires PlaceInv(s) && BeatsSourced(s) && b < |s.batches| && !Launched(s.batches[b])
    ensures Silent(s.events, s.batches[b].msgs)
  {
    forall p, k | 0 <= p < |s.events| && 0 <= k < |s.batches[b].msgs| && s.events[p].Progress?
      ensures s.events[p].msg.delivery != s.batches[b].msgs[k].delivery
    {
      assert s.events[p] in s.events && BeatSourced(s.batches, s.events[p]);
      var b': nat, k': nat :| b' < |s.batches| && Launched(s.batches[b']) && k' < |s.batches[b'].msgs|
                              && s.batches[b'].msgs[k'] == s.events[p].msg;
      var lists := MsgLists(s.batches);
      assert At(lists, b', k', s.events[p].msg.delivery) && At(lists, b, k, s.batches[b].msgs[k].delivery);
    }
  }
}
