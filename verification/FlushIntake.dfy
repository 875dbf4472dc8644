/** Intake: which messages a batch tracks, and when a submitting actor is held up. */
module FlushIntake {
  import opened Json
  import opened Ops
  import opened Buffering
  import opened FlushProtocol
  import opened FlushHistory
  import opened FlushBackend
  import opened FlushBounds
  import opened FlushProgress
  import opened FlushTheorems
  import opened FlushRuns

  // ---- one message per stream sequence -----------------------------------------------------------

  /** Submission i carries a message, and none of the submissions from `lo` on before it carries one
      with the same readable stream sequence. */
  ghost predicate FirstOfSequence(subs: seq<Submission>, lo: nat, i: nat)
    requires lo <= i < |subs|
  {
    && subs[i].msg.Some?
    && (subs[i].msg.value.streamSeq.None? ||
        forall j :: lo <= j < i && subs[j].msg.Some? ==> subs[j].msg.value.streamSeq != subs[i].msg.value.streamSeq)
  }

  ghost predicate FirstWith(subs: seq<Submission>, lo: nat, hi: nat, m: Msg)
    requires lo <= hi <= |subs|
  {
    exists i :: lo <= i < hi && subs[i].msg == Some(m) && FirstOfSequence(subs, lo, i)
  }

  /** A readable sequence is tracked iff some submission carries it. */
  lemma {:induction false} SequencedMeans(subs: seq<Submission>, n: nat)
    ensures Sequenced(Tracking(subs), n) <==>
              exists j :: 0 <= j < |subs| && subs[j].msg.Some? && subs[j].msg.value.streamSeq == Some(n)
  {
    if subs != [] {
      var init, last := subs[..|subs| - 1], subs[|subs| - 1];
      SequencedMeans(init, n);
      if last.msg.Some? {
        TrackMeans(Tracking(init), last.msg.value);
        SequencedTrack(Tracking(init), last.msg.value, n);
      }
      if j :| 0 <= j < |init| && init[j].msg.Some? && init[j].msg.value.streamSeq == Some(n) {
        assert subs[j] == init[j];
      }
      if j :| 0 <= j < |subs| && subs[j].msg.Some? && subs[j].msg.value.streamSeq == Some(n) {
        assert j < |init| ==> init[j] == subs[j];
      }
    }
  }

  lemma SequencedTrack(msgs: seq<Msg>, m: Msg, n: nat)
    ensures Sequenced(Track(msgs, m), n) <==> Sequenced(msgs, n) || m.streamSeq == Some(n)
  {
    TrackMeans(msgs, m);
    if Sequenced(msgs, n) {
      var x :| x in msgs && x.streamSeq == Some(n);
      assert x in msgs + [m];
    }
    assert m in msgs + [m];
  }

  lemma FirstLonger(init: seq<Submission>, last: Submission, m: Msg)
    ensures FirstWith(init + [last], 0, |init| + 1, m)
       <==> FirstWith(init, 0, |init|, m) || (last.msg == Some(m) && FirstOfSequence(init + [last], 0, |init|))
  {
    var subs := init + [last];
    forall i | 0 <= i < |init| ensures FirstOfSequence(subs, 0, i) <==> FirstOfSequence(init, 0, i) {
      assert forall j :: 0 <= j <= i ==> subs[j] == init[j];
    }
    if i :| 0 <= i < |init| && init[i].msg == Some(m) && FirstOfSequence(init, 0, i) {
      assert subs[i] == init[i];
    }
    if i :| 0 <= i < |subs| && subs[i].msg == Some(m) && FirstOfSequence(subs, 0, i) {
      assert i < |init| ==> init[i] == subs[i];
    }
  }

  /** The last message is new iff no earlier submission carries its sequence. */
  lemma NewMessage(init: seq<Submission>, m: Msg, last: Submission)
    requires last.msg == Some(m)
    ensures FirstOfSequence(init + [last], 0, |init|)
       <==> !(m.streamSeq.Some? && Sequenced(Tracking(init), m.streamSeq.value))
  {
    var subs := init + [last];
    assert forall j :: 0 <= j < |init| ==> subs[j] == init[j];
    if m.streamSeq.Some? {
      SequencedMeans(init, m.streamSeq.value);
    }
  }

  lemma {:induction false} TrackingIsFirst(subs: seq<Submission>, m: Msg)
    ensures m in Tracking(subs) <==> FirstWith(subs, 0, |subs|, m)
  {
    if subs != [] {
      var init, last := subs[..|subs| - 1], subs[|subs| - 1];
      assert init + [last] == subs;
      TrackingIsFirst(init, m);
      FirstLonger(init, last, m);
      if last.msg.Some? {
        NewMessage(init, last.msg.value, last);
        TrackMeans(Tracking(init), last.msg.value);
      }
    }
  }

  lemma FirstSlice(subs: seq<Submission>, lo: nat, hi: nat, m: Msg)
    requires lo <= hi <= |subs|
    ensures FirstWith(subs[lo..hi], 0, hi - lo, m) <==> FirstWith(subs, lo, hi, m)
  {
    var part := subs[lo..hi];
    forall i | 0 <= i < |part| ensures FirstOfSequence(part, 0, i) <==> FirstOfSequence(subs, lo, lo + i) {
      assert forall j :: lo <= j <= lo + i ==> subs[j] == part[j - lo];
    }
    if i :| lo <= i < hi && subs[i].msg == Some(m) && FirstOfSequence(subs, lo, i) {
      assert part[i - lo] == subs[i];
    }
    if i :| 0 <= i < |part| && part[i].msg == Some(m) && FirstOfSequence(part, 0, i) {
      assert subs[lo + i] == part[i];
    }
  }

  /** In every reachable state a batch, and the buffer, track exactly the messages of their
      submissions that are the first with their stream sequence, and all with unreadable metadata. */
  lemma OncePerSequence(c: Config, s: State, m: Msg)
    requires Reachable(c, s)
    ensures s.cut <= |s.history| && (m in s.buf.msgs <==> FirstWith(s.history, s.cut, |s.history|, m))
    ensures forall b :: 0 <= b < |s.batches| ==>
              && s.batches[b].lo <= s.batches[b].hi <= |s.history|
              && (m in s.batches[b].msgs <==> FirstWith(s.history, s.batches[b].lo, s.batches[b].hi, m))
  {
    ReachableInv(c, s);
    FirstOfBuffer(s, m);
    forall b | 0 <= b < |s.batches|
      ensures s.batches[b].lo <= s.batches[b].hi <= |s.history|
      ensures m in s.batches[b].msgs <==> FirstWith(s.history, s.batches[b].lo, s.batches[b].hi, m)
    {
      assert s.batches[b] in Carried(s.history);
      FirstOfBatch(s.history, s.batches[b], m);
    }
  }

  lemma FirstOfBuffer(s: State, m: Msg)
    requires Holds(s.history, s.cut, s.buf)
    ensures m in s.buf.msgs <==> FirstWith(s.history, s.cut, |s.history|, m)
  {
    assert s.history[s.cut..|s.history|] == s.history[s.cut..];
    TrackingIsFirst(s.history[s.cut..], m);
    FirstSlice(s.history, s.cut, |s.history|, m);
  }

  lemma FirstOfBatch(history: seq<Submission>, bt: Batch, m: Msg)
    requires Carries(history, bt)
    ensures m in bt.msgs <==> FirstWith(history, bt.lo, bt.hi, m)
  {
    TrackingIsFirst(history[bt.lo..bt.hi], m);
    FirstSlice(history, bt.lo, bt.hi, m);
  }

  // ---- who is held up --------------------------------------------------------------------------

  /** A held-up actor is waiting in the launch of a batch of its own. */
  ghost predicate HeldUp(batches: seq<Batch>, blocked: map<Actor, nat>) {
    forall w :: w in blocked ==>
      blocked[w] < |batches| && Awaiting(batches[blocked[w]]) && batches[blocked[w]].launcher == w
  }

  lemma HeldUpMove(c: Config, s: State, a: Action)
    requires HeldUp(s.batches, s.blocked) && IsMove(a) && MoveEnabled(c, s, a)
    ensures HeldUp(MoveTo(s, a).batches, MoveTo(s, a).blocked)
  {
    MoveHeld(s.batches[a.b], a);
    HeldUpSet(s.batches, s.blocked, a.b, Moved(s.batches[a.b], a), a.StartFlush? || a.Abandon?);
  }

  /** A batch that leaves its launch frees its launcher; one that does not keeps waiting as it did. */
  lemma HeldUpSet(batches: seq<Batch>, blocked: map<Actor, nat>, b: nat, bt: Batch, leaves: bool)
    requires HeldUp(batches, blocked) && b < |batches| && bt.launcher == batches[b].launcher
    requires !leaves ==> Awaiting(bt) == Awaiting(batches[b])
    ensures HeldUp(batches[b := bt], if leaves then blocked - {bt.launcher} else blocked)
  {}

  lemma HeldUpStep(c: Config, s: State, a: Action)
    requires HeldUp(s.batches, s.blocked) && Enabled(c, s, a)
    ensures HeldUp(Next(c, s, a).batches, Next(c, s, a).blocked)
  {
    if IsMove(a) {
      HeldUpMove(c, s, a);
    } else if IsCall(a) {
      HeldUpCall(c, s, a);
    }
  }

  lemma HeldUpCall(c: Config, s: State, a: Action)
    requires HeldUp(s.batches, s.blocked) && IsCall(a) && CallEnabled(c, s, a)
    ensures HeldUp(CallTo(c, s, a).batches, CallTo(c, s, a).blocked)
  {
    assert CallTo(c, s, a).batches[a.b].phase == s.batches[a.b].phase;
  }

  ghost function WellHeld(): iset<State> { iset s: State | HeldUp(s.batches, s.blocked) }

  lemma HeldUpNext(c: Config, s: State, a: Action, s': State)
    requires s in WellHeld() && Stepped(c, s, a, s')
    ensures s' in WellHeld()
  {
    HeldUpStep(c, s, a);
    assert HeldUp(s'.batches, s'.blocked);
  }

  lemma HeldUpRun(c: Config, s: State)
    requires Reachable(c, s)
    ensures s in WellHeld()
  {
    assert HeldUp(Initial.batches, Initial.blocked);
    forall p, q ensures Keeps(c, WellHeld(), p, q) {
      if (p, q) in Steps(c) && p in Runs(c) && p in WellHeld() {
        var a := StepOf(c, p, q);
        HeldUpNext(c, p, a, q);
      }
    }
    Always(c, WellHeld(), s);
  }

  /** In every reachable state an actor is held up exactly by the one batch of its own that still
      waits for its turn or a slot; once all batches are retired nobody is. */
  lemma HeldUpExactly(c: Config, s: State, w: Actor, b: nat)
    requires Reachable(c, s) && b < |s.batches|
    ensures w in s.blocked && s.blocked[w] == b <==> Awaiting(s.batches[b]) && s.batches[b].launcher == w
    ensures AllRetired(s) ==> s.blocked == map[]
  {
    HeldUpRun(c, s);
    ReachablePlaced(c, s);
    assert BlockOk(s, b);
    if AllRetired(s) {
      NobodyHeldUp(s);
    }
  }

  lemma ReachablePlaced(c: Config, s: State)
    requires Reachable(c, s)
    ensures Placed(c, s)
  {
    ReachableInv(c, s);
  }

  lemma NobodyHeldUp(s: State)
    requires HeldUp(s.batches, s.blocked) && AllRetired(s)
    ensures s.blocked == map[]
  {
    assert forall w :: w !in s.blocked;
  }

  // ---- the backend ------------------------------------------------------------------------------

  /** In every reachable state, failures included, the backend holds the replay of the tasks that
      have succeeded, in queue order, and no task is finished before an earlier one of its index. */
  lemma BackendContents(c: Config, s: State)
    requires Reachable(c, s)
    ensures s.index == ApplyOps(map[], DoneOps(s.log))
    ensures forall p, t :: 0 <= p < t < |s.log| && s.log[p].index == s.log[t].index && !s.log[t].status.Queued? ==>
              !s.log[p].status.Queued?
  {
    ReachableInv(c, s);
  }
}
