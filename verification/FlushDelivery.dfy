/** Deliveries: every tracked delivery sits in exactly one place, is acked or nacked at most
    once, and is never heartbeated after that. */
module FlushDelivery {
  import opened Ops
  import opened Buffering
  import opened FlushProtocol
  import opened FlushCalls
  import opened FlushHistory

  function MsgLists(batches: seq<Batch>): seq<seq<Msg>> {
    seq(|batches|, i requires 0 <= i < |batches| => batches[i].msgs)
  }

  function Flatten<T>(xss: seq<seq<T>>): seq<T> {
    if xss == [] then [] else Flatten(xss[..|xss| - 1]) + xss[|xss| - 1]
  }

  predicate At(lists: seq<seq<Msg>>, b: nat, k: nat, d: nat) {
    b < |lists| && k < |lists[b]| && lists[b][k].delivery == d
  }

  predicate In(msgs: seq<Msg>, k: nat, d: nat) { k < |msgs| && msgs[k].delivery == d }

  /** No delivery is in two places. */
  ghost predicate Apart(lists: seq<seq<Msg>>, msgs: seq<Msg>, seen: set<nat>) {
    && (forall b, k, b', k', d :: At(lists, b, k, d) && At(lists, b', k', d) ==> b == b' && k == k')
    && (forall k, k', d :: In(msgs, k, d) && In(msgs, k', d) ==> k == k')
    && (forall b, k, k', d :: At(lists, b, k, d) ==> !In(msgs, k', d))
    && (forall b, k, d :: At(lists, b, k, d) ==> d in seen)
    && (forall k, d :: In(msgs, k, d) ==> d in seen)
  }

  /** Tracked deliveries are those of the taken batches, in take order, then the buffer's. */
  ghost predicate PlaceInv(s: State) {
    && Apart(MsgLists(s.batches), s.buf.msgs, s.seen)
    && s.tracked == Flatten(MsgLists(s.batches)) + s.buf.msgs
  }

  lemma MsgListsSet(batches: seq<Batch>, b: nat, bt: Batch)
    requires b < |batches| && bt.msgs == batches[b].msgs
    ensures MsgLists(batches[b := bt]) == MsgLists(batches)
  {}

  lemma ApartTake(lists: seq<seq<Msg>>, msgs: seq<Msg>, seen: set<nat>)
    requires Apart(lists, msgs, seen)
    ensures Apart(lists + [msgs], [], seen)
  {
    var lists' := lists + [msgs];
    forall b: nat, k: nat, d: nat | At(lists', b, k, d)
      ensures if b < |lists| then At(lists, b, k, d) else b == |lists| && In(msgs, k, d)
    {}
  }

  lemma ApartTrack(lists: seq<seq<Msg>>, msgs: seq<Msg>, seen: set<nat>, m: Msg)
    requires Apart(lists, msgs, seen) && m.delivery !in seen
    ensures Apart(lists, msgs + [m], seen + {m.delivery})
  {
    var msgs' := msgs + [m];
    forall k: nat, d: nat | In(msgs', k, d) ensures if k < |msgs| then In(msgs, k, d) else k == |msgs| && d == m.delivery {}
  }

  lemma ApartSeen(lists: seq<seq<Msg>>, msgs: seq<Msg>, seen: set<nat>, more: set<nat>)
    requires Apart(lists, msgs, seen)
    ensures Apart(lists, msgs, seen + more)
  {}

  lemma PlaceTake(s: State, who: Actor, upserts: seq<UpsertOp>, deletes: seq<DeleteOp>)
    requires PlaceInv(s)
    ensures PlaceInv(Take(s, who, upserts, deletes))
  {
    var s' := Take(s, who, upserts, deletes);
    var lists := MsgLists(s.batches);
    assert MsgLists(s'.batches) == lists + [s.buf.msgs];
    assert (lists + [s.buf.msgs])[..|lists|] == lists;
    ApartTake(lists, s.buf.msgs, s.seen);
  }

  lemma PlaceAbsorb(s: State, sub: Submission)
    requires PlaceInv(s) && (sub.msg.Some? ==> sub.msg.value.delivery !in s.seen)
    ensures PlaceInv(Absorbed(s, sub))
  {
    var s' := Absorbed(s, sub);
    if sub.msg.Some? {
      if s'.buf.msgs == s.buf.msgs {
        ApartSeen(MsgLists(s.batches), s.buf.msgs, s.seen, {sub.msg.value.delivery});
        assert s'.tracked == s.tracked;
      } else {
        ApartTrack(MsgLists(s.batches), s.buf.msgs, s.seen, sub.msg.value);
        assert s'.tracked == s.tracked + [sub.msg.value];
      }
    } else {
      assert s'.tracked == s.tracked;
    }
  }

  lemma PlaceSubmit(c: Config, s: State, a: Action)
    requires PlaceInv(s) && a.Submit? && (a.sub.msg.Some? ==> a.sub.msg.value.delivery !in s.seen)
    ensures PlaceInv(Submitted(c, s, a))
  {
    if SubOps(a.sub) != [] {
      PlaceAbsorb(s, a.sub);
      PlaceTake(Absorbed(s, a.sub), Submitter, a.upserts, a.deletes);
    }
  }

  lemma PlaceStep(c: Config, s: State, a: Action)
    requires PlaceInv(s) && Enabled(c, s, a)
    ensures PlaceInv(Next(c, s, a))
  {
    if IsMove(a) {
      MsgListsSet(s.batches, a.b, Moved(s.batches[a.b], a));
    } else if IsCall(a) {
      MsgListsSet(s.batches, a.b, CallTo(c, s, a).batches[a.b]);
    } else if a.Submit? {
      PlaceSubmit(c, s, a);
    } else if a.Tick? {
      PlaceTake(s, Ticker, a.upserts, a.deletes);
    }
  }

  // ---- acks, naks and heartbeats -----------------------------------------------------------------

  predicate IsSettle(e: Event) { e.Ack? || e.Nak? }

  /** Message k of the batch has been acked (ok) or nacked. */
  predicate SettledAs(bt: Batch, k: nat, ok: bool) {
    && k < |bt.msgs|
    && ((bt.phase.Settling? && bt.phase.ok == ok && k < bt.phase.next) || bt.phase == Resolved(ok))
  }

  function SettleOf(bt: Batch, k: nat, ok: bool): Event
    requires k < |bt.msgs|
  {
    if ok then Ack(bt.msgs[k]) else Nak(bt.msgs[k])
  }

  /** A settle event comes from a message its batch has settled that way. */
  ghost predicate Sourced(s: State, e: Event) {
    exists b: nat, k: nat :: b < |s.batches| && SettledAs(s.batches[b], k, e.Ack?) && s.batches[b].msgs[k] == e.msg
  }

  ghost predicate EventsSourced(s: State) {
    forall e :: e in s.events && IsSettle(e) ==> Sourced(s, e)
  }

  ghost predicate SettledSeen(s: State) {
    forall b, k, ok :: 0 <= b < |s.batches| && SettledAs(s.batches[b], k, ok) ==> SettleOf(s.batches[b], k, ok) in s.events
  }

  /** Nothing happens to a delivery after its ack or nak: neither a second one nor a heartbeat. */
  ghost predicate LastWord(events: seq<Event>) {
    forall p, q :: 0 <= p < q < |events| && IsSettle(events[p]) ==> events[q].msg.delivery != events[p].msg.delivery
  }

  ghost predicate EventInv(s: State) {
    EventsSourced(s) && SettledSeen(s) && LastWord(s.events)
  }

  lemma SourcedKept(s: State, s': State, e: Event)
    requires Sourced(s, e) && |s.batches| <= |s'.batches|
    requires forall b, k, ok :: 0 <= b < |s.batches| && SettledAs(s.batches[b], k, ok) ==>
               SettledAs(s'.batches[b], k, ok) && s'.batches[b].msgs == s.batches[b].msgs
    ensures Sourced(s', e)
  {
    var b: nat, k: nat :| b < |s.batches| && SettledAs(s.batches[b], k, e.Ack?) && s.batches[b].msgs[k] == e.msg;
    assert SettledAs(s'.batches[b], k, e.Ack?);
  }

  /** A delivery in an unsettled position has no settle event yet. */
  lemma Unsettled(s: State, b: nat, k: nat, p: nat)
    requires PlaceInv(s) && EventsSourced(s) && b < |s.batches| && k < |s.batches[b].msgs| && p < |s.events|
    requires !SettledAs(s.batches[b], k, true) && !SettledAs(s.batches[b], k, false)
    requires IsSettle(s.events[p])
    ensures s.events[p].msg.delivery != s.batches[b].msgs[k].delivery
  {
    var e := s.events[p];
    assert e in s.events && Sourced(s, e);
    var b': nat, k': nat :| b' < |s.batches| && SettledAs(s.batches[b'], k', e.Ack?) && s.batches[b'].msgs[k'] == e.msg;
    if e.msg.delivery == s.batches[b].msgs[k].delivery {
      var d := e.msg.delivery;
      assert At(MsgLists(s.batches), b, k, d) && At(MsgLists(s.batches), b', k', d);
    }
  }

  lemma LastWordAppend(events: seq<Event>, e: Event)
    requires LastWord(events)
    requires forall p :: 0 <= p < |events| && IsSettle(events[p]) ==> events[p].msg.delivery != e.msg.delivery
    ensures LastWord(events + [e])
  {}

  /** Appending nothing and settling nothing keeps the events in order. */
  lemma EventsSame(s: State, s': State)
    requires EventInv(s) && s'.events == s.events && |s.batches| <= |s'.batches|
    requires forall b, k, ok :: 0 <= b < |s.batches| && SettledAs(s.batches[b], k, ok) ==>
               SettledAs(s'.batches[b], k, ok) && s'.batches[b].msgs == s.batches[b].msgs
    requires forall b, k, ok :: 0 <= b < |s'.batches| && SettledAs(s'.batches[b], k, ok) ==>
               b < |s.batches| && SettledAs(s.batches[b], k, ok)
    ensures EventInv(s')
  {
    forall e | e in s'.events && IsSettle(e) ensures Sourced(s', e) {
      SourcedKept(s, s', e);
    }
  }

  lemma EventsSettle(c: Config, s: State, a: Action)
    requires PlaceInv(s) && EventInv(s) && a.Settle? && MoveEnabled(c, s, a)
    ensures EventInv(MoveTo(s, a))
  {
    var s' := MoveTo(s, a);
    var bt := s.batches[a.b];
    var n, ok := bt.phase.next, bt.phase.ok;
    var e := SettleOf(bt, n, ok);
    assert s'.events == s.events + [e];
    forall p | 0 <= p < |s.events| && IsSettle(s.events[p]) ensures s.events[p].msg.delivery != e.msg.delivery {
      Unsettled(s, a.b, n, p);
    }
    LastWordAppend(s.events, e);
    forall x | x in s'.events && IsSettle(x) ensures Sourced(s', x) {
      if x == e {
        assert SettledAs(s'.batches[a.b], n, ok);
      } else {
        SourcedKept(s, s', x);
      }
    }
    forall b, k, ok' | 0 <= b < |s'.batches| && SettledAs(s'.batches[b], k, ok')
      ensures SettleOf(s'.batches[b], k, ok') in s'.events
    {
      if b == a.b && k == n {
        assert s'.events[|s.events|] == e;
      } else {
        assert SettledAs(s.batches[b], k, ok');
      }
    }
  }

  lemma EventsHeartbeat(c: Config, s: State, b: nat, m: nat)
    requires PlaceInv(s) && EventInv(s) && CallsInv(c, s)
    requires b < |s.batches| && s.batches[b].beating && m < |s.batches[b].msgs|
    ensures EventInv(s.(events := s.events + [Progress(s.batches[b].msgs[m])]))
  {
    var e := Progress(s.batches[b].msgs[m]);
    var s' := s.(events := s.events + [e]);
    assert BatchOk(c, s.log, b, s.batches[b]);
    forall p | 0 <= p < |s.events| && IsSettle(s.events[p]) ensures s.events[p].msg.delivery != e.msg.delivery {
      Unsettled(s, b, m, p);
    }
    LastWordAppend(s.events, e);
    forall x | x in s'.events && IsSettle(x) ensures Sourced(s', x) {
      SourcedKept(s, s', x);
    }
    forall b', k, ok | 0 <= b' < |s'.batches| && SettledAs(s'.batches[b'], k, ok)
      ensures SettleOf(s'.batches[b'], k, ok) in s'.events
    {
      assert SettleOf(s.batches[b'], k, ok) in s.events;
    }
  }

  lemma MoveSettles(bt: Batch, a: Action, k: nat, ok: bool)
    requires IsMove(a) && CanMove(bt, a) && !a.Settle?
    ensures SettledAs(bt, k, ok) <==> SettledAs(Moved(bt, a), k, ok)
  {}

  lemma EventsMove(c: Config, s: State, a: Action)
    requires EventInv(s) && IsMove(a) && !a.Settle? && MoveEnabled(c, s, a)
    ensures EventInv(MoveTo(s, a))
  {
    forall k, ok ensures SettledAs(s.batches[a.b], k, ok) <==> SettledAs(Moved(s.batches[a.b], a), k, ok) {
      MoveSettles(s.batches[a.b], a, k, ok);
    }
    MovedSameLoad(s.batches[a.b], a);
    EventsSame(s, MoveTo(s, a));
  }

  lemma EventsCall(c: Config, s: State, a: Action)
    requires EventInv(s) && IsCall(a) && CallEnabled(c, s, a)
    ensures EventInv(CallTo(c, s, a))
  {
    EventsSame(s, CallTo(c, s, a));
  }

  lemma EventsRest(c: Config, s: State, a: Action)
    requires EventInv(s) && !IsMove(a) && !IsCall(a) && !a.Heartbeat? && Enabled(c, s, a)
    ensures EventInv(Next(c, s, a))
  {
    EventsSame(s, Next(c, s, a));
  }

  lemma EventsStep(c: Config, s: State, a: Action)
    requires PlaceInv(s) && EventInv(s) && CallsInv(c, s) && Enabled(c, s, a)
    ensures EventInv(Next(c, s, a))
  {
    if a.Settle? {
      EventsSettle(c, s, a);
    } else if IsMove(a) {
      EventsMove(c, s, a);
    } else if IsCall(a) {
      EventsCall(c, s, a);
    } else if a.Heartbeat? {
      EventsHeartbeat(c, s, a.b, a.m);
    } else {
      EventsRest(c, s, a);
    }
  }
}
