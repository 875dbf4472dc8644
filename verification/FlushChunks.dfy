/** Task sizes: every task in the backend's queue is one whole chunk of its group, or the last
    and shorter one. */
module FlushChunks {
  import opened FlushProtocol
  import opened FlushCalls
  import opened FlushTheorems
  import opened FlushRuns

  ghost predicate Multiple(n: nat, m: nat) { exists q: nat :: n == q * m }

  lemma NextMultiple(n: nat, m: nat)
    requires Multiple(n, m)
    ensures Multiple(n + m, m)
  {
    var q: nat :| n == q * m;
    assert n + m == (q + 1) * m;
  }

  /** The call stands at the start of a chunk or at the end. */
  ghost predicate Aligned(c: Config, gr: Group) {
    gr.call.sent == |gr.items| || Multiple(gr.call.sent, c.chunk)
  }

  ghost predicate AllAligned(c: Config, bt: Batch) { forall g :: 0 <= g < |bt.groups| ==> Aligned(c, bt.groups[g]) }

  /** The task is a chunk of `total` items. */
  ghost predicate Sized(c: Config, k: Task, total: nat) {
    Multiple(k.lo, c.chunk) && k.hi == if k.lo + c.chunk < total then k.lo + c.chunk else total
  }

  ghost predicate TaskSized(c: Config, batches: seq<Batch>, k: Task) {
    && k.batch < |batches| && k.group < |batches[k.batch].groups|
    && Sized(c, k, |batches[k.batch].groups[k.group].items|)
  }

  ghost predicate SizeInv(c: Config, s: State) {
    && (forall b :: 0 <= b < |s.batches| ==> AllAligned(c, s.batches[b]))
    && (forall t :: 0 <= t < |s.log| ==> TaskSized(c, s.batches, s.log[t]))
  }

  /** The batch has the groups of the other one, with the same items, and maybe more. */
  ghost predicate SameItems(bt: Batch, bt': Batch) {
    && |bt.groups| <= |bt'.groups|
    && forall g :: 0 <= g < |bt.groups| ==> bt'.groups[g].items == bt.groups[g].items
  }

  lemma SizedLater(c: Config, batches: seq<Batch>, b: nat, bt: Batch, k: Task)
    requires TaskSized(c, batches, k) && b < |batches| && SameItems(batches[b], bt)
    ensures TaskSized(c, batches[b := bt], k)
  {}

  lemma SizedMove(c: Config, log: seq<Task>, bt: Batch, a: Action)
    requires IsMove(a) && CanMove(bt, a) && BatchOk(c, log, a.b, bt) && AllAligned(c, bt)
    ensures AllAligned(c, Moved(bt, a)) && SameItems(bt, Moved(bt, a))
  {
    if a.StartFlush? {
      FlushingOk(c, log, a.b, bt, a.upsertOrder, a.deleteOrder);
      var bt' := Moved(bt, a);
      forall g | 0 <= g < |bt'.groups| ensures Aligned(c, bt'.groups[g]) {
        assert bt'.groups[g] in bt'.groups && Fresh(bt'.groups[g]);
        assert bt'.groups[g].call.sent == 0 * c.chunk;
      }
    }
  }

  lemma SizeMove(c: Config, s: State, a: Action)
    requires CallsInv(c, s) && SizeInv(c, s) && IsMove(a) && MoveEnabled(c, s, a)
    ensures SizeInv(c, MoveTo(s, a))
  {
    var bt := s.batches[a.b];
    assert BatchOk(c, s.log, a.b, bt);
    SizedMove(c, s.log, bt, a);
    SizeWith(c, s.log, s.batches, a.b, Moved(bt, a), []);
    AlignedSet(c, s.batches, a.b, Moved(bt, a));
    assert s.log + [] == s.log;
  }

  lemma AlignedSet(c: Config, batches: seq<Batch>, b: nat, bt: Batch)
    requires (forall i :: 0 <= i < |batches| ==> AllAligned(c, batches[i])) && b < |batches| && AllAligned(c, bt)
    ensures var batches' := batches[b := bt]; forall i :: 0 <= i < |batches'| ==> AllAligned(c, batches'[i])
  {}

  /** A step of a goroutine keeps it aligned, and what it sends is a chunk. */
  lemma SizedCall(c: Config, log: seq<Task>, bt: Batch, gr: Group, at: nat, a: Action)
    requires ConfigOk(c) && IsCall(a) && CanCall(log, bt, gr, a) && GroupOk(c, log, a.b, a.g, gr) && Aligned(c, gr)
    ensures Called(c, gr, at, a).items == gr.items && Aligned(c, Called(c, gr, at, a))
    ensures forall i :: 0 <= i < |SentTasks(c, gr, a)| ==>
              SentTasks(c, gr, a)[i].batch == a.b && SentTasks(c, gr, a)[i].group == a.g
              && Sized(c, SentTasks(c, gr, a)[i], |gr.items|)
  {
    if a.Send? {
      assert Multiple(gr.call.sent, c.chunk);
      NextMultiple(gr.call.sent, c.chunk);
    } else if a.BeginCall? {
      assert 0 == 0 * c.chunk;
    }
  }

  lemma SizeCall(c: Config, s: State, a: Action)
    requires ConfigOk(c) && CallsInv(c, s) && SizeInv(c, s) && IsCall(a) && CallEnabled(c, s, a)
    ensures SizeInv(c, CallTo(c, s, a))
  {
    var bt := s.batches[a.b];
    var gr := bt.groups[a.g];
    assert BatchOk(c, s.log, a.b, bt) && GroupOk(c, s.log, a.b, a.g, gr);
    assert AllAligned(c, bt);
    SizedCall(c, s.log, bt, gr, |s.log|, a);
    var bt' := WithGroup(bt, a.g, Called(c, gr, |s.log|, a));
    AlignedSet(c, s.batches, a.b, bt');
    SizeWith(c, s.log, s.batches, a.b, bt', SentTasks(c, gr, a));
  }

  lemma SizeWith(c: Config, log: seq<Task>, batches: seq<Batch>, b: nat, bt: Batch, sent: seq<Task>)
    requires forall t :: 0 <= t < |log| ==> TaskSized(c, batches, log[t])
    requires b < |batches| && SameItems(batches[b], bt)
    requires forall i :: 0 <= i < |sent| ==> TaskSized(c, batches[b := bt], sent[i])
    ensures forall t :: 0 <= t < |log + sent| ==> TaskSized(c, batches[b := bt], (log + sent)[t])
  {
    forall t | 0 <= t < |log| ensures TaskSized(c, batches[b := bt], log[t]) {
      SizedLater(c, batches, b, bt, log[t]);
    }
  }

  lemma SizeElse(c: Config, s: State, a: Action)
    requires SizeInv(c, s) && !IsMove(a) && !IsCall(a) && Enabled(c, s, a)
    ensures SizeInv(c, Next(c, s, a))
  {
    var s' := Next(c, s, a);
    ElseKeeps(c, s, a);
    forall b | 0 <= b < |s'.batches| ensures AllAligned(c, s'.batches[b]) {
      assert b < |s.batches| ==> s'.batches[b] == s.batches[b];
    }
    forall t | 0 <= t < |s'.log| ensures TaskSized(c, s'.batches, s'.log[t]) {
      assert TaskSized(c, s.batches, s.log[t]);
    }
  }

  /** Other steps at most add a batch without groups or finish a task. */
  lemma ElseKeeps(c: Config, s: State, a: Action)
    requires !IsMove(a) && !IsCall(a) && Enabled(c, s, a)
    ensures s.batches <= Next(c, s, a).batches && |Next(c, s, a).log| == |s.log|
    ensures forall b :: |s.batches| <= b < |Next(c, s, a).batches| ==> Next(c, s, a).batches[b].groups == []
    ensures forall t :: 0 <= t < |s.log| ==> Next(c, s, a).log[t].(status := s.log[t].status) == s.log[t]
  {}

  ghost function SizeOk(c: Config): iset<State> { iset s | SizeInv(c, s) }

  lemma SizeNext(c: Config, s: State, a: Action, s': State)
    requires ConfigOk(c) && s in Runs(c) && s in SizeOk(c) && Stepped(c, s, a, s')
    ensures s' in SizeOk(c)
  {
    ReachableCalls(c, s);
    if IsMove(a) {
      SizeMove(c, s, a);
    } else if IsCall(a) {
      SizeCall(c, s, a);
    } else {
      SizeElse(c, s, a);
    }
    assert SizeInv(c, s');
  }

  lemma SizeRun(c: Config, s: State)
    requires Reachable(c, s)
    ensures s in SizeOk(c)
  {
    assert SizeInv(c, Initial);
    forall p, q ensures Keeps(c, SizeOk(c), p, q) {
      if (p, q) in Steps(c) && p in Runs(c) && p in SizeOk(c) {
        var a := StepOf(c, p, q);
        SizeNext(c, p, a, q);
      }
    }
    Always(c, SizeOk(c), s);
  }

  /** In every reachable state each task holds the operations of one chunk of its group: a multiple
      of the chunk size up to the next one or to the end. */
  lemma TasksSized(c: Config, s: State, t: nat)
    requires Reachable(c, s) && t < |s.log|
    ensures 1 <= |s.log[t].ops| <= c.chunk
    ensures HasGroup(s, s.log[t].batch, s.log[t].group)
    ensures var k, items := s.log[t], s.batches[s.log[t].batch].groups[s.log[t].group].items;
            && (exists q: nat :: k.lo == q * c.chunk)
            && k.hi == (if k.lo + c.chunk < |items| then k.lo + c.chunk else |items|)
            && k.lo < k.hi && k.ops == items[k.lo..k.hi]
  {
    SizeRun(c, s);
    ReachableCalls(c, s);
    assert TaskOk(s, t) && TaskSized(c, s.batches, s.log[t]);
  }
}
