/** Why the ordering results stop at shutdown: a run in which a batch that gives up its turn lets
    a later batch overtake an earlier one, and an older document survives a newer one. */
module FlushShutdown {
  import opened Json
  import opened Ops
  import opened Buffering
  import opened SdkCall
  import opened FlushProtocol
  import opened FlushHistory
  import opened FlushRefinement
  import opened FlushRuns

  const TwoSlots := Config(1, 2, 2, 1, 1)

  function Write(id: string, version: int): UpsertOp {
    Upsert("i", Object(map["uid" := Str(id), "version" := Number(version as real)]))
  }

  function OneWrite(n: nat, up: UpsertOp): Submission { Submission(Some(Msg(n, Some(n))), [up], []) }

  const Old := Write("x", 1)
  const Other := Write("y", 1)
  const New := Write("x", 2)

  // ---- one write at a time -----------------------------------------------------------------------

  lemma OneListed(n: nat, up: UpsertOp)
    ensures SubOps(OneWrite(n, up)) != [] && Lists([up], [], Latest(SubOps(OneWrite(n, up))))
  {
    var none: seq<DeleteOp>, ups: seq<UpsertOp> := [], [up];
    assert none + ups == [up];
    ListsDistinct(ups, none);
  }

  lemma Submits(s: State, n: nat, up: UpsertOp) returns (who: Actor, s': State)
    requires s in Runs(TwoSlots) && Empty(s.buf) && s.blocked == map[] && n !in s.seen
    ensures s' in Runs(TwoSlots) && s'.batches == s.batches + [Alone(s, who, OneWrite(n, up), [up], [])]
    ensures s'.buf == Buffer(map[], [], s.buf.made, s.buf.made + 1) && s'.blocked == map[who := |s.batches|]
    ensures SameElse(s, s') && s'.history == s.history + [OneWrite(n, up)] && s'.seen == s.seen + {n}
  {
    OneListed(n, up);
    who, s' := TakesAlone(TwoSlots, s, OneWrite(n, up), [up], []);
  }

  lemma OneGroup(up: UpsertOp)
    requires up.index == "i"
    ensures UpsertGroups([up], ["i"]) + DeleteGroups([], []) == [NewGroup("i", [up])]
    ensures Orders(["i"], [up]) && Orders([], [])
  {
    var ops: seq<Op> := [up];
    assert ops[..0] == [];
    assert ItemsFor(ops, "i") == ops;
    var order := ["i"];
    assert order[..0] == [];
    assert up in ops && up.index in IndexesOf(ops);
  }

  function Started(bt: Batch, up: UpsertOp): Batch {
    bt.(phase := Enqueueing, beating := true, groups := [NewGroup("i", [up])])
  }

  lemma Starts(s: State, b: nat, up: UpsertOp) returns (s': State)
    requires s in Runs(TwoSlots) && b < |s.batches| && s.slotsUsed < 2 && up.index == "i"
    requires s.batches[b].upserts == [up] && s.batches[b].deletes == [] && s.batches[b].phase == AwaitTurn
    requires s.batches[b].prev in s.closed
    ensures s' in Runs(TwoSlots) && SameQueue(s, s') && s'.batches == s.batches[b := Started(s.batches[b], up)]
    ensures s'.slotsUsed == s.slotsUsed + 1 && s'.uploadsUsed == s.uploadsUsed
    ensures s'.blocked == s.blocked - {s.batches[b].launcher} && s'.closed == s.closed && s'.cancelled == s.cancelled
  {
    OneGroup(up);
    s' := Launch(TwoSlots, s, b, ["i"], []);
  }

  /** The goroutine's only request is accepted. */
  lemma Sends(s: State, b: nat, up: UpsertOp) returns (s': State)
    requires s in Runs(TwoSlots) && b < |s.batches| && s.uploadsUsed < 2
    requires s.batches[b].phase == Enqueueing && s.batches[b].groups == [NewGroup("i", [up])]
    ensures s' in Runs(TwoSlots) && s'.buf == s.buf && s'.history == s.history && s'.cancelled == s.cancelled
    ensures s'.log == s.log + [Task(b, 0, 0, 1, "i", [up], Queued)] && s'.uploadsUsed == s.uploadsUsed + 1
    ensures |s'.batches| == |s.batches| && s'.batches == s.batches[b := s'.batches[b]] && s'.batches[b].errs == s.batches[b].errs
  {
    var s1 := Begins(TwoSlots, s, b, 0);
    var bt, gr, a := s1.batches[b], Begun(NewGroup("i", [up])), Send(b, 0, Accepted);
    assert bt.groups == [gr];
    var ops: seq<Op> := [up];
    assert ops[0..1] == ops;
    assert SentTasks(TwoSlots, gr, a) == [Task(b, 0, 0, 1, "i", ops, Queued)];
    s' := CallTo(TwoSlots, s1, a);
    Extend(TwoSlots, s1, a, s');
  }

  // ---- the run -------------------------------------------------------------------------------------

  /** The older document's batch holds a slot when the next batch gives up. */
  lemma Halfway() returns (s: State)
    ensures s in Runs(TwoSlots) && Empty(s.buf) && s.blocked == map[] && s.cancelled && s.seen == {1, 2}
    ensures |s.batches| == 2 && s.batches[0].phase == Enqueueing && s.batches[0].groups == [NewGroup("i", [Old])]
    ensures s.batches[0].errs == s.batches[1].errs == 0 && s.buf.last in s.closed
    ensures s.slotsUsed == 1 && s.uploadsUsed == 0 && s.log == []
    ensures s.history == [OneWrite(1, Old), OneWrite(2, Other)]
  {
    Start(TwoSlots);
    var who, s1 := Submits(Initial, 1, Old);
    var s2 := Starts(s1, 0, Old);
    var who', s3 := Submits(s2, 2, Other);
    s := GivesUp(TwoSlots, s3, 1);
  }

  lemma NewerStarts() returns (s: State)
    ensures s in Runs(TwoSlots) && Empty(s.buf) && s.cancelled && |s.batches| == 3 && s.uploadsUsed == 0 && s.log == []
    ensures s.batches[0].phase == s.batches[2].phase == Enqueueing
    ensures s.batches[0].groups == [NewGroup("i", [Old])] && s.batches[2].groups == [NewGroup("i", [New])]
    ensures s.batches[0].errs == s.batches[1].errs == s.batches[2].errs == 0
    ensures s.history == [OneWrite(1, Old), OneWrite(2, Other), OneWrite(3, New)]
  {
    var s1 := Halfway();
    var who, s2 := Submits(s1, 3, New);
    s := Starts(s2, 2, New);
  }

  lemma Overtaken() returns (s: State)
    ensures s in Runs(TwoSlots) && Empty(s.buf) && s.cancelled
    ensures forall b :: 0 <= b < |s.batches| ==> s.batches[b].errs == 0
    ensures s.log == [Task(2, 0, 0, 1, "i", [New], Queued), Task(0, 0, 0, 1, "i", [Old], Queued)]
    ensures s.history == [OneWrite(1, Old), OneWrite(2, Other), OneWrite(3, New)]
  {
    var s3 := NewerStarts();
    var s4 := Sends(s3, 2, New);
    s := Sends(s4, 0, Old);
  }

  lemma LogOfTwo(t1: Task, t2: Task)
    ensures LogOps([t1, t2]) == t1.ops + t2.ops
  {
    var log := [t1, t2];
    assert log[..1] == [t1] && log[..1][..0] == [];
    assert LogOps([t1]) == t1.ops;
  }

  lemma OpsOfThree(s1: Submission, s2: Submission, s3: Submission)
    ensures OpsOf([s1, s2, s3]) == SubOps(s1) + SubOps(s2) + SubOps(s3)
  {
    var subs := [s1, s2, s3];
    assert subs[..2] == [s1, s2] && subs[..2][..1] == [s1] && subs[..2][..1][..0] == [];
    assert OpsOf([s1]) == SubOps(s1);
    assert OpsOf([s1, s2]) == SubOps(s1) + SubOps(s2);
  }

  /** No call, wait or task has failed. */
  ghost predicate NothingFailed(s: State) {
    && (forall b :: 0 <= b < |s.batches| ==> s.batches[b].errs == 0)
    && (forall t :: 0 <= t < |s.log| ==> !s.log[t].status.TaskFailed?)
  }

  /** A reachable state, without a single backend failure, whose backend queue writes the newer
      document before the older one: the skip that the ordering results exclude does happen. */
  lemma ShutdownReorders()
    ensures exists c, s :: Reachable(c, s) && s.cancelled && s.buf.pending == map[] && NothingFailed(s)
                        && LogOps(s.log) == [New, Old] && OpsOf(s.history) == [Old, Other, New]
  {
    var s := Overtaken();
    LogOfTwo(s.log[0], s.log[1]);
    OpsOfThree(s.history[0], s.history[1], s.history[2]);
    assert Reachable(TwoSlots, s);
  }
}
