/** The handler on top of the batcher: once everything it submitted has been acknowledged, the
    search backend holds exactly what the policies say. */
module EndToEnd {
  import opened Json
  import opened Ops
  import opened Buffering
  import opened SdkCall
  import opened FlushProtocol
  import opened FlushCalls
  import opened FlushHistory
  import opened FlushRefinement
  import opened FlushBackend
  import opened FlushTheorems
  import opened Documents
  import Handler

  /** The `Submit` calls of a handled event stream; message i carries event i. */
  function SubmissionsOf(hs: seq<Handler.Handled>, msgs: seq<Msg>): seq<Submission>
    requires |msgs| == |hs|
  {
    if hs == [] then []
    else
      var n := |hs| - 1;
      SubmissionsOf(hs[..n], msgs[..n])
      + if hs[n].AckNow? then [] else [Submission(Some(msgs[n]), hs[n].upserts, hs[n].deletes)]
  }

  lemma {:induction false} SubmittedOps(hs: seq<Handler.Handled>, msgs: seq<Msg>)
    requires |msgs| == |hs|
    ensures OpsOf(SubmissionsOf(hs, msgs)) == Handler.AllOps(hs)
  {
    if hs != [] {
      var n := |hs| - 1;
      var before := SubmissionsOf(hs[..n], msgs[..n]);
      SubmittedOps(hs[..n], msgs[..n]);
      if hs[n].SubmitOps? {
        var sub := Submission(Some(msgs[n]), hs[n].upserts, hs[n].deletes);
        assert (before + [sub])[..|before|] == before;
        assert SubmissionsOf(hs, msgs) == before + [sub];
      } else {
        assert SubmissionsOf(hs, msgs) == before;
      }
    }
  }

  ghost function IndexNames(policies: set<Policy>): set<string> { set p | p in policies :: p.indexName }

  lemma {:induction false} HandlerOpsNamed(env: Handler.Env, policies: set<Policy>, events: seq<Handler.Event>,
                                           hs: seq<Handler.Handled>, op: Op)
    requires Handler.HandledAll(env, policies, events, hs) && op in Handler.AllOps(hs)
    ensures op.index in IndexNames(policies) && !Droppable(op)
  {
    var n := |hs| - 1;
    if op in Handler.HandledOps(hs[n]) {
      assert Handler.HandledOne(env, policies, events[n], hs[n]);
      var order: seq<Policy> :| (forall p :: p in order <==> p in policies)
                                && Handler.Handles(env, order, events[n], hs[n]);
      assert Handler.Collects(env, order, events[n], Handler.HandledOps(hs[n]));
      var p :| p in order && Handler.OpFor(env, p, events[n]) == Some(op);
    } else {
      HandlerOpsNamed(env, policies, events[..n], hs[..n], op);
    }
  }

  /** A target outside every policy's index is never written. */
  lemma {:induction false} OnlyPolicyIndexes(ops: seq<Op>, t: Target)
    requires forall op :: op in ops ==> op.index != t.index
    ensures t !in ApplyOps(map[], ops)
  {
    NoLast(ops, t);
    AppliedLookup(map[], ops, t);
  }

  /** In a run without shutdown losses or backend failures, when every batch is acked and nothing
      is pending, each policy's index holds exactly the documents the policy says, and no other
      index holds anything. */
  lemma BackendAgrees(c: Config, s: State, env: Handler.Env, typeOf: string -> (string, string), policies: set<Policy>,
                      events: seq<Handler.Event>, hs: seq<Handler.Handled>, msgs: seq<Msg>, t: Target)
    requires Reachable(c, s) && Clean(s) && AllAcked(s)
    requires Separable(IndexNames(policies)) && Handler.OwnIndexes(policies)
    requires Handler.HandledAll(env, policies, events, hs) && Handler.WellBehaved(env, typeOf, events)
    requires |msgs| == |hs| && s.history == SubmissionsOf(hs, msgs)
    ensures forall p :: p in policies && p.indexName == t.index ==> Lookup(s.index, t) == Handler.Says(env, p, events, t.id)
    ensures t.index !in IndexNames(policies) ==> t !in s.index
  {
    var ops := Handler.AllOps(hs);
    SubmittedOps(hs, msgs);
    forall op | op in ops ensures op.index in IndexNames(policies) && !Droppable(op) {
      HandlerOpsNamed(env, policies, events, hs, op);
    }
    SettledContents(c, s, IndexNames(policies));
    forall p | p in policies && p.indexName == t.index ensures Lookup(s.index, t) == Handler.Says(env, p, events, t.id) {
      Handler.IndexAgrees(env, typeOf, policies, events, hs, p, t.id);
    }
    if t.index !in IndexNames(policies) {
      OnlyPolicyIndexes(ops, t);
    }
  }
}
