/** One enqueue call of the SDK client: chunks sent in order, each retried on connection
    errors. The call is a small machine driven by what each HTTP attempt returned; the
    flush protocol steps this machine and the methods below run it to the end. */
module SdkCall {
  import opened Json
  import opened Ops

  /** What one HTTP attempt returned. A failed attempt may still have reached the backend.
      Transient stands for the "EOF" and "connection reset" errors, Fatal for all others. */
  datatype Outcome = Accepted | Transient(applied: bool) | Fatal(applied: bool)

  predicate Reached(o: Outcome) { o.Accepted? || o.applied }

  datatype CallStatus = Running | Ok | Failed

  /** `sent` items have been accepted; the chunk at `sent` has failed `tries` times. */
  datatype Call = Call(sent: nat, tries: nat, status: CallStatus)

  function ChunkEnd(total: nat, chunk: nat, from: nat): nat {
    if from + chunk > total then total else from + chunk
  }

  function Begin(total: nat): Call { Call(0, 0, if total == 0 then Ok else Running) }

  function Attempt(total: nat, chunk: nat, retries: nat, c: Call, o: Outcome): Call
    requires c.status.Running?
  {
    match o
    case Accepted =>
      var end := ChunkEnd(total, chunk, c.sent);
      Call(end, 0, if end >= total then Ok else Running)
    case Transient(_) => Call(c.sent, c.tries + 1, if c.tries + 1 >= retries then Failed else Running)
    case Fatal(_) => c.(status := Failed)
  }

  /** The invariant of a call over `total` items. */
  predicate CallOk(total: nat, retries: nat, c: Call) {
    && c.sent <= total
    && (c.status.Running? ==> c.sent < total && c.tries < retries)
    && (c.status.Ok? ==> c.sent == total)
    && (c.status.Failed? ==> c.sent < total)
  }

  /** The call after the given attempts; attempts after it stopped are ignored. */
  function Drive(total: nat, chunk: nat, retries: nat, os: seq<Outcome>): Call {
    if os == [] then Begin(total)
    else
      var c := Drive(total, chunk, retries, os[..|os| - 1]);
      if c.status.Running? then Attempt(total, chunk, retries, c, os[|os| - 1]) else c
  }

  /** Every attempt was made while the call was still running. */
  ghost predicate Legal(total: nat, chunk: nat, retries: nat, os: seq<Outcome>) {
    forall i :: 0 <= i < |os| ==> Drive(total, chunk, retries, os[..i]).status.Running?
  }

  lemma {:induction false} DriveOk(total: nat, chunk: nat, retries: nat, os: seq<Outcome>)
    requires chunk >= 1 && retries >= 1
    ensures CallOk(total, retries, Drive(total, chunk, retries, os))
  {
    if os != [] {
      DriveOk(total, chunk, retries, os[..|os| - 1]);
    }
  }

  lemma LegalPrefix(total: nat, chunk: nat, retries: nat, os: seq<Outcome>)
    requires os != [] && Legal(total, chunk, retries, os)
    ensures Legal(total, chunk, retries, os[..|os| - 1])
    ensures Drive(total, chunk, retries, os[..|os| - 1]).status.Running?
  {
    var init := os[..|os| - 1];
    forall i | 0 <= i < |init| ensures Drive(total, chunk, retries, init[..i]).status.Running? {
      assert init[..i] == os[..i];
    }
  }

  // ---- what was sent ------------------------------------------------------------

  /** The ranges that came back as tasks. */
  function Tasks(total: nat, chunk: nat, retries: nat, os: seq<Outcome>): seq<(nat, nat)> {
    if os == [] then []
    else
      var init, o := os[..|os| - 1], os[|os| - 1];
      var from := Drive(total, chunk, retries, init).sent;
      Tasks(total, chunk, retries, init) + (if o.Accepted? then [(from, ChunkEnd(total, chunk, from))] else [])
  }

  /** The operations the backend received, duplicates of retried chunks included. */
  function Received(items: seq<Op>, chunk: nat, retries: nat, os: seq<Outcome>): seq<Op>
    requires chunk >= 1 && retries >= 1
  {
    if os == [] then []
    else
      var init, o := os[..|os| - 1], os[|os| - 1];
      DriveOk(|items|, chunk, retries, init);
      var from := Drive(|items|, chunk, retries, init).sent;
      Received(items, chunk, retries, init)
      + (if Reached(o) then items[from..ChunkEnd(|items|, chunk, from)] else [])
  }

  ghost predicate Contiguous(ranges: seq<(nat, nat)>, end: nat) {
    && (ranges == [] ==> end == 0)
    && (ranges != [] ==> ranges[0].0 == 0 && ranges[|ranges| - 1].1 == end)
    && (forall i :: 0 <= i < |ranges| ==> ranges[i].0 < ranges[i].1)
    && (forall i :: 0 <= i < |ranges| - 1 ==> ranges[i].1 == ranges[i + 1].0)
  }

  lemma ContiguousAppend(ranges: seq<(nat, nat)>, from: nat, to: nat)
    requires Contiguous(ranges, from) && from < to
    ensures Contiguous(ranges + [(from, to)], to)
  {
    var longer := ranges + [(from, to)];
    forall i | 0 <= i < |longer| - 1 ensures longer[i].1 == longer[i + 1].0 {
      assert i < |ranges| - 1 ==> longer[i + 1] == ranges[i + 1];
    }
  }

  /** The accepted chunks tile `0..sent` in order without gap or overlap. A call that ended
      Ok has tiled everything; one that failed has tiled a strict prefix. */
  lemma {:induction false} ChunksTile(total: nat, chunk: nat, retries: nat, os: seq<Outcome>)
    requires chunk >= 1 && retries >= 1 && Legal(total, chunk, retries, os)
    ensures var c := Drive(total, chunk, retries, os);
            && Contiguous(Tasks(total, chunk, retries, os), c.sent)
            && (c.status.Ok? ==> c.sent == total)
            && (c.status.Failed? ==> c.sent < total)
  {
    DriveOk(total, chunk, retries, os);
    if os != [] {
      LegalPrefix(total, chunk, retries, os);
      var init := os[..|os| - 1];
      ChunksTile(total, chunk, retries, init);
      DriveOk(total, chunk, retries, init);
      var from := Drive(total, chunk, retries, init).sent;
      if os[|os| - 1].Accepted? {
        ContiguousAppend(Tasks(total, chunk, retries, init), from, ChunkEnd(total, chunk, from));
      } else {
        assert Tasks(total, chunk, retries, os) == Tasks(total, chunk, retries, init);
      }
    }
  }

  /** How many attempts were spent on the chunk starting at `from`. */
  // ---- chunk sizes --------------------------------------------------------------

  /** The ranges are chunks 0, 1, 2, ... of `chunk` items each, the last one cut off at `total`. */
  ghost predicate Chunked(ranges: seq<(nat, nat)>, total: nat, chunk: nat) {
    forall i :: 0 <= i < |ranges| ==> IsChunk(ranges[i], i, total, chunk)
  }

  predicate IsChunk(range: (nat, nat), i: nat, total: nat, chunk: nat) {
    && range.0 == i * chunk < total
    && range.1 == if i * chunk + chunk < total then i * chunk + chunk else total
  }

  lemma NextChunk(i: nat, total: nat, chunk: nat)
    requires i * chunk < total && chunk >= 1
    ensures IsChunk((i * chunk, ChunkEnd(total, chunk, i * chunk)), i, total, chunk)
    ensures ChunkEnd(total, chunk, i * chunk) == if (i + 1) * chunk < total then (i + 1) * chunk else total
  {
    assert (i + 1) * chunk == i * chunk + chunk;
  }

  /** Whatever the attempts returned, the tasks are the first chunks of the items, one after the
      other, and a call that is still going stands at the start of the next one. */
  lemma {:induction false} TasksAreChunks(total: nat, chunk: nat, retries: nat, os: seq<Outcome>)
    requires chunk >= 1 && retries >= 1 && Legal(total, chunk, retries, os)
    ensures Chunked(Tasks(total, chunk, retries, os), total, chunk)
    ensures var n, sent := |Tasks(total, chunk, retries, os)|, Drive(total, chunk, retries, os).sent;
            sent == if n * chunk < total then n * chunk else total
  {
    if os != [] {
      LegalPrefix(total, chunk, retries, os);
      var init := os[..|os| - 1];
      TasksAreChunks(total, chunk, retries, init);
      DriveOk(total, chunk, retries, init);
      var tasks := Tasks(total, chunk, retries, init);
      NextChunk(|tasks|, total, chunk);
      assert os[|os| - 1].Accepted? ==>
          Tasks(total, chunk, retries, os) == tasks + [(|tasks| * chunk, ChunkEnd(total, chunk, |tasks| * chunk))];
      assert !os[|os| - 1].Accepted? ==> Tasks(total, chunk, retries, os) == tasks;
    }
  }

  /** A successful call returns just as many tasks as it takes. */
  lemma TaskCount(total: nat, chunk: nat, retries: nat, os: seq<Outcome>)
    requires chunk >= 1 && retries >= 1 && Legal(total, chunk, retries, os)
    requires Drive(total, chunk, retries, os).status.Ok? && total > 0
    ensures var n := |Tasks(total, chunk, retries, os)|; (n - 1) * chunk < total <= n * chunk
  {
    TasksAreChunks(total, chunk, retries, os);
    DriveOk(total, chunk, retries, os);
    var tasks := Tasks(total, chunk, retries, os);
    if tasks != [] {
      assert IsChunk(tasks[|tasks| - 1], |tasks| - 1, total, chunk);
    }
  }

  function AttemptsAt(total: nat, chunk: nat, retries: nat, os: seq<Outcome>, from: nat): nat {
    if os == [] then 0
    else
      var init := os[..|os| - 1];
      AttemptsAt(total, chunk, retries, init, from)
      + (if Drive(total, chunk, retries, init).sent == from then 1 else 0)
  }

  /** No chunk is tried more than `retries` times. */
  lemma {:induction false} AttemptsBounded(total: nat, chunk: nat, retries: nat, os: seq<Outcome>, from: nat)
    requires chunk >= 1 && retries >= 1 && Legal(total, chunk, retries, os)
    ensures AttemptsAt(total, chunk, retries, os, from) <= retries
  {
    AttemptsCounted(total, chunk, retries, os, from);
    DriveOk(total, chunk, retries, os);
  }

  lemma {:induction false} AttemptsCounted(total: nat, chunk: nat, retries: nat, os: seq<Outcome>, from: nat)
    requires chunk >= 1 && retries >= 1 && Legal(total, chunk, retries, os)
    ensures var c := Drive(total, chunk, retries, os);
            var a := AttemptsAt(total, chunk, retries, os, from);
            && a <= retries
            && (from > c.sent ==> a == 0)
            && (from == c.sent && c.status.Running? ==> a == c.tries)
            && (from == c.sent && c.status.Ok? ==> a == 0)
  {
    DriveOk(total, chunk, retries, os);
    if os != [] {
      LegalPrefix(total, chunk, retries, os);
      AttemptsCounted(total, chunk, retries, os[..|os| - 1], from);
      DriveOk(total, chunk, retries, os[..|os| - 1]);
    }
  }

  // ---- re-sending is harmless -----------------------------------------------------

  function LastFor(ops: seq<Op>, t: Target): Option<Op> {
    if ops == [] then None
    else if TargetOf(ops[|ops| - 1]) == t then Some(ops[|ops| - 1])
    else LastFor(ops[..|ops| - 1], t)
  }

  lemma {:induction false} NoLast(ops: seq<Op>, t: Target)
    requires forall op :: op in ops ==> TargetOf(op) != t
    ensures LastFor(ops, t) == None
  {
    if ops != [] {
      assert ops == ops[..|ops| - 1] + [ops[|ops| - 1]];
      NoLast(ops[..|ops| - 1], t);
    }
  }

  lemma {:induction false} AppliedLookup(c: Contents, ops: seq<Op>, t: Target)
    ensures Lookup(ApplyOps(c, ops), t)
         == match LastFor(ops, t)
            case None => Lookup(c, t)
            case Some(op) => if op.Upsert? then Some(op.doc) else None
  {
    if ops != [] {
      AppliedLookup(c, ops[..|ops| - 1], t);
    }
  }

  /** Applying the same operations a second time changes nothing. */
  lemma ApplyTwice(c: Contents, ops: seq<Op>)
    ensures ApplyOps(ApplyOps(c, ops), ops) == ApplyOps(c, ops)
  {
    var once := ApplyOps(c, ops);
    var twice := ApplyOps(once, ops);
    forall t: Target ensures Lookup(twice, t) == Lookup(once, t) {
      AppliedLookup(c, ops, t);
      AppliedLookup(once, ops, t);
    }
    SameLookups(twice, once);
  }

  /** Applying a first part, once or again, before the whole changes nothing. */
  lemma PartFirst(c: Contents, part: seq<Op>, tail: seq<Op>)
    ensures ApplyOps(ApplyOps(c, part), tail) == ApplyOps(c, part + tail)
    ensures ApplyOps(ApplyOps(c, part), part + tail) == ApplyOps(c, part + tail)
  {
    ApplyOpsConcat(c, part, tail);
    ApplyTwice(c, part);
    ApplyOpsConcat(ApplyOps(c, part), part, tail);
  }

  /** However often chunks were re-sent, what the backend received followed by the unsent rest
      has the effect of the item list itself; a call that ended Ok has exactly that effect. */
  lemma {:induction false} ResendHarmless(c: Contents, items: seq<Op>, chunk: nat, retries: nat, os: seq<Outcome>)
    requires chunk >= 1 && retries >= 1 && Legal(|items|, chunk, retries, os)
    ensures var call := Drive(|items|, chunk, retries, os);
            && call.sent <= |items|
            && ApplyOps(ApplyOps(c, Received(items, chunk, retries, os)), items[call.sent..]) == ApplyOps(c, items)
            && (call.status.Ok? ==> ApplyOps(c, Received(items, chunk, retries, os)) == ApplyOps(c, items))
  {
    DriveOk(|items|, chunk, retries, os);
    RestApplied(c, items, chunk, retries, os);
    var call := Drive(|items|, chunk, retries, os);
    if call.status.Ok? {
      assert items[call.sent..] == [];
    }
  }

  lemma {:induction false} RestApplied(c: Contents, items: seq<Op>, chunk: nat, retries: nat, os: seq<Outcome>)
    requires chunk >= 1 && retries >= 1 && Legal(|items|, chunk, retries, os)
    ensures Drive(|items|, chunk, retries, os).sent <= |items|
    ensures ApplyOps(ApplyOps(c, Received(items, chunk, retries, os)), items[Drive(|items|, chunk, retries, os).sent..])
         == ApplyOps(c, items)
  {
    if os == [] {
      assert items[0..] == items;
    } else {
      var init := os[..|os| - 1];
      LegalPrefix(|items|, chunk, retries, os);
      RestApplied(c, items, chunk, retries, init);
      AttemptReceived(items, chunk, retries, os);
      var from := Drive(|items|, chunk, retries, init).sent;
      AttemptApplied(c, items, from, ChunkEnd(|items|, chunk, from), Received(items, chunk, retries, init),
                     Received(items, chunk, retries, os), Drive(|items|, chunk, retries, os).sent);
    }
  }

  /** An attempt moves on only if its chunk was received, which it may also be otherwise. */
  lemma AttemptReceived(items: seq<Op>, chunk: nat, retries: nat, os: seq<Outcome>)
    requires chunk >= 1 && retries >= 1 && os != []
    requires Drive(|items|, chunk, retries, os[..|os| - 1]).status.Running?
    ensures var init := os[..|os| - 1];
            var from := Drive(|items|, chunk, retries, init).sent;
            var end, got := ChunkEnd(|items|, chunk, from), Received(items, chunk, retries, os);
            && from <= end <= |items|
            && (|| (got == Received(items, chunk, retries, init) && Drive(|items|, chunk, retries, os).sent == from)
                || (got == Received(items, chunk, retries, init) + items[from..end]
                    && Drive(|items|, chunk, retries, os).sent in {from, end}))
  {
    DriveOk(|items|, chunk, retries, os[..|os| - 1]);
  }

  lemma AttemptApplied(c: Contents, items: seq<Op>, from: nat, end: nat, got: seq<Op>, got': seq<Op>, sent: nat)
    requires from <= end <= |items| && ApplyOps(ApplyOps(c, got), items[from..]) == ApplyOps(c, items)
    requires || (got' == got && sent == from)
             || (got' == got + items[from..end] && sent in {from, end})
    ensures ApplyOps(ApplyOps(c, got'), items[sent..]) == ApplyOps(c, items)
  {
    var part := items[from..end];
    assert items[from..] == part + items[end..];
    PartFirst(ApplyOps(c, got), part, items[end..]);
    ApplyOpsConcat(c, got, part);
  }

  // ---- the loops --------------------------------------------------------------------

  /** What `net` answers on attempts k, k+1, ... */
  ghost predicate Answers(net: nat -> Outcome, k: nat, os: seq<Outcome>) {
    forall i :: 0 <= i < |os| ==> os[i] == net(k + i)
  }

  /** Tries one chunk, again only after a connection-level failure. */
  method WithRetry(maxRetries: nat, net: nat -> Outcome, k: nat) returns (os: seq<Outcome>, ok: bool)
    requires maxRetries >= 1
    ensures 1 <= |os| <= maxRetries && Answers(net, k, os)
    ensures forall i :: 0 <= i < |os| - 1 ==> os[i].Transient?
    ensures ok <==> os[|os| - 1].Accepted?
    ensures os[|os| - 1].Transient? ==> |os| == maxRetries
  {
    os, ok := [], false;
    for i := 0 to maxRetries
      invariant |os| == i && Answers(net, k, os)
      invariant forall j :: 0 <= j < |os| ==> os[j].Transient?
    {
      var o := net(k + i);
      os := os + [o];
      if o.Accepted? {
        return os, true;
      }
      if !o.Transient? {
        return os, false;
      }
    }
  }

  function AfterBurst(total: nat, chunk: nat, retries: nat, c: Call, os: seq<Outcome>): Call {
    if os == [] then c
    else if os[|os| - 1].Transient? then Call(c.sent, |os|, if |os| >= retries then Failed else Running)
    else Attempt(total, chunk, retries, Call(c.sent, |os| - 1, Running), os[|os| - 1])
  }

  /** A burst of attempts on one chunk moves the machine past that chunk or stops it. */
  lemma {:induction false} DriveBurst(total: nat, chunk: nat, retries: nat, pre: seq<Outcome>, os: seq<Outcome>)
    requires chunk >= 1 && retries >= 1 && Legal(total, chunk, retries, pre)
    requires Drive(total, chunk, retries, pre).status.Running? && Drive(total, chunk, retries, pre).tries == 0
    requires |os| <= retries && forall i :: 0 <= i < |os| - 1 ==> os[i].Transient?
    ensures Legal(total, chunk, retries, pre + os)
    ensures Drive(total, chunk, retries, pre + os)
         == AfterBurst(total, chunk, retries, Drive(total, chunk, retries, pre), os)
    ensures Tasks(total, chunk, retries, pre + os)
         == Tasks(total, chunk, retries, pre)
            + (if os != [] && os[|os| - 1].Accepted?
               then [(Drive(total, chunk, retries, pre).sent,
                      ChunkEnd(total, chunk, Drive(total, chunk, retries, pre).sent))]
               else [])
  {
    if os == [] {
      assert pre + os == pre;
    } else {
      var init, o := os[..|os| - 1], os[|os| - 1];
      DriveBurst(total, chunk, retries, pre, init);
      assert pre + os == pre + init + [o];
      OneMore(total, chunk, retries, pre + init, o);
      assert init != [] ==> init[|init| - 1] == os[|os| - 2];
    }
  }

  lemma OneMore(total: nat, chunk: nat, retries: nat, pre: seq<Outcome>, o: Outcome)
    requires Legal(total, chunk, retries, pre) && Drive(total, chunk, retries, pre).status.Running?
    ensures Legal(total, chunk, retries, pre + [o])
    ensures Drive(total, chunk, retries, pre + [o])
         == Attempt(total, chunk, retries, Drive(total, chunk, retries, pre), o)
    ensures Tasks(total, chunk, retries, pre + [o])
         == Tasks(total, chunk, retries, pre)
            + (if o.Accepted?
               then [(Drive(total, chunk, retries, pre).sent,
                      ChunkEnd(total, chunk, Drive(total, chunk, retries, pre).sent))]
               else [])
  {
    var longer := pre + [o];
    assert longer[..|longer| - 1] == pre;
    forall i | 0 <= i < |longer| ensures Drive(total, chunk, retries, longer[..i]).status.Running? {
      assert i < |pre| ==> longer[..i] == pre[..i];
    }
  }

  /** Sends items chunk by chunk, stopping at the first chunk that fails for good. */
  method ProcessInChunks(total: nat, chunk: nat, maxRetries: nat, net: nat -> Outcome)
    returns (tasks: seq<(nat, nat)>, os: seq<Outcome>, ok: bool)
    requires chunk >= 1 && maxRetries >= 1
    ensures Legal(total, chunk, maxRetries, os) && Answers(net, 0, os)
    ensures Drive(total, chunk, maxRetries, os).status == if ok then Ok else Failed
    ensures tasks == Tasks(total, chunk, maxRetries, os)
    ensures forall i :: 0 <= i < |tasks| ==>
              tasks[i].0 == i * chunk && tasks[i].1 == if i * chunk + chunk < total then i * chunk + chunk else total
    ensures if ok then |tasks| * chunk >= total && (total > 0 ==> (|tasks| - 1) * chunk < total) else |tasks| * chunk < total
  {
    tasks, os, ok := [], [], true;
    var i := 0;
    while i < total
      invariant i <= total && Legal(total, chunk, maxRetries, os) && Answers(net, 0, os)
      invariant Drive(total, chunk, maxRetries, os) == Call(i, 0, if i == total then Ok else Running)
      invariant tasks == Tasks(total, chunk, maxRetries, os)
      decreases total - i
    {
      var end := i + chunk;
      if end > total {
        end := total;
      }
      var burst, accepted := WithRetry(maxRetries, net, |os|);
      DriveBurst(total, chunk, maxRetries, os, burst);
      os := os + burst;
      if !accepted {
        ReturnedChunks(total, chunk, maxRetries, os, false);
        return tasks, os, false;
      }
      tasks := tasks + [(i, end)];
      i := end;
    }
    ReturnedChunks(total, chunk, maxRetries, os, true);
  }

  lemma ReturnedChunks(total: nat, chunk: nat, retries: nat, os: seq<Outcome>, ok: bool)
    requires chunk >= 1 && retries >= 1 && Legal(total, chunk, retries, os)
    requires Drive(total, chunk, retries, os).status == if ok then Ok else Failed
    ensures var tasks := Tasks(total, chunk, retries, os);
            && Chunked(tasks, total, chunk)
            && if ok then |tasks| * chunk >= total && (total > 0 ==> (|tasks| - 1) * chunk < total) else |tasks| * chunk < total
  {
    TasksAreChunks(total, chunk, retries, os);
    DriveOk(total, chunk, retries, os);
    if ok && total > 0 {
      TaskCount(total, chunk, retries, os);
    }
  }

  /** Keeps the first occurrence of every non-empty id. */
  function Unique(ids: seq<string>): seq<string> {
    if ids == [] then []
    else
      var init, last := Unique(ids[..|ids| - 1]), ids[|ids| - 1];
      if last == "" || last in init then init else init + [last]
  }

  lemma {:induction false} UniqueMeans(ids: seq<string>)
    ensures forall x :: x in Unique(ids) <==> x in ids && x != ""
    ensures forall i, j :: 0 <= i < j < |Unique(ids)| ==> Unique(ids)[i] != Unique(ids)[j]
  {
    if ids != [] {
      assert ids == ids[..|ids| - 1] + [ids[|ids| - 1]];
      UniqueMeans(ids[..|ids| - 1]);
    }
  }

  /** Position of the first occurrence, or the length when there is none. */
  function FirstAt(ids: seq<string>, id: string): (i: nat)
    ensures i <= |ids| && (i < |ids| <==> id in ids) && (i < |ids| ==> ids[i] == id && id !in ids[..i])
  {
    if ids == [] || ids[0] == id then 0
    else
      var i := 1 + FirstAt(ids[1..], id);
      assert ids[..i] == [ids[0]] + ids[1..][..i - 1];
      i
  }

  lemma {:induction false} FirstAtLonger(ids: seq<string>, more: seq<string>, id: string)
    requires id in ids
    ensures FirstAt(ids + more, id) == FirstAt(ids, id)
  {
    if ids[0] != id {
      assert (ids + more)[1..] == ids[1..] + more;
      FirstAtLonger(ids[1..], more, id);
    }
  }

  /** The kept ids are in the order of their first occurrence. */
  lemma {:induction false} UniqueInOrder(ids: seq<string>)
    ensures forall i, j :: 0 <= i < j < |Unique(ids)| ==> FirstAt(ids, Unique(ids)[i]) < FirstAt(ids, Unique(ids)[j])
  {
    if ids != [] {
      var init, last := ids[..|ids| - 1], ids[|ids| - 1];
      assert init + [last] == ids;
      UniqueInOrder(init);
      UniqueMeans(init);
      forall x | x in Unique(init) ensures FirstAt(ids, x) == FirstAt(init, x) < |init| {
        FirstAtLonger(init, [last], x);
      }
      if last != "" && last !in Unique(init) {
        assert FirstAt(ids, last) == |init|;
      }
    }
  }

  method DeleteDocumentsAsync(ids: seq<string>, chunk: nat, maxRetries: nat, net: nat -> Outcome)
    returns (uniqueIds: seq<string>, tasks: seq<(nat, nat)>, os: seq<Outcome>, ok: bool)
    requires chunk >= 1 && maxRetries >= 1
    ensures uniqueIds == Unique(ids)
    ensures Legal(|uniqueIds|, chunk, maxRetries, os) && Answers(net, 0, os)
    ensures Drive(|uniqueIds|, chunk, maxRetries, os).status == if ok then Ok else Failed
    ensures tasks == Tasks(|uniqueIds|, chunk, maxRetries, os)
  {
    uniqueIds := [];
    var seen: set<string> := {};
    for i := 0 to |ids|
      invariant uniqueIds == Unique(ids[..i])
      invariant forall x :: x in seen <==> x in uniqueIds
    {
      assert ids[..i + 1][..i] == ids[..i];
      var id := ids[i];
      if id == "" {
        continue;
      }
      if id !in seen {
        seen := seen + {id};
        uniqueIds := uniqueIds + [id];
      }
    }
    assert ids[..|ids|] == ids;
    tasks, os, ok := ProcessInChunks(|uniqueIds|, chunk, maxRetries, net);
  }

  /** Waits for each task in turn; `poll` gives a task's final status, None for a timeout. */
  method WaitForTasks<T>(tasks: seq<T>, poll: T -> Option<bool>) returns (ok: bool)
    ensures ok <==> forall t :: t in tasks ==> poll(t) == Some(true)
  {
    for i := 0 to |tasks|
      invariant forall j :: 0 <= j < i ==> poll(tasks[j]) == Some(true)
    {
      var res := poll(tasks[i]);
      if res.None? {
        return false;
      }
      if !res.value {
        return false;
      }
    }
    return true;
  }
}
