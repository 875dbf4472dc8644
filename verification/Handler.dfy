/** The audit-event handler: what it makes of an event and a policy set, and that replaying
    its operations leaves in every policy's index exactly what the policy says. */
module Handler {
  import opened Json
  import opened Ops
  import opened SdkCall
  import opened Documents

  /** An audit event. `refGroup` and `refUid` come from its objectRef. */
  datatype Event = Event(verb: string, annotations: map<string, string>, refGroup: string, refUid: string,
                         response: Option<Fields>)

  /** Deployment mode, the title-casing of scope types and the timestamp syntax. */
  datatype Env = Env(multiTenant: bool, title: string -> string, isTime: string -> bool)

  const ScopeType := "platform.miloapis.com/scope.type"
  const ScopeName := "platform.miloapis.com/scope.name"

  /** Tenant name and type, both "platform" where the annotation is absent or empty. */
  function Tenant(env: Env, e: Event): (string, string) {
    var t := if ScopeType in e.annotations then e.annotations[ScopeType] else "";
    var n := if ScopeName in e.annotations then e.annotations[ScopeName] else "";
    (OrPlatform(n), if t == "" || t == "platform" then "platform" else env.title(t))
  }

  /** metadata.uid of the response, else the objectRef's uid, else details.uid of the response. */
  function ResolveUid(e: Event): string {
    if e.response.Some? && NestedString(e.response.value, "metadata", "uid") != "" then
      NestedString(e.response.value, "metadata", "uid")
    else if e.refUid != "" then e.refUid
    else if e.response.Some? then NestedString(e.response.value, "details", "uid")
    else ""
  }

  predicate Targets(p: Policy, group: string, kind: string) {
    p.target.group == group && (kind == "" || p.target.kind == kind)
  }

  /** Group and kind of a deleted resource; the kind is unknown when the response is a Status. */
  function DeletedType(e: Event): (string, string) {
    if e.response.Some? && GvkOf(e.response.value).kind != "" && GvkOf(e.response.value).kind != "Status" then
      (GvkOf(e.response.value).group, GvkOf(e.response.value).kind)
    else (e.refGroup, "")
  }

  predicate UpsertVerb(verb: string) { verb == "create" || verb == "update" || verb == "patch" }

  predicate Terminating(env: Env, obj: Fields) {
    var t := NestedString(obj, "metadata", "deletionTimestamp");
    t != "" && env.isTime(t)
  }

  /** The event is handled as a deletion. */
  predicate Deleting(env: Env, e: Event) {
    e.verb == "delete" || (e.response.Some? && UpsertVerb(e.verb) && Terminating(env, e.response.value))
  }

  /** The event is handled as a write of a live object. */
  predicate Writing(env: Env, e: Event) {
    e.verb != "delete" && e.response.Some? && UpsertVerb(e.verb) && !Terminating(env, e.response.value)
  }

  predicate Admitted(env: Env, e: Event) { env.multiTenant || Tenant(env, e).1 == "platform" }

  function DocFor(env: Env, p: Policy, e: Event): Json
    requires e.response.Some?
  {
    Object(EnsureUid(Document(e.response.value, p.target, Tenant(env, e).0, Tenant(env, e).1), ResolveUid(e)))
  }

  /** The operation one policy gets from an event, if any. */
  ghost function OpFor(env: Env, p: Policy, e: Event): Option<Op> {
    if p.indexName == "" || ResolveUid(e) == "" then None
    else if Deleting(env, e) then
      if Targets(p, DeletedType(e).0, DeletedType(e).1) then Some(Delete(p.indexName, ResolveUid(e))) else None
    else if Writing(env, e) && Admitted(env, e) then
      if Matches(p, e.response.value) then Some(Upsert(p.indexName, DocFor(env, p, e)))
      else if e.verb != "create" && Targets(p, GvkOf(e.response.value).group, GvkOf(e.response.value).kind)
      then Some(Delete(p.indexName, ResolveUid(e)))
      else None
    else None
  }

  datatype Handled = AckNow | SubmitOps(upserts: seq<UpsertOp>, deletes: seq<DeleteOp>)

  /** The operations hold exactly what each listed policy gets. */
  ghost predicate Collects(env: Env, policies: seq<Policy>, e: Event, ops: seq<Op>) {
    && (forall p, op :: p in policies && OpFor(env, p, e) == Some(op) ==> op in ops)
    && (forall op :: op in ops ==> exists p :: p in policies && OpFor(env, p, e) == Some(op))
  }

  ghost predicate Handles(env: Env, policies: seq<Policy>, e: Event, h: Handled) {
    match h
    case AckNow => Collects(env, policies, e, [])
    case SubmitOps(upserts, deletes) => upserts + deletes != [] && Collects(env, policies, e, deletes + upserts)
  }

  lemma CollectMore(env: Env, policies: seq<Policy>, p: Policy, e: Event, ops: seq<Op>, ops': seq<Op>)
    requires Collects(env, policies, e, ops)
    requires forall op :: op in ops' <==> op in ops || OpFor(env, p, e) == Some(op)
    ensures Collects(env, policies + [p], e, ops')
  {
    forall op | op in ops' ensures exists q :: q in policies + [p] && OpFor(env, q, e) == Some(op) {
      if op in ops {
        var q :| q in policies && OpFor(env, q, e) == Some(op);
        assert q in policies + [p];
      } else {
        assert p in policies + [p];
      }
    }
  }

  lemma CollectNone(env: Env, policies: seq<Policy>, p: Policy, e: Event, ops: seq<Op>)
    requires Collects(env, policies, e, ops) && OpFor(env, p, e) == None
    ensures Collects(env, policies + [p], e, ops)
  {
    CollectMore(env, policies, p, e, ops, ops);
  }

  lemma CollectUpsert(env: Env, policies: seq<Policy>, p: Policy, e: Event,
                      deletes: seq<DeleteOp>, upserts: seq<UpsertOp>, op: UpsertOp)
    requires Collects(env, policies, e, deletes + upserts) && OpFor(env, p, e) == Some(op)
    ensures Collects(env, policies + [p], e, deletes + (upserts + [op]))
  {
    CollectMore(env, policies, p, e, deletes + upserts, deletes + (upserts + [op]));
  }

  lemma CollectDelete(env: Env, policies: seq<Policy>, p: Policy, e: Event,
                      deletes: seq<DeleteOp>, upserts: seq<UpsertOp>, op: DeleteOp)
    requires Collects(env, policies, e, deletes + upserts) && OpFor(env, p, e) == Some(op)
    ensures Collects(env, policies + [p], e, deletes + [op] + upserts)
  {
    CollectMore(env, policies, p, e, deletes + upserts, deletes + [op] + upserts);
  }

  /** Deletes the object from every policy of its type that has an index. */
  method HandleDelete(env: Env, policies: seq<Policy>, e: Event) returns (h: Handled)
    requires Deleting(env, e)
    ensures Handles(env, policies, e, h)
    ensures forall op :: op in HandledOps(h) <==>
              exists p, uid :: p in policies && p.indexName != "" && Names(e, uid) && OfDeleted(p, e)
                            && op == Delete(p.indexName, uid)
  {
    h := DeleteFromAll(env, policies, e);
    DeletedExactly(env, policies, e, h);
  }

  method DeleteFromAll(env: Env, policies: seq<Policy>, e: Event) returns (h: Handled)
    requires Deleting(env, e)
    ensures Handles(env, policies, e, h)
  {
    var id := ResolveUid(e);
    if id == "" {
      return AckNow;
    }
    var (group, kind) := DeletedType(e);
    var deletes: seq<DeleteOp> := [];
    for i := 0 to |policies|
      invariant Collects(env, policies[..i], e, deletes)
    {
      var p := policies[i];
      assert policies[..i + 1] == policies[..i] + [p];
      var before := deletes;
      if p.indexName == "" || !Targets(p, group, kind) {
        CollectMore(env, policies[..i], p, e, before, deletes);
        continue;
      }
      deletes := deletes + [Delete(p.indexName, id)];
      CollectMore(env, policies[..i], p, e, before, deletes);
    }
    assert policies[..|policies|] == policies;
    if |deletes| == 0 {
      return AckNow;
    }
    var none: seq<Op> := [];
    assert deletes + none == deletes;
    return SubmitOps([], deletes);
  }

  /** What one policy makes of a write: an upsert if it matches, a delete if an update or patch of its
      kind does not. */
  method PolicyWrite(env: Env, p: Policy, e: Event) returns (op: Option<Op>)
    requires Writing(env, e) && Admitted(env, e) && ResolveUid(e) != ""
    ensures op == OpFor(env, p, e)
  {
    var obj, uid := e.response.value, ResolveUid(e);
    var (tenant, tenantType) := Tenant(env, e);
    var gvk := GvkOf(obj);
    var result := Evaluate(p, obj);
    if result.matched {
      if p.indexName == "" {
        return None;
      }
      var doc := Transform(result, tenant, tenantType);
      return Some(Upsert(p.indexName, Object(EnsureUid(doc, uid))));
    }
    if (e.verb == "update" || e.verb == "patch") && Targets(p, gvk.group, gvk.kind) {
      if p.indexName != "" {
        return Some(Delete(p.indexName, uid));
      }
    }
    return None;
  }

  /** One pass over the policies collecting upserts and deletes. */
  method HandleWrite(env: Env, policies: seq<Policy>, e: Event) returns (h: Handled)
    requires Writing(env, e) && Admitted(env, e) && ResolveUid(e) != ""
    ensures Handles(env, policies, e, h)
  {
    var upserts: seq<UpsertOp>, deletes: seq<DeleteOp> := [], [];
    for i := 0 to |policies|
      invariant Collects(env, policies[..i], e, deletes + upserts)
    {
      var p := policies[i];
      assert policies[..i + 1] == policies[..i] + [p];
      var got := PolicyWrite(env, p, e);
      if got.None? {
        CollectNone(env, policies[..i], p, e, deletes + upserts);
      } else if got.value.Upsert? {
        CollectUpsert(env, policies[..i], p, e, deletes, upserts, got.value);
        upserts := upserts + [got.value];
      } else {
        CollectDelete(env, policies[..i], p, e, deletes, upserts, got.value);
        deletes := deletes + [got.value];
      }
    }
    assert policies[..|policies|] == policies;
    if |upserts| == 0 && |deletes| == 0 {
      return AckNow;
    }
    return SubmitOps(upserts, deletes);
  }

  /** The message handler: acked at once iff no policy gets an operation, and otherwise exactly what
      the policies get is submitted. */
  method Handle(env: Env, policies: seq<Policy>, e: Event) returns (h: Handled)
    ensures Handles(env, policies, e, h)
    ensures forall op :: op in HandledOps(h) <==> exists p :: p in policies && Gets(env, p, e, op)
    ensures h.AckNow? <==> HandledOps(h) == []
  {
    h := Dispatch(env, policies, e);
    HandledExactly(env, policies, e, h);
  }

  method Dispatch(env: Env, policies: seq<Policy>, e: Event) returns (h: Handled)
    ensures Handles(env, policies, e, h)
  {
    if e.verb == "delete" {
      h := HandleDelete(env, policies, e);
      return;
    }
    if e.response.None? || !UpsertVerb(e.verb) {
      return AckNow;
    }
    var obj := e.response.value;
    if Terminating(env, obj) {
      h := HandleDelete(env, policies, e);
      return;
    }
    var uid := ResolveUid(e);
    if uid == "" {
      return AckNow;
    }
    if !env.multiTenant && Tenant(env, e).1 != "platform" {
      return AckNow;
    }
    h := HandleWrite(env, policies, e);
  }

  // ---- what a policy gets, on the event's own fields ------------------------------------------------

  /** The response has the string v at `outer.inner`. */
  ghost predicate RespAt(e: Event, outer: string, inner: string, v: string) {
    e.response.Some? && HasNested(e.response.value, outer, inner, v)
  }

  ghost predicate NoneAt(e: Event, outer: string, inner: string) {
    forall v :: RespAt(e, outer, inner, v) ==> v == ""
  }

  /** The event is about the object uid. */
  ghost predicate Names(e: Event, uid: string) {
    && uid != ""
    && (|| RespAt(e, "metadata", "uid", uid)
        || (NoneAt(e, "metadata", "uid") && e.refUid == uid)
        || (NoneAt(e, "metadata", "uid") && e.refUid == "" && RespAt(e, "details", "uid", uid)))
  }

  /** The response is an object with a valid deletion timestamp. */
  ghost predicate Dying(env: Env, e: Event) {
    exists t :: t != "" && env.isTime(t) && RespAt(e, "metadata", "deletionTimestamp", t)
  }

  ghost predicate Gone(env: Env, e: Event) {
    e.verb == "delete" || ((e.verb == "create" || e.verb == "update" || e.verb == "patch") && Dying(env, e))
  }

  ghost predicate Live(env: Env, e: Event) {
    (e.verb == "create" || e.verb == "update" || e.verb == "patch") && e.response.Some? && !Dying(env, e)
  }

  /** The annotation's value, if it has one. */
  predicate Annotated(e: Event, key: string) { key in e.annotations && e.annotations[key] != "" }

  predicate TenantNamed(e: Event, name: string) {
    if Annotated(e, "platform.miloapis.com/scope.name") then name == e.annotations["platform.miloapis.com/scope.name"]
    else name == "platform"
  }

  ghost predicate TenantTyped(env: Env, e: Event, kind: string) {
    if Annotated(e, "platform.miloapis.com/scope.type") && e.annotations["platform.miloapis.com/scope.type"] != "platform"
    then kind == env.title(e.annotations["platform.miloapis.com/scope.type"])
    else kind == "platform"
  }

  /** The deleted object can be in the policy's index: its group, and its kind where the response is
      the object and not a Status. */
  predicate OfDeleted(p: Policy, e: Event) {
    if e.response.Some? && GvkOf(e.response.value).kind != "" && GvkOf(e.response.value).kind != "Status"
    then p.target.group == GvkOf(e.response.value).group && p.target.kind == GvkOf(e.response.value).kind
    else p.target.group == e.refGroup
  }

  predicate OfWritten(p: Policy, e: Event)
    requires e.response.Some?
  {
    && p.target.group == GvkOf(e.response.value).group
    && (GvkOf(e.response.value).kind == "" || p.target.kind == GvkOf(e.response.value).kind)
  }

  /** The stored document of a write, key by key. */
  ghost predicate Stores(env: Env, p: Policy, e: Event, uid: string, doc: Json)
    requires e.response.Some?
  {
    && doc.Object?
    && exists tenant, tenantType ::
         && TenantNamed(e, tenant) && TenantTyped(env, e, tenantType)
         && forall k :: Lookup(doc.fields, k)
                     == if k == "uid" && "uid" !in e.response.value then Some(Str(uid))
                        else StoredAt(e.response.value, p.target, tenant, tenantType, k)
  }

  ghost predicate AdmittedTo(env: Env, e: Event) { env.multiTenant || TenantTyped(env, e, "platform") }

  /** The policy gets this operation from the event. */
  ghost predicate Gets(env: Env, p: Policy, e: Event, op: Op) {
    && p.indexName != "" && op.index == p.indexName
    && exists uid :: Names(e, uid) && GetsFor(env, p, e, uid, op)
  }

  ghost predicate GetsFor(env: Env, p: Policy, e: Event, uid: string, op: Op) {
    if Gone(env, e) then OfDeleted(p, e) && op == Delete(p.indexName, uid)
    else
      && Live(env, e) && AdmittedTo(env, e)
      && if Matches(p, e.response.value) then op.Upsert? && Stores(env, p, e, uid, op.doc)
         else e.verb != "create" && OfWritten(p, e) && op == Delete(p.indexName, uid)
  }

  lemma NestedMeans(m: Fields, outer: string, inner: string, v: string)
    ensures v != "" ==> (NestedString(m, outer, inner) == v <==> HasNested(m, outer, inner, v))
    ensures NestedString(m, outer, inner) == "" <==> forall x :: HasNested(m, outer, inner, x) ==> x == ""
  {
    var x := NestedString(m, outer, inner);
    assert x != "" ==> HasNested(m, outer, inner, x);
  }

  lemma NoneAtMeans(e: Event, outer: string, inner: string)
    ensures NoneAt(e, outer, inner) <==> e.response.None? || NestedString(e.response.value, outer, inner) == ""
  {
    if e.response.Some? {
      NestedMeans(e.response.value, outer, inner, "");
      assert forall x :: RespAt(e, outer, inner, x) <==> HasNested(e.response.value, outer, inner, x);
    }
  }

  /** The uid is resolved from the response's metadata, else the reference, else the status details. */
  lemma UidExactly(e: Event, uid: string)
    ensures Names(e, uid) <==> uid != "" && ResolveUid(e) == uid
  {
    NoneAtMeans(e, "metadata", "uid");
    if e.response.Some? {
      NestedMeans(e.response.value, "metadata", "uid", uid);
      NestedMeans(e.response.value, "details", "uid", uid);
    }
  }

  lemma DyingExactly(env: Env, e: Event)
    ensures Dying(env, e) <==> e.response.Some? && Terminating(env, e.response.value)
  {
    if e.response.Some? {
      var t := NestedString(e.response.value, "metadata", "deletionTimestamp");
      NestedMeans(e.response.value, "metadata", "deletionTimestamp", t);
      assert t != "" ==> RespAt(e, "metadata", "deletionTimestamp", t);
    }
  }

  lemma TenantExactly(env: Env, e: Event, name: string, kind: string)
    ensures TenantNamed(e, name) && TenantTyped(env, e, kind) <==> Tenant(env, e) == (name, kind)
    ensures AdmittedTo(env, e) <==> Admitted(env, e)
  {}

  lemma StoresExactly(env: Env, p: Policy, e: Event, uid: string, doc: Json)
    requires e.response.Some? && ResolveUid(e) == uid
    ensures Stores(env, p, e, uid, doc) <==> doc == DocFor(env, p, e)
  {
    var obj := e.response.value;
    var (name, kind) := Tenant(env, e);
    TenantExactly(env, e, name, kind);
    var want := DocFor(env, p, e);
    forall k ensures Lookup(want.fields, k)
                  == if k == "uid" && "uid" !in obj then Some(Str(uid)) else StoredAt(obj, p.target, name, kind, k)
    {
      DocumentExact(obj, p.target, name, kind, uid, k);
    }
    if Stores(env, p, e, uid, doc) {
      var tenant, tenantType :|
        && TenantNamed(e, tenant) && TenantTyped(env, e, tenantType)
        && forall k :: Lookup(doc.fields, k)
                    == if k == "uid" && "uid" !in obj then Some(Str(uid)) else StoredAt(obj, p.target, tenant, tenantType, k);
      TenantExactly(env, e, tenant, tenantType);
      SameFields(doc.fields, want.fields);
    }
  }

  /** What the policies get is what the handler computes for them. */
  lemma GetsExactly(env: Env, p: Policy, e: Event, op: Op)
    ensures Gets(env, p, e, op) <==> OpFor(env, p, e) == Some(op)
  {
    var uid := ResolveUid(e);
    forall u ensures Names(e, u) <==> u != "" && u == uid {
      UidExactly(e, u);
    }
    if uid != "" {
      GetsForExactly(env, p, e, op);
    }
  }

  lemma GetsForExactly(env: Env, p: Policy, e: Event, op: Op)
    requires ResolveUid(e) != ""
    ensures p.indexName != "" && op.index == p.indexName && GetsFor(env, p, e, ResolveUid(e), op)
       <==> OpFor(env, p, e) == Some(op)
  {
    DyingExactly(env, e);
    TenantExactly(env, e, "", "platform");
    if e.response.Some? && op.Upsert? {
      StoresExactly(env, p, e, ResolveUid(e), op.doc);
    }
  }

  lemma HandledExactly(env: Env, policies: seq<Policy>, e: Event, h: Handled)
    requires Handles(env, policies, e, h)
    ensures forall op :: op in HandledOps(h) <==> exists p :: p in policies && Gets(env, p, e, op)
    ensures h.AckNow? <==> HandledOps(h) == []
  {
    assert Collects(env, policies, e, HandledOps(h));
    forall op ensures op in HandledOps(h) <==> exists p :: p in policies && Gets(env, p, e, op) {
      forall p ensures Gets(env, p, e, op) <==> OpFor(env, p, e) == Some(op) {
        GetsExactly(env, p, e, op);
      }
    }
  }

  /** A deletion reaches exactly the indexes of the object's group, and kind where it is known. */
  lemma DeletedExactly(env: Env, policies: seq<Policy>, e: Event, h: Handled)
    requires Deleting(env, e) && Handles(env, policies, e, h)
    ensures forall op :: op in HandledOps(h) <==>
              exists p, uid :: p in policies && p.indexName != "" && Names(e, uid) && OfDeleted(p, e)
                            && op == Delete(p.indexName, uid)
  {
    DyingExactly(env, e);
    HandledExactly(env, policies, e, h);
    forall op ensures op in HandledOps(h) <==>
                exists p, uid :: p in policies && p.indexName != "" && Names(e, uid) && OfDeleted(p, e)
                              && op == Delete(p.indexName, uid)
    {
      if op in HandledOps(h) {
        var p :| p in policies && Gets(env, p, e, op);
        var uid :| Names(e, uid) && GetsFor(env, p, e, uid, op);
      }
      if p, uid :| p in policies && p.indexName != "" && Names(e, uid) && OfDeleted(p, e) && op == Delete(p.indexName, uid) {
        assert GetsFor(env, p, e, uid, op);
        assert Gets(env, p, e, op);
      }
    }
  }

  // ---- agreement between policies and index -----------------------------------------------------------

  function HandledOps(h: Handled): seq<Op> {
    match h
    case AckNow => []
    case SubmitOps(upserts, deletes) => deletes + upserts
  }

  function AllOps(hs: seq<Handled>): seq<Op> {
    if hs == [] then [] else AllOps(hs[..|hs| - 1]) + HandledOps(hs[|hs| - 1])
  }

  /** Every event was handled with the same policies, listed in whatever order. */
  ghost predicate HandledAll(env: Env, policies: set<Policy>, events: seq<Event>, hs: seq<Handled>) {
    && |hs| == |events|
    && forall i :: 0 <= i < |events| ==> HandledOne(env, policies, events[i], hs[i])
  }

  ghost predicate HandledOne(env: Env, policies: set<Policy>, e: Event, h: Handled) {
    exists order: seq<Policy> :: (forall p :: p in order <==> p in policies) && Handles(env, order, e, h)
  }

  /** Index names are set and belong to one policy each. */
  ghost predicate OwnIndexes(policies: set<Policy>) {
    forall p, q :: p in policies && q in policies ==> p.indexName != "" && (p.indexName == q.indexName ==> p == q)
  }

  predicate Relevant(env: Env, e: Event, uid: string) {
    ResolveUid(e) == uid && (Deleting(env, e) || Writing(env, e))
  }

  function LastEvent(env: Env, events: seq<Event>, uid: string): Option<Event> {
    if events == [] then None
    else if Relevant(env, events[|events| - 1], uid) then Some(events[|events| - 1])
    else LastEvent(env, events[..|events| - 1], uid)
  }

  /** The event fits the object's type: a write carries the object itself, of its group and kind,
      admitted, with no top-level uid but its own; a deletion names its group; a create comes first. */
  ghost predicate FitsType(env: Env, typeOf: string -> (string, string), before: seq<Event>, e: Event) {
    var uid := ResolveUid(e);
    && (Writing(env, e) ==>
          && uid != "" && Admitted(env, e) && ("uid" in e.response.value ==> e.response.value["uid"] == Str(uid))
          && GvkOf(e.response.value).group == typeOf(uid).0 && GvkOf(e.response.value).kind == typeOf(uid).1
          && typeOf(uid).1 != ""
          && (e.verb == "create" ==> LastEvent(env, before, uid) == None))
    && (Deleting(env, e) ==>
          && uid != ""
          && if e.response.Some? && GvkOf(e.response.value).kind != "" && GvkOf(e.response.value).kind != "Status"
             then GvkOf(e.response.value).group == typeOf(uid).0 && GvkOf(e.response.value).kind == typeOf(uid).1
             else e.refGroup == typeOf(uid).0)
  }

  ghost predicate WellBehaved(env: Env, typeOf: string -> (string, string), events: seq<Event>) {
    forall i :: 0 <= i < |events| ==> FitsType(env, typeOf, events[..i], events[i])
  }

  /** What the policy says about an object: its last event's document, if that event is a write
      the policy matches. */
  ghost function Says(env: Env, p: Policy, events: seq<Event>, uid: string): Option<Json> {
    match LastEvent(env, events, uid)
    case None => None
    case Some(e) => if Writing(env, e) && Matches(p, e.response.value) then Some(DocFor(env, p, e)) else None
  }

  lemma LastEventMeans(env: Env, events: seq<Event>, uid: string)
    requires LastEvent(env, events, uid).Some?
    ensures exists i :: 0 <= i < |events| && events[i] == LastEvent(env, events, uid).value && Relevant(env, events[i], uid)
  {
    if !Relevant(env, events[|events| - 1], uid) {
      var init := events[..|events| - 1];
      LastEventMeans(env, init, uid);
      var i :| 0 <= i < |init| && init[i] == LastEvent(env, init, uid).value && Relevant(env, init[i], uid);
      assert events[i] == init[i];
    }
  }

  /** A policy says something only about objects of its own type. */
  lemma SaysOwnType(env: Env, typeOf: string -> (string, string), p: Policy, events: seq<Event>, uid: string)
    requires WellBehaved(env, typeOf, events) && Says(env, p, events, uid).Some?
    ensures p.target.group == typeOf(uid).0 && p.target.kind == typeOf(uid).1
  {
    LastEventMeans(env, events, uid);
    var i :| 0 <= i < |events| && events[i] == LastEvent(env, events, uid).value && Relevant(env, events[i], uid);
    assert FitsType(env, typeOf, events[..i], events[i]);
  }

  lemma {:induction false} LastForUnique(ops: seq<Op>, t: Target, one: Op)
    requires one in ops && TargetOf(one) == t && forall op :: op in ops && TargetOf(op) == t ==> op == one
    ensures LastFor(ops, t) == Some(one)
  {
    var init, last := ops[..|ops| - 1], ops[|ops| - 1];
    assert ops == init + [last];
    if TargetOf(last) != t {
      LastForUnique(init, t, one);
    }
  }

  lemma OpForTarget(env: Env, typeOf: string -> (string, string), before: seq<Event>, p: Policy, e: Event)
    requires FitsType(env, typeOf, before, e) && OpFor(env, p, e).Some?
    ensures TargetOf(OpFor(env, p, e).value) == Target(p.indexName, ResolveUid(e))
  {}

  /** One event decides each policy's document of its own object and nothing else. */
  lemma EventDecides(env: Env, typeOf: string -> (string, string), before: seq<Event>, policies: set<Policy>,
                     p: Policy, e: Event, h: Handled, uid: string)
    requires OwnIndexes(policies) && p in policies && HandledOne(env, policies, e, h)
    requires FitsType(env, typeOf, before, e)
    ensures LastFor(HandledOps(h), Target(p.indexName, uid)) == if uid == ResolveUid(e) then OpFor(env, p, e) else None
  {
    var order: seq<Policy> :| (forall q :: q in order <==> q in policies) && Handles(env, order, e, h);
    var ops, t := HandledOps(h), Target(p.indexName, uid);
    assert Collects(env, order, e, ops);
    forall op | op in ops && TargetOf(op) == t ensures uid == ResolveUid(e) && OpFor(env, p, e) == Some(op) {
      var q :| q in order && OpFor(env, q, e) == Some(op);
      OpForTarget(env, typeOf, before, q, e);
    }
    if uid == ResolveUid(e) && OpFor(env, p, e).Some? {
      var op := OpFor(env, p, e).value;
      OpForTarget(env, typeOf, before, p, e);
      assert op in ops;
      LastForUnique(ops, t, op);
    } else {
      NoLast(ops, t);
    }
  }

  lemma SaysNext(env: Env, typeOf: string -> (string, string), p: Policy, before: seq<Event>, e: Event, uid: string)
    requires WellBehaved(env, typeOf, before) && FitsType(env, typeOf, before, e) && p.indexName != ""
    ensures Says(env, p, before + [e], uid)
         == match (if uid == ResolveUid(e) then OpFor(env, p, e) else None)
            case None => Says(env, p, before, uid)
            case Some(op) => if op.Upsert? then Some(op.doc) else None
  {
    var after := before + [e];
    assert after[..|after| - 1] == before;
    if Relevant(env, e, uid) && OpFor(env, p, e).None? && Says(env, p, before, uid).Some? {
      SaysOwnType(env, typeOf, p, before, uid);
    }
  }

  lemma PrefixBehaves(env: Env, typeOf: string -> (string, string), events: seq<Event>, n: nat)
    requires WellBehaved(env, typeOf, events) && n < |events|
    ensures WellBehaved(env, typeOf, events[..n]) && FitsType(env, typeOf, events[..n], events[n])
  {
    forall i | 0 <= i < n ensures FitsType(env, typeOf, events[..n][..i], events[..n][i]) {
      assert events[..n][..i] == events[..i];
    }
  }

  lemma PrefixHandled(env: Env, policies: set<Policy>, events: seq<Event>, hs: seq<Handled>, n: nat)
    requires HandledAll(env, policies, events, hs) && n < |events|
    ensures HandledAll(env, policies, events[..n], hs[..n]) && HandledOne(env, policies, events[n], hs[n])
  {}

  /** After these events the operations leave what the policy says about the object. */
  ghost predicate Agrees(env: Env, p: Policy, uid: string, events: seq<Event>, ops: seq<Op>) {
    Lookup(ApplyOps(map[], ops), Target(p.indexName, uid)) == Says(env, p, events, uid)
  }

  lemma AgreesNext(env: Env, typeOf: string -> (string, string), policies: set<Policy>, before: seq<Event>,
                   done: seq<Op>, p: Policy, e: Event, h: Handled, uid: string)
    requires OwnIndexes(policies) && p in policies && HandledOne(env, policies, e, h)
    requires WellBehaved(env, typeOf, before) && FitsType(env, typeOf, before, e)
    requires Agrees(env, p, uid, before, done)
    ensures Agrees(env, p, uid, before + [e], done + HandledOps(h))
  {
    SaysNext(env, typeOf, p, before, e, uid);
    EventDecides(env, typeOf, before, policies, p, e, h, uid);
    ApplyOpsConcat(map[], done, HandledOps(h));
    AppliedLookup(ApplyOps(map[], done), HandledOps(h), Target(p.indexName, uid));
  }

  /** Replaying the handler's operations leaves an object in a policy's index iff its last event
      is a live write the policy matches, and then that event's document. */
  lemma IndexAgrees(env: Env, typeOf: string -> (string, string), policies: set<Policy>,
                    events: seq<Event>, hs: seq<Handled>, p: Policy, uid: string)
    requires OwnIndexes(policies) && p in policies
    requires HandledAll(env, policies, events, hs) && WellBehaved(env, typeOf, events)
    ensures Lookup(ApplyOps(map[], AllOps(hs)), Target(p.indexName, uid)) == Says(env, p, events, uid)
  {
    AgreesAll(env, typeOf, policies, events, hs, p, uid);
  }

  lemma {:induction false} AgreesAll(env: Env, typeOf: string -> (string, string), policies: set<Policy>,
                                     events: seq<Event>, hs: seq<Handled>, p: Policy, uid: string)
    requires OwnIndexes(policies) && p in policies
    requires HandledAll(env, policies, events, hs) && WellBehaved(env, typeOf, events)
    ensures Agrees(env, p, uid, events, AllOps(hs))
    decreases |events|
  {
    if events != [] {
      var n := |events| - 1;
      PrefixBehaves(env, typeOf, events, n);
      PrefixHandled(env, policies, events, hs, n);
      AgreesAll(env, typeOf, policies, events[..n], hs[..n], p, uid);
      AgreesNext(env, typeOf, policies, events[..n], AllOps(hs[..n]), p, events[n], hs[n], uid);
      assert events[..n] + [events[n]] == events;
    }
  }
}
