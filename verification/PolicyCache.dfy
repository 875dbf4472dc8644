/** The policy cache: after any informer events it holds exactly the policies whose latest event
    leaves them live, and Ready where that is required, compiled from that event. */
module PolicyCache {
  import opened Json
  import opened Documents

  datatype Condition = Condition(name: string, expression: string)

  datatype StatusCondition = StatusCondition(kind: string, status: string)

  /** A ResourceIndexPolicy object as the API server sends it. */
  datatype PolicyObject = PolicyObject(
    name: string, target: Gvk, indexName: string, conditions: seq<Condition>,
    statusConditions: seq<StatusCondition>, terminating: bool)

  /** An informer callback. `Unusable` is one whose object has an unexpected type. */
  datatype InformerEvent = Added(p: PolicyObject) | Updated(p: PolicyObject) | Deleted(p: PolicyObject) | Unusable

  /** Compiles an expression to a boolean program, or fails. */
  type Compiler = string -> Option<Program>

  /** The first status condition of that kind is "True". */
  predicate ConditionTrue(cs: seq<StatusCondition>, kind: string) {
    cs != [] && if cs[0].kind == kind then cs[0].status == "True" else ConditionTrue(cs[1..], kind)
  }

  /** The last condition of that name that compiles. */
  function LastCompiled(compile: Compiler, cs: seq<Condition>, name: string): Option<Program> {
    if cs == [] then None
    else
      var c := cs[|cs| - 1];
      if c.name == name && compile(c.expression).Some? then compile(c.expression)
      else LastCompiled(compile, cs[..|cs| - 1], name)
  }

  ghost predicate CompiledFrom(compile: Compiler, p: PolicyObject, cached: Policy) {
    && cached.name == p.name && cached.target == p.target && cached.indexName == p.indexName
    && forall n :: Lookup(cached.conditions, n) == LastCompiled(compile, p.conditions, n)
  }

  /** Compiles what compiles; the other conditions are logged and skipped. */
  method Compile(compile: Compiler, p: PolicyObject) returns (cached: Policy)
    ensures CompiledFrom(compile, p, cached)
  {
    var conditions: map<string, Program> := map[];
    for i := 0 to |p.conditions|
      invariant forall n :: Lookup(conditions, n) == LastCompiled(compile, p.conditions[..i], n)
    {
      var c := p.conditions[i];
      assert p.conditions[..i + 1][..i] == p.conditions[..i];
      var program := compile(c.expression);
      if program.None? {
        continue;
      }
      conditions := conditions[c.name := program.value];
    }
    assert p.conditions[..|p.conditions|] == p.conditions;
    return Policy(p.name, p.target, p.indexName, conditions);
  }

  // ---- what the cache should hold ------------------------------------------------------------------

  predicate Concerns(e: InformerEvent, name: string) { !e.Unusable? && e.p.name == name }

  function LastEvent(events: seq<InformerEvent>, name: string): Option<InformerEvent> {
    if events == [] then None
    else if Concerns(events[|events| - 1], name) then Some(events[|events| - 1])
    else LastEvent(events[..|events| - 1], name)
  }

  /** The version to cache: the latest one, if it is live and Ready where required. */
  function Current(strict: bool, events: seq<InformerEvent>, name: string): Option<PolicyObject> {
    match LastEvent(events, name)
    case Some(Added(p)) => Admissible(strict, p)
    case Some(Updated(p)) => Admissible(strict, p)
    case _ => None
  }

  function Admissible(strict: bool, p: PolicyObject): Option<PolicyObject> {
    if p.terminating || (strict && !ConditionTrue(p.statusConditions, "Ready")) then None else Some(p)
  }

  ghost predicate Holds(compile: Compiler, strict: bool, events: seq<InformerEvent>, policies: map<string, Policy>) {
    forall name ::
      && (name in policies <==> Current(strict, events, name).Some?)
      && (name in policies ==> CompiledFrom(compile, Current(strict, events, name).value, policies[name]))
  }

  /** The first status condition of that kind says "True". */
  ghost predicate FirstTrue(cs: seq<StatusCondition>, kind: string) {
    exists i :: 0 <= i < |cs| && cs[i] == StatusCondition(kind, "True") && forall j :: 0 <= j < i ==> cs[j].kind != kind
  }

  lemma {:induction false} ConditionExactly(cs: seq<StatusCondition>, kind: string)
    ensures ConditionTrue(cs, kind) <==> FirstTrue(cs, kind)
  {
    if cs != [] {
      var tail := cs[1..];
      ConditionExactly(tail, kind);
      if cs[0].kind != kind {
        if i :| 0 <= i < |tail| && tail[i] == StatusCondition(kind, "True") && forall j :: 0 <= j < i ==> tail[j].kind != kind {
          assert cs[i + 1] == tail[i] && forall j :: 0 <= j < i + 1 ==> j == 0 || cs[j] == tail[j - 1];
        }
        if i :| 0 <= i < |cs| && cs[i] == StatusCondition(kind, "True") && forall j :: 0 <= j < i ==> cs[j].kind != kind {
          assert tail[i - 1] == cs[i] && forall j :: 0 <= j < i - 1 ==> tail[j] == cs[j + 1];
        }
      }
    }
  }

  /** Event i adds or updates the policy to p, and no later usable event is about its name. */
  ghost predicate LastWord(events: seq<InformerEvent>, i: nat, p: PolicyObject)
    requires i < |events|
  {
    && (events[i] == Added(p) || events[i] == Updated(p))
    && forall j :: i < j < |events| ==> events[j].Unusable? || events[j].p.name != p.name
  }

  /** Event i is about the name and no later one is. */
  ghost predicate LastAbout(events: seq<InformerEvent>, i: nat, name: string)
    requires i < |events|
  {
    Concerns(events[i], name) && forall j :: i < j < |events| ==> !Concerns(events[j], name)
  }

  lemma LastAboutLonger(init: seq<InformerEvent>, last: InformerEvent, i: nat, name: string)
    requires i < |init|
    ensures LastAbout(init + [last], i, name) <==> LastAbout(init, i, name) && !Concerns(last, name)
  {
    var events := init + [last];
    assert events[|init|] == last;
    assert forall j :: 0 <= j < |init| ==> events[j] == init[j];
  }

  lemma {:induction false} LastEventAt(events: seq<InformerEvent>, name: string) returns (i: nat)
    requires LastEvent(events, name).Some?
    ensures i < |events| && LastAbout(events, i, name) && LastEvent(events, name) == Some(events[i])
  {
    var init, last := events[..|events| - 1], events[|events| - 1];
    if Concerns(last, name) {
      i := |events| - 1;
    } else {
      i := LastEventAt(init, name);
      LastAboutLonger(init, last, i, name);
      assert init + [last] == events;
    }
  }

  lemma {:induction false} LastEventIs(events: seq<InformerEvent>, i: nat, name: string)
    requires i < |events| && LastAbout(events, i, name)
    ensures LastEvent(events, name) == Some(events[i])
  {
    if i < |events| - 1 {
      var init, last := events[..|events| - 1], events[|events| - 1];
      assert init + [last] == events;
      LastAboutLonger(init, last, i, name);
      LastEventIs(init, i, name);
    }
  }

  /** The version a cache holds is the one its latest usable event brought, and only while it is live
      and, in strict mode, its first Ready condition is "True". */
  lemma CurrentExactly(strict: bool, events: seq<InformerEvent>, name: string, p: PolicyObject)
    ensures Current(strict, events, name) == Some(p) <==>
              && p.name == name && !p.terminating && (strict ==> FirstTrue(p.statusConditions, "Ready"))
              && exists i :: 0 <= i < |events| && LastWord(events, i, p)
  {
    ConditionExactly(p.statusConditions, "Ready");
    if Current(strict, events, name) == Some(p) {
      var i := LastEventAt(events, name);
      assert LastWord(events, i, p);
    }
    if i :| 0 <= i < |events| && LastWord(events, i, p) && p.name == name {
      assert LastAbout(events, i, name);
      LastEventIs(events, i, name);
    }
  }

  /** Under a name runs the last condition of that name that compiles. */
  lemma {:induction false} CompiledExactly(compile: Compiler, cs: seq<Condition>, n: string, program: Program)
    ensures LastCompiled(compile, cs, n) == Some(program) <==>
              exists i :: 0 <= i < |cs| && LastGood(compile, cs, i, n) && compile(cs[i].expression) == Some(program)
  {
    if cs != [] {
      var init := cs[..|cs| - 1];
      CompiledExactly(compile, init, n, program);
      if i :| 0 <= i < |init| && LastGood(compile, init, i, n) && compile(init[i].expression) == Some(program) {
        assert cs[i] == init[i] && forall j :: i < j < |init| ==> cs[j] == init[j];
      }
      if i :| 0 <= i < |cs| && LastGood(compile, cs, i, n) && compile(cs[i].expression) == Some(program) {
        if i < |init| {
          assert init[i] == cs[i] && forall j :: i < j < |init| ==> init[j] == cs[j];
          assert LastGood(compile, init, i, n);
        }
      }
    }
  }

  ghost predicate LastGood(compile: Compiler, cs: seq<Condition>, i: nat, n: string)
    requires i < |cs|
  {
    && cs[i].name == n && compile(cs[i].expression).Some?
    && forall j :: i < j < |cs| ==> cs[j].name != n || compile(cs[j].expression).None?
  }

  class Cache {
    const strict: bool
    const compile: Compiler
    var policies: map<string, Policy>
    ghost var events: seq<InformerEvent>

    ghost predicate Valid()
      reads this
    {
      Holds(compile, strict, events, policies)
    }

    constructor (strict: bool, compile: Compiler)
      ensures Valid() && events == [] && policies == map[] && this.strict == strict && this.compile == compile
    {
      this.strict, this.compile := strict, compile;
      policies, events := map[], [];
    }

    method DeletePolicy(name: string)
      modifies this`policies
      ensures policies == old(policies) - {name}
    {
      policies := policies - {name};
    }

    method UpsertPolicy(p: PolicyObject)
      modifies this`policies
      ensures if Admissible(strict, p).None? then policies == old(policies) - {p.name}
              else p.name in policies && policies == old(policies)[p.name := policies[p.name]]
                   && CompiledFrom(compile, p, policies[p.name])
    {
      if p.terminating {
        DeletePolicy(p.name);
        return;
      }
      if strict {
        if !ConditionTrue(p.statusConditions, "Ready") {
          DeletePolicy(p.name);
          return;
        }
      }
      var cached := Compile(compile, p);
      policies := policies[p.name := cached];
    }

    /** One informer callback. */
    method OnEvent(e: InformerEvent)
      requires Valid()
      modifies this
      ensures Valid() && events == old(events) + [e]
    {
      match e {
        case Added(p) => UpsertPolicy(p);
        case Updated(p) => UpsertPolicy(p);
        case Deleted(p) => DeletePolicy(p.name);
        case Unusable =>
      }
      events := events + [e];
      HoldsNext(compile, strict, old(events), old(policies), e, policies);
    }

    method GetPolicy(name: string) returns (p: Option<Policy>)
      requires Valid()
      ensures p.Some? <==> Current(strict, events, name).Some?
      ensures p.Some? ==> CompiledFrom(compile, Current(strict, events, name).value, p.value)
    {
      p := Lookup(policies, name);
    }

    /** A snapshot of the cache in some order, each policy once. */
    method GetPolicies() returns (ps: seq<Policy>)
      requires Valid()
      ensures forall p :: p in ps <==> exists name :: name in policies && policies[name] == p
      ensures |ps| == |policies| && forall i, j :: 0 <= i < j < |ps| ==> ps[i].name != ps[j].name
    {
      forall name | name in policies ensures policies[name].name == name {
        CurrentNamed(strict, events, name);
      }
      ps := Snapshot(policies);
    }
  }

  method Snapshot(policies: map<string, Policy>) returns (ps: seq<Policy>)
    requires forall name :: name in policies ==> policies[name].name == name
    ensures forall p :: p in ps <==> exists name :: name in policies && policies[name] == p
    ensures |ps| == |policies| && forall i, j :: 0 <= i < j < |ps| ==> ps[i].name != ps[j].name
  {
    ps := [];
    var names := policies.Keys;
    while names != {}
      invariant names <= policies.Keys && |ps| == |policies.Keys| - |names|
      invariant forall p :: p in ps <==> exists name :: name in policies && name !in names && policies[name] == p
      invariant forall i :: 0 <= i < |ps| ==> ps[i].name !in names
      invariant forall i, j :: 0 <= i < j < |ps| ==> ps[i].name != ps[j].name
    {
      var name :| name in names;
      ps := ps + [policies[name]];
      names := names - {name};
    }
  }

  ghost predicate Applied(compile: Compiler, strict: bool, before: map<string, Policy>, e: InformerEvent,
                          after: map<string, Policy>) {
    match e
    case Unusable => after == before
    case Deleted(p) => after == before - {p.name}
    case _ =>
      if Admissible(strict, e.p).None? then after == before - {e.p.name}
      else e.p.name in after && after == before[e.p.name := after[e.p.name]] && CompiledFrom(compile, e.p, after[e.p.name])
  }

  lemma HoldsNext(compile: Compiler, strict: bool, events: seq<InformerEvent>, before: map<string, Policy>,
                  e: InformerEvent, after: map<string, Policy>)
    requires Holds(compile, strict, events, before) && Applied(compile, strict, before, e, after)
    ensures Holds(compile, strict, events + [e], after)
  {
    forall name ensures Current(strict, events + [e], name)
                     == if Concerns(e, name) then (if e.Deleted? then None else Admissible(strict, e.p))
                        else Current(strict, events, name)
    {
      CurrentNext(strict, events, e, name);
    }
  }

  lemma CurrentNext(strict: bool, events: seq<InformerEvent>, e: InformerEvent, name: string)
    ensures Current(strict, events + [e], name)
         == if Concerns(e, name) then (if e.Deleted? then None else Admissible(strict, e.p))
            else Current(strict, events, name)
  {
    assert (events + [e])[..|events|] == events;
  }

  // ---- consequences --------------------------------------------------------------------------------

  lemma {:induction false} CurrentNamed(strict: bool, events: seq<InformerEvent>, name: string)
    requires Current(strict, events, name).Some?
    ensures Current(strict, events, name).value.name == name
  {
    if !Concerns(events[|events| - 1], name) {
      CurrentNamed(strict, events[..|events| - 1], name);
    }
  }

  lemma SamePolicy(compile: Compiler, p: PolicyObject, a: Policy, b: Policy)
    requires CompiledFrom(compile, p, a) && CompiledFrom(compile, p, b)
    ensures a == b
  {
    var ours, theirs := a.conditions, b.conditions;
    forall n ensures (n in ours <==> n in theirs) && (n in ours ==> ours[n] == theirs[n]) {
      assert Lookup(ours, n) == LastCompiled(compile, p.conditions, n) == Lookup(theirs, n);
    }
    assert ours == theirs;
  }

  /** Fed the same events, the strict cache is a sub-map of the other one. */
  lemma StrictIsPart(compile: Compiler, events: seq<InformerEvent>, strict: map<string, Policy>, loose: map<string, Policy>)
    requires Holds(compile, true, events, strict) && Holds(compile, false, events, loose)
    ensures forall name :: name in strict ==> name in loose && strict[name] == loose[name]
  {
    forall name | name in strict ensures name in loose && strict[name] == loose[name] {
      assert Current(false, events, name) == Current(true, events, name);
      SamePolicy(compile, Current(true, events, name).value, strict[name], loose[name]);
    }
  }

  /** A policy in the cache matches an object of its type iff one of its compiled conditions says so,
      or none of its conditions compiled at all. */
  lemma CachedMatches(compile: Compiler, p: PolicyObject, cached: Policy, obj: Fields)
    requires CompiledFrom(compile, p, cached)
    ensures Matches(cached, obj) <==>
              && GvkOf(obj) == p.target
              && ((forall c :: c in p.conditions ==> compile(c.expression).None?)
                  || exists n :: LastCompiled(compile, p.conditions, n).Some?
                              && LastCompiled(compile, p.conditions, n).value(Activation(obj)) == CelBool(true))
  {
    forall n ensures n in cached.conditions <==> LastCompiled(compile, p.conditions, n).Some?
             ensures n in cached.conditions ==> LastCompiled(compile, p.conditions, n) == Some(cached.conditions[n]) {
      assert Lookup(cached.conditions, n) == LastCompiled(compile, p.conditions, n);
    }
    if cached.conditions == map[] {
      forall c | c in p.conditions ensures compile(c.expression).None? {
        if compile(c.expression).Some? {
          CompiledStays(compile, p.conditions, c);
        }
      }
    } else {
      var n :| n in cached.conditions;
      CompiledSource(compile, p.conditions, n);
      if Matches(cached, obj) {
        var m :| m in cached.conditions && cached.conditions[m](Activation(obj)) == CelBool(true);
        assert LastCompiled(compile, p.conditions, m).value(Activation(obj)) == CelBool(true);
      }
    }
  }

  lemma {:induction false} CompiledStays(compile: Compiler, cs: seq<Condition>, c: Condition)
    requires c in cs && compile(c.expression).Some?
    ensures LastCompiled(compile, cs, c.name).Some?
  {
    if c != cs[|cs| - 1] {
      CompiledStays(compile, cs[..|cs| - 1], c);
    }
  }

  lemma {:induction false} CompiledSource(compile: Compiler, cs: seq<Condition>, n: string)
    requires LastCompiled(compile, cs, n).Some?
    ensures exists c :: c in cs && c.name == n && compile(c.expression) == LastCompiled(compile, cs, n)
  {
    var c := cs[|cs| - 1];
    if !(c.name == n && compile(c.expression).Some?) {
      CompiledSource(compile, cs[..|cs| - 1], n);
    }
  }
}
