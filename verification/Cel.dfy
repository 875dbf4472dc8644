/** The operator check on CEL expression trees. */
module Cel {
  import opened Json

  /** An expression tree; `Absent` is a missing subexpression. */
  datatype Expr =
    | Absent
    | Leaf
    | Call(callee: string, target: Option<Expr>, args: seq<Expr>)
    | Select(operand: Expr)
    | List(elements: seq<Expr>)
    | Map(entries: seq<Entry>)
    | Struct(fields: seq<Expr>)
    | Comprehension(range: Expr, init: Expr, condition: Expr, step: Expr, result: Expr)

  datatype Entry = Entry(key: Expr, value: Expr)

  datatype Verdict = Accepted | TooDeep | NotAllowed(name: string)

  const AllowedOperators: set<string> := {
    "_==_", "_!=_", "_<_", "_<=_", "_>_", "_>=_", "_&&_", "_||_", "!_", "_[_]", "_._", "_?_:_", "has",
    "contains", "startsWith", "endsWith", "matches", "@in", "exists", "all", "size", "map", "filter"
  }

  /** Allow-listed, internal to CEL, or a concatenation with a list literal. */
  predicate CallAllowed(name: string, args: seq<Expr>) {
    || "@" <= name
    || name in AllowedOperators
    || (name == "_+_" && |args| == 2 && (args[0].List? || args[1].List?))
  }

  function CheckExpr(e: Expr, depth: nat, maxDepth: int): Verdict
    decreases e
  {
    if e.Absent? then Accepted
    else if depth > maxDepth then TooDeep
    else
      match e
      case Absent => Accepted
      case Leaf => Accepted
      case Call(name, target, args) =>
        if !CallAllowed(name, args) then NotAllowed(name)
        else
          var t := if target.Some? then CheckExpr(target.value, depth + 1, maxDepth) else Accepted;
          if t != Accepted then t else CheckAll(args, depth + 1, maxDepth)
      case Select(operand) => CheckExpr(operand, depth + 1, maxDepth)
      case List(elements) => CheckAll(elements, depth + 1, maxDepth)
      case Map(entries) => CheckEntries(entries, depth + 1, maxDepth)
      case Struct(fields) => CheckAll(fields, depth + 1, maxDepth)
      case Comprehension(range, init, condition, step, result) =>
        var r := CheckExpr(range, depth + 1, maxDepth);
        if r != Accepted then r else
        var i := CheckExpr(init, depth + 1, maxDepth);
        if i != Accepted then i else
        var c := CheckExpr(condition, depth + 1, maxDepth);
        if c != Accepted then c else
        var s := CheckExpr(step, depth + 1, maxDepth);
        if s != Accepted then s else CheckExpr(result, depth + 1, maxDepth)
  }

  function CheckAll(es: seq<Expr>, depth: nat, maxDepth: int): Verdict
    decreases es
  {
    if es == [] then Accepted
    else
      var v := CheckExpr(es[0], depth, maxDepth);
      if v != Accepted then v else CheckAll(es[1..], depth, maxDepth)
  }

  function CheckEntry(entry: Entry, depth: nat, maxDepth: int): Verdict
    decreases entry
  {
    var k := CheckExpr(entry.key, depth, maxDepth);
    if k != Accepted then k else CheckExpr(entry.value, depth, maxDepth)
  }

  function CheckEntries(entries: seq<Entry>, depth: nat, maxDepth: int): Verdict
    decreases entries
  {
    if entries == [] then Accepted
    else
      var v := CheckEntry(entries[0], depth, maxDepth);
      if v != Accepted then v else CheckEntries(entries[1..], depth, maxDepth)
  }

  // ---- meaning ---------------------------------------------------------------------------------

  /** The subexpressions of a node, in the order they are visited. */
  function Children(e: Expr): seq<Expr> {
    match e
    case Absent => []
    case Leaf => []
    case Call(_, target, args) => (if target.Some? then [target.value] else []) + args
    case Select(operand) => [operand]
    case List(elements) => elements
    case Map(entries) => Flat(entries)
    case Struct(fields) => fields
    case Comprehension(range, init, condition, step, result) => [range, init, condition, step, result]
  }

  function Flat(entries: seq<Entry>): seq<Expr> {
    if entries == [] then [] else [entries[0].key, entries[0].value] + Flat(entries[1..])
  }

  /** The node a path of child positions leads to. */
  function At(e: Expr, path: seq<nat>): Option<Expr>
    decreases |path|
  {
    if path == [] then Some(e)
    else if path[0] < |Children(e)| then At(Children(e)[path[0]], path[1..])
    else None
  }

  predicate NodeFine(e: Expr, depth: nat, maxDepth: int) {
    e.Absent? || (depth <= maxDepth && (e.Call? ==> CallAllowed(e.callee, e.args)))
  }

  ghost predicate AllFine(e: Expr, depth: nat, maxDepth: int) {
    forall path :: At(e, path).Some? ==> NodeFine(At(e, path).value, depth + |path|, maxDepth)
  }

  ghost predicate EachFine(es: seq<Expr>, depth: nat, maxDepth: int) {
    forall i :: 0 <= i < |es| ==> AllFine(es[i], depth, maxDepth)
  }

  lemma SubtreeFine(e: Expr, depth: nat, maxDepth: int, i: nat)
    requires AllFine(e, depth, maxDepth) && i < |Children(e)|
    ensures AllFine(Children(e)[i], depth + 1, maxDepth)
  {
    var child := Children(e)[i];
    forall path | At(child, path).Some? ensures NodeFine(At(child, path).value, depth + 1 + |path|, maxDepth) {
      var longer: seq<nat> := [i] + path;
      assert longer[1..] == path && At(e, longer) == At(child, path);
    }
  }

  lemma TreeFine(e: Expr, depth: nat, maxDepth: int)
    requires NodeFine(e, depth, maxDepth) && EachFine(Children(e), depth + 1, maxDepth)
    ensures AllFine(e, depth, maxDepth)
  {
    forall path | At(e, path).Some? ensures NodeFine(At(e, path).value, depth + |path|, maxDepth) {
      if path != [] {
        assert AllFine(Children(e)[path[0]], depth + 1, maxDepth);
      }
    }
  }

  /** A tree is fine iff its root is and all its subtrees are, one level deeper. */
  lemma FineUnfolds(e: Expr, depth: nat, maxDepth: int)
    ensures AllFine(e, depth, maxDepth) <==> NodeFine(e, depth, maxDepth) && EachFine(Children(e), depth + 1, maxDepth)
  {
    if AllFine(e, depth, maxDepth) {
      assert At(e, []) == Some(e);
      forall i | 0 <= i < |Children(e)| ensures AllFine(Children(e)[i], depth + 1, maxDepth) {
        SubtreeFine(e, depth, maxDepth, i);
      }
    } else if NodeFine(e, depth, maxDepth) && EachFine(Children(e), depth + 1, maxDepth) {
      TreeFine(e, depth, maxDepth);
    }
  }

  lemma EachFineConcat(a: seq<Expr>, b: seq<Expr>, depth: nat, maxDepth: int)
    ensures EachFine(a + b, depth, maxDepth) <==> EachFine(a, depth, maxDepth) && EachFine(b, depth, maxDepth)
  {
    if EachFine(a + b, depth, maxDepth) {
      forall i | 0 <= i < |a| ensures AllFine(a[i], depth, maxDepth) {
        assert (a + b)[i] == a[i];
      }
      forall i | 0 <= i < |b| ensures AllFine(b[i], depth, maxDepth) {
        assert (a + b)[|a| + i] == b[i];
      }
    }
  }

  /** The check accepts a tree iff every node reachable from its root lies within the maximum depth
      and every call among them is allowed. */
  lemma {:induction false} AcceptedMeans(e: Expr, depth: nat, maxDepth: int)
    ensures CheckExpr(e, depth, maxDepth) == Accepted <==> AllFine(e, depth, maxDepth)
    decreases e
  {
    FineUnfolds(e, depth, maxDepth);
    if !e.Absent? && depth <= maxDepth {
      match e
      case Leaf =>
      case Call(name, target, args) =>
        AllAccepted(args, depth + 1, maxDepth);
        if target.Some? {
          AcceptedMeans(target.value, depth + 1, maxDepth);
          EachFineConcat([target.value], args, depth + 1, maxDepth);
          OneFine(target.value, depth + 1, maxDepth);
        } else {
          assert Children(e) == args;
        }
      case Select(operand) =>
        AcceptedMeans(operand, depth + 1, maxDepth);
        OneFine(operand, depth + 1, maxDepth);
      case List(elements) => AllAccepted(elements, depth + 1, maxDepth);
      case Map(entries) => EntriesAccepted(entries, depth + 1, maxDepth);
      case Struct(fields) => AllAccepted(fields, depth + 1, maxDepth);
      case Comprehension(_, _, _, _, _) => ComprehensionAccepted(e, depth, maxDepth);
    }
  }

  lemma OneFine(e: Expr, depth: nat, maxDepth: int)
    ensures EachFine([e], depth, maxDepth) <==> AllFine(e, depth, maxDepth)
  {
    assert [e][0] == e;
  }

  lemma TwoFine(k: Expr, v: Expr, depth: nat, maxDepth: int)
    ensures EachFine([k, v], depth, maxDepth) <==> AllFine(k, depth, maxDepth) && AllFine(v, depth, maxDepth)
  {
    OneFine(k, depth, maxDepth);
    OneFine(v, depth, maxDepth);
    EachFineConcat([k], [v], depth, maxDepth);
    assert [k] + [v] == [k, v];
  }

  lemma ThreeFine(a: Expr, b: Expr, c: Expr, depth: nat, maxDepth: int)
    ensures EachFine([a, b, c], depth, maxDepth)
       <==> AllFine(a, depth, maxDepth) && AllFine(b, depth, maxDepth) && AllFine(c, depth, maxDepth)
  {
    TwoFine(a, b, depth, maxDepth);
    OneFine(c, depth, maxDepth);
    EachFineConcat([a, b], [c], depth, maxDepth);
    assert [a, b] + [c] == [a, b, c];
  }

  lemma FiveFine(a: Expr, b: Expr, c: Expr, d: Expr, e: Expr, depth: nat, maxDepth: int)
    ensures EachFine([a, b, c, d, e], depth, maxDepth)
       <==> EachFine([a, b], depth, maxDepth) && EachFine([c, d, e], depth, maxDepth)
  {
    EachFineConcat([a, b], [c, d, e], depth, maxDepth);
    assert [a, b] + [c, d, e] == [a, b, c, d, e];
  }

  lemma {:induction false} ComprehensionAccepted(e: Expr, depth: nat, maxDepth: int)
    requires e.Comprehension? && depth <= maxDepth
    ensures CheckExpr(e, depth, maxDepth) == Accepted <==> EachFine(Children(e), depth + 1, maxDepth)
    decreases e, 0
  {
    AcceptedMeans(e.range, depth + 1, maxDepth);
    AcceptedMeans(e.init, depth + 1, maxDepth);
    AcceptedMeans(e.condition, depth + 1, maxDepth);
    AcceptedMeans(e.step, depth + 1, maxDepth);
    AcceptedMeans(e.result, depth + 1, maxDepth);
    TwoFine(e.range, e.init, depth + 1, maxDepth);
    ThreeFine(e.condition, e.step, e.result, depth + 1, maxDepth);
    FiveFine(e.range, e.init, e.condition, e.step, e.result, depth + 1, maxDepth);
  }

  lemma {:induction false} AllAccepted(es: seq<Expr>, depth: nat, maxDepth: int)
    ensures CheckAll(es, depth, maxDepth) == Accepted <==> EachFine(es, depth, maxDepth)
    decreases es
  {
    if es != [] {
      AcceptedMeans(es[0], depth, maxDepth);
      AllAccepted(es[1..], depth, maxDepth);
      OneFine(es[0], depth, maxDepth);
      EachFineConcat([es[0]], es[1..], depth, maxDepth);
      assert [es[0]] + es[1..] == es;
    }
  }

  lemma {:induction false} EntryAccepted(entry: Entry, depth: nat, maxDepth: int)
    ensures CheckEntry(entry, depth, maxDepth) == Accepted <==> EachFine([entry.key, entry.value], depth, maxDepth)
    decreases entry
  {
    AcceptedMeans(entry.key, depth, maxDepth);
    AcceptedMeans(entry.value, depth, maxDepth);
    TwoFine(entry.key, entry.value, depth, maxDepth);
  }

  lemma {:induction false} EntriesAccepted(entries: seq<Entry>, depth: nat, maxDepth: int)
    ensures CheckEntries(entries, depth, maxDepth) == Accepted <==> EachFine(Flat(entries), depth, maxDepth)
    decreases entries
  {
    if entries != [] {
      EntryAccepted(entries[0], depth, maxDepth);
      EntriesAccepted(entries[1..], depth, maxDepth);
      EachFineConcat([entries[0].key, entries[0].value], Flat(entries[1..]), depth, maxDepth);
    }
  }

  // ---- in particular -----------------------------------------------------------------------------

  /** A call over plain operands is accepted exactly for these operators and CEL's internal ones. */
  lemma OperatorsExactly(name: string, maxDepth: int)
    requires maxDepth >= 1
    ensures CheckExpr(Call(name, None, [Leaf, Leaf]), 0, maxDepth) == Accepted <==>
              || name in {"_==_", "_!=_", "_<_", "_<=_", "_>_", "_>=_"}
              || name in {"_&&_", "_||_", "!_", "_?_:_"}
              || name in {"_[_]", "_._", "has"}
              || name in {"contains", "startsWith", "endsWith", "matches"}
              || name in {"exists", "all", "size", "map", "filter"}
              || (name != "" && name[0] == '@')
  {
    var e := Call(name, None, [Leaf, Leaf]);
    assert CheckAll([Leaf, Leaf], 1, maxDepth) == Accepted by {
      assert [Leaf, Leaf][1..] == [Leaf];
      assert CheckAll([Leaf], 1, maxDepth) == Accepted;
    }
    assert CheckExpr(e, 0, maxDepth) == Accepted <==> CallAllowed(name, [Leaf, Leaf]);
  }

  /** Addition is accepted only as concatenation with a list literal. */
  lemma PlusNeedsList(a: Expr, b: Expr, depth: nat, maxDepth: int)
    requires CheckExpr(Call("_+_", None, [a, b]), depth, maxDepth) == Accepted
    ensures a.List? || b.List?
  {
    var name := "_+_";
    assert name[0] != '@' && name !in AllowedOperators;
  }

  function Nested(n: nat): Expr { if n == 0 then Leaf else Select(Nested(n - 1)) }

  /** A tree of n levels below its root is accepted exactly when n does not exceed the maximum depth. */
  lemma {:induction false} DepthExactly(n: nat, depth: nat, maxDepth: int)
    ensures CheckExpr(Nested(n), depth, maxDepth) == Accepted <==> depth + n <= maxDepth
  {
    if n > 0 {
      DepthExactly(n - 1, depth + 1, maxDepth);
    }
  }

  /** Every direct part of an expression is one of its children. */
  lemma ChildrenComplete(e: Expr, part: Expr)
    ensures part in Children(e) <==>
              match e
              case Absent => false
              case Leaf => false
              case Call(_, target, args) => target == Some(part) || part in args
              case Select(operand) => part == operand
              case List(elements) => part in elements
              case Map(entries) => exists x :: x in entries && (part == x.key || part == x.value)
              case Struct(fields) => part in fields
              case Comprehension(range, init, condition, step, result) =>
                part == range || part == init || part == condition || part == step || part == result
  {
    if e.Map? {
      FlatMeans(e.entries, part);
    }
  }

  lemma {:induction false} FlatMeans(entries: seq<Entry>, part: Expr)
    ensures part in Flat(entries) <==> exists x :: x in entries && (part == x.key || part == x.value)
  {
    if entries != [] {
      FlatMeans(entries[1..], part);
      assert entries == [entries[0]] + entries[1..];
      if x :| x in entries[1..] && (part == x.key || part == x.value) {
        assert x in entries;
      }
    }
  }
}
