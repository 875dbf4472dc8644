/** The "did you mean" helper: the two-row edit distance, the recursive distance it computes,
    and the edit scripts whose least cost that is. Strings stand for byte strings. */
module EditDistance {
  import opened Json

  function Min3(a: int, b: int, c: int): (m: int)
    ensures m <= a && m <= b && m <= c && (m == a || m == b || m == c)
  {
    var m := if b < a then b else a;
    if c < m then c else m
  }

  function Subst(x: char, y: char): nat { if x == y then 0 else 1 }

  function Lev(a: string, b: string): (d: nat)
    decreases |a| + |b|
  {
    if a == [] then |b|
    else if b == [] then |a|
    else
      var a', b' := a[..|a| - 1], b[..|b| - 1];
      Min3(Lev(a', b) + 1, Lev(a, b') + 1, Lev(a', b') + Subst(a[|a| - 1], b[|b| - 1]))
  }

  /** `row[j]` is the distance of `a` to the prefix b[..j], for j below `n`. */
  ghost predicate IsRow(row: seq<int>, a: string, b: string, n: nat) {
    n <= |row| && n <= |b| + 1 && forall j :: 0 <= j < n ==> row[j] == Lev(a, b[..j])
  }

  lemma {:induction false} LevStep(a: string, a': string, b: string, b': string)
    requires a != [] && b != [] && a' == a[..|a| - 1] && b' == b[..|b| - 1]
    ensures Lev(a, b) == Min3(Lev(a', b) + 1, Lev(a, b') + 1, Lev(a', b') + Subst(a[|a| - 1], b[|b| - 1]))
  {}

  /** The next cell of a row, from the row above and the cells before it. */
  lemma {:induction false} NextCell(above: seq<int>, done: seq<int>, a: string, b: string, i: nat, j: nat)
    requires 1 <= i <= |a| && 1 <= j <= |b| && |done| == j
    requires IsRow(above, a[..i - 1], b, |b| + 1) && IsRow(done, a[..i], b, j)
    ensures IsRow(done + [Min3(above[j] + 1, done[j - 1] + 1, above[j - 1] + Subst(a[i - 1], b[j - 1]))], a[..i], b, j + 1)
  {
    LevStep(a[..i], a[..i - 1], b[..j], b[..j - 1]);
    LongerRow(done, a[..i], b, j, Lev(a[..i], b[..j]));
  }

  lemma {:induction false} LongerRow(row: seq<int>, a: string, b: string, n: nat, d: int)
    requires |row| == n <= |b| && IsRow(row, a, b, n) && d == Lev(a, b[..n])
    ensures IsRow(row + [d], a, b, n + 1)
  {}

  /** Fills `curr` with row i from the row above it. */
  method FillRow(a: string, b: string, i: nat, prev: array<int>, curr: array<int>)
    requires 1 <= i <= |a| && prev != curr && prev.Length == curr.Length == |b| + 1
    requires IsRow(prev[..], a[..i - 1], b, |b| + 1)
    modifies curr
    ensures IsRow(curr[..], a[..i], b, |b| + 1)
  {
    ghost var above := prev[..];
    curr[0] := i;
    for j := 1 to |b| + 1
      invariant prev[..] == above && IsRow(curr[..j], a[..i], b, j)
    {
      var cost := 1;
      if a[i - 1] == b[j - 1] {
        cost := 0;
      }
      ghost var done := curr[..j];
      NextCell(above, done, a, b, i, j);
      assert prev[j] == above[j] && prev[j - 1] == above[j - 1] && curr[j - 1] == done[j - 1];
      curr[j] := Min3(prev[j] + 1, curr[j - 1] + 1, prev[j - 1] + cost);
      assert curr[..j + 1] == done + [curr[j]];
    }
    assert curr[..|b| + 1] == curr[..];
  }

  /** The two-row loop computes the recursive distance. */
  method Levenshtein(a: string, b: string) returns (d: int)
    ensures d == Lev(a, b)
  {
    if |a| == 0 {
      return |b|;
    }
    if |b| == 0 {
      return |a|;
    }
    var prev := new int[|b| + 1];
    var curr := new int[|b| + 1];
    for j := 0 to |b| + 1
      invariant forall k :: 0 <= k < j ==> prev[k] == k
    {
      prev[j] := j;
    }
    assert IsRow(prev[..], a[..0], b, |b| + 1);
    for i := 1 to |a| + 1
      invariant prev != curr && prev.Length == curr.Length == |b| + 1
      invariant fresh(prev) && fresh(curr)
      invariant IsRow(prev[..], a[..i - 1], b, |b| + 1)
    {
      FillRow(a, b, i, prev, curr);
      prev, curr := curr, prev;
    }
    assert a[..|a|] == a && b[..|b|] == b;
    assert prev[..][|b|] == prev[|b|];
    return prev[|b|];
  }

  // ---- edit scripts --------------------------------------------------------------------------

  /** One edit at the end of what is built so far. */
  datatype Edit = Keep | Replace | Insert | Remove

  function Cost(s: seq<Edit>): nat {
    if s == [] then 0 else Cost(s[..|s| - 1]) + (if s[|s| - 1].Keep? then 0 else 1)
  }

  /** The script turns a into b. */
  predicate Turns(s: seq<Edit>, a: string, b: string)
    decreases |s|
  {
    if s == [] then a == [] && b == []
    else
      var s', e := s[..|s| - 1], s[|s| - 1];
      match e
      case Keep => a != [] && b != [] && a[|a| - 1] == b[|b| - 1] && Turns(s', a[..|a| - 1], b[..|b| - 1])
      case Replace => a != [] && b != [] && Turns(s', a[..|a| - 1], b[..|b| - 1])
      case Insert => b != [] && Turns(s', a, b[..|b| - 1])
      case Remove => a != [] && Turns(s', a[..|a| - 1], b)
  }

  lemma Extend(s: seq<Edit>, e: Edit, a: string, b: string)
    ensures (s + [e])[..|s|] == s
    ensures Cost(s + [e]) == Cost(s) + (if e.Keep? then 0 else 1)
  {
    assert (s + [e])[..|s|] == s;
  }

  /** No script is cheaper than the distance. */
  lemma {:induction false} NoneCheaper(s: seq<Edit>, a: string, b: string)
    requires Turns(s, a, b)
    ensures Lev(a, b) <= Cost(s)
    decreases |s|
  {
    if s != [] {
      var s', e := s[..|s| - 1], s[|s| - 1];
      match e
      case Keep => NoneCheaper(s', a[..|a| - 1], b[..|b| - 1]);
      case Replace => NoneCheaper(s', a[..|a| - 1], b[..|b| - 1]);
      case Insert => NoneCheaper(s', a, b[..|b| - 1]); LevNear(a, b);
      case Remove => NoneCheaper(s', a[..|a| - 1], b); LevNear(a, b);
    }
  }

  /** Dropping a last byte changes the distance by at most one. */
  lemma LevNear(a: string, b: string)
    ensures b != [] ==> Lev(a, b) <= Lev(a, b[..|b| - 1]) + 1
    ensures a != [] ==> Lev(a, b) <= Lev(a[..|a| - 1], b) + 1
  {}

  /** Some script costs exactly the distance. */
  lemma {:induction false} Attained(a: string, b: string) returns (s: seq<Edit>)
    ensures Turns(s, a, b) && Cost(s) == Lev(a, b)
    decreases |a| + |b|
  {
    if a == [] && b == [] {
      s := [];
    } else if a == [] || (b != [] && Lev(a, b) == Lev(a, b[..|b| - 1]) + 1) {
      var s' := Attained(a, b[..|b| - 1]);
      Extend(s', Insert, a, b);
      s := s' + [Insert];
    } else if b == [] || Lev(a, b) == Lev(a[..|a| - 1], b) + 1 {
      var s' := Attained(a[..|a| - 1], b);
      Extend(s', Remove, a, b);
      s := s' + [Remove];
    } else {
      var s' := Attained(a[..|a| - 1], b[..|b| - 1]);
      var e := if a[|a| - 1] == b[|b| - 1] then Keep else Replace;
      Extend(s', e, a, b);
      s := s' + [e];
    }
  }

  // ---- a metric ------------------------------------------------------------------------------------

  lemma {:induction false} Symmetric(a: string, b: string)
    ensures Lev(a, b) == Lev(b, a)
    decreases |a| + |b|
  {
    if a != [] && b != [] {
      Symmetric(a[..|a| - 1], b);
      Symmetric(a, b[..|b| - 1]);
      Symmetric(a[..|a| - 1], b[..|b| - 1]);
    }
  }

  lemma {:induction false} ZeroIsEqual(a: string, b: string)
    ensures Lev(a, b) == 0 <==> a == b
    decreases |a| + |b|
  {
    if a != [] && b != [] {
      var a', b' := a[..|a| - 1], b[..|b| - 1];
      assert a == a' + [a[|a| - 1]] && b == b' + [b[|b| - 1]];
      ZeroIsEqual(a', b');
    }
  }

  /** One byte replaced, added or removed at the end costs one. */
  lemma OneEdit(a: string, x: char, y: char)
    requires x != y
    ensures Lev(a + [x], a + [y]) == 1 && Lev(a, a + [x]) == 1 && Lev(a + [x], a) == 1
  {
    ZeroIsEqual(a, a);
    ZeroIsEqual(a + [x], a + [y]);
    ZeroIsEqual(a, a + [x]);
    ZeroIsEqual(a + [x], a);
    assert (a + [x])[..|a|] == a && (a + [y])[..|a|] == a;
    LevStep(a + [x], a, a + [y], a);
    AddOne(a, x);
  }

  lemma AddOne(a: string, x: char)
    ensures Lev(a, a + [x]) <= 1 && Lev(a + [x], a) <= 1
  {
    ZeroIsEqual(a, a);
    assert (a + [x])[..|a|] == a;
    if a != [] {
      LevStep(a, a[..|a| - 1], a + [x], a);
      LevStep(a + [x], a, a, a[..|a| - 1]);
    }
  }

  /** Scripts compose without costing more. */
  lemma {:induction false} Compose(s: seq<Edit>, t: seq<Edit>, a: string, b: string, c: string) returns (u: seq<Edit>)
    requires Turns(s, a, b) && Turns(t, b, c)
    ensures Turns(u, a, c) && Cost(u) <= Cost(s) + Cost(t)
    decreases |s| + |t|
  {
    if t != [] && t[|t| - 1].Insert? {
      var u' := Compose(s, t[..|t| - 1], a, b, c[..|c| - 1]);
      Extend(u', Insert, a, c);
      u := u' + [Insert];
    } else if s != [] && s[|s| - 1].Remove? {
      var u' := Compose(s[..|s| - 1], t, a[..|a| - 1], b, c);
      Extend(u', Remove, a, c);
      u := u' + [Remove];
    } else if s == [] || t == [] {
      u := [];
    } else {
      u := ComposeMiddle(s, t, a, b, c);
    }
  }

  /** The last edits of both scripts act on the same byte of b. */
  lemma {:induction false} ComposeMiddle(s: seq<Edit>, t: seq<Edit>, a: string, b: string, c: string) returns (u: seq<Edit>)
    requires s != [] && t != [] && !s[|s| - 1].Remove? && !t[|t| - 1].Insert?
    requires Turns(s, a, b) && Turns(t, b, c)
    ensures Turns(u, a, c) && Cost(u) <= Cost(s) + Cost(t)
    decreases |s| + |t|, 0
  {
    var s', e, t', f := s[..|s| - 1], s[|s| - 1], t[..|t| - 1], t[|t| - 1];
    var a' := if e.Insert? then a else a[..|a| - 1];
    var c' := if f.Remove? then c else c[..|c| - 1];
    var u' := Compose(s', t', a', b[..|b| - 1], c');
    if e.Insert? && f.Remove? {
      u := u';
    } else {
      var last := if e.Insert? then Insert
                  else if f.Remove? then Remove
                  else if a[|a| - 1] == c[|c| - 1] then Keep else Replace;
      Extend(u', last, a, c);
      u := u' + [last];
    }
  }

  lemma {:induction false} Triangle(a: string, b: string, c: string)
    ensures Lev(a, c) <= Lev(a, b) + Lev(b, c)
  {
    var s := Attained(a, b);
    var t := Attained(b, c);
    var u := Compose(s, t, a, b, c);
    NoneCheaper(u, a, c);
  }

  // ---- the suggestion --------------------------------------------------------------------------------

  const Far: int := 0x4000_0000

  function Dist(target: string, lower: string -> string, kind: string): nat { Lev(lower(target), lower(kind)) }

  ghost predicate FirstNearest(target: string, kinds: seq<string>, lower: string -> string, i: int) {
    && 0 <= i < |kinds|
    && (forall j :: 0 <= j < i ==> Dist(target, lower, kinds[j]) > Dist(target, lower, kinds[i]))
    && (forall j :: i <= j < |kinds| ==> Dist(target, lower, kinds[j]) >= Dist(target, lower, kinds[i]))
  }

  /** The running best over the kinds seen: the first nearest one, if any is nearer than `Far`. */
  ghost predicate BestSoFar(target: string, kinds: seq<string>, lower: string -> string, best: int, bestDist: int) {
    if best < 0 then bestDist == Far && forall k :: k in kinds ==> Dist(target, lower, k) >= Far
    else FirstNearest(target, kinds, lower, best) && bestDist == Dist(target, lower, kinds[best]) < Far
  }

  lemma BetterSoFar(target: string, kinds: seq<string>, lower: string -> string, best: int, bestDist: int, kind: string)
    requires BestSoFar(target, kinds, lower, best, bestDist)
    ensures if Dist(target, lower, kind) < bestDist
            then BestSoFar(target, kinds + [kind], lower, |kinds|, Dist(target, lower, kind))
            else BestSoFar(target, kinds + [kind], lower, best, bestDist)
  {}

  /** A kind that differs from the target at most in case is at distance zero, so it is the best. */
  lemma SameKind(target: string, kinds: seq<string>, lower: string -> string, best: int, bestDist: int)
    requires BestSoFar(target, kinds, lower, best, bestDist)
    ensures forall i :: 0 <= i < |kinds| && lower(kinds[i]) == lower(target) ==>
              0 <= best < |kinds| && bestDist == 0 && lower(kinds[best]) == lower(target)
  {
    forall i | 0 <= i < |kinds| && lower(kinds[i]) == lower(target)
      ensures 0 <= best < |kinds| && bestDist == 0 && lower(kinds[best]) == lower(target)
    {
      ZeroIsEqual(lower(target), lower(kinds[i]));
      assert kinds[i] in kinds && Dist(target, lower, kinds[i]) == 0;
      ZeroIsEqual(lower(target), lower(kinds[best]));
    }
  }

  /** The first nearest kind is suggested exactly when it is near enough. */
  method NearestKind(target: string, kinds: seq<string>, lower: string -> string) returns (r: Option<nat>)
    ensures forall i: nat :: r == Some(i) <==>
              && i < |kinds|
              && (forall j :: 0 <= j < i ==> Lev(lower(target), lower(kinds[i])) < Lev(lower(target), lower(kinds[j])))
              && (forall j :: i < j < |kinds| ==> Lev(lower(target), lower(kinds[i])) <= Lev(lower(target), lower(kinds[j])))
              && Lev(lower(target), lower(kinds[i])) < 0x4000_0000
              && Lev(lower(target), lower(kinds[i])) <= 1 + |target| / 3
    ensures forall i :: 0 <= i < |kinds| && lower(kinds[i]) == lower(target) ==>
              r.Some? && r.value < |kinds| && lower(kinds[r.value]) == lower(target)
  {
    var best, bestDist := -1, Far;
    var lt := lower(target);
    for i := 0 to |kinds|
      invariant best < i && BestSoFar(target, kinds[..i], lower, best, bestDist)
    {
      var d := Levenshtein(lt, lower(kinds[i]));
      assert kinds[..i + 1] == kinds[..i] + [kinds[i]];
      BetterSoFar(target, kinds[..i], lower, best, bestDist, kinds[i]);
      if d < bestDist {
        bestDist := d;
        best := i;
      }
    }
    assert kinds[..|kinds|] == kinds;
    SameKind(target, kinds, lower, best, bestDist);
    if best < 0 || bestDist > 1 + |target| / 3 {
      return None;
    }
    return Some(best);
  }
}
