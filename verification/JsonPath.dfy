/** Field paths: the segment-by-segment validator, the parser, and exactly when they agree. */
module JsonPath {
  import opened Json

  datatype Segment =
    | Field(name: string)
    | Quoted(open: char, key: string, close: char)
    | Index(digits: string)
    | Wild

  predicate IsQuote(c: char) { c == '"' || c == '\'' }
  predicate IsDigit(c: char) { '0' <= c <= '9' }
  predicate IsStart(c: char) { 'a' <= c <= 'z' || 'A' <= c <= 'Z' || c == '_' }
  predicate IsWord(c: char) { IsStart(c) || IsDigit(c) }
  predicate NotQuote(c: char) { !IsQuote(c) }

  predicate All(s: string, p: char -> bool) { forall i :: 0 <= i < |s| ==> p(s[i]) }

  /** A segment the grammar allows. */
  predicate WellFormed(seg: Segment) {
    match seg
    case Field(name) => name != "" && IsStart(name[0]) && All(name, IsWord)
    case Quoted(open, key, close) => IsQuote(open) && IsQuote(close) && key != "" && All(key, NotQuote)
    case Index(digits) => digits != "" && All(digits, IsDigit)
    case Wild => true
  }

  function Text(seg: Segment): (t: string)
    ensures t != ""
  {
    match seg
    case Field(name) => "." + name
    case Quoted(open, key, close) => "[" + [open] + key + [close] + "]"
    case Index(digits) => "[" + digits + "]"
    case Wild => "[*]"
  }

  function Print(segs: seq<Segment>): string {
    if segs == [] then "" else Text(segs[0]) + Print(segs[1..])
  }

  function KeyOf(seg: Segment): string {
    match seg
    case Field(name) => name
    case Quoted(_, key, _) => key
    case Index(digits) => digits
    case Wild => "*"
  }

  function Keys(segs: seq<Segment>): seq<string> {
    if segs == [] then [] else [KeyOf(segs[0])] + Keys(segs[1..])
  }

  ghost predicate AllWellFormed(segs: seq<Segment>) {
    forall i :: 0 <= i < |segs| ==> WellFormed(segs[i])
  }

  // ---- the validator --------------------------------------------------------------------------

  /** Length of the longest prefix whose characters satisfy p. */
  function RunOf(s: string, p: char -> bool): (n: nat)
    ensures n <= |s| && All(s[..n], p) && (n < |s| ==> !p(s[n]))
  {
    if s == "" || !p(s[0]) then 0
    else
      var n := 1 + RunOf(s[1..], p);
      assert forall i :: 1 <= i < n ==> s[i] == s[1..][..n - 1][i - 1];
      n
  }

  /** The alternatives of the validator's regular expression at the start of `s`. */
  function FieldAt(s: string): Option<Segment>
    requires s != ""
  {
    var n := RunOf(s[1..], IsWord);
    if n > 0 && IsStart(s[1]) then Some(Field(s[1..][..n])) else None
  }

  function QuotedAt(s: string): Option<Segment>
    requires |s| > 1
  {
    var n := RunOf(s[2..], NotQuote);
    if n > 0 && 3 + n < |s| && s[3 + n] == ']' then Some(Quoted(s[1], s[2..][..n], s[2 + n])) else None
  }

  function IndexAt(s: string): Option<Segment>
    requires |s| > 1
  {
    var n := RunOf(s[1..], IsDigit);
    if n > 0 && 1 + n < |s| && s[1 + n] == ']' then Some(Index(s[1..][..n])) else None
  }

  function FirstSegment(s: string): Option<Segment> {
    if s == "" then None
    else if s[0] == '.' then FieldAt(s)
    else if s[0] == '[' && |s| > 1 then
      if IsQuote(s[1]) then QuotedAt(s)
      else if s[1] == '*' then (if |s| > 2 && s[2] == ']' then Some(Wild) else None)
      else IndexAt(s)
    else None
  }

  lemma QuotedSound(s: string)
    requires |s| > 1 && s[0] == '[' && IsQuote(s[1]) && QuotedAt(s).Some?
    ensures WellFormed(QuotedAt(s).value) && Text(QuotedAt(s).value) <= s
  {
    var n := RunOf(s[2..], NotQuote);
    var key := s[2..][..n];
    assert s[..4 + n] == "[" + [s[1]] + key + [s[2 + n]] + "]";
  }

  lemma IndexSound(s: string)
    requires |s| > 1 && s[0] == '[' && IndexAt(s).Some?
    ensures WellFormed(IndexAt(s).value) && Text(IndexAt(s).value) <= s
  {
    var n := RunOf(s[1..], IsDigit);
    assert s[..2 + n] == "[" + s[1..][..n] + "]";
  }

  lemma FirstSegmentSound(s: string)
    requires FirstSegment(s).Some?
    ensures WellFormed(FirstSegment(s).value) && Text(FirstSegment(s).value) <= s
  {
    if s[0] == '[' {
      if IsQuote(s[1]) {
        QuotedSound(s);
      } else if s[1] != '*' {
        IndexSound(s);
      }
    }
  }

  predicate StartsSegment(s: string) { s == "" || s[0] == '.' || s[0] == '[' }

  lemma {:induction false} RunOfPrefix(s: string, rest: string, p: char -> bool)
    requires All(s, p) && (rest == "" || !p(rest[0]))
    ensures RunOf(s + rest, p) == |s|
  {
    if s == "" {
      assert s + rest == rest;
    } else {
      assert (s + rest)[1..] == s[1..] + rest;
      RunOfPrefix(s[1..], rest, p);
    }
  }

  lemma FieldComplete(name: string, rest: string)
    requires WellFormed(Field(name)) && StartsSegment(rest)
    ensures FirstSegment("." + name + rest) == Some(Field(name))
  {
    var s := "." + name + rest;
    assert s[1..] == name + rest && (name + rest)[..|name|] == name;
    RunOfPrefix(name, rest, IsWord);
    assert s[1] == name[0];
  }

  lemma QuotedComplete(open: char, key: string, close: char, rest: string)
    requires WellFormed(Quoted(open, key, close))
    ensures FirstSegment(Text(Quoted(open, key, close)) + rest) == Some(Quoted(open, key, close))
  {
    var s := Text(Quoted(open, key, close)) + rest;
    var tail := [close] + "]" + rest;
    assert s[2..] == key + tail && (key + tail)[..|key|] == key;
    RunOfPrefix(key, tail, NotQuote);
    assert s[1] == open && s[2 + |key|] == close && s[3 + |key|] == ']';
  }

  lemma IndexComplete(digits: string, rest: string)
    requires WellFormed(Index(digits))
    ensures FirstSegment(Text(Index(digits)) + rest) == Some(Index(digits))
  {
    var s := Text(Index(digits)) + rest;
    assert s[1..] == digits + ("]" + rest) && (digits + ("]" + rest))[..|digits|] == digits;
    RunOfPrefix(digits, "]" + rest, IsDigit);
    assert s[1] == digits[0] && s[1 + |digits|] == ']';
  }

  /** The matched segment is the only one that could be there. */
  lemma FirstSegmentComplete(seg: Segment, rest: string)
    requires WellFormed(seg) && StartsSegment(rest)
    ensures FirstSegment(Text(seg) + rest) == Some(seg)
  {
    match seg
    case Field(name) => FieldComplete(name, rest);
    case Quoted(open, key, close) => QuotedComplete(open, key, close, rest);
    case Index(digits) => IndexComplete(digits, rest);
    case Wild => assert ("[*]" + rest)[..3] == "[*]";
  }

  /** The segments of `s`, or None where the validator reports a syntax error. */
  function Segments(s: string): Option<seq<Segment>>
    decreases |s|
  {
    if s == "" then Some([])
    else
      match FirstSegment(s)
      case None => None
      case Some(seg) =>
        FirstSegmentSound(s);
        match Segments(s[|Text(seg)|..])
        case None => None
        case Some(segs) => Some([seg] + segs)
  }

  datatype Verdict = Valid | EmptyPath | NoLeadingDot | SyntaxAt(rest: string)

  predicate EndsWith(s: string, end: string) { |end| <= |s| && s[|s| - |end|..] == end }

  /** Shrinks the remaining text one matched segment at a time. */
  method ValidatePath(path: string) returns (v: Verdict)
    ensures v.Valid? <==> path != "" && path[0] == '.' && Segments(path).Some?
    ensures v.EmptyPath? <==> path == ""
    ensures v.NoLeadingDot? <==> path != "" && path[0] != '.'
    ensures v.SyntaxAt? ==> v.rest != "" && EndsWith(path, v.rest) && FirstSegment(v.rest).None?
  {
    if path == "" {
      return EmptyPath;
    }
    if path[0] != '.' {
      return NoLeadingDot;
    }
    var remaining := path;
    while |remaining| > 0
      invariant Segments(path).Some? <==> Segments(remaining).Some?
      invariant EndsWith(path, remaining)
      decreases |remaining|
    {
      var found := FirstSegment(remaining);
      if found.None? {
        return SyntaxAt(remaining);
      }
      FirstSegmentSound(remaining);
      remaining := remaining[|Text(found.value)|..];
    }
    return Valid;
  }

  lemma {:induction false} PrintStarts(segs: seq<Segment>)
    ensures StartsSegment(Print(segs))
  {
    if segs != [] {
      assert Text(segs[0])[0] == Print(segs)[0];
    }
  }

  /** Segmenting reads back exactly what was printed. */
  lemma {:induction false} SegmentsOfPrint(segs: seq<Segment>)
    requires AllWellFormed(segs)
    ensures Segments(Print(segs)) == Some(segs)
  {
    if segs != [] {
      SegmentsOfPrint(segs[1..]);
      PrintStarts(segs[1..]);
      FirstSegmentComplete(segs[0], Print(segs[1..]));
      assert Print(segs)[|Text(segs[0])|..] == Print(segs[1..]);
      assert segs == [segs[0]] + segs[1..];
    }
  }

  lemma {:induction false} PrintOfSegments(s: string)
    requires Segments(s).Some?
    ensures AllWellFormed(Segments(s).value) && Print(Segments(s).value) == s
    decreases |s|
  {
    if s != "" {
      var seg := FirstSegment(s).value;
      FirstSegmentSound(s);
      var rest := s[|Text(seg)|..];
      PrintOfSegments(rest);
      var segs := Segments(s).value;
      assert segs[1..] == Segments(rest).value;
      assert s == Text(seg) + rest;
    }
  }

  /** The validator accepts exactly the texts of segment lists that begin with a field. */
  lemma ValidMeans(path: string)
    ensures (path != "" && path[0] == '.' && Segments(path).Some?)
       <==> exists segs: seq<Segment> :: segs != [] && segs[0].Field? && AllWellFormed(segs) && Print(segs) == path
  {
    if path != "" && path[0] == '.' && Segments(path).Some? {
      PrintOfSegments(path);
      var segs := Segments(path).value;
      assert segs != [] && segs[0].Field?;
    }
    if segs: seq<Segment> :| segs != [] && segs[0].Field? && AllWellFormed(segs) && Print(segs) == path {
      SegmentsOfPrint(segs);
    }
  }

  // ---- the parser ----------------------------------------------------------------------------------

  function TrimDot(s: string): (t: string)
    ensures |t| <= |s|
  {
    if s != "" && s[0] == '.' then s[1..] else s
  }

  function TrimQuotes(s: string): string {
    if s != "" && IsQuote(s[0]) then TrimQuotes(s[1..])
    else if s != "" && IsQuote(s[|s| - 1]) then TrimQuotes(s[..|s| - 1])
    else s
  }

  function BracketKey(inner: string): string { if inner == "*" then "*" else TrimQuotes(inner) }

  function CutAt(s: string): nat {
    var dot, bracket := IndexOf(s, '.'), IndexOf(s, '[');
    if dot < bracket then dot else bracket
  }

  datatype Chopped = Broken | Piece(key: string, rest: string)

  /** One round of the parsing loop. */
  function Chop(s: string): (c: Chopped)
    requires s != ""
    ensures c.Piece? ==> |c.rest| < |s|
  {
    if s[0] == '[' then
      var end := IndexOf(s, ']');
      if end == |s| then Broken else Piece(BracketKey(s[1..end]), TrimDot(s[end + 1..]))
    else
      var cut := CutAt(s);
      Piece(s[..cut], TrimDot(s[cut..]))
  }

  /** What the parsing loop returns when it stands at `s` having collected `acc`. */
  function Parse(acc: seq<string>, s: string): seq<string>
    decreases |s|
  {
    if s == "" then acc
    else
      match Chop(s)
      case Broken => []
      case Piece(key, rest) => Parse(acc + [key], rest)
  }

  method ParsePath(path: string) returns (segments: seq<string>)
    ensures segments == Parse([], TrimDot(path))
  {
    var rest := TrimDot(path);
    segments := [];
    if rest == "" {
      return;
    }
    while rest != ""
      invariant Parse(segments, rest) == Parse([], TrimDot(path))
      decreases |rest|
    {
      var chopped := Chop(rest);
      if rest[0] == '[' {
        var end := IndexOf(rest, ']');
        if end == |rest| {
          return [];
        }
        var inner := rest[1..end];
        var key := if inner == "*" then "*" else TrimQuotes(inner);
        segments := segments + [key];
        rest := TrimDot(rest[end + 1..]);
      } else {
        var dot, bracket := IndexOf(rest, '.'), IndexOf(rest, '[');
        if dot == |rest| && bracket == |rest| {
          assert rest[..|rest|] == rest && rest[|rest|..] == "";
          return segments + [rest];
        }
        var cut := if dot < bracket then dot else bracket;
        segments := segments + [rest[..cut]];
        rest := TrimDot(rest[cut..]);
      }
      assert chopped == Piece(segments[|segments| - 1], rest);
    }
  }

  // ---- agreement -------------------------------------------------------------------------------------

  /** A quoted key holding ']' ends too early for the parser. */
  predicate Cuttable(seg: Segment) { seg.Quoted? && ']' in seg.key }

  lemma {:induction false} IndexOfPrefix(s: string, rest: string, c: char)
    requires c !in s && (rest == "" || rest[0] == c)
    ensures IndexOf(s + rest, c) == |s|
  {
    if s == "" {
      assert s + rest == rest;
    } else {
      assert (s + rest)[1..] == s[1..] + rest;
      IndexOfPrefix(s[1..], rest, c);
    }
  }

  lemma {:induction false} TrimInside(s: string)
    requires All(s, NotQuote)
    ensures TrimQuotes(s) == s
  {}

  lemma TrimQuoted(open: char, key: string, close: char)
    requires IsQuote(open) && IsQuote(close) && key != "" && All(key, NotQuote)
    ensures TrimQuotes([open] + key + [close]) == key
  {
    var s := [open] + key + [close];
    assert s[1..] == key + [close] && (key + [close])[..|key|] == key;
    TrimInside(key);
  }

  lemma FieldCut(name: string, rest: string)
    requires All(name, IsWord) && StartsSegment(rest)
    ensures CutAt(name + rest) == |name|
  {
    var s := name + rest;
    var dot, bracket := IndexOf(s, '.'), IndexOf(s, '[');
    assert rest != "" ==> s[|name|] == rest[0];
    assert forall i :: 0 <= i < |name| ==> s[i] == name[i] && IsWord(name[i]);
    assert |name| <= dot <= |s| && |name| <= bracket <= |s|;
    if rest != "" && rest[0] == '.' {
      assert dot == |name|;
    } else if rest != "" {
      assert bracket == |name|;
    }
  }

  /** The text between the brackets of a segment that is not a field. */
  function Inner(seg: Segment): string
    requires !seg.Field?
  {
    match seg
    case Quoted(open, key, close) => [open] + key + [close]
    case Index(digits) => digits
    case Wild => "*"
  }

  lemma InnerKey(seg: Segment)
    requires WellFormed(seg) && !seg.Field?
    ensures Text(seg) == "[" + Inner(seg) + "]" && BracketKey(Inner(seg)) == KeyOf(seg)
    ensures ']' in Inner(seg) <==> Cuttable(seg)
  {
    match seg
    case Quoted(open, key, close) =>
      TrimQuoted(open, key, close);
      assert ([open] + key + [close])[0] == open;
    case Index(digits) => TrimInside(digits);
    case Wild =>
  }

  /** One round of the loop consumes one well-formed segment. */
  lemma ChopField(name: string, rest: string)
    requires WellFormed(Field(name)) && StartsSegment(rest)
    ensures Chop(name + rest) == Piece(name, TrimDot(rest))
  {
    var s := name + rest;
    FieldCut(name, rest);
    assert s[0] == name[0] && s[..|name|] == name && s[|name|..] == rest;
  }

  lemma ChopBracket(seg: Segment, rest: string)
    requires WellFormed(seg) && !seg.Field? && !Cuttable(seg)
    ensures Chop(Text(seg) + rest) == Piece(KeyOf(seg), TrimDot(rest))
  {
    InnerKey(seg);
    var s, inner := Text(seg) + rest, "[" + Inner(seg);
    assert s == inner + ("]" + rest);
    IndexOfPrefix(inner, "]" + rest, ']');
    assert s[1..|inner|] == Inner(seg) && s[|inner| + 1..] == rest;
  }

  lemma TrimField(name: string, rest: string)
    ensures TrimDot("." + name + rest) == name + rest
  {}

  lemma ChopOne(seg: Segment, rest: string)
    requires WellFormed(seg) && !Cuttable(seg) && StartsSegment(rest)
    ensures TrimDot(Text(seg) + rest) != "" && Chop(TrimDot(Text(seg) + rest)) == Piece(KeyOf(seg), TrimDot(rest))
  {
    if seg.Field? {
      TrimField(seg.name, rest);
      ChopField(seg.name, rest);
    } else {
      TrimBracket(seg, rest);
      ChopBracket(seg, rest);
    }
  }

  lemma TrimBracket(seg: Segment, rest: string)
    requires !seg.Field?
    ensures TrimDot(Text(seg) + rest) == Text(seg) + rest != ""
  {}

  lemma ParseStep(acc: seq<string>, s: string, key: string, rest: string)
    requires s != "" && Chop(s) == Piece(key, rest)
    ensures Parse(acc, s) == Parse(acc + [key], rest)
  {}

  lemma ParseOne(acc: seq<string>, seg: Segment, rest: string)
    requires WellFormed(seg) && !Cuttable(seg) && StartsSegment(rest)
    ensures Parse(acc, TrimDot(Text(seg) + rest)) == Parse(acc + [KeyOf(seg)], TrimDot(rest))
  {
    ChopOne(seg, rest);
    ParseStep(acc, TrimDot(Text(seg) + rest), KeyOf(seg), TrimDot(rest));
  }

  lemma {:induction false} ParseAll(acc: seq<string>, segs: seq<Segment>)
    requires AllWellFormed(segs) && forall i :: 0 <= i < |segs| ==> !Cuttable(segs[i])
    ensures Parse(acc, TrimDot(Print(segs))) == acc + Keys(segs)
    decreases |segs|
  {
    if segs == [] {
      assert acc + [] == acc;
    } else {
      ParseFirst(acc, segs);
      KeysFirst(acc, segs);
      ParseAll(acc + [KeyOf(segs[0])], segs[1..]);
    }
  }

  lemma ParseFirst(acc: seq<string>, segs: seq<Segment>)
    requires segs != [] && AllWellFormed(segs) && !Cuttable(segs[0])
    ensures Parse(acc, TrimDot(Print(segs))) == Parse(acc + [KeyOf(segs[0])], TrimDot(Print(segs[1..])))
  {
    PrintStarts(segs[1..]);
    assert Print(segs) == Text(segs[0]) + Print(segs[1..]);
    ParseOne(acc, segs[0], Print(segs[1..]));
  }

  lemma KeysFirst(acc: seq<string>, segs: seq<Segment>)
    requires segs != []
    ensures acc + Keys(segs) == acc + [KeyOf(segs[0])] + Keys(segs[1..])
  {}

  lemma {:induction false} ParseKeepsPrefix(acc: seq<string>, s: string)
    ensures Parse(acc, s) == [] || acc <= Parse(acc, s)
    decreases |s|
  {
    if s != "" && Chop(s).Piece? {
      ParseKeepsPrefix(acc + [Chop(s).key], Chop(s).rest);
    }
  }

  lemma {:induction false} TrimSubset(s: string, c: char)
    requires c !in s
    ensures c !in TrimQuotes(s)
    decreases |s|
  {
    if s != "" && IsQuote(s[0]) {
      TrimSubset(s[1..], c);
    } else if s != "" && IsQuote(s[|s| - 1]) {
      TrimSubset(s[..|s| - 1], c);
    }
  }

  lemma ChopCut(seg: Segment, rest: string)
    requires WellFormed(seg) && Cuttable(seg)
    ensures var c := Chop(Text(seg) + rest);
            c.Piece? && ']' !in c.key
  {
    InnerKey(seg);
    var s := Text(seg) + rest;
    assert s == "[" + Inner(seg) + ("]" + rest);
    assert s[|Inner(seg)| + 1] == ']';
    var end := IndexOf(s, ']');
    assert ']' !in s[1..end];
    TrimSubset(s[1..end], ']');
  }

  /** A cuttable segment is parsed as a key without ']', so never as its own. */
  lemma ParseCut(acc: seq<string>, seg: Segment, rest: string)
    requires WellFormed(seg) && Cuttable(seg)
    ensures var r := Parse(acc, TrimDot(Text(seg) + rest));
            r == [] || (|r| > |acc| && r[|acc|] != KeyOf(seg))
  {
    ChopCut(seg, rest);
    var c := Chop(Text(seg) + rest);
    assert TrimDot(Text(seg) + rest) == Text(seg) + rest;
    ParseKeepsPrefix(acc + [c.key], c.rest);
    assert (acc + [c.key])[|acc|] == c.key;
  }

  lemma BrokenHere(acc: seq<string>, segs: seq<Segment>)
    requires segs != [] && WellFormed(segs[0]) && Cuttable(segs[0])
    ensures Parse(acc, TrimDot(Print(segs))) != acc + Keys(segs)
  {
    ParseCut(acc, segs[0], Print(segs[1..]));
    KeysFirst(acc, segs);
    assert (acc + [KeyOf(segs[0])] + Keys(segs[1..]))[|acc|] == KeyOf(segs[0]);
  }

  ghost predicate Differs(acc: seq<string>, segs: seq<Segment>) {
    Parse(acc, TrimDot(Print(segs))) != acc + Keys(segs)
  }

  lemma DiffersFirst(acc: seq<string>, segs: seq<Segment>)
    requires segs != [] && AllWellFormed(segs) && !Cuttable(segs[0])
    requires Differs(acc + [KeyOf(segs[0])], segs[1..])
    ensures Differs(acc, segs)
  {
    ParseFirst(acc, segs);
    KeysFirst(acc, segs);
  }

  /** Position i is the first whose segment the parser cuts short. */
  ghost predicate FirstCut(segs: seq<Segment>, i: nat) {
    i < |segs| && Cuttable(segs[i]) && forall j :: 0 <= j < i ==> !Cuttable(segs[j])
  }

  lemma FirstCutTail(segs: seq<Segment>, i: nat)
    requires AllWellFormed(segs) && FirstCut(segs, i) && i > 0
    ensures AllWellFormed(segs[1..]) && FirstCut(segs[1..], i - 1) && !Cuttable(segs[0])
  {}

  lemma {:induction false} ParseBroken(acc: seq<string>, segs: seq<Segment>, i: nat)
    requires AllWellFormed(segs) && FirstCut(segs, i)
    ensures Differs(acc, segs)
    decreases i
  {
    if i == 0 {
      BrokenHere(acc, segs);
    } else {
      FirstCutTail(segs, i);
      ParseBroken(acc + [KeyOf(segs[0])], segs[1..], i - 1);
      DiffersFirst(acc, segs);
    }
  }

  /** The parser returns the validator's segments, key by key, exactly when no quoted key
      contains a closing bracket. */
  lemma ParserAgrees(path: string)
    requires Segments(path).Some?
    ensures Parse([], TrimDot(path)) == Keys(Segments(path).value)
       <==> forall i :: 0 <= i < |Segments(path).value| ==> !Cuttable(Segments(path).value[i])
  {
    PrintOfSegments(path);
    var segs := Segments(path).value;
    if forall i :: 0 <= i < |segs| ==> !Cuttable(segs[i]) {
      ParseAll([], segs);
    } else {
      var i := FirstCuttable(segs);
      ParseBroken([], segs, i);
    }
  }

  lemma {:induction false} FirstCuttable(segs: seq<Segment>) returns (i: nat)
    requires exists j :: 0 <= j < |segs| && Cuttable(segs[j])
    ensures FirstCut(segs, i)
  {
    i := 0;
    while !Cuttable(segs[i])
      invariant i < |segs| && forall j :: 0 <= j < i ==> !Cuttable(segs[j])
      decreases |segs| - i
    {
      assert exists j :: i < j < |segs| && Cuttable(segs[j]);
      i := i + 1;
    }
  }

  /** Printing segments, validating and parsing returns their keys. */
  lemma PrintRoundTrip(segs: seq<Segment>)
    requires segs != [] && segs[0].Field? && AllWellFormed(segs)
    requires forall i :: 0 <= i < |segs| ==> !Cuttable(segs[i])
    ensures Segments(Print(segs)) == Some(segs) && Parse([], TrimDot(Print(segs))) == Keys(segs)
  {
    SegmentsOfPrint(segs);
    ParserAgrees(Print(segs));
  }

  // ---- in particular -----------------------------------------------------------------------------

  const Lower := "abcdefghijklmnopqrstuvwxyz"
  const Upper := "ABCDEFGHIJKLMNOPQRSTUVWXYZ"
  const Digits := "0123456789"

  lemma LowerExactly(c: char)
    ensures c in Lower <==> 'a' <= c <= 'z'
  {
    assert forall i :: 0 <= i < |Lower| ==> Lower[i] as int == 97 + i;
    if 'a' <= c <= 'z' {
      assert Lower[c as int - 97] == c;
    }
  }

  lemma UpperExactly(c: char)
    ensures c in Upper <==> 'A' <= c <= 'Z'
  {
    assert forall i :: 0 <= i < |Upper| ==> Upper[i] as int == 65 + i;
    if 'A' <= c <= 'Z' {
      assert Upper[c as int - 65] == c;
    }
  }

  lemma DigitExactly(c: char)
    ensures c in Digits <==> '0' <= c <= '9'
  {
    assert forall i :: 0 <= i < |Digits| ==> Digits[i] as int == 48 + i;
    if '0' <= c <= '9' {
      assert Digits[c as int - 48] == c;
    }
  }

  lemma AllMeans(s: string, p: char -> bool)
    ensures All(s, p) <==> forall c :: c in s ==> p(c)
  {
    if All(s, p) {
      forall c | c in s ensures p(c) {
        var i :| 0 <= i < |s| && s[i] == c;
      }
    }
  }

  /** A field name starts with a letter or underscore and goes on with these and digits; a quoted key
      is not empty and holds no quote; an index is digits. */
  lemma WellFormedExactly(seg: Segment)
    ensures WellFormed(seg) <==>
              match seg
              case Field(name) =>
                && name != "" && (name[0] in Lower || name[0] in Upper || name[0] == '_')
                && forall c :: c in name ==> c in Lower || c in Upper || c in Digits || c == '_'
              case Quoted(open, key, close) =>
                && (open == '"' || open == '\'') && (close == '"' || close == '\'')
                && key != "" && '"' !in key && '\'' !in key
              case Index(digits) => digits != "" && forall c :: c in digits ==> c in Digits
              case Wild => true
  {
    forall c: char ensures c in Lower <==> 'a' <= c <= 'z' {
      LowerExactly(c);
    }
    forall c: char ensures c in Upper <==> 'A' <= c <= 'Z' {
      UpperExactly(c);
    }
    forall c: char ensures c in Digits <==> '0' <= c <= '9' {
      DigitExactly(c);
    }
    match seg
    case Field(name) => AllMeans(name, IsWord);
    case Quoted(_, key, _) => AllMeans(key, NotQuote);
    case Index(digits) => AllMeans(digits, IsDigit);
    case Wild =>
  }

  /** The parser gives up, returning nothing, at a bracket that is never closed. */
  lemma {:induction false} UnclosedParsesToNothing(acc: seq<string>, segs: seq<Segment>, junk: string)
    requires AllWellFormed(segs) && (forall i :: 0 <= i < |segs| ==> !Cuttable(segs[i])) && ']' !in junk
    ensures Parse(acc, TrimDot(Print(segs) + "[" + junk)) == []
    decreases |segs|
  {
    var open := "[" + junk;
    if segs == [] {
      assert Print(segs) + "[" + junk == open && IndexOf(open, ']') == |open|;
    } else {
      var rest := Print(segs[1..]) + "[" + junk;
      PrintStarts(segs[1..]);
      assert Print(segs) + "[" + junk == Text(segs[0]) + rest;
      assert StartsSegment(rest) by {
        assert Print(segs[1..]) == "" ==> rest == open;
      }
      ParseOne(acc, segs[0], rest);
      UnclosedParsesToNothing(acc + [KeyOf(segs[0])], segs[1..], junk);
    }
  }
}
