// Measuring functions in source text: stripping strings and comments from a line,
// the brace-depth scan over lines, and which functions it reports
// (cmd/tech-debt-classify/main.go:213-325).
module BraceScan {
  // ---- Stripping ----

  datatype Mode = Code | Str | Raw

  function Strip(s: string, mode: Mode): string {
    if s == "" then ""
    else match mode
      case Code =>
        if s[0] == '/' && |s| > 1 && s[1] == '/' then ""
        else if s[0] == '"' then Strip(s[1..], Str)
        else if s[0] == '`' then Strip(s[1..], Raw)
        else [s[0]] + Strip(s[1..], Code)
      case Str =>
        if s[0] == '\\' && |s| > 1 then Strip(s[2..], Str)
        else Strip(s[1..], if s[0] == '"' then Code else Str)
      case Raw => Strip(s[1..], if s[0] == '`' then Code else Raw)
  }

  method StripStringsAndComments(s: string) returns (b: string)
    ensures b == Strip(s, Code)
  {
    b := "";
    var inStr, inRaw := false, false;
    var i := 0;
    while i < |s|
      invariant 0 <= i <= |s| && !(inStr && inRaw)
      invariant b + Strip(s[i..], if inStr then Str else if inRaw then Raw else Code) == Strip(s, Code)
    {
      var c := s[i];
      assert s[i..][1..] == s[i + 1..];
      if !inStr && !inRaw && c == '/' && i + 1 < |s| && s[i + 1] == '/' {
        assert s[i..][1] == '/';
        return;
      }
      if inStr {
        if c == '\\' && i + 1 < |s| {
          assert s[i..][2..] == s[i + 2..];
          i := i + 2;
          continue;
        }
        if c == '"' {
          inStr := false;
        }
      } else if inRaw {
        if c == '`' {
          inRaw := false;
        }
      } else if c == '"' {
        inStr := true;
      } else if c == '`' {
        inRaw := true;
      } else {
        b := b + [c];
      }
      i := i + 1;
    }
  }

  /** Text without quotes and without two slashes in a row. */
  predicate Plain(code: string) {
    && (forall i :: 0 <= i < |code| ==> code[i] != '"' && code[i] != '`')
    && (forall i :: 0 <= i < |code| - 1 ==> !(code[i] == '/' && code[i + 1] == '/'))
  }

  /** No comment starts where the one text meets the other. */
  predicate Meets(code: string, rest: string) {
    code != "" && rest != "" ==> !(code[|code| - 1] == '/' && rest[0] == '/')
  }

  /** The inside of a string literal: no bare quote, every backslash escapes what
      follows it. */
  predicate Literal(lit: string) {
    lit == "" || (if lit[0] == '\\' then |lit| > 1 && Literal(lit[2..]) else lit[0] != '"' && Literal(lit[1..]))
  }

  lemma {:induction false} CodeStays(code: string, rest: string)
    requires Plain(code) && Meets(code, rest)
    ensures Strip(code + rest, Code) == code + Strip(rest, Code)
  {
    if code == "" {
      assert code + rest == rest;
    } else {
      var s := code + rest;
      assert s[0] == code[0] && s[1..] == code[1..] + rest;
      if code[0] == '/' && |s| > 1 {
        assert s[1] == if |code| > 1 then code[1] else rest[0];
      }
      CodeStays(code[1..], rest);
    }
  }

  /** Plain text is kept as it is, slashes that stand alone included. */
  lemma PlainStays(code: string)
    requires Plain(code)
    ensures Strip(code, Code) == code
  {
    CodeStays(code, "");
    assert code + "" == code;
  }

  lemma {:induction false} InsideVanishes(lit: string, rest: string)
    requires Literal(lit)
    ensures Strip(lit + "\"" + rest, Str) == Strip(rest, Code)
  {
    var s := lit + "\"" + rest;
    if lit == "" {
      assert s[0] == '"' && s[1..] == rest;
    } else if lit[0] == '\\' {
      assert s[2..] == lit[2..] + "\"" + rest;
      InsideVanishes(lit[2..], rest);
    } else {
      assert s[1..] == lit[1..] + "\"" + rest;
      InsideVanishes(lit[1..], rest);
    }
  }

  lemma {:induction false} RawInsideVanishes(raw: string, rest: string)
    requires '`' !in raw
    ensures Strip(raw + "`" + rest, Raw) == Strip(rest, Code)
  {
    var s := raw + "`" + rest;
    if raw == "" {
      assert s[0] == '`' && s[1..] == rest;
    } else {
      assert s[1..] == raw[1..] + "`" + rest;
      RawInsideVanishes(raw[1..], rest);
    }
  }

  /** A string literal, escapes and all, leaves no trace; neither does a raw one. */
  lemma LiteralsVanish(code: string, lit: string, raw: string, rest: string)
    requires Plain(code) && Literal(lit) && '`' !in raw
    ensures Strip(code + ("\"" + (lit + "\"" + rest)), Code) == code + Strip(rest, Code)
    ensures Strip(code + ("`" + (raw + "`" + rest)), Code) == code + Strip(rest, Code)
  {
    CodeStays(code, "\"" + (lit + "\"" + rest));
    InsideVanishes(lit, rest);
    assert ("\"" + (lit + "\"" + rest))[1..] == lit + "\"" + rest;
    CodeStays(code, "`" + (raw + "`" + rest));
    RawInsideVanishes(raw, rest);
    assert ("`" + (raw + "`" + rest))[1..] == raw + "`" + rest;
  }

  /** Nothing after the start of a comment is kept. */
  lemma CommentsVanish(code: string, comment: string)
    requires Plain(code) && Meets(code, "//")
    ensures Strip(code + ("//" + comment), Code) == code
  {
    CodeStays(code, "//" + comment);
  }

  // ---- Scanning ----

  /** White space as the declaration pattern has it. */
  predicate IsSpace(c: char) { c == ' ' || c == '\t' || c == '\n' || c == '\r' || c == '\U{000C}' }

  predicate IsWord(c: char) { 'a' <= c <= 'z' || 'A' <= c <= 'Z' || '0' <= c <= '9' || c == '_' }

  /** The word `func` after leading white space. */
  predicate Declares(raw: string) {
    if raw != "" && IsSpace(raw[0]) then Declares(raw[1..])
    else |raw| >= 4 && raw[..4] == "func" && (|raw| == 4 || !IsWord(raw[4]))
  }

  /** What the scan looks at on a line: whether a function declaration starts it,
      and the braces left after stripping. */
  datatype Line = Line(declares: bool, opens: nat, closes: nat)

  function LineOf(raw: string): Line {
    Line(Declares(raw), multiset(Strip(raw, Code))['{'], multiset(Strip(raw, Code))['}'])
  }

  function LinesOf(raws: seq<string>): (lines: seq<Line>)
    ensures |lines| == |raws|
  {
    if raws == [] then [] else [LineOf(raws[0])] + LinesOf(raws[1..])
  }

  /** A line declares a function exactly when, after white space, it has the word. */
  lemma {:induction false} DeclaresIff(raw: string)
    ensures Declares(raw) <==> exists k: nat :: WordAt(raw, k)
  {
    if raw != "" && IsSpace(raw[0]) {
      DeclaresIff(raw[1..]);
      if k: nat :| WordAt(raw[1..], k) {
        assert raw[1..][k..] == raw[k + 1..];
        assert forall i :: 0 < i < k + 1 ==> raw[i] == raw[1..][i - 1];
        assert WordAt(raw, k + 1);
      }
      if k: nat :| WordAt(raw, k) {
        assert k > 0;
        assert raw[1..][k - 1..] == raw[k..];
        assert WordAt(raw[1..], k - 1);
      }
    } else {
      if Declares(raw) {
        assert WordAt(raw, 0);
      }
      if k: nat :| WordAt(raw, k) {
        assert k == 0;
      }
    }
  }

  /** `func`, at `k`, with white space before it and no word character after it. */
  predicate WordAt(raw: string, k: nat) {
    && k + 4 <= |raw| && (forall i :: 0 <= i < k ==> raw[i] in " \t\n\r\U{000C}")
    && raw[k] == 'f' && raw[k + 1] == 'u' && raw[k + 2] == 'n' && raw[k + 3] == 'c'
    && (k + 4 < |raw| ==> !('a' <= raw[k + 4] <= 'z' || 'A' <= raw[k + 4] <= 'Z' || '0' <= raw[k + 4] <= '9' || raw[k + 4] == '_'))
  }

  /** The braces counted on a plain line are those it has; a comment after it and a
      literal in it add none. */
  lemma BracesCounted(code: string, comment: string, lit: string, rest: string)
    requires Plain(code) && Literal(lit)
    ensures LineOf(code).opens == multiset(code)['{'] && LineOf(code).closes == multiset(code)['}']
    ensures Meets(code, "//") ==>
      LineOf(code + ("//" + comment)).opens == multiset(code)['{'] && LineOf(code + ("//" + comment)).closes == multiset(code)['}']
    ensures var line := LineOf(code + ("\"" + (lit + "\"" + rest)));
      line.opens == multiset(code)['{'] + LineOf(rest).opens && line.closes == multiset(code)['}'] + LineOf(rest).closes
  {
    PlainStays(code);
    if Meets(code, "//") {
      CommentsVanish(code, comment);
    }
    LiteralsVanish(code, lit, "", rest);
  }

  lemma {:induction false} LinesAgree(raws: seq<string>)
    ensures forall i :: 0 <= i < |raws| ==> LinesOf(raws)[i] == LineOf(raws[i])
  {
    if raws != [] {
      LinesAgree(raws[1..]);
    }
  }

  /** A function measured: its first line, counted from one, its number of lines
      and the deepest nesting in it. */
  datatype Measured = Measured(start: nat, length: int, deepest: int)

  datatype Scan = Scan(depth: int, inFunc: bool, start: nat, deepest: int, found: seq<Measured>)

  function Max(a: int, b: int): int { if a > b then a else b }

  function ScanLine(s: Scan, i: nat, line: Line): Scan {
    if !s.inFunc && line.declares then
      var depth := s.depth + line.opens - line.closes;
      if depth > 0 then Scan(depth, true, i + 1, depth, s.found) else s.(depth := depth, start := i + 1)
    else if !s.inFunc then s
    else
      var deepest := Max(s.deepest, s.depth + line.opens);
      var depth := s.depth + line.opens - line.closes;
      if depth > 0 then s.(depth := depth, deepest := deepest)
      else Scan(0, false, s.start, 0, s.found + [Measured(s.start, i + 1 - s.start + 1, deepest)])
  }

  /** The scan of `lines`, the first of which has index `i`. */
  function ScanFrom(s: Scan, i: nat, lines: seq<Line>): Scan
    decreases |lines|
  {
    if lines == [] then s else ScanFrom(ScanLine(s, i, lines[0]), i + 1, lines[1..])
  }

  const START := Scan(0, false, 0, 0, [])

  lemma {:induction false} ScanAppends(s: Scan, i: nat, lines: seq<Line>, more: seq<Line>)
    ensures ScanFrom(s, i, lines + more) == ScanFrom(ScanFrom(s, i, lines), i + |lines|, more)
    decreases |lines|
  {
    if lines == [] {
      assert lines + more == more;
    } else {
      assert (lines + more)[1..] == lines[1..] + more;
      ScanAppends(ScanLine(s, i, lines[0]), i + 1, lines[1..], more);
    }
  }

  lemma ScanOneMore(s: Scan, i: nat, lines: seq<Line>, k: nat)
    requires k < |lines|
    ensures ScanFrom(s, i, lines[..k + 1]) == ScanLine(ScanFrom(s, i, lines[..k]), i + k, lines[k])
  {
    assert lines[..k + 1] == lines[..k] + [lines[k]];
    ScanAppends(s, i, lines[..k], [lines[k]]);
    assert [lines[k]][1..] == [];
    assert ScanFrom(ScanLine(ScanFrom(s, i, lines[..k]), i + k, lines[k]), i + k + 1, []) == ScanLine(ScanFrom(s, i, lines[..k]), i + k, lines[k]);
  }

  datatype Limits = Limits(maxFuncLines: nat, maxNesting: nat)

  datatype Report = LongFunction(line: nat, length: nat) | DeepNesting(line: nat, depth: nat)

  /** What is reported of a function. */
  function ReportsOn(m: Measured, limits: Limits): seq<Report> {
    (if m.length > limits.maxFuncLines then [LongFunction(m.start, m.length)] else [])
    + if m.deepest > limits.maxNesting then [DeepNesting(m.start, m.deepest)] else []
  }

  function Reports(found: seq<Measured>, limits: Limits): seq<Report> {
    if found == [] then [] else Reports(found[..|found| - 1], limits) + ReportsOn(found[|found| - 1], limits)
  }

  /** What the scan of a text reports. */
  function ReportsIn(raws: seq<string>, limits: Limits): seq<Report> {
    Reports(ScanFrom(START, 0, LinesOf(raws)).found, limits)
  }

  // ---- What is measured ----

  /** The nesting after the lines. */
  function Balance(lines: seq<Line>): int {
    if lines == [] then 0 else Balance(lines[..|lines| - 1]) + lines[|lines| - 1].opens - lines[|lines| - 1].closes
  }

  /** The deepest nesting in a function's lines: after the first, and on each other
      line once its braces are open. */
  function Peak(lines: seq<Line>): int {
    if |lines| <= 1 then Balance(lines)
    else Max(Peak(lines[..|lines| - 1]), Balance(lines[..|lines| - 1]) + lines[|lines| - 1].opens)
  }

  datatype Chunk = Gap(lines: seq<Line>) | Function(lines: seq<Line>)

  /** A function is declared on its first line, is open after every line but the
      last and closed after that. Between functions a line that looks like a
      declaration closes what it opens. */
  predicate WellFormed(c: Chunk) {
    match c
    case Gap(ls) => forall i :: 0 <= i < |ls| && ls[i].declares ==> ls[i].opens == ls[i].closes
    case Function(ls) =>
      && |ls| >= 2 && ls[0].declares && Balance(ls) <= 0
      && forall k :: 0 < k < |ls| ==> Balance(ls[..k]) > 0
  }

  function Flatten(cs: seq<Chunk>): seq<Line> {
    if cs == [] then [] else cs[0].lines + Flatten(cs[1..])
  }

  function MeasuredIn(c: Chunk, i: nat): seq<Measured> {
    if c.Gap? then [] else [Measured(i + 1, |c.lines|, Peak(c.lines))]
  }

  function AllMeasured(cs: seq<Chunk>, i: nat): seq<Measured>
    decreases |cs|
  {
    if cs == [] then [] else MeasuredIn(cs[0], i) + AllMeasured(cs[1..], i + |cs[0].lines|)
  }

  predicate Idle(s: Scan) { s.depth == 0 && !s.inFunc }

  lemma {:induction false} GapIsSkipped(s: Scan, i: nat, ls: seq<Line>)
    requires Idle(s) && WellFormed(Gap(ls))
    ensures Idle(ScanFrom(s, i, ls)) && ScanFrom(s, i, ls).found == s.found
    decreases |ls|
  {
    if ls != [] {
      assert WellFormed(Gap(ls[1..])) by {
        assert forall k :: 0 <= k < |ls[1..]| ==> ls[1..][k] == ls[k + 1];
      }
      GapIsSkipped(ScanLine(s, i, ls[0]), i + 1, ls[1..]);
    }
  }

  lemma {:induction false} InsideFunction(s: Scan, i: nat, ls: seq<Line>, k: nat)
    requires Idle(s) && WellFormed(Function(ls)) && 0 < k < |ls|
    ensures ScanFrom(s, i, ls[..k]) == Scan(Balance(ls[..k]), true, i + 1, Peak(ls[..k]), s.found)
    decreases k
  {
    ScanOneMore(s, i, ls, k - 1);
    assert ls[..k][..k - 1] == ls[..k - 1];
    if k == 1 {
      assert ls[..0] == [];
      assert Balance(ls[..1]) == ls[0].opens - ls[0].closes;
    } else {
      InsideFunction(s, i, ls, k - 1);
    }
  }

  lemma FunctionIsMeasured(s: Scan, i: nat, ls: seq<Line>)
    requires Idle(s) && WellFormed(Function(ls))
    ensures Idle(ScanFrom(s, i, ls)) && ScanFrom(s, i, ls).found == s.found + MeasuredIn(Function(ls), i)
  {
    var last := |ls| - 1;
    InsideFunction(s, i, ls, last);
    ScanOneMore(s, i, ls, last);
    assert ls[..last + 1] == ls;
  }

  lemma ChunkIsMeasured(s: Scan, i: nat, c: Chunk)
    requires Idle(s) && WellFormed(c)
    ensures Idle(ScanFrom(s, i, c.lines)) && ScanFrom(s, i, c.lines).found == s.found + MeasuredIn(c, i)
  {
    match c
    case Gap(ls) => GapIsSkipped(s, i, ls);
    case Function(ls) => FunctionIsMeasured(s, i, ls);
  }

  predicate AllWellFormed(cs: seq<Chunk>) {
    cs == [] || (WellFormed(cs[0]) && AllWellFormed(cs[1..]))
  }

  lemma {:induction false} ChunksAreMeasured(s: Scan, i: nat, cs: seq<Chunk>)
    requires Idle(s) && AllWellFormed(cs)
    ensures ScanFrom(s, i, Flatten(cs)).found == s.found + AllMeasured(cs, i)
    decreases |cs|
  {
    if cs != [] {
      var first, rest := cs[0], cs[1..];
      ChunkIsMeasured(s, i, first);
      ScanAppends(s, i, first.lines, Flatten(rest));
      var s1 := ScanFrom(s, i, first.lines);
      ChunksAreMeasured(s1, i + |first.lines|, rest);
      assert s1.found + AllMeasured(rest, i + |first.lines|) == s.found + (MeasuredIn(first, i) + AllMeasured(rest, i + |first.lines|));
    }
  }

  /** In a file made of functions and other lines every function is measured once,
      in order, from its declaration to the line that closes it, with its deepest
      nesting; and nothing else is. */
  lemma EveryFunctionMeasuredOnce(cs: seq<Chunk>)
    requires AllWellFormed(cs)
    ensures ScanFrom(START, 0, Flatten(cs)).found == AllMeasured(cs, 0)
  {
    ChunksAreMeasured(START, 0, cs);
  }

  lemma {:induction false} ReportsAppend(a: seq<Measured>, b: seq<Measured>, limits: Limits)
    ensures Reports(a + b, limits) == Reports(a, limits) + Reports(b, limits)
    decreases |b|
  {
    if b == [] {
      assert a + b == a;
    } else {
      var last := |b| - 1;
      ReportsAppend(a, b[..last], limits);
      assert (a + b)[..|a + b| - 1] == a + b[..last] && (a + b)[|a + b| - 1] == b[last];
    }
  }

  /** The index of the first line of the k-th chunk, when the first has index `i`. */
  function IndexOf(cs: seq<Chunk>, k: nat, i: nat): nat
    requires k < |cs|
  {
    if k == 0 then i else IndexOf(cs[1..], k - 1, i + |cs[0].lines|)
  }

  /** A report names the declaration line of a function and is deserved by it. */
  predicate Deserved(cs: seq<Chunk>, k: nat, i: nat, limits: Limits, r: Report) {
    && k < |cs| && cs[k].Function?
    && r.line == IndexOf(cs, k, i) + 1
    && match r
       case LongFunction(_, length) => length == |cs[k].lines| > limits.maxFuncLines
       case DeepNesting(_, depth) => depth == Peak(cs[k].lines) > limits.maxNesting
  }

  lemma FirstDeserves(c: Chunk, i: nat, limits: Limits, r: Report)
    ensures r in Reports(MeasuredIn(c, i), limits) <==> Deserved([c], 0, i, limits, r)
  {
    if c.Function? {
      var m := Measured(i + 1, |c.lines|, Peak(c.lines));
      assert [m][..0] == [];
      assert Reports([m], limits) == [] + ReportsOn(m, limits);
    }
  }

  lemma DeservedShifts(cs: seq<Chunk>, k: nat, i: nat, limits: Limits, r: Report)
    requires cs != []
    ensures Deserved(cs, 0, i, limits, r) <==> Deserved([cs[0]], 0, i, limits, r)
    ensures Deserved(cs, k + 1, i, limits, r) <==> Deserved(cs[1..], k, i + |cs[0].lines|, limits, r)
  {
    if k < |cs[1..]| {
      assert cs[1..][k] == cs[k + 1];
    }
  }

  lemma FirstOrRest(cs: seq<Chunk>, i: nat, limits: Limits, r: Report)
    requires cs != []
    ensures r in Reports(AllMeasured(cs, i), limits)
       <==> Deserved(cs, 0, i, limits, r) || r in Reports(AllMeasured(cs[1..], i + |cs[0].lines|), limits)
  {
    var first, rest := MeasuredIn(cs[0], i), AllMeasured(cs[1..], i + |cs[0].lines|);
    assert AllMeasured(cs, i) == first + rest;
    ReportsAppend(first, rest, limits);
    FirstDeserves(cs[0], i, limits, r);
    DeservedShifts(cs, 0, i, limits, r);
  }

  lemma {:induction false} ReportIsDeserved(cs: seq<Chunk>, i: nat, limits: Limits, r: Report) returns (k: nat)
    requires r in Reports(AllMeasured(cs, i), limits)
    ensures Deserved(cs, k, i, limits, r)
    decreases |cs|
  {
    FirstOrRest(cs, i, limits, r);
    if Deserved(cs, 0, i, limits, r) {
      k := 0;
    } else {
      var rest := ReportIsDeserved(cs[1..], i + |cs[0].lines|, limits, r);
      DeservedShifts(cs, rest, i, limits, r);
      k := rest + 1;
    }
  }

  lemma {:induction false} DeservedIsReported(cs: seq<Chunk>, k: nat, i: nat, limits: Limits, r: Report)
    requires Deserved(cs, k, i, limits, r)
    ensures r in Reports(AllMeasured(cs, i), limits)
    decreases |cs|
  {
    FirstOrRest(cs, i, limits, r);
    if k > 0 {
      DeservedShifts(cs, k - 1, i, limits, r);
      DeservedIsReported(cs[1..], k - 1, i + |cs[0].lines|, limits, r);
    }
  }

  /** In a text whose lines are those of functions and gaps the reports are those
      that some function deserves: every function too long and every function too
      deep, at its declaration, and nothing else. */
  lemma ReportedIff(raws: seq<string>, cs: seq<Chunk>, limits: Limits, r: Report)
    requires LinesOf(raws) == Flatten(cs) && AllWellFormed(cs)
    ensures r in Reports(ScanFrom(START, 0, LinesOf(raws)).found, limits) <==> exists k: nat :: Deserved(cs, k, 0, limits, r)
  {
    EveryFunctionMeasuredOnce(cs);
    if r in Reports(AllMeasured(cs, 0), limits) {
      var k := ReportIsDeserved(cs, 0, limits, r);
    }
    if k: nat :| Deserved(cs, k, 0, limits, r) {
      DeservedIsReported(cs, k, 0, limits, r);
    }
  }

  lemma {:induction false} OpenOrFound(ls: seq<Line>, k: nat)
    requires 0 < k <= |ls| && ls[0].declares && forall j :: 0 < j < |ls| ==> !ls[j].declares
    ensures var s := ScanFrom(START, 0, ls[..k]);
      if ls[0].opens > ls[0].closes
      then s.found != [] || (s.inFunc && s.depth == Balance(ls[..k]) && s.depth > 0)
      else s.found == [] && !s.inFunc
    decreases k
  {
    ScanOneMore(START, 0, ls, k - 1);
    assert ls[..k][..k - 1] == ls[..k - 1];
    if k == 1 {
      assert ls[..0] == [];
    } else {
      OpenOrFound(ls, k - 1);
    }
  }

  /** A function whose declaration takes several lines, with the brace on a later
      one, is never measured, however long or deep: a declaration is followed up
      exactly when its own line leaves a brace open. */
  lemma MeasuredIffOpenedOnFirstLine(ls: seq<Line>)
    requires ls != [] && ls[0].declares && (forall j :: 0 < j < |ls| ==> !ls[j].declares) && Balance(ls) <= 0
    ensures ScanFrom(START, 0, ls).found != [] <==> ls[0].opens > ls[0].closes
  {
    OpenOrFound(ls, |ls|);
    assert ls[..|ls|] == ls;
  }
}
