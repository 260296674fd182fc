// The scan of a file for long and deeply nested functions: the names it gives them,
// the loop over the lines, and the findings it makes
// (cmd/tech-debt-classify/main.go:213-344 and 398-430).
module FunctionScan {
  import opened BraceScan
  import opened Findings

  // ---- Names ----

  /** White space as trimming has it. */
  predicate IsBlank(c: char) {
    || c == ' ' || '\t' <= c <= '\r' || c == '\U{0085}' || c == '\U{00A0}' || c == '\U{1680}' || '\U{2000}' <= c <= '\U{200A}'
    || c == '\U{2028}' || c == '\U{2029}' || c == '\U{202F}' || c == '\U{205F}' || c == '\U{3000}'
  }

  function TrimLeft(s: string): string {
    if s != "" && IsBlank(s[0]) then TrimLeft(s[1..]) else s
  }

  function TrimRight(s: string): string {
    if s != "" && IsBlank(s[|s| - 1]) then TrimRight(s[..|s| - 1]) else s
  }

  function TrimSpace(s: string): string { TrimRight(TrimLeft(s)) }

  /** The position of the first `c`, or the length where there is none. */
  function Index(s: string, c: char): (i: nat)
    ensures i <= |s| && (i < |s| ==> s[i] == c)
  {
    if s == "" || s[0] == c then 0 else 1 + Index(s[1..], c)
  }

  function AfterKeyword(line: string): string {
    var s := TrimSpace(line);
    TrimSpace(if "func" <= s then s[4..] else s)
  }

  /** What comes before the parameters. */
  function BeforeParameters(s: string): string {
    TrimSpace(s[..Index(s, '(')])
  }

  function FuncName(line: string): string {
    var rest := AfterKeyword(line);
    if "(" <= rest then
      (if Index(rest, ')') == |rest| then "anonymous" else BeforeParameters(TrimSpace(rest[Index(rest, ')') + 1..])))
    else BeforeParameters(rest)
  }

  /** A name: letters, digits and underscores. */
  predicate IsName(s: string) {
    s != "" && forall i :: 0 <= i < |s| ==> IsWord(s[i])
  }

  lemma {:induction false} TrimRightStops(s: string, rest: string)
    requires s != "" && !IsBlank(s[|s| - 1])
    ensures s <= TrimRight(s + rest)
  {
    if rest == "" {
      assert s + rest == s;
    } else if IsBlank((s + rest)[|s + rest| - 1]) {
      assert (s + rest)[..|s + rest| - 1] == s + rest[..|rest| - 1];
      TrimRightStops(s, rest[..|rest| - 1]);
    }
  }

  /** Trimming keeps text that starts and ends with something visible. */
  lemma TrimKeeps(s: string, rest: string)
    requires s != "" && !IsBlank(s[0]) && !IsBlank(s[|s| - 1])
    ensures s <= TrimSpace(s + rest)
  {
    assert (s + rest)[0] == s[0];
    TrimRightStops(s, rest);
  }

  lemma {:induction false} IndexFinds(s: string, c: char, rest: string)
    requires c !in s
    ensures Index(s + [c] + rest, c) == |s|
  {
    var t := s + [c] + rest;
    if s == "" {
      assert t[0] == c;
    } else {
      assert t[0] == s[0];
      assert t[1..] == s[1..] + [c] + rest;
      IndexFinds(s[1..], c, rest);
    }
  }

  lemma NameStands(name: string, rest: string)
    requires IsName(name) && name + "(" <= rest
    ensures BeforeParameters(rest) == name
  {
    var more := rest[|name| + 1..];
    assert rest == name + ['('] + more;
    assert '(' !in name;
    IndexFinds(name, '(', more);
    assert rest[..|name|] == name;
    TrimKeeps(name, "");
    assert name + "" == name;
  }

  lemma KeywordGoes(s: string, rest: string)
    requires s != "" && !IsBlank(s[0]) && !IsBlank(s[|s| - 1])
    ensures s <= AfterKeyword("func " + s + rest)
  {
    var whole := "func " + s;
    TrimKeeps(whole, rest);
    assert whole + rest == "func " + s + rest;
    var t := TrimSpace("func " + s + rest);
    var more := t[|whole|..];
    assert t == whole + more && "func" <= t;
    assert t[4..] == " " + (s + more);
    assert TrimLeft(t[4..]) == TrimLeft(s + more);
    TrimKeeps(s, more);
    assert TrimLeft(s + more) == s + more by {
      assert (s + more)[0] == s[0];
    }
  }

  /** A function is called by its name, with or without a receiver. */
  lemma FunctionsAreNamed(name: string, receiver: string, rest: string)
    requires IsName(name) && ')' !in receiver
    ensures FuncName("func " + (name + "(") + rest) == name
    ensures FuncName("func " + ("(" + receiver + ") " + name + "(") + rest) == name
  {
    KeywordGoes(name + "(", rest);
    var plain := AfterKeyword("func " + (name + "(") + rest);
    assert plain[0] == name[0] && plain[0] != '(';
    NameStands(name, plain);
    ReceiverGoes(name, receiver, rest);
  }

  lemma ReceiverGoes(name: string, receiver: string, rest: string)
    requires IsName(name) && ')' !in receiver
    ensures FuncName("func " + ("(" + receiver + ") " + name + "(") + rest) == name
  {
    var s := "(" + receiver + ") " + name + "(";
    KeywordGoes(s, rest);
    var found := AfterKeyword("func " + s + rest);
    var more := found[|s|..];
    assert found == s + more;
    ReceiverSkipped(name, receiver, more);
  }

  lemma ReceiverSkipped(name: string, receiver: string, more: string)
    requires IsName(name) && ')' !in receiver
    ensures var found := ("(" + receiver + ") " + name + "(") + more;
      var end := Index(found, ')');
      "(" <= found && end < |found| && BeforeParameters(TrimSpace(found[end + 1..])) == name
  {
    var found := ("(" + receiver + ") " + name + "(") + more;
    var head, tail := "(" + receiver, " " + (name + "(" + more);
    assert found == head + [')'] + tail;
    IndexFinds(head, ')', tail);
    assert found[|head| + 1..] == tail;
    AfterReceiver(name, more);
  }

  lemma AfterReceiver(name: string, more: string)
    requires IsName(name)
    ensures BeforeParameters(TrimSpace(" " + (name + "(" + more))) == name
  {
    var tail := " " + (name + "(" + more);
    assert tail[1..] == name + "(" + more;
    assert TrimLeft(tail) == TrimLeft(name + "(" + more);
    TrimKeeps(name + "(", more);
    NameStands(name, TrimSpace(tail));
  }

  // ---- Findings ----

  /** What the scan is told about the file. */
  datatype File = File(path: string, pkg: string, isTest: bool)

  predicate Contains(s: string, key: string) {
    exists k :: 0 <= k <= |s| && key <= s[k..]
  }

  predicate Sensitive(pkg: string) {
    Contains(pkg, "handlers") || Contains(pkg, "services") || Contains(pkg, "middleware") || Contains(pkg, "auth") || Contains(pkg, "security")
  }

  function SizePriority(file: File): Priority { if file.isTest then Low else Medium }

  function NestingPriority(file: File): Priority {
    if file.isTest then Low else if Sensitive(file.pkg) then High else Medium
  }

  /** Every line's name, should it declare a function. */
  function NamesOf(raws: seq<string>): (names: seq<string>)
    ensures |names| == |raws|
  {
    seq(|raws|, i requires 0 <= i < |raws| => FuncName(raws[i]))
  }

  /** The name of the function that starts at a line, counted from one. */
  function NameAt(names: seq<string>, line: nat): string {
    if 0 < line <= |names| then names[line - 1] else ""
  }

  function FindingOf(file: File, limits: Limits, name: string, r: Report): Finding {
    match r
    case LongFunction(line, length) =>
      Finding(file.path, line, file.pkg, Size, SizePriority(file), "long-function",
              name + ": " + Decimal(length) + " lines (>" + Decimal(limits.maxFuncLines) + ")")
    case DeepNesting(line, depth) =>
      Finding(file.path, line, file.pkg, Complexity, NestingPriority(file), "deep-nesting",
              name + ": brace depth " + Decimal(depth) + " (>" + Decimal(limits.maxNesting) + ")")
  }

  /** The findings of the reports, one for each and in their order. */
  function FindingsOf(names: seq<string>, file: File, limits: Limits, reports: seq<Report>): seq<Finding> {
    if reports == [] then []
    else FindingsOf(names, file, limits, reports[..|reports| - 1])
         + [FindingOf(file, limits, NameAt(names, reports[|reports| - 1].line), reports[|reports| - 1])]
  }

  // ---- The loop ----

  method ReadLine(raws: seq<string>, i: nat) returns (line: Line)
    requires i < |raws|
    ensures line == LinesOf(raws)[i]
  {
    var code := StripStringsAndComments(raws[i]);
    line := Line(Declares(raws[i]), multiset(code)['{'], multiset(code)['}']);
    LinesAgree(raws);
  }

  method ReadName(raws: seq<string>, i: nat) returns (name: string)
    requires i < |raws|
    ensures name == NamesOf(raws)[i]
  {
    name := FuncName(raws[i]);
  }

  /** A line ends a function: the scan is in one and the line closes its braces. */
  predicate Ends(s: Scan, line: Line) { s.inFunc && s.depth + line.opens - line.closes <= 0 }

  // What a line does to the scan, case by case.
  lemma LineStarts(s: Scan, i: nat, line: Line)
    requires !s.inFunc && line.declares
    ensures var depth := s.depth + line.opens - line.closes;
      ScanLine(s, i, line) == if depth > 0 then Scan(depth, true, i + 1, depth, s.found) else s.(depth := depth, start := i + 1)
  {
  }

  lemma LineBetween(s: Scan, i: nat, line: Line)
    requires !s.inFunc && !line.declares
    ensures ScanLine(s, i, line) == s
  {
  }

  lemma LineInside(s: Scan, i: nat, line: Line)
    requires s.inFunc && !Ends(s, line)
    ensures ScanLine(s, i, line) == s.(depth := s.depth + line.opens - line.closes, deepest := Max(s.deepest, s.depth + line.opens))
  {
  }

  lemma OneReportMore(names: seq<string>, file: File, limits: Limits, reports: seq<Report>, r: Report)
    ensures FindingsOf(names, file, limits, reports + [r])
         == FindingsOf(names, file, limits, reports) + [FindingOf(file, limits, NameAt(names, r.line), r)]
  {
    assert (reports + [r])[..|reports|] == reports;
  }

  /** The findings on the functions measured. */
  function AllFindings(names: seq<string>, file: File, limits: Limits, found: seq<Measured>): seq<Finding> {
    FindingsOf(names, file, limits, Reports(found, limits))
  }

  method ReportMeasured(before: seq<Finding>, ghost reports: seq<Report>, ghost names: seq<string>, file: File, limits: Limits,
                        name: string, m: Measured)
    returns (findings: seq<Finding>)
    requires before == FindingsOf(names, file, limits, reports) && name == NameAt(names, m.start)
    ensures findings == FindingsOf(names, file, limits, reports + ReportsOn(m, limits))
  {
    findings := before;
    ghost var told := reports;
    if m.length > limits.maxFuncLines {
      var long := LongFunction(m.start, m.length);
      OneReportMore(names, file, limits, told, long);
      told := told + [long];
      findings := findings + [FindingOf(file, limits, name, long)];
    }
    if m.deepest > limits.maxNesting {
      var deep := DeepNesting(m.start, m.deepest);
      OneReportMore(names, file, limits, told, deep);
      told := told + [deep];
      findings := findings + [FindingOf(file, limits, name, deep)];
    }
    assert told == reports + ReportsOn(m, limits);
  }

  lemma FunctionEnds(s: Scan, i: nat, line: Line, limits: Limits)
    requires Ends(s, line)
    ensures var m := Measured(s.start, i + 1 - s.start + 1, Max(s.deepest, s.depth + line.opens));
      Reports(ScanLine(s, i, line).found, limits) == Reports(s.found, limits) + ReportsOn(m, limits)
  {
    var m := Measured(s.start, i + 1 - s.start + 1, Max(s.deepest, s.depth + line.opens));
    assert ScanLine(s, i, line).found == s.found + [m];
    assert (s.found + [m])[..|s.found|] == s.found;
  }

  /** The function the scan was in ends on this line. */
  method ReportFunction(before: seq<Finding>, ghost s: Scan, ghost i: nat, ghost line: Line, ghost names: seq<string>,
                        file: File, limits: Limits, name: string, start: nat, length: int, deepest: int)
    returns (findings: seq<Finding>)
    requires Ends(s, line) && start == s.start && length == i + 1 - start + 1 && deepest == Max(s.deepest, s.depth + line.opens)
    requires before == AllFindings(names, file, limits, s.found) && name == NameAt(names, start)
    ensures findings == AllFindings(names, file, limits, ScanLine(s, i, line).found)
    ensures ScanLine(s, i, line) == Scan(0, false, s.start, 0, ScanLine(s, i, line).found)
  {
    FunctionEnds(s, i, line, limits);
    findings := ReportMeasured(before, Reports(s.found, limits), names, file, limits, name, Measured(start, length, deepest));
  }

  /** The scan after the first `i` lines. */
  ghost predicate Reached(s: Scan, lines: seq<Line>, i: nat) {
    i <= |lines| && s == ScanFrom(START, 0, lines[..i])
  }

  lemma ReachesNext(s: Scan, lines: seq<Line>, i: nat)
    requires i < |lines| && Reached(s, lines, i)
    ensures Reached(ScanLine(s, i, lines[i]), lines, i + 1)
  {
    ScanOneMore(START, 0, lines, i);
  }

  lemma ReachedEnd(s: Scan, lines: seq<Line>)
    requires Reached(s, lines, |lines|)
    ensures s == ScanFrom(START, 0, lines)
  {
    assert lines[..|lines|] == lines;
  }

  method ScanFunctions(raws: seq<string>, file: File, limits: Limits) returns (findings: seq<Finding>)
    ensures findings == FindingsOf(NamesOf(raws), file, limits, ReportsIn(raws, limits))
  {
    findings := [];
    ghost var lines, names, s := LinesOf(raws), NamesOf(raws), START;
    var depth: int, inFunc, start: nat, name, deepest: int := 0, false, 0, "", 0;
    var i := 0;
    while i < |raws|
      invariant 0 <= i <= |raws| == |lines| == |names|
      invariant Reached(s, lines, i)
      invariant s.depth == depth && s.inFunc == inFunc && s.start == start && s.deepest == deepest
      invariant inFunc ==> name == NameAt(names, start)
      invariant findings == AllFindings(names, file, limits, s.found)
    {
      var line := ReadLine(raws, i);
      ghost var before := s;
      ReachesNext(s, lines, i);
      s := ScanLine(s, i, line);
      if !inFunc && line.declares {
        LineStarts(before, i, line);
        start := i + 1;
        name := ReadName(raws, i);
        depth := depth + line.opens - line.closes;
        if depth > 0 {
          inFunc, deepest := true, depth;
        }
      } else if inFunc {
        depth := depth + line.opens;
        if depth > deepest {
          deepest := depth;
        }
        depth := depth - line.closes;
        if depth > 0 {
          LineInside(before, i, line);
        } else {
          findings := ReportFunction(findings, before, i, line, names, file, limits, name, start, i + 1 - start + 1, deepest);
          inFunc, depth, deepest := false, 0, 0;
        }
      } else {
        LineBetween(before, i, line);
      }
      i := i + 1;
    }
    ReachedEnd(s, lines);
  }
}
