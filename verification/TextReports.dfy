// What is reported of plain text: functions and other lines given as text, with the
// braces that stand in it (cmd/tech-debt-classify/main.go:213-280).
module TextReports {
  import opened BraceScan
  import opened Findings
  import opened FunctionScan

  /** Lines outside functions, and the lines of one function. */
  datatype Piece = Loose(lines: seq<string>) | Func(lines: seq<string>)

  /** Braces opened less braces closed. */
  function TextBalance(lines: seq<string>): int {
    if lines == [] then 0
    else TextBalance(lines[..|lines| - 1]) + multiset(lines[|lines| - 1])['{'] - multiset(lines[|lines| - 1])['}']
  }

  /** The deepest nesting in a function's lines. */
  function TextPeak(lines: seq<string>): int {
    if |lines| <= 1 then TextBalance(lines)
    else Max(TextPeak(lines[..|lines| - 1]), TextBalance(lines[..|lines| - 1]) + multiset(lines[|lines| - 1])['{'])
  }

  /** A function starts with its declaration and is open from there to its last line,
      which closes it. Elsewhere a line that looks like a declaration closes what it
      opens. */
  ghost predicate Fits(p: Piece) {
    && (forall i :: 0 <= i < |p.lines| ==> Plain(p.lines[i]))
    && match p
       case Loose(ls) =>
         forall i, k: nat :: 0 <= i < |ls| && WordAt(ls[i], k) ==> multiset(ls[i])['{'] == multiset(ls[i])['}']
       case Func(ls) =>
         && |ls| >= 2 && (exists k: nat :: WordAt(ls[0], k)) && TextBalance(ls) <= 0
         && forall k :: 0 < k < |ls| ==> TextBalance(ls[..k]) > 0
  }

  function Text(ps: seq<Piece>): seq<string> {
    if ps == [] then [] else ps[0].lines + Text(ps[1..])
  }

  /** The index of the first line of the k-th piece, when the first has index `i`. */
  function LineIndex(ps: seq<Piece>, k: nat, i: nat): nat
    requires k < |ps|
  {
    if k == 0 then i else LineIndex(ps[1..], k - 1, i + |ps[0].lines|)
  }

  /** The k-th piece is a function that is too long, or too deep, as the report says. */
  predicate Earned(ps: seq<Piece>, k: nat, limits: Limits, r: Report) {
    && k < |ps| && ps[k].Func?
    && r.line == LineIndex(ps, k, 0) + 1
    && match r
       case LongFunction(_, length) => length == |ps[k].lines| > limits.maxFuncLines
       case DeepNesting(_, depth) => depth == TextPeak(ps[k].lines) > limits.maxNesting
  }

  // ---- From text to lines ----

  function ChunkOf(p: Piece): Chunk {
    match p
    case Loose(ls) => Gap(LinesOf(ls))
    case Func(ls) => Function(LinesOf(ls))
  }

  function ChunksOf(ps: seq<Piece>): (cs: seq<Chunk>)
    ensures |cs| == |ps|
  {
    if ps == [] then [] else [ChunkOf(ps[0])] + ChunksOf(ps[1..])
  }

  lemma {:induction false} LinesAppend(a: seq<string>, b: seq<string>)
    ensures LinesOf(a + b) == LinesOf(a) + LinesOf(b)
  {
    if a == [] {
      assert a + b == b;
    } else {
      assert (a + b)[1..] == a[1..] + b;
      LinesAppend(a[1..], b);
    }
  }

  lemma {:induction false} TextIsFlat(ps: seq<Piece>)
    ensures LinesOf(Text(ps)) == Flatten(ChunksOf(ps))
  {
    if ps != [] {
      LinesAppend(ps[0].lines, Text(ps[1..]));
      TextIsFlat(ps[1..]);
    }
  }

  lemma LastLine(ls: seq<string>)
    requires ls != [] && Plain(ls[|ls| - 1])
    ensures var lines := LinesOf(ls);
      && lines[..|ls| - 1] == LinesOf(ls[..|ls| - 1])
      && lines[|ls| - 1].opens == multiset(ls[|ls| - 1])['{'] && lines[|ls| - 1].closes == multiset(ls[|ls| - 1])['}']
  {
    var init, last := ls[..|ls| - 1], ls[|ls| - 1];
    assert ls == init + [last];
    LinesAppend(init, [last]);
    LinesAgree(ls);
    BracesCounted(last, "", "", "");
  }

  lemma {:induction false} BalanceOfText(ls: seq<string>)
    requires forall i :: 0 <= i < |ls| ==> Plain(ls[i])
    ensures Balance(LinesOf(ls)) == TextBalance(ls)
  {
    if ls != [] {
      LastLine(ls);
      BalanceOfText(ls[..|ls| - 1]);
    }
  }

  lemma {:induction false} PeakOfText(ls: seq<string>)
    requires forall i :: 0 <= i < |ls| ==> Plain(ls[i])
    ensures Peak(LinesOf(ls)) == TextPeak(ls)
  {
    BalanceOfText(ls);
    if |ls| > 1 {
      LastLine(ls);
      BalanceOfText(ls[..|ls| - 1]);
      PeakOfText(ls[..|ls| - 1]);
    }
  }

  lemma PrefixOfLines(ls: seq<string>, k: nat)
    requires k <= |ls|
    ensures LinesOf(ls)[..k] == LinesOf(ls[..k])
  {
    assert ls == ls[..k] + ls[k..];
    LinesAppend(ls[..k], ls[k..]);
  }

  lemma FuncFits(ls: seq<string>)
    requires Fits(Func(ls))
    ensures WellFormed(Function(LinesOf(ls)))
  {
    LinesAgree(ls);
    DeclaresIff(ls[0]);
    BalanceOfText(ls);
    forall k | 0 < k < |ls|
      ensures Balance(LinesOf(ls)[..k]) > 0
    {
      PrefixOfLines(ls, k);
      BalanceOfText(ls[..k]);
    }
  }

  lemma LooseFits(ls: seq<string>)
    requires Fits(Loose(ls))
    ensures WellFormed(Gap(LinesOf(ls)))
  {
    LinesAgree(ls);
    forall i | 0 <= i < |ls| && LinesOf(ls)[i].declares
      ensures LinesOf(ls)[i].opens == LinesOf(ls)[i].closes
    {
      DeclaresIff(ls[i]);
      BracesCounted(ls[i], "", "", "");
    }
  }

  lemma {:induction false} PiecesFit(ps: seq<Piece>)
    requires forall i :: 0 <= i < |ps| ==> Fits(ps[i])
    ensures AllWellFormed(ChunksOf(ps))
  {
    if ps != [] {
      match ps[0] {
        case Loose(ls) => LooseFits(ls);
        case Func(ls) => FuncFits(ls);
      }
      PiecesFit(ps[1..]);
    }
  }

  lemma {:induction false} SamePlaces(ps: seq<Piece>, k: nat, i: nat)
    requires k < |ps|
    ensures ChunksOf(ps)[k] == ChunkOf(ps[k]) && IndexOf(ChunksOf(ps), k, i) == LineIndex(ps, k, i)
    decreases |ps|
  {
    assert ChunksOf(ps)[1..] == ChunksOf(ps[1..]);
    if k > 0 {
      SamePlaces(ps[1..], k - 1, i + |ps[0].lines|);
    }
  }

  lemma SamePiece(p: Piece)
    requires Fits(p)
    ensures var c := ChunkOf(p); (c.Function? <==> p.Func?) && |c.lines| == |p.lines| && Peak(c.lines) == TextPeak(p.lines)
  {
    PeakOfText(p.lines);
  }

  /** The report is on this piece, whose first line has number `line`. */
  predicate On(line: nat, length: nat, depth: int, limits: Limits, r: Report) {
    r.line == line
    && match r
       case LongFunction(_, l) => l == length > limits.maxFuncLines
       case DeepNesting(_, d) => d == depth > limits.maxNesting
  }

  lemma EarnedOn(ps: seq<Piece>, k: nat, limits: Limits, r: Report)
    ensures Earned(ps, k, limits, r) <==>
      k < |ps| && ps[k].Func? && On(LineIndex(ps, k, 0) + 1, |ps[k].lines|, TextPeak(ps[k].lines), limits, r)
  {
  }

  lemma DeservedOn(cs: seq<Chunk>, k: nat, limits: Limits, r: Report)
    ensures Deserved(cs, k, 0, limits, r) <==>
      k < |cs| && cs[k].Function? && On(IndexOf(cs, k, 0) + 1, |cs[k].lines|, Peak(cs[k].lines), limits, r)
  {
  }

  lemma EarnedIff(ps: seq<Piece>, k: nat, limits: Limits, r: Report)
    requires forall i :: 0 <= i < |ps| ==> Fits(ps[i])
    ensures Earned(ps, k, limits, r) <==> Deserved(ChunksOf(ps), k, 0, limits, r)
  {
    EarnedOn(ps, k, limits, r);
    DeservedOn(ChunksOf(ps), k, limits, r);
    if k < |ps| {
      SamePlaces(ps, k, 0);
      SamePiece(ps[k]);
    }
  }

  /** In a text made of functions and other plain lines every function with more lines
      than the limit and every function nested deeper than the limit is reported, at
      its declaration and with its number of lines or its depth, and nothing else. */
  lemma ReportedInTextIff(ps: seq<Piece>, limits: Limits, r: Report)
    requires forall i :: 0 <= i < |ps| ==> Fits(ps[i])
    ensures r in ReportsIn(Text(ps), limits) <==> exists k: nat :: Earned(ps, k, limits, r)
  {
    TextIsFlat(ps);
    PiecesFit(ps);
    ReportedIff(Text(ps), ChunksOf(ps), limits, r);
    if k: nat :| Deserved(ChunksOf(ps), k, 0, limits, r) {
      EarnedIff(ps, k, limits, r);
    }
    if k: nat :| Earned(ps, k, limits, r) {
      EarnedIff(ps, k, limits, r);
    }
  }

  // ---- One function, from text to finding ----

  const BODY_LIMITS := Limits(2, 0)

  function ThreeLines(name: string): seq<string> {
    ["func " + (name + "(") + ") {", "  return", "}"]
  }

  predicate Around(pkg: string, before: string, key: string, after: string) { pkg == before + key + after }

  /** The package's path has one of the words in it. */
  ghost predicate HasAny(pkg: string, keys: set<string>) {
    exists before, key, after :: key in keys && Around(pkg, before, key, after)
  }

  lemma ContainsIff(pkg: string, key: string)
    ensures Contains(pkg, key) <==> HasAny(pkg, {key})
  {
    if k :| 0 <= k <= |pkg| && key <= pkg[k..] {
      assert Around(pkg, pkg[..k], key, pkg[k..][|key|..]);
    }
    if before, key', after :| key' in {key} && Around(pkg, before, key', after) {
      assert pkg[|before|..] == key + after;
    }
  }

  lemma SensitiveIff(pkg: string)
    ensures Sensitive(pkg) <==> HasAny(pkg, {"handlers", "services", "middleware", "auth", "security"})
  {
    var keys := {"handlers", "services", "middleware", "auth", "security"};
    forall key | key in keys
      ensures Contains(pkg, key) ==> HasAny(pkg, keys)
    {
      ContainsIff(pkg, key);
      if Contains(pkg, key) {
        var before, key', after :| key' in {key} && Around(pkg, before, key', after);
        assert key' in keys;
      }
    }
    if before, key, after :| key in keys && Around(pkg, before, key, after) {
      assert key in {key};
      ContainsIff(pkg, key);
    }
  }

  lemma NoneIn(s: string, c: char)
    requires c !in s
    ensures multiset(s)[c] == 0
  {
  }

  lemma DeclarationIsPlain(name: string)
    requires IsName(name)
    ensures Plain(ThreeLines(name)[0]) && WordAt(ThreeLines(name)[0], 0)
  {
    var decl := ThreeLines(name)[0];
    assert decl == "func " + name + "() {";
    assert forall i :: 0 <= i < |name| ==> IsWord(name[i]);
  }

  lemma DeclarationBraces(name: string)
    requires IsName(name)
    ensures multiset(ThreeLines(name)[0])['{'] == 1 && multiset(ThreeLines(name)[0])['}'] == 0
  {
    var start := "func " + name + "() ";
    assert ThreeLines(name)[0] == start + "{";
    NoneIn(start, '{');
    NoneIn(start, '}');
    assert multiset(start + "{") == multiset(start) + multiset("{");
  }

  lemma OtherBraces()
    ensures Plain("  return") && multiset("  return")['{'] == 0 && multiset("  return")['}'] == 0
    ensures Plain("}") && multiset("}")['{'] == 0 && multiset("}")['}'] == 1
  {
    NoneIn("  return", '{');
    NoneIn("  return", '}');
    NoneIn("}", '{');
  }

  lemma ThreeFit(ls: seq<string>)
    requires |ls| == 3 && Plain(ls[0]) && Plain(ls[1]) && Plain(ls[2]) && WordAt(ls[0], 0)
    requires TextBalance(ls[..1]) == 1 && TextBalance(ls[..2]) == 1 && TextBalance(ls) == 0
    ensures Fits(Func(ls))
  {
    forall k | 0 < k < |ls|
      ensures TextBalance(ls[..k]) > 0
    {
      assert k == 1 || k == 2;
    }
  }

  lemma ThreeLinesFit(name: string)
    requires IsName(name)
    ensures Fits(Func(ThreeLines(name))) && TextPeak(ThreeLines(name)) == 1
  {
    DeclarationIsPlain(name);
    DeclarationBraces(name);
    OtherBraces();
    BalanceOfThree(ThreeLines(name));
    ThreeFit(ThreeLines(name));
  }

  lemma BalanceOfThree(ls: seq<string>)
    requires |ls| == 3
    requires multiset(ls[0])['{'] == 1 && multiset(ls[0])['}'] == 0
    requires multiset(ls[1])['{'] == 0 && multiset(ls[1])['}'] == 0
    requires multiset(ls[2])['{'] == 0 && multiset(ls[2])['}'] == 1
    ensures TextBalance(ls[..1]) == 1 && TextBalance(ls[..2]) == 1 && TextBalance(ls) == 0 && TextPeak(ls) == 1
  {
    var two, one := ls[..2], ls[..1];
    assert one[..0] == [] && two[..1] == one && ls[..|ls| - 1] == two;
    assert TextBalance(one) == 1;
    assert TextBalance(two) == 1;
    assert TextPeak(one) == 1;
    assert TextPeak(two) == 1;
  }

  lemma OneChunkReport(c: Chunk, limits: Limits)
    requires WellFormed(c) && c.Function?
    ensures Reports(ScanFrom(START, 0, c.lines).found, limits) == ReportsOn(Measured(1, |c.lines|, Peak(c.lines)), limits)
  {
    var m := Measured(1, |c.lines|, Peak(c.lines));
    FunctionIsMeasured(START, 0, c.lines);
    assert ScanFrom(START, 0, c.lines).found == [m];
    assert [m][..0] == [];
    assert Reports([m], limits) == [] + ReportsOn(m, limits);
  }

  lemma ThreeLinesReport(name: string)
    requires IsName(name)
    ensures ReportsIn(ThreeLines(name), BODY_LIMITS) == [LongFunction(1, 3), DeepNesting(1, 1)]
  {
    ThreeLinesFit(name);
    ReportOnThree(ThreeLines(name));
  }

  lemma ReportOnThree(ls: seq<string>)
    requires |ls| == 3 && Fits(Func(ls)) && TextPeak(ls) == 1
    ensures ReportsIn(ls, BODY_LIMITS) == [LongFunction(1, 3), DeepNesting(1, 1)]
  {
    SamePiece(Func(ls));
    FuncFits(ls);
    OneChunkReport(Function(LinesOf(ls)), BODY_LIMITS);
    TwoReports(1, 3, 1);
  }

  lemma TwoReports(start: nat, length: nat, deepest: int)
    requires length > 2 && deepest > 0
    ensures ReportsOn(Measured(start, length, deepest), BODY_LIMITS) == [LongFunction(start, length), DeepNesting(start, deepest)]
  {
  }

  /** Three lines of text under limits of two lines and no nesting, and the two findings
      they make: where, in which category, how urgent in which file, and in what words. */
  lemma ThreeLinesFound(name: string, file: File)
    requires IsName(name)
    ensures FindingsOf(NamesOf(ThreeLines(name)), file, BODY_LIMITS, ReportsIn(ThreeLines(name), BODY_LIMITS)) ==
      [Finding(file.path, 1, file.pkg, Size, if file.isTest then Low else Medium, "long-function", name + ": 3 lines (>2)"),
       Finding(file.path, 1, file.pkg, Complexity,
               if file.isTest then Low
               else if HasAny(file.pkg, {"handlers", "services", "middleware", "auth", "security"}) then High
               else Medium,
               "deep-nesting", name + ": brace depth 1 (>0)")]
  {
    ThreeLinesReport(name);
    FunctionsAreNamed(name, "", ") {");
    LongText(name, file);
    DeepText(name, file);
    TwoFindings(NamesOf(ThreeLines(name)), file, name);
  }

  lemma LongText(name: string, file: File)
    ensures FindingOf(file, BODY_LIMITS, name, LongFunction(1, 3)) ==
      Finding(file.path, 1, file.pkg, Size, if file.isTest then Low else Medium, "long-function", name + ": 3 lines (>2)")
  {
    assert Decimal(3) == "3" && Decimal(2) == "2";
    assert name + ": " + "3" + " lines (>" + "2" + ")" == name + ": 3 lines (>2)";
  }

  lemma DeepText(name: string, file: File)
    ensures FindingOf(file, BODY_LIMITS, name, DeepNesting(1, 1)) ==
      Finding(file.path, 1, file.pkg, Complexity,
              if file.isTest then Low
              else if HasAny(file.pkg, {"handlers", "services", "middleware", "auth", "security"}) then High
              else Medium,
              "deep-nesting", name + ": brace depth 1 (>0)")
  {
    SensitiveIff(file.pkg);
    assert Decimal(1) == "1" && Decimal(0) == "0";
    assert name + ": brace depth " + "1" + " (>" + "0" + ")" == name + ": brace depth 1 (>0)";
  }

  lemma TwoFindings(names: seq<string>, file: File, name: string)
    requires names != [] && names[0] == name
    ensures FindingsOf(names, file, BODY_LIMITS, [LongFunction(1, 3), DeepNesting(1, 1)]) ==
      [FindingOf(file, BODY_LIMITS, name, LongFunction(1, 3)), FindingOf(file, BODY_LIMITS, name, DeepNesting(1, 1))]
  {
    var long, deep := LongFunction(1, 3), DeepNesting(1, 1);
    OneReportMore(names, file, BODY_LIMITS, [], long);
    OneReportMore(names, file, BODY_LIMITS, [long], deep);
    assert [] + [long] == [long] && [long] + [deep] == [long, deep];
  }
}
