// The tech-debt report and the baseline read back from a report written earlier
// (cmd/tech-debt-classify/main.go).
module TechDebt {
  import opened Prelude
  import opened Findings
  import opened ReportLayout

  // ---- Reading the baseline ----

  const MARK := "tech-debt-classify:baseline HIGH="
  const TITLE := "# Technical Debt Report\n\n<!-- "

  /** The digits at the start of the text, as many as there are. */
  function LeadingDigits(s: string): (d: string)
    ensures AllDigits(d) && d <= s
  {
    if s == "" || !IsDigit(s[0]) then "" else [s[0]] + LeadingDigits(s[1..])
  }

  /** The pattern, the mark and at least one digit, matches at the start of `s`. */
  predicate MatchesHere(s: string) {
    MARK <= s && LeadingDigits(s[|MARK|..]) != ""
  }

  /** The leftmost match of the pattern, with all the digits it can take. */
  function FindBaseline(s: string): Option<nat> {
    if MatchesHere(s) then Some(Number(LeadingDigits(s[|MARK|..])))
    else if s == "" then None
    else FindBaseline(s[1..])
  }

  method ReadBaselineHigh(report: string) returns (baseline: Option<nat>)
    ensures baseline == FindBaseline(report)
  {
    var i := 0;
    while i < |report|
      invariant 0 <= i <= |report|
      invariant FindBaseline(report) == FindBaseline(report[i..])
    {
      if MatchesHere(report[i..]) {
        return Some(Number(LeadingDigits(report[i + |MARK|..])));
      }
      assert report[i..][1..] == report[i + 1..];
      i := i + 1;
    }
    return None;
  }

  lemma {:induction false} LeadingDigitsOf(d: string, rest: string)
    requires AllDigits(d) && rest != "" && !IsDigit(rest[0])
    ensures LeadingDigits(d + rest) == d
  {
    if d == "" {
      assert d + rest == rest;
    } else {
      assert (d + rest)[1..] == d[1..] + rest;
      LeadingDigitsOf(d[1..], rest);
    }
  }

  predicate NoMarkStart(prefix: string) {
    forall i :: 0 <= i < |prefix| && prefix[i] == 't' ==> i + 1 < |prefix| && prefix[i + 1] != 'e'
  }

  lemma {:induction false} SkipsPrefix(prefix: string, rest: string)
    requires NoMarkStart(prefix)
    ensures FindBaseline(prefix + rest) == FindBaseline(rest)
  {
    if prefix == "" {
      assert prefix + rest == rest;
    } else {
      assert MARK[0] == 't' && MARK[1] == 'e';
      assert (prefix + rest)[0] == prefix[0];
      assert !MatchesHere(prefix + rest);
      assert (prefix + rest)[1..] == prefix[1..] + rest;
      assert NoMarkStart(prefix[1..]) by {
        assert forall i :: 0 <= i < |prefix[1..]| ==> prefix[1..][i] == prefix[i + 1];
      }
      SkipsPrefix(prefix[1..], rest);
    }
  }

  lemma TitleHasNoMark()
    ensures NoMarkStart(TITLE)
  {
    assert TITLE[15] == 't' && TITLE[16] == ' ' && TITLE[22] == 't' && TITLE[23] == '\n';
    assert forall i :: 0 <= i < 15 ==> TITLE[i] != 't';
    assert forall i :: 16 <= i < 22 ==> TITLE[i] != 't';
    assert forall i :: 23 <= i < |TITLE| ==> TITLE[i] != 't';
  }

  // ---- The whole report ----

  /** What follows the baseline's number; `rubric` is the fixed explanatory text. */
  ghost function AfterBaseline(fs: seq<Finding>, rubric: string): (text: string)
    ensures text != "" && text[0] == ' '
  {
    " -->\n\n" + (rubric + SummaryTable(fs) + "\n## Findings\n\n"
      + if fs == [] then "_No findings._\n" else LayoutText(Layout(fs, PRIORITIES)))
  }

  ghost function Report(fs: seq<Finding>, high: nat, rubric: string): string {
    TITLE + (MARK + (Decimal(high) + AfterBaseline(fs, rubric)))
  }

  method RenderMarkdown(fs: seq<Finding>, high: nat, rubric: string) returns (text: string)
    ensures text == Report(fs, high, rubric)
  {
    var summary := RenderSummaryTable(fs);
    var body := rubric + summary + "\n## Findings\n\n";
    if fs == [] {
      body := body + "_No findings._\n";
    } else {
      var detail := RenderFindingsByPriority(fs, PRIORITIES);
      body := body + detail;
    }
    text := TITLE + (MARK + (Decimal(high) + (" -->\n\n" + body)));
  }

  lemma MarkedNumber(d: string, rest: string)
    requires d != "" && AllDigits(d) && rest != "" && !IsDigit(rest[0])
    ensures FindBaseline(MARK + (d + rest)) == Some(Number(d))
  {
    var s := MARK + (d + rest);
    assert s[|MARK|..] == d + rest;
    LeadingDigitsOf(d, rest);
  }

  lemma NumberReadsBack(high: nat, rest: string)
    requires rest != "" && rest[0] == ' '
    ensures FindBaseline(TITLE + (MARK + (Decimal(high) + rest))) == Some(high)
  {
    TitleHasNoMark();
    SkipsPrefix(TITLE, MARK + (Decimal(high) + rest));
    DecimalReadsBack(high);
    MarkedNumber(Decimal(high), rest);
  }

  /** Reading the baseline back from a report gives the number it was written with,
      whatever the findings, their file names and their snippets contain. */
  lemma BaselineReadsBack(fs: seq<Finding>, high: nat, rubric: string)
    ensures FindBaseline(Report(fs, high, rubric)) == Some(high)
  {
    NumberReadsBack(high, AfterBaseline(fs, rubric));
  }

  /** The check fails when there are more high-priority findings than the report
      on file says; a report without a baseline never fails it. */
  method CheckFails(report: Option<string>, fs: seq<Finding>) returns (fails: bool)
    ensures fails <==> report.Some? && FindBaseline(report.value).Some? && multiset(PrioritiesOf(fs))[High] > FindBaseline(report.value).value
  {
    TotalsAreOccurrences(fs, High);
    if report.None? {
      return false;
    }
    var baseline := ReadBaselineHigh(report.value);
    var summary := CountFindings(fs);
    fails := baseline.Some? && At(summary.byPriority, High) > baseline.value;
  }

  /** So checking against a report of earlier findings compares how many urgent ones
      there are with how many there were. */
  lemma CheckComparesCounts(earlier: seq<Finding>, now: seq<Finding>, rubric: string)
    ensures var baseline := FindBaseline(Report(earlier, CountByPriority(earlier, High), rubric));
      baseline.Some? && (multiset(PrioritiesOf(now))[High] > baseline.value
        <==> multiset(PrioritiesOf(now))[High] > multiset(PrioritiesOf(earlier))[High])
  {
    TotalsAreOccurrences(earlier, High);
    BaselineReadsBack(earlier, CountByPriority(earlier, High), rubric);
  }
}
