// The findings of the tech-debt scan, numbers as text, and the summary table
// (cmd/tech-debt-classify/main.go).
module Findings {
  datatype Category = Annotation | SecurityNote | Size | Complexity | TestDebt

  datatype Priority = High | Medium | Low

  datatype Finding = Finding(file: string, line: nat, pkg: string, category: Category, priority: Priority, tag: string, snippet: string)

  const CATEGORIES := [Annotation, SecurityNote, Size, Complexity, TestDebt]
  const PRIORITIES := [High, Medium, Low]

  // ---- Numbers as text ----

  function Decimal(n: nat): string {
    if n < 10 then ["0123456789"[n]] else Decimal(n / 10) + ["0123456789"[n % 10]]
  }

  predicate IsDigit(c: char) { '0' <= c <= '9' }

  function DigitValue(c: char): nat
    requires IsDigit(c)
  {
    c as int - '0' as int
  }

  predicate AllDigits(s: string) {
    forall i :: 0 <= i < |s| ==> IsDigit(s[i])
  }

  function Number(s: string): nat
    requires AllDigits(s)
  {
    if s == "" then 0 else 10 * Number(s[..|s| - 1]) + DigitValue(s[|s| - 1])
  }

  lemma DigitOf(d: nat)
    requires d < 10
    ensures IsDigit("0123456789"[d]) && DigitValue("0123456789"[d]) == d
  {
    if d == 0 {} else if d == 1 {} else if d == 2 {} else if d == 3 {} else if d == 4 {}
    else if d == 5 {} else if d == 6 {} else if d == 7 {} else if d == 8 {} else {}
  }

  lemma {:induction false} DecimalReadsBack(n: nat)
    ensures Decimal(n) != "" && AllDigits(Decimal(n)) && Number(Decimal(n)) == n
  {
    DigitOf(n % 10);
    if n < 10 {
      assert Decimal(n)[..0] == "";
    } else {
      DecimalReadsBack(n / 10);
      assert Decimal(n)[..|Decimal(n)| - 1] == Decimal(n / 10);
    }
  }

  // ---- Counting ----

  function CountByPriority(fs: seq<Finding>, p: Priority): nat {
    if fs == [] then 0 else CountByPriority(fs[..|fs| - 1], p) + if fs[|fs| - 1].priority == p then 1 else 0
  }

  function CountByCategory(fs: seq<Finding>, c: Category): nat {
    if fs == [] then 0 else CountByCategory(fs[..|fs| - 1], c) + if fs[|fs| - 1].category == c then 1 else 0
  }

  function CountCell(fs: seq<Finding>, c: Category, p: Priority): nat {
    if fs == [] then 0
    else CountCell(fs[..|fs| - 1], c, p) + if fs[|fs| - 1].category == c && fs[|fs| - 1].priority == p then 1 else 0
  }

  /** The summary table adds up: rows to their totals, columns to theirs, and both
      kinds of totals to the number of findings. */
  lemma {:induction false} SummaryAddsUp(fs: seq<Finding>)
    ensures forall c :: CountCell(fs, c, High) + CountCell(fs, c, Medium) + CountCell(fs, c, Low) == CountByCategory(fs, c)
    ensures forall p :: CountCell(fs, Annotation, p) + CountCell(fs, SecurityNote, p) + CountCell(fs, Size, p)
                        + CountCell(fs, Complexity, p) + CountCell(fs, TestDebt, p) == CountByPriority(fs, p)
    ensures CountByPriority(fs, High) + CountByPriority(fs, Medium) + CountByPriority(fs, Low) == |fs|
    ensures CountByCategory(fs, Annotation) + CountByCategory(fs, SecurityNote) + CountByCategory(fs, Size)
            + CountByCategory(fs, Complexity) + CountByCategory(fs, TestDebt) == |fs|
  {
    if fs != [] {
      SummaryAddsUp(fs[..|fs| - 1]);
    }
  }

  datatype Summary = Summary(cells: map<(Category, Priority), nat>, byPriority: map<Priority, nat>, byCategory: map<Category, nat>)

  function At<K>(m: map<K, nat>, k: K): nat { if k in m then m[k] else 0 }

  /** The counting loop: a key not counted yet reads as zero. */
  method CountFindings(fs: seq<Finding>) returns (s: Summary)
    ensures forall c, p :: At(s.cells, (c, p)) == CountCell(fs, c, p)
    ensures forall p :: At(s.byPriority, p) == CountByPriority(fs, p)
    ensures forall c :: At(s.byCategory, c) == CountByCategory(fs, c)
  {
    s := Summary(map[], map[], map[]);
    var i := 0;
    while i < |fs|
      invariant 0 <= i <= |fs|
      invariant forall c, p :: At(s.cells, (c, p)) == CountCell(fs[..i], c, p)
      invariant forall p :: At(s.byPriority, p) == CountByPriority(fs[..i], p)
      invariant forall c :: At(s.byCategory, c) == CountByCategory(fs[..i], c)
    {
      var f := fs[i];
      assert fs[..i + 1][..i] == fs[..i];
      s := Summary(s.cells[(f.category, f.priority) := At(s.cells, (f.category, f.priority)) + 1],
                   s.byPriority[f.priority := At(s.byPriority, f.priority) + 1],
                   s.byCategory[f.category := At(s.byCategory, f.category) + 1]);
      i := i + 1;
    }
    assert fs[..i] == fs;
  }

  function CategoryName(c: Category): string {
    match c
    case Annotation => "annotation"
    case SecurityNote => "security-note"
    case Size => "size"
    case Complexity => "complexity"
    case TestDebt => "test-debt"
  }

  function PriorityName(p: Priority): string {
    match p
    case High => "HIGH"
    case Medium => "MEDIUM"
    case Low => "LOW"
  }

  function SummaryRow(name: string, high: string, medium: string, low: string, total: string): string {
    "| " + name + " | " + high + " | " + medium + " | " + low + " | " + total + " |\n"
  }

  function CategoryRow(fs: seq<Finding>, c: Category): string {
    SummaryRow(CategoryName(c), Decimal(CountCell(fs, c, High)), Decimal(CountCell(fs, c, Medium)),
               Decimal(CountCell(fs, c, Low)), Decimal(CountByCategory(fs, c)))
  }

  function CategoryRows(fs: seq<Finding>, cs: seq<Category>): string {
    if cs == [] then "" else CategoryRows(fs, cs[..|cs| - 1]) + CategoryRow(fs, cs[|cs| - 1])
  }

  const SUMMARY_HEAD := "| Category | HIGH | MEDIUM | LOW | Total |\n|---|---:|---:|---:|---:|\n"

  function Bold(n: nat): string { "**" + Decimal(n) + "**" }

  function TotalRow(fs: seq<Finding>): string {
    SummaryRow("**Total**", Bold(CountByPriority(fs, High)), Bold(CountByPriority(fs, Medium)),
               Bold(CountByPriority(fs, Low)), Bold(|fs|))
  }

  function SummaryTable(fs: seq<Finding>): string {
    SUMMARY_HEAD + CategoryRows(fs, CATEGORIES) + TotalRow(fs)
  }

  method RenderCategoryRows(fs: seq<Finding>, s: Summary, cs: seq<Category>) returns (rows: string)
    requires forall c, p :: At(s.cells, (c, p)) == CountCell(fs, c, p)
    requires forall c :: At(s.byCategory, c) == CountByCategory(fs, c)
    ensures rows == CategoryRows(fs, cs)
  {
    rows := "";
    var i := 0;
    while i < |cs|
      invariant 0 <= i <= |cs| && rows == CategoryRows(fs, cs[..i])
    {
      var c := cs[i];
      assert cs[..i + 1][..i] == cs[..i];
      var row := SummaryRow(CategoryName(c), Decimal(At(s.cells, (c, High))), Decimal(At(s.cells, (c, Medium))),
                            Decimal(At(s.cells, (c, Low))), Decimal(At(s.byCategory, c)));
      assert row == CategoryRow(fs, c);
      rows := rows + row;
      i := i + 1;
    }
    assert cs[..i] == cs;
  }

  method RenderSummaryTable(fs: seq<Finding>) returns (text: string)
    ensures text == SummaryTable(fs)
  {
    var s := CountFindings(fs);
    var rows := RenderCategoryRows(fs, s, CATEGORIES);
    var total := SummaryRow("**Total**", Bold(At(s.byPriority, High)), Bold(At(s.byPriority, Medium)),
                            Bold(At(s.byPriority, Low)), Bold(|fs|));
    text := SUMMARY_HEAD + rows + total;
  }

  // ---- What the numbers are ----

  function KindsOf(fs: seq<Finding>): seq<(Category, Priority)> {
    seq(|fs|, i requires 0 <= i < |fs| => (fs[i].category, fs[i].priority))
  }

  function PrioritiesOf(fs: seq<Finding>): seq<Priority> {
    seq(|fs|, i requires 0 <= i < |fs| => fs[i].priority)
  }

  lemma OneFindingMore(fs: seq<Finding>)
    requires fs != []
    ensures var init, last := fs[..|fs| - 1], fs[|fs| - 1];
      KindsOf(fs) == KindsOf(init) + [(last.category, last.priority)] && PrioritiesOf(fs) == PrioritiesOf(init) + [last.priority]
  {
  }

  /** A cell counts the findings of its category and priority ... */
  lemma {:induction false} CellsAreOccurrences(fs: seq<Finding>, c: Category, p: Priority)
    ensures CountCell(fs, c, p) == multiset(KindsOf(fs))[(c, p)]
  {
    if fs != [] {
      OneFindingMore(fs);
      CellsAreOccurrences(fs[..|fs| - 1], c, p);
    }
  }

  /** ... and a total those of its priority. */
  lemma {:induction false} TotalsAreOccurrences(fs: seq<Finding>, p: Priority)
    ensures CountByPriority(fs, p) == multiset(PrioritiesOf(fs))[p]
  {
    if fs != [] {
      OneFindingMore(fs);
      TotalsAreOccurrences(fs[..|fs| - 1], p);
    }
  }
}
