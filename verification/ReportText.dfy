// The text of the tech-debt report, spelled out: the summary for any findings, and
// the details (cmd/tech-debt-classify/main.go:490-551).
module ReportText {
  import opened Names
  import opened Findings
  import opened ReportLayout

  // ---- The summary ----

  function Occurs(fs: seq<Finding>, c: Category, p: Priority): nat { multiset(KindsOf(fs))[(c, p)] }

  function WithPriority(fs: seq<Finding>, p: Priority): nat { multiset(PrioritiesOf(fs))[p] }

  /** A row of the summary, by what the findings are. */
  function RowFor(fs: seq<Finding>, word: string, c: Category): string {
    "| " + word + " | " + Decimal(Occurs(fs, c, High)) + " | " + Decimal(Occurs(fs, c, Medium)) + " | " + Decimal(Occurs(fs, c, Low))
    + " | " + Decimal(Occurs(fs, c, High) + Occurs(fs, c, Medium) + Occurs(fs, c, Low)) + " |\n"
  }

  lemma RowIs(fs: seq<Finding>, word: string, c: Category)
    requires word == CategoryName(c)
    ensures CategoryRow(fs, c) == RowFor(fs, word, c)
  {
    CellsAreOccurrences(fs, c, High);
    CellsAreOccurrences(fs, c, Medium);
    CellsAreOccurrences(fs, c, Low);
    SummaryAddsUp(fs);
  }

  lemma RowsAppend(fs: seq<Finding>, cs: seq<Category>, c: Category)
    ensures CategoryRows(fs, cs + [c]) == CategoryRows(fs, cs) + CategoryRow(fs, c)
  {
    assert (cs + [c])[..|cs|] == cs;
  }

  lemma RowsUpToFour(fs: seq<Finding>)
    ensures CategoryRows(fs, [Annotation, SecurityNote, Size, Complexity]) ==
      "" + CategoryRow(fs, Annotation) + CategoryRow(fs, SecurityNote) + CategoryRow(fs, Size) + CategoryRow(fs, Complexity)
  {
    var one, two, three := [Annotation], [Annotation, SecurityNote], [Annotation, SecurityNote, Size];
    assert [] + one == one && one + [SecurityNote] == two && two + [Size] == three;
    assert three + [Complexity] == [Annotation, SecurityNote, Size, Complexity];
    RowsAppend(fs, [], Annotation);
    RowsAppend(fs, one, SecurityNote);
    RowsAppend(fs, two, Size);
    RowsAppend(fs, three, Complexity);
  }

  lemma FiveRows(fs: seq<Finding>)
    ensures CategoryRows(fs, CATEGORIES) ==
      "" + CategoryRow(fs, Annotation) + CategoryRow(fs, SecurityNote) + CategoryRow(fs, Size) + CategoryRow(fs, Complexity)
      + CategoryRow(fs, TestDebt)
  {
    RowsUpToFour(fs);
    RowsAppend(fs, [Annotation, SecurityNote, Size, Complexity], TestDebt);
    assert [Annotation, SecurityNote, Size, Complexity] + [TestDebt] == CATEGORIES;
  }

  /** The rows of the categories, in their order. */
  function RowsFor(fs: seq<Finding>): string {
    "" + RowFor(fs, "annotation", Annotation) + RowFor(fs, "security-note", SecurityNote) + RowFor(fs, "size", Size)
    + RowFor(fs, "complexity", Complexity) + RowFor(fs, "test-debt", TestDebt)
  }

  lemma RowsAre(fs: seq<Finding>)
    ensures CategoryRows(fs, CATEGORIES) == RowsFor(fs)
  {
    FiveRows(fs);
    RowIs(fs, "annotation", Annotation);
    RowIs(fs, "security-note", SecurityNote);
    RowIs(fs, "size", Size);
    RowIs(fs, "complexity", Complexity);
    RowIs(fs, "test-debt", TestDebt);
  }

  /** The last row, over all categories. */
  function TotalFor(fs: seq<Finding>): string {
    "| " + "**Total**" + " | " + ("**" + Decimal(WithPriority(fs, High)) + "**")
    + " | " + ("**" + Decimal(WithPriority(fs, Medium)) + "**") + " | " + ("**" + Decimal(WithPriority(fs, Low)) + "**")
    + " | " + ("**" + Decimal(|fs|) + "**") + " |\n"
  }

  lemma TotalIs(fs: seq<Finding>)
    ensures TotalRow(fs) == TotalFor(fs)
  {
    TotalsAreOccurrences(fs, High);
    TotalsAreOccurrences(fs, Medium);
    TotalsAreOccurrences(fs, Low);
  }

  /** The summary has one row for each category, with how many findings there are of
      each priority and in all, and a last row with the same over all categories. */
  lemma SummaryReads(fs: seq<Finding>)
    ensures SummaryTable(fs) ==
      "| Category | HIGH | MEDIUM | LOW | Total |\n|---|---:|---:|---:|---:|\n" + RowsFor(fs) + TotalFor(fs)
  {
    RowsAre(fs);
    TotalIs(fs);
  }

  // ---- The details ----

  lemma OfOne(f: Finding, p: Priority)
    ensures OfPriority([f], p) == if f.priority == p then [f] else []
    ensures OfPackage([f], f.pkg) == [f]
  {
    assert [f][..0] == [];
  }

  lemma OneName(name: string)
    ensures InOrder({name}) == [name]
  {
    assert Elements([name]) == {name};
    SortedListing([name], {name});
  }

  lemma TableOf(fs: seq<Finding>, pkg: string)
    ensures TablesOf(fs, [pkg]) == [Table(pkg, OfPackage(fs, pkg))]
  {
    assert [pkg][..0] == [];
    assert [] + [Table(pkg, OfPackage(fs, pkg))] == [Table(pkg, OfPackage(fs, pkg))];
  }

  lemma OneTable(f: Finding)
    ensures SectionOf([f], f.priority) == Section(f.priority, [Table(f.pkg, [f])])
  {
    OfOne(f, f.priority);
    OneName(f.pkg);
    assert Packages([f]) == {f.pkg};
    TableOf([f], f.pkg);
  }

  lemma NoTable(f: Finding, p: Priority)
    requires f.priority != p
    ensures SectionOf([f], p) == Section(p, [])
  {
    OfOne(f, p);
    assert Packages([]) == {};
  }

  lemma LayoutOfOne(f: Finding)
    requires f.priority == High
    ensures Layout([f], PRIORITIES) == [Section(High, [Table(f.pkg, [f])]), Section(Medium, []), Section(Low, [])]
  {
    OneTable(f);
    NoTable(f, Medium);
    NoTable(f, Low);
    assert [High][..0] == [] && [High, Medium][..1] == [High] && PRIORITIES[..2] == [High, Medium];
    assert Layout([f], [High]) == [] + [SectionOf([f], High)];
    assert Layout([f], [High, Medium]) == Layout([f], [High]) + [SectionOf([f], Medium)];
  }

  lemma {:induction false} GroupSize(fs: seq<Finding>, p: Priority)
    ensures |OfPriority(fs, p)| == WithPriority(fs, p)
  {
    if fs != [] {
      OneFindingMore(fs);
      GroupSize(fs[..|fs| - 1], p);
    }
  }

  /** The part on a priority starts with its name and how many findings have it. */
  lemma HeadReads(fs: seq<Finding>, p: Priority)
    ensures "### " + (match p case High => "HIGH" case Medium => "MEDIUM" case Low => "LOW") + " (" + Decimal(WithPriority(fs, p)) + ")\n\n"
      <= SectionText(SectionOf(fs, p))
  {
    GroupIsListed(OfPriority(fs, p));
    GroupSize(fs, p);
  }

  /** The part on a priority without findings. */
  function NonePart(word: string): string { "### " + word + " (" + "0" + ")\n\n" + "_None._\n\n" }

  /** The part on the only finding of high priority. */
  function OnePart(f: Finding, category: string): string {
    "### " + "HIGH" + " (" + "1" + ")\n\n"
    + ("#### `" + f.pkg + "`\n\n| Location | Category | Tag | Detail |\n|---|---|---|---|\n"
       + ("| `" + f.file + ":" + Decimal(f.line) + "` | " + category + " | " + f.tag + " | " + f.snippet + " |\n")
       + "\n")
  }

  lemma NonePartIs(p: Priority)
    ensures SectionText(Section(p, [])) == NonePart(match p case High => "HIGH" case Medium => "MEDIUM" case Low => "LOW")
  {
    assert InTables([]) == [] && Decimal(0) == "0";
  }

  lemma RowsOfOne(f: Finding)
    ensures FindingRows([f]) == FindingRow(f) && InTables([Table(f.pkg, [f])]) == [f]
  {
    assert [f][..0] == [] && [Table(f.pkg, [f])][..0] == [];
    assert "" + FindingRow(f) == FindingRow(f);
  }

  lemma TablesOfOne(t: Table)
    ensures TablesText([t]) == TableText(t.pkg, FindingRows(t.findings))
  {
    assert [t][..0] == [];
    assert "" + TableText(t.pkg, FindingRows(t.findings)) == TableText(t.pkg, FindingRows(t.findings));
  }

  lemma OnePartIs(f: Finding, category: string)
    requires category == CategoryName(f.category)
    ensures SectionText(Section(High, [Table(f.pkg, [f])])) == OnePart(f, category)
  {
    RowsOfOne(f);
    TablesOfOne(Table(f.pkg, [f]));
    HeadOfOne();
    RowOf(f, category);
  }

  lemma HeadOfOne()
    ensures PriorityHead(High, 1) == "### " + "HIGH" + " (" + "1" + ")\n\n"
  {
    assert Decimal(1) == "1";
  }

  lemma RowOf(f: Finding, category: string)
    requires category == CategoryName(f.category)
    ensures FindingRow(f) == "| `" + f.file + ":" + Decimal(f.line) + "` | " + category + " | " + f.tag + " | " + f.snippet + " |\n"
  {
  }

  lemma SectionsAppend(layout: seq<Section>, section: Section)
    ensures LayoutText(layout + [section]) == LayoutText(layout) + SectionText(section)
  {
    assert (layout + [section])[..|layout|] == layout;
  }

  lemma ThreeSections(a: Section, b: Section, c: Section)
    ensures LayoutText([a, b, c]) == "" + SectionText(a) + SectionText(b) + SectionText(c)
  {
    assert [] + [a] == [a] && [a] + [b] == [a, b] && [a, b] + [c] == [a, b, c];
    SectionsAppend([], a);
    SectionsAppend([a], b);
    SectionsAppend([a, b], c);
  }

  /** The details of one finding of high priority, word for word. */
  lemma OneFindingReads(f: Finding)
    requires f.priority == High
    ensures LayoutText(Layout([f], PRIORITIES)) ==
      "" + OnePart(f, match f.category
                      case Annotation => "annotation" case SecurityNote => "security-note" case Size => "size"
                      case Complexity => "complexity" case TestDebt => "test-debt")
      + NonePart("MEDIUM") + NonePart("LOW")
  {
    LayoutOfOne(f);
    ThreeSections(Section(High, [Table(f.pkg, [f])]), Section(Medium, []), Section(Low, []));
    OnePartIs(f, CategoryName(f.category));
    NonePartIs(Medium);
    NonePartIs(Low);
  }
}
