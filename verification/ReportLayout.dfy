// The detail section of the tech-debt report: its layout, what the layout lists,
// and the loops that render it (cmd/tech-debt-classify/main.go:518-551).
module ReportLayout {
  import opened Names
  import opened Findings

  // ---- The detail section ----

  function OfPriority(fs: seq<Finding>, p: Priority): seq<Finding> {
    if fs == [] then [] else OfPriority(fs[..|fs| - 1], p) + if fs[|fs| - 1].priority == p then [fs[|fs| - 1]] else []
  }

  function OfPackage(fs: seq<Finding>, pkg: string): seq<Finding> {
    if fs == [] then [] else OfPackage(fs[..|fs| - 1], pkg) + if fs[|fs| - 1].pkg == pkg then [fs[|fs| - 1]] else []
  }

  function Packages(fs: seq<Finding>): set<string> {
    set f | f in fs :: f.pkg
  }

  /** One package's table, and the tables of one priority. */
  datatype Table = Table(pkg: string, findings: seq<Finding>)

  datatype Section = Section(priority: Priority, tables: seq<Table>)

  function TablesOf(fs: seq<Finding>, pkgs: seq<string>): seq<Table> {
    if pkgs == [] then []
    else TablesOf(fs, pkgs[..|pkgs| - 1]) + [Table(pkgs[|pkgs| - 1], OfPackage(fs, pkgs[|pkgs| - 1]))]
  }

  ghost function SectionOf(fs: seq<Finding>, p: Priority): Section {
    Section(p, TablesOf(OfPriority(fs, p), InOrder(Packages(OfPriority(fs, p)))))
  }

  /** The detail section as a structure: priority after priority, in each the
      packages in order, in each package its findings. */
  ghost function Layout(fs: seq<Finding>, ps: seq<Priority>): seq<Section> {
    if ps == [] then [] else Layout(fs, ps[..|ps| - 1]) + [SectionOf(fs, ps[|ps| - 1])]
  }

  function InTables(tables: seq<Table>): seq<Finding> {
    if tables == [] then [] else InTables(tables[..|tables| - 1]) + tables[|tables| - 1].findings
  }

  /** The findings a layout lists, from top to bottom. */
  function InSections(layout: seq<Section>): seq<Finding> {
    if layout == [] then [] else InSections(layout[..|layout| - 1]) + InTables(layout[|layout| - 1].tables)
  }

  // ---- What the layout lists ----

  lemma {:induction false} PackageCounts(fs: seq<Finding>, pkg: string, f: Finding)
    ensures multiset(OfPackage(fs, pkg))[f] == if f.pkg == pkg then multiset(fs)[f] else 0
  {
    if fs != [] {
      var init, last := fs[..|fs| - 1], fs[|fs| - 1];
      PackageCounts(init, pkg, f);
      assert fs == init + [last];
    }
  }

  lemma {:induction false} PriorityCounts(fs: seq<Finding>, p: Priority, f: Finding)
    ensures multiset(OfPriority(fs, p))[f] == if f.priority == p then multiset(fs)[f] else 0
  {
    if fs != [] {
      var init, last := fs[..|fs| - 1], fs[|fs| - 1];
      PriorityCounts(init, p, f);
      assert fs == init + [last];
    }
  }

  predicate Distinct<T(==)>(s: seq<T>) {
    forall i, j :: 0 <= i < j < |s| ==> s[i] != s[j]
  }

  lemma TablesGrow(fs: seq<Finding>, pkgs: seq<string>)
    requires pkgs != []
    ensures var init, last := pkgs[..|pkgs| - 1], pkgs[|pkgs| - 1];
      InTables(TablesOf(fs, pkgs)) == InTables(TablesOf(fs, init)) + OfPackage(fs, last)
  {
    var init, last := pkgs[..|pkgs| - 1], pkgs[|pkgs| - 1];
    var tables := TablesOf(fs, pkgs);
    assert tables == TablesOf(fs, init) + [Table(last, OfPackage(fs, last))];
    assert tables[..|tables| - 1] == TablesOf(fs, init);
  }

  lemma LayoutGrows(fs: seq<Finding>, ps: seq<Priority>)
    requires ps != []
    ensures var init, last := ps[..|ps| - 1], ps[|ps| - 1];
      InSections(Layout(fs, ps)) == InSections(Layout(fs, init)) + InTables(SectionOf(fs, last).tables)
  {
    var init, last := ps[..|ps| - 1], ps[|ps| - 1];
    var layout := Layout(fs, ps);
    assert layout == Layout(fs, init) + [SectionOf(fs, last)];
    assert layout[..|layout| - 1] == Layout(fs, init);
  }

  lemma {:induction false} TablesCount(fs: seq<Finding>, pkgs: seq<string>, f: Finding)
    requires Distinct(pkgs)
    ensures multiset(InTables(TablesOf(fs, pkgs)))[f] == if f.pkg in pkgs then multiset(fs)[f] else 0
  {
    if pkgs != [] {
      var init, last := pkgs[..|pkgs| - 1], pkgs[|pkgs| - 1];
      assert pkgs == init + [last];
      TablesGrow(fs, pkgs);
      TablesCount(fs, init, f);
      PackageCounts(fs, last, f);
      if f.pkg == last {
        assert last !in init;
      }
    }
  }

  lemma InOrderDistinct(s: set<string>)
    ensures Distinct(InOrder(s)) && Elements(InOrder(s)) == s
  {
    InOrderLists(s);
    forall i, j | 0 <= i < j < |InOrder(s)|
      ensures InOrder(s)[i] != InOrder(s)[j]
    {
      BeforeIsStrict(InOrder(s)[i], InOrder(s)[j]);
    }
  }

  /** The tables of all of a group's packages hold each of its findings as often as
      the group does. */
  lemma GroupCounts(group: seq<Finding>, f: Finding)
    ensures multiset(InTables(TablesOf(group, InOrder(Packages(group)))))[f] == multiset(group)[f]
  {
    var pkgs := InOrder(Packages(group));
    InOrderDistinct(Packages(group));
    TablesCount(group, pkgs, f);
    if f in group {
      assert f.pkg in Packages(group);
      assert f.pkg in Elements(pkgs);
    } else {
      assert multiset(group)[f] == 0;
    }
  }

  lemma GroupIsListed(group: seq<Finding>)
    ensures multiset(InTables(TablesOf(group, InOrder(Packages(group))))) == multiset(group)
    ensures |InTables(TablesOf(group, InOrder(Packages(group))))| == |group|
  {
    var listed := InTables(TablesOf(group, InOrder(Packages(group))));
    var tables, found := multiset(listed), multiset(group);
    forall f: Finding
      ensures tables[f] == found[f]
    {
      GroupCounts(group, f);
    }
    assert tables == found;
    assert |tables| == |listed| && |found| == |group|;
  }

  lemma {:induction false} SectionsCount(fs: seq<Finding>, ps: seq<Priority>, f: Finding)
    requires Distinct(ps)
    ensures multiset(InSections(Layout(fs, ps)))[f] == if f.priority in ps then multiset(fs)[f] else 0
  {
    if ps != [] {
      var init, last := ps[..|ps| - 1], ps[|ps| - 1];
      assert ps == init + [last];
      LayoutGrows(fs, ps);
      SectionsCount(fs, init, f);
      GroupCounts(OfPriority(fs, last), f);
      PriorityCounts(fs, last, f);
      if f.priority == last {
        assert last !in init;
      }
    }
  }

  lemma AllPriorities()
    ensures Distinct(PRIORITIES) && forall p: Priority :: p in PRIORITIES
  {
    forall p: Priority
      ensures p in PRIORITIES
    {
      match p
      case High => assert PRIORITIES[0] == p;
      case Medium => assert PRIORITIES[1] == p;
      case Low => assert PRIORITIES[2] == p;
    }
  }

  lemma ListedUnderAll(fs: seq<Finding>, ps: seq<Priority>)
    requires Distinct(ps) && forall p: Priority :: p in ps
    ensures multiset(InSections(Layout(fs, ps))) == multiset(fs)
  {
    var listed, found := multiset(InSections(Layout(fs, ps))), multiset(fs);
    forall f: Finding
      ensures listed[f] == found[f]
    {
      SectionsCount(fs, ps, f);
    }
    assert listed == found;
  }

  /** The layout that is rendered lists every finding exactly as often as it was
      found. */
  lemma EveryFindingListed(fs: seq<Finding>)
    ensures multiset(InSections(Layout(fs, PRIORITIES))) == multiset(fs)
  {
    AllPriorities();
    ListedUnderAll(fs, PRIORITIES);
  }

  lemma {:induction false} OfPriorityOnly(fs: seq<Finding>, p: Priority)
    ensures forall f :: f in OfPriority(fs, p) ==> f.priority == p
  {
    if fs != [] {
      OfPriorityOnly(fs[..|fs| - 1], p);
    }
  }

  lemma {:induction false} OfPackageOnly(fs: seq<Finding>, pkg: string)
    ensures forall f :: f in OfPackage(fs, pkg) ==> f.pkg == pkg && f in fs
  {
    if fs != [] {
      OfPackageOnly(fs[..|fs| - 1], pkg);
    }
  }

  lemma {:induction false} TablesAreFiled(fs: seq<Finding>, pkgs: seq<string>)
    ensures |TablesOf(fs, pkgs)| == |pkgs|
    ensures forall i :: 0 <= i < |pkgs| ==> TablesOf(fs, pkgs)[i] == Table(pkgs[i], OfPackage(fs, pkgs[i]))
  {
    if pkgs != [] {
      TablesAreFiled(fs, pkgs[..|pkgs| - 1]);
    }
  }

  /** In a priority's section the packages come in strictly ascending order, none of
      their tables is empty, and each lists only findings of that priority and
      package. */
  lemma SectionIsFiled(fs: seq<Finding>, p: Priority)
    ensures var tables := SectionOf(fs, p).tables;
      && (forall i, j :: 0 <= i < j < |tables| ==> Before(tables[i].pkg, tables[j].pkg))
      && (forall i :: 0 <= i < |tables| ==> tables[i].findings != [])
      && (forall i, f :: 0 <= i < |tables| && f in tables[i].findings ==> f.priority == p && f.pkg == tables[i].pkg)
  {
    var group := OfPriority(fs, p);
    var pkgs := InOrder(Packages(group));
    OfPriorityOnly(fs, p);
    TablesAreFiled(group, pkgs);
    InOrderLists(Packages(group));
    forall i | 0 <= i < |pkgs|
      ensures OfPackage(group, pkgs[i]) != []
      ensures forall f :: f in OfPackage(group, pkgs[i]) ==> f.priority == p && f.pkg == pkgs[i]
    {
      assert pkgs[i] in Elements(pkgs);
      var f :| f in group && f.pkg == pkgs[i];
      PackageCounts(group, pkgs[i], f);
      assert f in multiset(OfPackage(group, pkgs[i]));
      OfPackageOnly(group, pkgs[i]);
    }
  }

  // ---- Sorted findings keep their order ----

  function Rank(p: Priority): nat {
    match p
    case High => 0
    case Medium => 1
    case Low => 2
  }

  ghost predicate PackagesAscend(fs: seq<Finding>) {
    forall i, j :: 0 <= i < j < |fs| ==> !Before(fs[j].pkg, fs[i].pkg)
  }

  /** The first two keys of the order findings are sorted in before rendering. */
  ghost predicate InReportOrder(fs: seq<Finding>) {
    forall i, j :: 0 <= i < j < |fs| ==>
      Rank(fs[i].priority) < Rank(fs[j].priority) || (fs[i].priority == fs[j].priority && !Before(fs[j].pkg, fs[i].pkg))
  }

  lemma {:induction false} NoneOfPriority(fs: seq<Finding>, p: Priority)
    requires forall i :: 0 <= i < |fs| ==> fs[i].priority != p
    ensures OfPriority(fs, p) == []
  {
    if fs != [] {
      NoneOfPriority(fs[..|fs| - 1], p);
    }
  }

  lemma OfPriorityAppends(init: seq<Finding>, last: Finding, p: Priority)
    ensures OfPriority(init + [last], p) == if last.priority == p then OfPriority(init, p) + [last] else OfPriority(init, p)
  {
    assert (init + [last])[..|init|] == init;
  }

  lemma OfPackageAppends(init: seq<Finding>, last: Finding, pkg: string)
    ensures OfPackage(init + [last], pkg) == if last.pkg == pkg then OfPackage(init, pkg) + [last] else OfPackage(init, pkg)
  {
    assert (init + [last])[..|init|] == init;
  }

  lemma LowestRank(init: seq<Finding>, last: Finding, p: Priority)
    requires InReportOrder(init + [last]) && Rank(p) > Rank(last.priority)
    ensures OfPriority(init, p) == []
  {
    forall i | 0 <= i < |init|
      ensures init[i].priority != p
    {
      assert (init + [last])[i] == init[i] && (init + [last])[|init|] == last;
    }
    NoneOfPriority(init, p);
  }

  lemma OneAfterThree<T>(a: seq<T>, b: seq<T>, c: seq<T>, x: T)
    ensures a + (b + (c + [x])) == (a + (b + c)) + [x]
    ensures b == c == [] ==> (a + [x]) + (b + c) == (a + (b + c)) + [x]
    ensures c == [] ==> a + ((b + [x]) + c) == (a + (b + c)) + [x]
  {
  }

  lemma {:induction false} PrioritiesInOrder(fs: seq<Finding>)
    requires InReportOrder(fs)
    ensures OfPriority(fs, High) + (OfPriority(fs, Medium) + OfPriority(fs, Low)) == fs
  {
    if fs != [] {
      var init, last := fs[..|fs| - 1], fs[|fs| - 1];
      assert fs == init + [last];
      PrioritiesInOrder(init);
      PriorityAppended(init, last);
    }
  }

  lemma PriorityAppended(init: seq<Finding>, last: Finding)
    requires InReportOrder(init + [last])
    ensures var fs := init + [last];
      OfPriority(fs, High) + (OfPriority(fs, Medium) + OfPriority(fs, Low))
      == (OfPriority(init, High) + (OfPriority(init, Medium) + OfPriority(init, Low))) + [last]
  {
    OfPriorityAppends(init, last, High);
    OfPriorityAppends(init, last, Medium);
    OfPriorityAppends(init, last, Low);
    OneAfterThree(OfPriority(init, High), OfPriority(init, Medium), OfPriority(init, Low), last);
    if last.priority.High? {
      LowestRank(init, last, Medium);
      LowestRank(init, last, Low);
    } else if last.priority.Medium? {
      LowestRank(init, last, Low);
    }
  }

  lemma {:induction false} GroupAscends(fs: seq<Finding>, p: Priority)
    requires InReportOrder(fs)
    ensures PackagesAscend(OfPriority(fs, p))
  {
    if fs != [] {
      var init, last := fs[..|fs| - 1], fs[|fs| - 1];
      GroupAscends(init, p);
      OfPriorityWithin(init, p);
      assert forall i :: 0 <= i < |init| && init[i].priority == last.priority ==> !Before(last.pkg, fs[i].pkg);
    }
  }

  lemma {:induction false} OfPriorityWithin(fs: seq<Finding>, p: Priority)
    ensures forall i :: 0 <= i < |OfPriority(fs, p)| ==> OfPriority(fs, p)[i] in fs && OfPriority(fs, p)[i].priority == p
  {
    if fs != [] {
      OfPriorityWithin(fs[..|fs| - 1], p);
    }
  }

  lemma {:induction false} OtherTables(init: seq<Finding>, last: Finding, pkgs: seq<string>)
    requires last.pkg !in pkgs
    ensures TablesOf(init + [last], pkgs) == TablesOf(init, pkgs)
  {
    if pkgs != [] {
      OtherTables(init, last, pkgs[..|pkgs| - 1]);
      assert pkgs[|pkgs| - 1] in pkgs;
      OfPackageAppends(init, last, pkgs[|pkgs| - 1]);
    }
  }

  lemma LastIsGreatest(init: seq<Finding>, last: Finding, pkg: string)
    requires PackagesAscend(init + [last]) && pkg in Packages(init)
    ensures !Before(last.pkg, pkg)
  {
    var f :| f in init && f.pkg == pkg;
    var k :| 0 <= k < |init| && init[k] == f;
    assert (init + [last])[k] == f && (init + [last])[|init|] == last;
  }

  /** The greatest package comes last. */
  lemma GreatestIsLast(pkgs: seq<string>, pkg: string)
    requires StrictlySorted(pkgs) && pkg in pkgs && forall i :: 0 <= i < |pkgs| ==> !Before(pkg, pkgs[i])
    ensures pkgs[|pkgs| - 1] == pkg && pkg !in pkgs[..|pkgs| - 1]
  {
    var i :| 0 <= i < |pkgs| && pkgs[i] == pkg;
    forall j | 0 <= j < |pkgs| - 1
      ensures pkgs[j] != pkg
    {
      BeforeIsStrict(pkgs[j], pkgs[|pkgs| - 1]);
    }
  }

  /** The last finding goes to the last table. */
  lemma LastTableGrows(init: seq<Finding>, last: Finding, others: seq<string>)
    requires last.pkg !in others
    ensures InTables(TablesOf(init + [last], others + [last.pkg]))
         == InTables(TablesOf(init, others)) + (OfPackage(init, last.pkg) + [last])
  {
    var pkgs := others + [last.pkg];
    assert pkgs[..|pkgs| - 1] == others;
    OtherTables(init, last, others);
    TablesGrow(init + [last], pkgs);
    OfPackageAppends(init, last, last.pkg);
  }

  lemma KnownPackageLast(init: seq<Finding>, last: Finding)
    requires PackagesAscend(init + [last]) && last.pkg in Packages(init)
    ensures var pkgs := InOrder(Packages(init));
      pkgs != [] && pkgs[|pkgs| - 1] == last.pkg && last.pkg !in pkgs[..|pkgs| - 1]
  {
    var pkgs := InOrder(Packages(init));
    InOrderLists(Packages(init));
    forall i | 0 <= i < |pkgs|
      ensures !Before(last.pkg, pkgs[i])
    {
      assert pkgs[i] in Elements(pkgs);
      LastIsGreatest(init, last, pkgs[i]);
    }
    assert last.pkg in Elements(pkgs);
    GreatestIsLast(pkgs, last.pkg);
  }

  lemma NewPackageLast(init: seq<Finding>, last: Finding)
    requires PackagesAscend(init + [last]) && last.pkg !in Packages(init)
    ensures InOrder(Packages(init) + {last.pkg}) == InOrder(Packages(init)) + [last.pkg]
    ensures last.pkg !in InOrder(Packages(init))
  {
    var known := InOrder(Packages(init));
    var pkgs := known + [last.pkg];
    InOrderLists(Packages(init));
    assert Elements(pkgs) == Elements(known) + {last.pkg};
    forall i | 0 <= i < |known|
      ensures Before(known[i], last.pkg)
    {
      assert known[i] in Elements(known);
      LastIsGreatest(init, last, known[i]);
      BeforeIsStrict(known[i], last.pkg);
    }
    SortedListing(pkgs, Packages(init) + {last.pkg});
    assert last.pkg !in Elements(known);
  }

  lemma PackagesAppend(init: seq<Finding>, last: Finding)
    ensures Packages(init + [last]) == Packages(init) + {last.pkg}
  {
  }

  lemma KnownPackageAppends(init: seq<Finding>, last: Finding, known: seq<string>)
    requires known != [] && known[|known| - 1] == last.pkg && last.pkg !in known[..|known| - 1]
    ensures InTables(TablesOf(init + [last], known)) == InTables(TablesOf(init, known)) + [last]
  {
    var others := known[..|known| - 1];
    var before, table := InTables(TablesOf(init, others)), OfPackage(init, last.pkg);
    assert known == others + [last.pkg];
    TablesGrow(init, known);
    LastTableGrows(init, last, others);
    assert before + (table + [last]) == before + table + [last];
  }

  lemma NewPackageAppends(init: seq<Finding>, last: Finding, known: seq<string>)
    requires last.pkg !in known && last.pkg !in Packages(init)
    ensures InTables(TablesOf(init + [last], known + [last.pkg])) == InTables(TablesOf(init, known)) + [last]
  {
    NothingOfPackage(init, last.pkg);
    LastTableGrows(init, last, known);
  }

  lemma TablesAppend(init: seq<Finding>, last: Finding)
    requires PackagesAscend(init + [last])
    ensures InTables(TablesOf(init + [last], InOrder(Packages(init + [last])))) == InTables(TablesOf(init, InOrder(Packages(init)))) + [last]
  {
    PackagesAppend(init, last);
    if last.pkg in Packages(init) {
      assert Packages(init) + {last.pkg} == Packages(init);
      KnownPackageLast(init, last);
      KnownPackageAppends(init, last, InOrder(Packages(init)));
    } else {
      NewPackageLast(init, last);
      NewPackageAppends(init, last, InOrder(Packages(init)));
    }
  }

  lemma {:induction false} TablesInOrder(group: seq<Finding>)
    requires PackagesAscend(group)
    ensures InTables(TablesOf(group, InOrder(Packages(group)))) == group
  {
    if group == [] {
      assert Packages(group) == {};
    } else {
      var init, last := group[..|group| - 1], group[|group| - 1];
      assert group == init + [last];
      TablesInOrder(init);
      TablesAppend(init, last);
    }
  }

  /** The findings priority after priority. */
  function ByPriority(fs: seq<Finding>, ps: seq<Priority>): seq<Finding> {
    if ps == [] then [] else ByPriority(fs, ps[..|ps| - 1]) + OfPriority(fs, ps[|ps| - 1])
  }

  lemma {:induction false} LayoutIsByPriority(fs: seq<Finding>, ps: seq<Priority>)
    requires InReportOrder(fs)
    ensures InSections(Layout(fs, ps)) == ByPriority(fs, ps)
  {
    if ps != [] {
      LayoutIsByPriority(fs, ps[..|ps| - 1]);
      LayoutGrows(fs, ps);
      SectionInOrder(fs, ps[|ps| - 1]);
    }
  }

  lemma AllByPriority(fs: seq<Finding>)
    ensures ByPriority(fs, PRIORITIES) == OfPriority(fs, High) + (OfPriority(fs, Medium) + OfPriority(fs, Low))
  {
    var three := PRIORITIES;
    var two := three[..2];
    var one := two[..1];
    assert three[2] == Low && two[1] == Medium && one[0] == High;
    assert ByPriority(fs, one[..0]) == [];
    assert ByPriority(fs, one) == OfPriority(fs, High);
    assert ByPriority(fs, two) == OfPriority(fs, High) + OfPriority(fs, Medium);
  }

  /** Findings sorted by priority and package are listed in exactly their order. */
  lemma SortedFindingsKeepOrder(fs: seq<Finding>)
    requires InReportOrder(fs)
    ensures InSections(Layout(fs, PRIORITIES)) == fs
  {
    LayoutIsByPriority(fs, PRIORITIES);
    AllByPriority(fs);
    PrioritiesInOrder(fs);
  }

  lemma SectionInOrder(fs: seq<Finding>, p: Priority)
    requires InReportOrder(fs)
    ensures InTables(SectionOf(fs, p).tables) == OfPriority(fs, p)
  {
    GroupAscends(fs, p);
    TablesInOrder(OfPriority(fs, p));
  }

  // ---- The text of a layout ----

  function FindingRow(f: Finding): string {
    "| `" + f.file + ":" + Decimal(f.line) + "` | " + CategoryName(f.category) + " | " + f.tag + " | " + f.snippet + " |\n"
  }

  function FindingRows(fs: seq<Finding>): string {
    if fs == [] then "" else FindingRows(fs[..|fs| - 1]) + FindingRow(fs[|fs| - 1])
  }

  function TableText(pkg: string, rows: string): string {
    "#### `" + pkg + "`\n\n| Location | Category | Tag | Detail |\n|---|---|---|---|\n" + rows + "\n"
  }

  function TablesText(tables: seq<Table>): string {
    if tables == [] then ""
    else TablesText(tables[..|tables| - 1]) + TableText(tables[|tables| - 1].pkg, FindingRows(tables[|tables| - 1].findings))
  }

  function PriorityHead(p: Priority, size: nat): string {
    "### " + PriorityName(p) + " (" + Decimal(size) + ")\n\n"
  }

  /** The heading counts the findings of the section's tables. */
  function SectionText(s: Section): string {
    PriorityHead(s.priority, |InTables(s.tables)|) + if s.tables == [] then "_None._\n\n" else TablesText(s.tables)
  }

  function LayoutText(layout: seq<Section>): string {
    if layout == [] then "" else LayoutText(layout[..|layout| - 1]) + SectionText(layout[|layout| - 1])
  }

  /** The findings sorted into groups by priority, each keeping its order. */
  method GroupByPriority(fs: seq<Finding>) returns (groups: map<Priority, seq<Finding>>)
    ensures forall p :: (if p in groups then groups[p] else []) == OfPriority(fs, p)
  {
    groups := map[];
    var i := 0;
    while i < |fs|
      invariant 0 <= i <= |fs|
      invariant forall p :: (if p in groups then groups[p] else []) == OfPriority(fs[..i], p)
    {
      var p := fs[i].priority;
      assert fs[..i + 1][..i] == fs[..i];
      groups := groups[p := (if p in groups then groups[p] else []) + [fs[i]]];
      i := i + 1;
    }
    assert fs[..i] == fs;
  }

  /** The groups so far hold each package's findings. */
  ghost predicate Grouped(fs: seq<Finding>, pkgs: seq<string>, groups: map<string, seq<Finding>>) {
    && groups.Keys == Elements(pkgs) && Elements(pkgs) == Packages(fs) && Distinct(pkgs)
    && forall pkg :: pkg in groups ==> groups[pkg] == OfPackage(fs, pkg)
  }

  /** The same by package, with the packages in the order they are first met. */
  method GroupByPackage(fs: seq<Finding>) returns (pkgs: seq<string>, groups: map<string, seq<Finding>>)
    ensures Grouped(fs, pkgs, groups)
  {
    pkgs, groups := [], map[];
    var i := 0;
    while i < |fs|
      invariant 0 <= i <= |fs| && Grouped(fs[..i], pkgs, groups)
    {
      var pkg := fs[i].pkg;
      GroupsGrow(fs, i, pkgs, groups);
      if pkg in groups {
        groups := groups[pkg := groups[pkg] + [fs[i]]];
      } else {
        pkgs := pkgs + [pkg];
        groups := groups[pkg := [fs[i]]];
      }
      i := i + 1;
    }
    assert fs[..i] == fs;
  }

  lemma GroupsGrow(fs: seq<Finding>, i: nat, pkgs: seq<string>, groups: map<string, seq<Finding>>)
    requires i < |fs| && Grouped(fs[..i], pkgs, groups)
    ensures var pkg := fs[i].pkg;
      if pkg in groups then Grouped(fs[..i + 1], pkgs, groups[pkg := groups[pkg] + [fs[i]]])
      else Grouped(fs[..i + 1], pkgs + [pkg], groups[pkg := [fs[i]]])
  {
    var pkg := fs[i].pkg;
    assert fs[..i + 1] == fs[..i] + [fs[i]];
    assert fs[..i + 1][..i] == fs[..i];
    assert Packages(fs[..i + 1]) == Packages(fs[..i]) + {pkg};
    if pkg !in groups {
      assert pkg !in Elements(pkgs);
      assert Elements(pkgs + [pkg]) == Elements(pkgs) + {pkg};
      NothingOfPackage(fs[..i], pkg);
    }
  }

  lemma {:induction false} NothingOfPackage(fs: seq<Finding>, pkg: string)
    requires pkg !in Packages(fs)
    ensures OfPackage(fs, pkg) == []
  {
    if fs != [] {
      assert fs[|fs| - 1] in fs;
      assert Packages(fs[..|fs| - 1]) <= Packages(fs);
      NothingOfPackage(fs[..|fs| - 1], pkg);
    }
  }

  method SortedPackages(pkgs: seq<string>) returns (sorted: seq<string>)
    requires Distinct(pkgs)
    ensures sorted == InOrder(Elements(pkgs))
  {
    var a := new string[|pkgs|](i requires 0 <= i < |pkgs| => pkgs[i]);
    assert a[..] == pkgs;
    Sort(a);
    sorted := a[..];
    DistinctMultiset(pkgs);
    DistinctSorted(sorted, Elements(pkgs));
    SortedListing(sorted, Elements(pkgs));
  }

  lemma {:induction false} DistinctMultiset(s: seq<string>)
    requires Distinct(s)
    ensures multiset(s) == multiset(Elements(s))
  {
    if s != [] {
      var init, last := s[..|s| - 1], s[|s| - 1];
      assert s == init + [last];
      DistinctMultiset(init);
      assert last !in Elements(init);
      assert Elements(s) == Elements(init) + {last};
    }
  }

  lemma TablesStep(fs: seq<Finding>, pkgs: seq<string>, i: nat)
    requires i < |pkgs|
    ensures TablesText(TablesOf(fs, pkgs[..i + 1])) == TablesText(TablesOf(fs, pkgs[..i])) + TableText(pkgs[i], FindingRows(OfPackage(fs, pkgs[i])))
  {
    assert pkgs[..i + 1][..i] == pkgs[..i];
    var tables := TablesOf(fs, pkgs[..i + 1]);
    assert tables == TablesOf(fs, pkgs[..i]) + [Table(pkgs[i], OfPackage(fs, pkgs[i]))];
    assert tables[..|tables| - 1] == TablesOf(fs, pkgs[..i]);
  }

  lemma LayoutStep(fs: seq<Finding>, ps: seq<Priority>, i: nat)
    requires i < |ps|
    ensures LayoutText(Layout(fs, ps[..i + 1])) == LayoutText(Layout(fs, ps[..i])) + SectionText(SectionOf(fs, ps[i]))
  {
    assert ps[..i + 1][..i] == ps[..i];
    var layout := Layout(fs, ps[..i + 1]);
    assert layout == Layout(fs, ps[..i]) + [SectionOf(fs, ps[i])];
    assert layout[..|layout| - 1] == Layout(fs, ps[..i]);
  }

  method RenderTable(pkg: string, fs: seq<Finding>) returns (text: string)
    ensures text == TableText(pkg, FindingRows(fs))
  {
    var rows := "";
    var i := 0;
    while i < |fs|
      invariant 0 <= i <= |fs| && rows == FindingRows(fs[..i])
    {
      assert fs[..i + 1][..i] == fs[..i];
      rows := rows + FindingRow(fs[i]);
      i := i + 1;
    }
    assert fs[..i] == fs;
    text := TableText(pkg, rows);
  }

  method RenderTables(group: seq<Finding>, pkgs: seq<string>, byPkg: map<string, seq<Finding>>) returns (text: string)
    requires forall pkg :: pkg in pkgs ==> pkg in byPkg && byPkg[pkg] == OfPackage(group, pkg)
    ensures text == TablesText(TablesOf(group, pkgs))
  {
    text := "";
    var i := 0;
    while i < |pkgs|
      invariant 0 <= i <= |pkgs| && text == TablesText(TablesOf(group, pkgs[..i]))
    {
      assert pkgs[i] in pkgs;
      var table := RenderTable(pkgs[i], byPkg[pkgs[i]]);
      TablesStep(group, pkgs, i);
      text := text + table;
      i := i + 1;
    }
    assert pkgs[..i] == pkgs;
  }

  lemma EmptyGroupHasNoTables(group: seq<Finding>)
    ensures TablesOf(group, InOrder(Packages(group))) == [] <==> group == []
  {
    TablesAreFiled(group, InOrder(Packages(group)));
    InOrderLists(Packages(group));
    if group != [] {
      assert group[0].pkg in Elements(InOrder(Packages(group)));
    }
  }

  /** The heading is written from the size of the group. */
  method RenderPriority(ghost fs: seq<Finding>, p: Priority, group: seq<Finding>) returns (text: string)
    requires group == OfPriority(fs, p)
    ensures text == SectionText(SectionOf(fs, p))
  {
    GroupIsListed(group);
    EmptyGroupHasNoTables(group);
    var body := "_None._\n\n";
    if group != [] {
      var met, byPkg := GroupByPackage(group);
      var pkgs := SortedPackages(met);
      InOrderLists(Packages(group));
      assert forall pkg :: pkg in pkgs ==> pkg in Elements(pkgs);
      body := RenderTables(group, pkgs, byPkg);
    }
    text := PriorityHead(p, |group|) + body;
  }

  method RenderFindingsByPriority(fs: seq<Finding>, ps: seq<Priority>) returns (text: string)
    ensures text == LayoutText(Layout(fs, ps))
  {
    var groups := GroupByPriority(fs);
    text := "";
    var i := 0;
    while i < |ps|
      invariant 0 <= i <= |ps| && text == LayoutText(Layout(fs, ps[..i]))
    {
      var section := RenderPriority(fs, ps[i], if ps[i] in groups then groups[ps[i]] else []);
      LayoutStep(fs, ps, i);
      text := text + section;
      i := i + 1;
    }
    assert ps[..i] == ps;
  }
}
