/** The Lambda runtime lister: for every profile and each of three fixed
    regions it pages through `list_functions`, appends one row per function
    that has both a name and a runtime, and then prints the rows as a
    console table or writes them as CSV. */
module LambdaLister {
  import opened Common
  import opened Text
  import opened Grid
  import opened Output

  /** A listed function; either field may be missing from the response. */
  datatype NativeFunction = NativeFunction(name: Option<string>, runtime: Option<string>)

  type Page = seq<NativeFunction>

  /** The remote side, as plain data: which profiles exist locally, and per
      profile whether a session opens and what the account lookup answers,
      and per (profile, region) whether the Lambda client can be made and
      what the `list_functions` paginator yields. */
  datatype Cloud = Cloud(
    available: seq<string>,
    session: string -> Remote<()>,
    account: string -> Remote<string>,
    client: (string, string) -> Remote<()>,
    listing: (string, string) -> Listing<Page>)

  /** The regions the lister always visits, in this order. */
  const ListedRegions: seq<string> := ["us-east-1", "us-east-2", "us-west-2"]

  /** One entry of `functions`: `[acct_num, FunctionName, Runtime, region]`. */
  datatype FunctionRow = FunctionRow(account: string, name: string, runtime: string, region: string)

  // ---------------------------------------------------------------------
  // The collection

  /** The rows of one page: a function without `FunctionName` or `Runtime`
      raises inside the `try` and is skipped; the others are kept in order. */
  function PageRows(page: Page, account: string, region: string): seq<FunctionRow>
    decreases |page|
  {
    if page == [] then []
    else
      var f := page[|page| - 1];
      PageRows(page[..|page| - 1], account, region)
        + if f.name.Some? && f.runtime.Some? then [FunctionRow(account, f.name.value, f.runtime.value, region)] else []
  }

  /** The rows of a listing's pages, in order. */
  function ListingRows(pages: seq<Page>, account: string, region: string): seq<FunctionRow>
    decreases |pages|
  {
    if pages == [] then []
    else ListingRows(pages[..|pages| - 1], account, region) + PageRows(pages[|pages| - 1], account, region)
  }

  /** One (profile, region) cell. Making the client and paging are outside any
      `try`: a client failure, or a paginator that raises, ends the program. */
  function Cell(cloud: Cloud, profile: string, region: string): Harvest<FunctionRow> {
    if cloud.client(profile, region).Fail? then Harvest([], true)
    else match cloud.account(profile)
      case Fail => Empty()
      case Ok(acct) =>
        var listing := cloud.listing(profile, region);
        Harvest(ListingRows(listing.pages, acct, region), listing.raises)
  }

  function Cells(cloud: Cloud): (string, string) -> Harvest<FunctionRow> {
    (p, r) => Cell(cloud, p, r)
  }

  lemma CellsApply(cloud: Cloud, profile: string, region: string)
    ensures Cells(cloud)(profile, region) == Cell(cloud, profile, region)
  {
  }

  /** A profile reaches the region loop when its session opens and its
      account lookup succeeds; otherwise it is logged and skipped. */
  function Opens(cloud: Cloud): string -> bool {
    p => cloud.session(p).Ok? && cloud.account(p).Ok?
  }

  /** The sweep over all cells, always over the three listed regions. */
  function Harvested(cloud: Cloud, profiles: seq<string>): Harvest<FunctionRow> {
    Sweep(Opens(cloud), Cells(cloud), profiles, ListedRegions)
  }

  /** The innermost loop: appends the rows of one page. */
  method CollectPage(functions: seq<FunctionRow>, page: Page, account: string, region: string)
    returns (functions': seq<FunctionRow>)
    ensures functions' == functions + PageRows(page, account, region)
  {
    functions' := functions;
    assert page[..0] == [];
    for k := 0 to |page|
      invariant functions' == functions + PageRows(page[..k], account, region)
    {
      var f := page[k];
      assert page[..k + 1][..k] == page[..k];
      if f.name.Some? && f.runtime.Some? {
        functions' := functions' + [FunctionRow(account, f.name.value, f.runtime.value, region)];
      }
    }
    assert page[..|page|] == page;
  }

  /** Pages through one cell's listing. */
  method CollectCell(functions: seq<FunctionRow>, cloud: Cloud, profile: string, region: string)
    returns (functions': seq<FunctionRow>, crashed: bool)
    requires cloud.account(profile).Ok?
    ensures functions' == functions + Cell(cloud, profile, region).items
    ensures crashed == Cell(cloud, profile, region).crashed
  {
    if cloud.client(profile, region).Fail? {
      return functions, true;
    }
    var account := cloud.account(profile).value;
    var listing: Listing<Page> := cloud.listing(profile, region);
    var pages := listing.pages;
    functions' := functions;
    assert pages[..0] == [];
    for i := 0 to |pages|
      invariant functions' == functions + ListingRows(pages[..i], account, region)
    {
      functions' := CollectPage(functions', pages[i], account, region);
      assert pages[..i + 1][..i] == pages[..i];
    }
    assert pages[..|pages|] == pages;
    crashed := listing.raises;
  }

  /** The region loop for one profile that reached it. */
  method CollectRow(functions: seq<FunctionRow>, cloud: Cloud, profile: string)
    returns (functions': seq<FunctionRow>, crashed: bool)
    requires cloud.account(profile).Ok?
    ensures functions' == functions + Row(Cells(cloud), profile, ListedRegions).items
    ensures crashed == Row(Cells(cloud), profile, ListedRegions).crashed
  {
    var regions := ListedRegions;
    functions', crashed := functions, false;
    assert regions[..0] == [];
    var j := 0;
    while j < |regions| && !crashed
      invariant 0 <= j <= |regions|
      invariant functions' == functions + Row(Cells(cloud), profile, regions[..j]).items
      invariant crashed == Row(Cells(cloud), profile, regions[..j]).crashed
    {
      RowStep(Cells(cloud), profile, regions, j);
      CellsApply(cloud, profile, regions[j]);
      functions', crashed := CollectCell(functions', cloud, profile, regions[j]);
      j := j + 1;
    }
    RowDone(Cells(cloud), profile, regions, j);
  }

  /** The collection loop of `main`. */
  method Collect(cloud: Cloud, profiles: seq<string>)
    returns (functions: seq<FunctionRow>, crashed: bool)
    ensures functions == Harvested(cloud, profiles).items
    ensures crashed == Harvested(cloud, profiles).crashed
  {
    functions, crashed := [], false;
    assert profiles[..0] == [];
    var i := 0;
    while i < |profiles| && !crashed
      invariant 0 <= i <= |profiles|
      invariant functions == Harvested(cloud, profiles[..i]).items
      invariant crashed == Harvested(cloud, profiles[..i]).crashed
    {
      SweepStep(Opens(cloud), Cells(cloud), profiles, ListedRegions, i);
      if cloud.session(profiles[i]).Ok? {
        var acct: Remote<string> := cloud.account(profiles[i]);
        if acct.Ok? {
          functions, crashed := CollectRow(functions, cloud, profiles[i]);
        }
      }
      i := i + 1;
    }
    SweepDone(Opens(cloud), Cells(cloud), profiles, ListedRegions, i);
  }

  /** A page keeps exactly its functions that have both fields, tagged with
      the cell's account and region. */
  lemma {:induction false} PageRowsMembers(page: Page, account: string, region: string, row: FunctionRow)
    ensures row in PageRows(page, account, region) <==>
              row.account == account && row.region == region &&
              NativeFunction(Some(row.name), Some(row.runtime)) in page
    decreases |page|
  {
    if page != [] {
      var init := page[..|page| - 1];
      PageRowsMembers(init, account, region, row);
      assert page == init + [page[|page| - 1]];
    }
  }

  /** Whether some page of a listing holds a function with the row's name and runtime. */
  predicate OnSomePage(pages: seq<Page>, row: FunctionRow) {
    exists i :: 0 <= i < |pages| && NativeFunction(Some(row.name), Some(row.runtime)) in pages[i]
  }

  /** A listing keeps exactly the complete functions of its pages. */
  lemma {:induction false} ListingRowsMembers(pages: seq<Page>, account: string, region: string, row: FunctionRow)
    ensures row in ListingRows(pages, account, region) <==>
              row.account == account && row.region == region && OnSomePage(pages, row)
    decreases |pages|
  {
    if pages != [] {
      var init := pages[..|pages| - 1];
      ListingRowsMembers(init, account, region, row);
      PageRowsMembers(pages[|pages| - 1], account, region, row);
      assert forall i :: 0 <= i < |init| ==> init[i] == pages[i];
    }
  }

  /** When the program does not crash, a row is collected exactly when a
      profile that reached the region loop listed, in one of the three
      regions, a function with that name and runtime. */
  lemma CollectedFunctions(cloud: Cloud, profiles: seq<string>, row: FunctionRow)
    requires !Harvested(cloud, profiles).crashed
    ensures row in Harvested(cloud, profiles).items <==>
              exists i, j :: 0 <= i < |profiles| && 0 <= j < |ListedRegions|
                && cloud.session(profiles[i]).Ok? && cloud.account(profiles[i]) == Ok(row.account)
                && cloud.client(profiles[i], ListedRegions[j]).Ok? && row.region == ListedRegions[j]
                && OnSomePage(cloud.listing(profiles[i], ListedRegions[j]).pages, row)
  {
    SweepMembers(Opens(cloud), Cells(cloud), profiles, ListedRegions, row);
    forall i, j | 0 <= i < |profiles| && 0 <= j < |ListedRegions| && cloud.account(profiles[i]).Ok?
      ensures row in Cells(cloud)(profiles[i], ListedRegions[j]).items <==>
                cloud.client(profiles[i], ListedRegions[j]).Ok? && cloud.account(profiles[i]) == Ok(row.account)
                && row.region == ListedRegions[j]
                && OnSomePage(cloud.listing(profiles[i], ListedRegions[j]).pages, row)
    {
      CellsApply(cloud, profiles[i], ListedRegions[j]);
      ListingRowsMembers(cloud.listing(profiles[i], ListedRegions[j]).pages, cloud.account(profiles[i]).value,
                         ListedRegions[j], row);
    }
  }

  // ---------------------------------------------------------------------
  // Output

  /** The console header line: the three titles left-justified to 13, 42 and
      15 characters, separated by single spaces. */
  function ConsoleHeader(): string {
    LJust("Account", 13) + " " + LJust("Function Name", 42) + " " + LJust("Runtime", 15)
  }

  /** The rule under the header: 70 dashes. */
  function Rule(): string { Repeat('-', 70) }

  /** One console line: account, name and runtime left-justified like the
      header; the region is not shown. */
  function ConsoleLine(row: FunctionRow): string {
    LJust(row.account, 13) + " " + LJust(row.name, 42) + " " + LJust(row.runtime, 15)
  }

  /** A line whose fields fit their widths is 72 characters long with the
      fields at columns 0, 14 and 57, each followed by spaces only. */
  lemma ConsoleColumns(row: FunctionRow)
    requires |row.account| <= 13 && |row.name| <= 42 && |row.runtime| <= 15
    ensures var line := ConsoleLine(row);
            && |line| == 72
            && line[..|row.account|] == row.account
            && line[14..14 + |row.name|] == row.name
            && line[57..57 + |row.runtime|] == row.runtime
            && line[13] == ' ' && line[56] == ' '
  {
    var a, n, r := LJust(row.account, 13), LJust(row.name, 42), LJust(row.runtime, 15);
    var line := ConsoleLine(row);
    assert line == a + " " + n + " " + r;
    assert line[..13] == a && line[14..56] == n && line[57..] == r;
    assert line[..|row.account|] == a[..|row.account|];
    assert line[14..14 + |row.name|] == n[..|row.name|];
    assert line[57..57 + |row.runtime|] == r[..|row.runtime|];
  }

  /** The console header is 72 characters wide, two more than its rule. */
  lemma HeaderWidth()
    ensures |ConsoleHeader()| == 72 && |Rule()| == 70
  {
  }

  /** What `main` does once the rows are in. */
  datatype Shown =
    | Console(lines: seq<string>)       // `outfile == ""`: the table on stdout
    | File(effects: seq<Effect>)        // the CSV file, as the output phase of the listers writes it

  const CsvHeader: seq<string> := ["Account", "Function Name", "Runtime", "Region"]

  function CsvRow(row: FunctionRow): seq<string> { [row.account, row.name, row.runtime, row.region] }

  /** The CSV file: the header, then every row in collection order. */
  function CsvRows(functions: seq<FunctionRow>): seq<seq<string>> {
    [CsvHeader] + Map(functions, CsvRow)
  }

  /** The console output: the header, the rule, then one line per row in
      collection order. */
  function ConsoleLines(functions: seq<FunctionRow>): seq<string> {
    [ConsoleHeader(), Rule()] + Map(functions, ConsoleLine)
  }

  /** The console and the file both keep the collection order, one line or
      row per collected function, and the file rows carry every field. */
  lemma OutputOrder(functions: seq<FunctionRow>)
    ensures |ConsoleLines(functions)| == |functions| + 2
    ensures forall n :: 0 <= n < |functions| ==> ConsoleLines(functions)[n + 2] == ConsoleLine(functions[n])
    ensures |CsvRows(functions)| == |functions| + 1
    ensures forall n :: 0 <= n < |functions| ==>
              CsvRows(functions)[n + 1] == [functions[n].account, functions[n].name, functions[n].runtime, functions[n].region]
  {
    MapIndex(functions, ConsoleLine);
    MapIndex(functions, CsvRow);
  }

  /** The output phase: print when there is no output file, otherwise write
      the CSV, even with no rows at all. */
  method Report(functions: seq<FunctionRow>, toConsole: bool, writeOk: bool) returns (shown: Shown)
    ensures toConsole ==> shown == Console(ConsoleLines(functions))
    ensures !toConsole ==> shown == File(Deliver(Csv, CsvRows(functions), |functions|, writeOk))
  {
    if toConsole {
      var lines := [ConsoleHeader(), Rule()];
      for n := 0 to |functions|
        invariant lines == [ConsoleHeader(), Rule()] + Map(functions[..n], ConsoleLine)
      {
        MapSnoc(functions, n, ConsoleLine);
        lines := lines + [ConsoleLine(functions[n])];
      }
      assert functions[..|functions|] == functions;
      return Console(lines);
    }
    if !writeOk {
      return File([WriteFailed]);
    }
    shown := File([WriteCsv(CsvRows(functions)), Wrote(|functions|)]);
  }

  datatype Exit = Crashed | Finished(shown: Shown)

  /** `main`: collect, then print or write. */
  method Program(requested: seq<string>, cloud: Cloud, outfile: string, writeOk: bool) returns (exit: Exit)
    ensures var h := Harvested(cloud, ResolveProfiles(requested, cloud.available));
            && (h.crashed <==> exit == Crashed)
            && (!h.crashed && outfile == "" ==> exit == Finished(Console(ConsoleLines(h.items))))
            && (!h.crashed && outfile != "" ==>
                  exit == Finished(File(Deliver(Csv, CsvRows(h.items), |h.items|, writeOk))))
  {
    var profiles := ResolveProfiles(requested, cloud.available);
    var functions, crashed := Collect(cloud, profiles);
    if crashed {
      return Crashed;
    }
    var shown := Report(functions, outfile == "", writeOk);
    exit := Finished(shown);
  }
}
