/** The VPC lister: for every profile and each of four fixed regions it
    calls `describe_vpcs`, stores one record per VPC under its VpcId, and
    then shows or writes the collection. */
module VpcLister {
  import opened Common
  import opened Text
  import opened Sorting
  import opened Grid
  import opened Output

  // ---------------------------------------------------------------------
  // Native records, as `describe_vpcs` returns them

  /** One entry of `Ipv6CidrBlockAssociationSet`; its `Ipv6CidrBlock` may be missing. */
  datatype Ipv6Association = Ipv6Association(block: Option<string>)

  /** One entry of `CidrBlockAssociationSet`. */
  datatype CidrAssociation = CidrAssociation(associationId: string, block: string)

  /** A listed VPC; `ipv6` is None when the VPC has no (or a null)
      `Ipv6CidrBlockAssociationSet`. */
  datatype NativeVpc = NativeVpc(id: string, cidr: string, ipv6: Option<seq<Ipv6Association>>,
                                 associations: seq<CidrAssociation>)

  /** The remote side, as plain data: which profiles exist locally, whether a
      session opens, and per (profile, region) whether the EC2 client can be
      made, what the account lookup answers and what `describe_vpcs` returns. */
  datatype Cloud = Cloud(
    available: seq<string>,
    session: string -> Remote<()>,
    client: (string, string) -> Remote<()>,
    account: (string, string) -> Remote<string>,
    describe: (string, string) -> Remote<seq<NativeVpc>>)

  /** The regions the lister always visits, in this order. */
  const ListedRegions: seq<string> := ["us-east-1", "us-east-2", "us-west-2", "ca-central-1"]

  // ---------------------------------------------------------------------
  // Normalised records

  /** The stored record; `cidr6` is None where the source stores Python None. */
  datatype Vpc = Vpc(account: string, region: string, cidr: string, cidr6: Option<string>,
                     associations: map<string, string>)

  /** The "cidr6" field: "" unless the VPC has a non-empty IPv6 association
      set, in which case the first association's block (possibly missing). */
  function Cidr6(ipv6: Option<seq<Ipv6Association>>): Option<string> {
    if ipv6.Some? && |ipv6.value| > 0 then ipv6.value[0].block else Some("")
  }

  function AssociationId(a: CidrAssociation): string { a.associationId }

  function AssociationBlock(a: CidrAssociation): string { a.block }

  /** The "cidrassociations" dict: AssociationId to CidrBlock, a later
      association with the same id overwriting an earlier one. */
  function Associations(assocs: seq<CidrAssociation>): map<string, string> {
    Assign(map[], assocs, AssociationId, AssociationBlock)
  }

  /** The record stored for one listed VPC. */
  function Normalize(vpc: NativeVpc, account: string, region: string): Vpc {
    Vpc(account, region, vpc.cidr, Cidr6(vpc.ipv6), Associations(vpc.associations))
  }

  /** The record's fields: the account and region of the cell, the primary
      CIDR, the first IPv6 block or "", and exactly one association entry per
      association id, holding the block of the last association with that id. */
  lemma NormalizeFields(vpc: NativeVpc, account: string, region: string)
    ensures var r := Normalize(vpc, account, region);
      && r.account == account && r.region == region && r.cidr == vpc.cidr
      && (vpc.ipv6.None? || vpc.ipv6.value == [] ==> r.cidr6 == Some(""))
      && (vpc.ipv6.Some? && vpc.ipv6.value != [] ==> r.cidr6 == vpc.ipv6.value[0].block)
      && (forall id :: id in r.associations <==>
            exists i :: 0 <= i < |vpc.associations| && vpc.associations[i].associationId == id)
      && (forall i :: 0 <= i < |vpc.associations| &&
            (forall j :: i < j < |vpc.associations| ==> vpc.associations[j].associationId != vpc.associations[i].associationId)
            ==> r.associations[vpc.associations[i].associationId] == vpc.associations[i].block)
  {
    var assocs := vpc.associations;
    AssignKeys(map[], assocs, AssociationId, AssociationBlock);
    forall i | 0 <= i < |assocs| && (forall j :: i < j < |assocs| ==> assocs[j].associationId != assocs[i].associationId)
      ensures Associations(assocs)[assocs[i].associationId] == assocs[i].block
    {
      AssignLastWins(map[], assocs, AssociationId, AssociationBlock, i);
    }
  }

  /** Builds the record for one VPC the way `main` does: the defaults, the
      IPv6 block, then the association loop, which merges the growing
      `tempcidr` dict into the record after every association. */
  method NormalizeVpc(vpc: NativeVpc, account: string, region: string) returns (rec: Vpc)
    ensures rec == Normalize(vpc, account, region)
  {
    rec := Vpc(account, region, vpc.cidr, Some(""), map[]);
    if vpc.ipv6.Some? {
      var ipv6Set := vpc.ipv6.value;
      if |ipv6Set| > 0 {
        rec := rec.(cidr6 := ipv6Set[0].block);
      }
    }
    var temp: map<string, string> := map[];
    for i := 0 to |vpc.associations|
      invariant temp == Associations(vpc.associations[..i])
      invariant rec == Vpc(account, region, vpc.cidr, Cidr6(vpc.ipv6), temp)
    {
      var a := vpc.associations[i];
      assert vpc.associations[..i + 1][..i] == vpc.associations[..i];
      temp := temp[a.associationId := a.block];
      rec := rec.(associations := rec.associations + temp);
    }
    assert vpc.associations[..|vpc.associations|] == vpc.associations;
  }

  // ---------------------------------------------------------------------
  // The collection

  /** One VPC as seen from one cell. */
  datatype Sighting = Sighting(vpc: NativeVpc, account: string, region: string)

  function KeyOf(s: Sighting): string { s.vpc.id }

  function Record(s: Sighting): Vpc { Normalize(s.vpc, s.account, s.region) }

  /** `vpcs_found` after storing the given sightings in order into m. */
  function Store(m: map<string, Vpc>, ss: seq<Sighting>): map<string, Vpc> {
    Assign(m, ss, KeyOf, Record)
  }

  function Sight(vpcs: seq<NativeVpc>, account: string, region: string): seq<Sighting> {
    seq(|vpcs|, i requires 0 <= i < |vpcs| => Sighting(vpcs[i], account, region))
  }

  /** One (profile, region) cell. The EC2 client is made outside any `try`,
      so its failure ends the program; an account or `describe_vpcs` failure
      is logged and the cell yields nothing. */
  function Cell(cloud: Cloud, profile: string, region: string): Harvest<Sighting> {
    if cloud.client(profile, region).Fail? then Harvest([], true)
    else match cloud.account(profile, region)
      case Fail => Empty()
      case Ok(acct) =>
        match cloud.describe(profile, region)
        case Fail => Empty()
        case Ok(vpcs) => Harvest(Sight(vpcs, acct, region), false)
  }

  function Cells(cloud: Cloud): (string, string) -> Harvest<Sighting> {
    (p, r) => Cell(cloud, p, r)
  }

  lemma CellsApply(cloud: Cloud, profile: string, region: string)
    ensures Cells(cloud)(profile, region) == Cell(cloud, profile, region)
  {
  }

  function Opens(cloud: Cloud): string -> bool {
    p => cloud.session(p).Ok?
  }

  /** The sweep over all cells, always over the four listed regions. */
  function Harvested(cloud: Cloud, profiles: seq<string>): Harvest<Sighting> {
    Sweep(Opens(cloud), Cells(cloud), profiles, ListedRegions)
  }

  lemma StoreSnoc(m: map<string, Vpc>, ss: seq<Sighting>, s: Sighting)
    ensures Store(m, ss + [s]) == Store(m, ss)[KeyOf(s) := Record(s)]
  {
    assert (ss + [s])[..|ss|] == ss;
  }

  /** Stores every VPC of one `describe_vpcs` response, in order. */
  method CollectCell(found: map<string, Vpc>, cloud: Cloud, profile: string, region: string)
    returns (found': map<string, Vpc>, crashed: bool)
    ensures found' == Store(found, Cell(cloud, profile, region).items)
    ensures crashed == Cell(cloud, profile, region).crashed
  {
    found', crashed := found, false;
    if cloud.client(profile, region).Fail? {
      return found, true;
    }
    var acct: Remote<string> := cloud.account(profile, region);
    if acct.Fail? {
      return;
    }
    var response: Remote<seq<NativeVpc>> := cloud.describe(profile, region);
    if response.Fail? {
      return;
    }
    var account, vpcs := acct.value, response.value;
    for k := 0 to |vpcs|
      invariant found' == Store(found, Sight(vpcs[..k], account, region))
    {
      var rec := NormalizeVpc(vpcs[k], account, region);
      assert Sight(vpcs[..k + 1], account, region) == Sight(vpcs[..k], account, region) + [Sighting(vpcs[k], account, region)];
      StoreSnoc(found, Sight(vpcs[..k], account, region), Sighting(vpcs[k], account, region));
      found' := found'[vpcs[k].id := rec];
    }
    assert vpcs[..|vpcs|] == vpcs;
  }

  /** The region loop for one profile whose session opened; a crash in a
      cell leaves the loop. */
  method CollectRow(found: map<string, Vpc>, cloud: Cloud, profile: string)
    returns (found': map<string, Vpc>, crashed: bool)
    ensures found' == Store(found, Row(Cells(cloud), profile, ListedRegions).items)
    ensures crashed == Row(Cells(cloud), profile, ListedRegions).crashed
  {
    var regions := ListedRegions;
    found', crashed := found, false;
    assert regions[..0] == [];
    var j := 0;
    while j < |regions| && !crashed
      invariant 0 <= j <= |regions|
      invariant found' == Store(found, Row(Cells(cloud), profile, regions[..j]).items)
      invariant crashed == Row(Cells(cloud), profile, regions[..j]).crashed
    {
      found', crashed := CollectRegion(found, found', cloud, profile, j);
      j := j + 1;
    }
    RowDone(Cells(cloud), profile, regions, j);
  }

  /** One more region of a row that has not crashed yet. */
  method CollectRegion(found: map<string, Vpc>, sofar: map<string, Vpc>, cloud: Cloud, profile: string, j: nat)
    returns (found': map<string, Vpc>, crashed: bool)
    requires j < |ListedRegions| && !Row(Cells(cloud), profile, ListedRegions[..j]).crashed
    requires sofar == Store(found, Row(Cells(cloud), profile, ListedRegions[..j]).items)
    ensures found' == Store(found, Row(Cells(cloud), profile, ListedRegions[..j + 1]).items)
    ensures crashed == Row(Cells(cloud), profile, ListedRegions[..j + 1]).crashed
  {
    RowAssignStep(Cells(cloud), profile, ListedRegions, j, found, KeyOf, Record);
    CellsApply(cloud, profile, ListedRegions[j]);
    found', crashed := CollectCell(sofar, cloud, profile, ListedRegions[j]);
  }

  /** The collection loop of `main`: profiles outer, the four regions inner;
      a session failure skips the profile, a crash ends the sweep. */
  method Collect(cloud: Cloud, profiles: seq<string>)
    returns (found: map<string, Vpc>, crashed: bool)
    ensures found == Store(map[], Harvested(cloud, profiles).items)
    ensures crashed == Harvested(cloud, profiles).crashed
  {
    found, crashed := map[], false;
    assert profiles[..0] == [];
    var i := 0;
    while i < |profiles| && !crashed
      invariant 0 <= i <= |profiles|
      invariant found == Store(map[], Harvested(cloud, profiles[..i]).items)
      invariant crashed == Harvested(cloud, profiles[..i]).crashed
    {
      SweepAssignStep(Opens(cloud), Cells(cloud), profiles, ListedRegions, i, map[], KeyOf, Record);
      if cloud.session(profiles[i]).Ok? {
        found, crashed := CollectRow(found, cloud, profiles[i]);
      }
      i := i + 1;
    }
    SweepDone(Opens(cloud), Cells(cloud), profiles, ListedRegions, i);
  }

  /** When the sweep does not crash, every stored VpcId was listed by some
      cell of an opened profile. */
  lemma CollectedKeysListed(cloud: Cloud, profiles: seq<string>, k: string)
    requires !Harvested(cloud, profiles).crashed
    requires k in Store(map[], Harvested(cloud, profiles).items)
    ensures exists i, j, s :: 0 <= i < |profiles| && 0 <= j < |ListedRegions| && cloud.session(profiles[i]).Ok?
                              && s in Cell(cloud, profiles[i], ListedRegions[j]).items && KeyOf(s) == k
  {
    var h := Harvested(cloud, profiles);
    AssignKeys(map[], h.items, KeyOf, Record);
    var n :| 0 <= n < |h.items| && KeyOf(h.items[n]) == k;
    var s := h.items[n];
    SweepMembers(Opens(cloud), Cells(cloud), profiles, ListedRegions, s);
    var i, j :| 0 <= i < |profiles| && 0 <= j < |ListedRegions| && Opens(cloud)(profiles[i])
                && s in Cells(cloud)(profiles[i], ListedRegions[j]).items;
    CellsApply(cloud, profiles[i], ListedRegions[j]);
  }

  /** When the sweep does not crash, a VPC listed by any cell of an opened
      profile is stored under its VpcId, whatever other cells failed. */
  lemma CollectedKeysComplete(cloud: Cloud, profiles: seq<string>, i: nat, j: nat, s: Sighting)
    requires !Harvested(cloud, profiles).crashed
    requires i < |profiles| && j < |ListedRegions| && cloud.session(profiles[i]).Ok?
    requires s in Cell(cloud, profiles[i], ListedRegions[j]).items
    ensures KeyOf(s) in Store(map[], Harvested(cloud, profiles).items)
  {
    var h := Harvested(cloud, profiles);
    CellsApply(cloud, profiles[i], ListedRegions[j]);
    SweepMembers(Opens(cloud), Cells(cloud), profiles, ListedRegions, s);
    var n :| 0 <= n < |h.items| && h.items[n] == s;
    AssignKeys(map[], h.items, KeyOf, Record);
  }

  // ---------------------------------------------------------------------
  // Rendering

  const TableHeaders: seq<string> := ["VPC ID", "Account ID", "Region", "CIDR"]

  /** A table row: VpcId, account, region and CIDR, with budgets of 50, 30,
      20 and 20 percent of the width. */
  function TableRow(id: string, info: Vpc, width: nat, wrap: bool, wrapper: (string, nat) -> string): seq<string> {
    [Fit(id, Share(width, 50), wrap, wrapper),
     Fit(info.account, Share(width, 30), wrap, wrapper),
     Fit(info.region, Share(width, 20), wrap, wrapper),
     Fit(info.cidr, Share(width, 20), wrap, wrapper)]
  }

  function RowOf(width: nat, wrap: bool, wrapper: (string, nat) -> string): ((string, Vpc)) -> seq<string> {
    (e: (string, Vpc)) => TableRow(e.0, e.1, width, wrap, wrapper)
  }

  /** The table body: one row per stored VPC, in VpcId order. */
  function TableData(found: map<string, Vpc>, width: nat, wrap: bool,
                     wrapper: (string, nat) -> string): seq<seq<string>> {
    Map(Items(found), RowOf(width, wrap, wrapper))
  }

  /** The loop body of `format_table_data`. */
  method FormatRow(id: string, info: Vpc, maxBucket: nat, maxAccount: nat, maxRegion: nat, maxCidr: nat,
                   wrap: bool, wrapper: (string, nat) -> string)
    returns (row: seq<string>)
    ensures row == [Fit(id, maxBucket, wrap, wrapper), Fit(info.account, maxAccount, wrap, wrapper),
                    Fit(info.region, maxRegion, wrap, wrapper), Fit(info.cidr, maxCidr, wrap, wrapper)]
  {
    var bn, acct, region, cidr := id, info.account, info.region, info.cidr;
    if !wrap {
      if |bn| > maxBucket { bn := SliceTo(bn, maxBucket - 3) + Ellipsis; }
      if |acct| > maxAccount { acct := SliceTo(acct, maxAccount - 3) + Ellipsis; }
      if |region| > maxRegion { region := SliceTo(region, maxRegion - 3) + Ellipsis; }
      if |cidr| > maxCidr { cidr := SliceTo(cidr, maxCidr - 3) + Ellipsis; }
    } else {
      bn := wrapper(bn, maxBucket);
      acct := wrapper(acct, maxAccount);
      region := wrapper(region, maxRegion);
      cidr := wrapper(cidr, maxCidr);
    }
    row := [bn, acct, region, cidr];
  }

  /** `format_table_data`: the column budgets, then one row per VPC in
      sorted VpcId order. */
  method FormatTableData(found: map<string, Vpc>, width: nat, wrap: bool, wrapper: (string, nat) -> string)
    returns (headers: seq<string>, data: seq<seq<string>>)
    ensures headers == TableHeaders
    ensures data == TableData(found, width, wrap, wrapper)
  {
    headers := TableHeaders;
    data := [];
    var maxBucket, maxAccount, maxRegion, maxCidr := Share(width, 50), Share(width, 30), Share(width, 20), Share(width, 20);
    var items := Items(found);
    for j := 0 to |items|
      invariant data == Map(items[..j], RowOf(width, wrap, wrapper))
    {
      var row := FormatRow(items[j].0, items[j].1, maxBucket, maxAccount, maxRegion, maxCidr, wrap, wrapper);
      MapSnoc(items, j, RowOf(width, wrap, wrapper));
      data := data + [row];
    }
    assert items[..|items|] == items;
  }

  /** The table has one row per stored VPC: row j shows the VPC under the
      j-th VpcId in increasing order. */
  lemma TableOrder(found: map<string, Vpc>, width: nat, wrap: bool, wrapper: (string, nat) -> string)
    ensures var data := TableData(found, width, wrap, wrapper);
            var items := Items(found);
            && |data| == |found|
            && (forall j :: 0 <= j < |data| ==>
                  items[j].0 in found && data[j] == TableRow(items[j].0, found[items[j].0], width, wrap, wrapper))
  {
    var items, data := Items(found), TableData(found, width, wrap, wrapper);
    ItemsSpec(found);
    MapIndex(items, RowOf(width, wrap, wrapper));
    forall j | 0 <= j < |data|
      ensures data[j] == TableRow(items[j].0, items[j].1, width, wrap, wrapper)
    {
    }
  }

  const CsvHeader: seq<string> := ["VpcId", "AccountId", "Region", "CIDR", "CIDR6"]

  /** One CSV data row; csv.writer writes a None IPv6 block as an empty field. */
  function CsvRow(id: string, info: Vpc): seq<string> {
    [id, info.account, info.region, info.cidr, info.cidr6.GetOr("")]
  }

  function CsvRowOf(e: (string, Vpc)): seq<string> { CsvRow(e.0, e.1) }

  /** The data rows of the CSV file, in sorted VpcId order. */
  function CsvBody(found: map<string, Vpc>): seq<seq<string>> {
    Map(Items(found), CsvRowOf)
  }

  /** The CSV file: the five-column header, then the data rows. */
  function CsvRows(found: map<string, Vpc>): seq<seq<string>> {
    [CsvHeader] + CsvBody(found)
  }

  /** The data rows are one per stored VPC, in strictly increasing VpcId
      order, each the row of the VPC its first column names. */
  lemma CsvBodyOrder(found: map<string, Vpc>)
    ensures var body := CsvBody(found);
            && |body| == |found|
            && (forall n :: 0 <= n < |body| ==> |body[n]| == 5 && body[n][0] in found && body[n] == CsvRow(body[n][0], found[body[n][0]]))
            && (forall a, b :: 0 <= a < b < |body| ==> LexLess(body[a][0], body[b][0]))
  {
    var items, body := Items(found), CsvBody(found);
    ItemsSpec(found);
    MapIndex(items, CsvRowOf);
    forall n | 0 <= n < |body|
      ensures body[n] == CsvRow(items[n].0, items[n].1) && body[n][0] == items[n].0
    {
    }
  }

  /** Every stored VPC has its row in the file; with the strict order
      above, exactly once. */
  lemma CsvBodyComplete(found: map<string, Vpc>, k: string)
    requires k in found
    ensures CsvRow(k, found[k]) in CsvBody(found)
  {
    var items := Items(found);
    ItemsSpec(found);
    var j :| 0 <= j < |items| && items[j] == (k, found[k]);
    MapIndex(items, CsvRowOf);
    assert CsvBody(found)[j] == CsvRow(k, found[k]);
  }

  /** The output phase of `main`. */
  method Report(found: map<string, Vpc>, fmt: Format, dryRun: bool, width: nat,
                wrapper: (string, nat) -> string, writeOk: bool)
    returns (effects: seq<Effect>)
    ensures effects == Route(|found|, fmt, dryRun, ShowTable(TableHeaders, TableData(found, width, true, wrapper)),
                             CsvRows(found), writeOk)
  {
    if |found| == 0 {
      return [NoneFound];
    }
    effects := [];
    if dryRun {
      if fmt == Json {
        effects := [ShowJson];
      } else {
        var headers, data := FormatTableData(found, width, true, wrapper);
        return [ShowTable(headers, data)];
      }
    }
    if !writeOk {
      effects := effects + [WriteFailed];
    } else if fmt == Csv {
      effects := effects + [WriteCsv(CsvRows(found)), Wrote(|found|)];
    } else {
      effects := effects + [WriteJson, Wrote(|found|)];
    }
  }

  // ---------------------------------------------------------------------
  // The program

  datatype Exit =
    | Crashed                             // an uncaught exception (the EC2 client)
    | Finished(effects: seq<Effect>)

  /** `main`: collect, then report. */
  method Program(requested: seq<string>, cloud: Cloud, fmt: Format, dryRun: bool,
                 width: nat, wrapper: (string, nat) -> string, writeOk: bool)
    returns (exit: Exit)
    ensures var h := Harvested(cloud, ResolveProfiles(requested, cloud.available));
            if h.crashed then exit == Crashed
            else exit == Finished(Route(|Store(map[], h.items)|, fmt, dryRun,
                                        ShowTable(TableHeaders, TableData(Store(map[], h.items), width, true, wrapper)),
                                        CsvRows(Store(map[], h.items)), writeOk))
  {
    var profiles := ResolveProfiles(requested, cloud.available);
    var found, crashed := Collect(cloud, profiles);
    if crashed {
      return Crashed;
    }
    var effects := Report(found, fmt, dryRun, width, wrapper, writeOk);
    exit := Finished(effects);
  }
}
