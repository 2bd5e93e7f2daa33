/** The EC2 instance lister: for every profile and every requested region it
    pages through `describe_instances`, normalises each instance into a
    record stored under "{InstanceId}_{account}_{region}", and then shows or
    writes the collection. */
module Ec2Lister {
  import opened Common
  import opened Text
  import opened Sorting
  import opened Regions
  import opened Grid
  import opened Output

  // ---------------------------------------------------------------------
  // Native records, as the listing returns them

  datatype Tag = Tag(key: string, value: string)

  /** One entry of an instance's `NetworkInterfaces`; the IPv6 addresses are
      kept as the opaque strings they are rendered to. */
  datatype NativeEni = NativeEni(id: string, privateIp: string, ipv6: seq<string>, vpcId: string, subnetId: string)

  datatype Placement = Placement(az: Option<string>)

  datatype NativeInstance = NativeInstance(
    id: string,
    instanceType: string,
    state: string,
    tags: Option<seq<Tag>>,
    enis: seq<NativeEni>,
    placement: Option<Placement>,
    privateIp: Option<string>,
    publicIp: Option<string>,
    vpcId: Option<string>,
    subnetId: Option<string>)

  type Reservation = seq<NativeInstance>
  type Page = seq<Reservation>

  /** The remote side, as plain data: which profiles exist locally, whether a
      session opens, and per (profile, region) whether the EC2 client can be
      made, what the account lookup answers and what the paginator yields. */
  datatype Cloud = Cloud(
    available: seq<string>,
    session: string -> Remote<()>,
    client: (string, string) -> Remote<()>,
    account: (string, string) -> Remote<string>,
    paginator: (string, string) -> Remote<Listing<Page>>)

  // ---------------------------------------------------------------------
  // Normalised records

  datatype EniInfo = EniInfo(privateIp: string, ipv6: seq<string>, vpcId: string, subnetId: string)

  datatype Instance = Instance(
    instanceId: string,
    name: string,
    account: string,
    instanceType: string,
    state: string,
    az: string,
    privateIpv4: string,
    publicIpv4: Option<string>,
    vpc: string,
    subnet: string,
    enis: map<string, EniInfo>)

  const NameKey: string := "Name"

  /** The Value of the first tag whose Key is exactly "Name", if any. */
  function FirstNameTag(tags: seq<Tag>): (r: Option<string>)
    ensures r.None? <==> forall i :: 0 <= i < |tags| ==> tags[i].key != NameKey
    ensures r.Some? ==> exists i :: 0 <= i < |tags| && tags[i].key == NameKey && tags[i].value == r.value
                                    && forall j :: 0 <= j < i ==> tags[j].key != NameKey
    decreases |tags|
  {
    if tags == [] then None
    else if tags[0].key == NameKey then Some(tags[0].value)
    else
      var r := FirstNameTag(tags[1..]);
      assert forall i :: 1 <= i < |tags| ==> tags[i] == tags[1..][i - 1];
      r
  }

  /** The display name: the first "Name" tag, or "N/A" when the instance has
      no `Tags` or none of them is "Name". */
  function InstanceName(tags: Option<seq<Tag>>): string {
    if tags.None? then NA else FirstNameTag(tags.value).GetOr(NA)
  }

  function Info(e: NativeEni): EniInfo {
    EniInfo(e.privateIp, e.ipv6, e.vpcId, e.subnetId)
  }

  function EniId(e: NativeEni): string { e.id }

  /** The `enis` dict: one entry per NetworkInterfaceId, a later interface with
      the same id overwriting an earlier one. */
  function EniMap(enis: seq<NativeEni>): map<string, EniInfo> {
    Assign(map[], enis, EniId, Info)
  }

  /** The record stored for one listed instance. */
  function Normalize(inst: NativeInstance, account: string): Instance {
    Instance(
      inst.id, InstanceName(inst.tags), account, inst.instanceType, inst.state,
      if inst.placement.Some? then inst.placement.value.az.GetOr(NA) else NA,
      inst.privateIp.GetOr(NA), inst.publicIp, inst.vpcId.GetOr(NA), inst.subnetId.GetOr(NA),
      EniMap(inst.enis))
  }

  /** The whole record: the id, type and state as listed, the account of the
      cell, the display name, and one ENI entry per interface id holding the
      last interface with that id; a missing AZ, private address, VPC or
      subnet becomes "N/A", a missing public address stays absent (Python
      None), and every present field is kept as listed. */
  lemma NormalizeDefaults(inst: NativeInstance, account: string)
    ensures var r := Normalize(inst, account);
      && r.instanceId == inst.id && r.account == account
      && r.name == InstanceName(inst.tags)
      && r.instanceType == inst.instanceType && r.state == inst.state
      && (forall id :: id in r.enis <==> exists i :: 0 <= i < |inst.enis| && inst.enis[i].id == id)
      && (forall i :: 0 <= i < |inst.enis| &&
            (forall j :: i < j < |inst.enis| ==> inst.enis[j].id != inst.enis[i].id)
            ==> r.enis[inst.enis[i].id] == Info(inst.enis[i]))
      && (inst.placement.None? || inst.placement.value.az.None? ==> r.az == NA)
      && (inst.placement.Some? && inst.placement.value.az.Some? ==> r.az == inst.placement.value.az.value)
      && (inst.privateIp.None? ==> r.privateIpv4 == NA)
      && (inst.privateIp.Some? ==> r.privateIpv4 == inst.privateIp.value)
      && r.publicIpv4 == inst.publicIp
      && (inst.vpcId.None? ==> r.vpc == NA)
      && (inst.vpcId.Some? ==> r.vpc == inst.vpcId.value)
      && (inst.subnetId.None? ==> r.subnet == NA)
      && (inst.subnetId.Some? ==> r.subnet == inst.subnetId.value)
  {
    var enis := inst.enis;
    AssignKeys(map[], enis, EniId, Info);
    forall i | 0 <= i < |enis| && (forall j :: i < j < |enis| ==> enis[j].id != enis[i].id)
      ensures EniMap(enis)[enis[i].id] == Info(enis[i])
    {
      AssignLastWins(map[], enis, EniId, Info, i);
    }
  }

  /** The key `f"{inst['InstanceId']}_{acct_num}_{region}"`. */
  function InstanceKey(id: string, account: string, region: string): string {
    id + "_" + account + "_" + region
  }

  /** The key tells its parts apart as long as the instance id and the account
      hold no underscore, as AWS instance ids and account numbers never do. */
  lemma InstanceKeyInjective(id1: string, acct1: string, region1: string,
                             id2: string, acct2: string, region2: string)
    requires '_' !in id1 && '_' !in acct1 && '_' !in id2 && '_' !in acct2
    requires InstanceKey(id1, acct1, region1) == InstanceKey(id2, acct2, region2)
    ensures id1 == id2 && acct1 == acct2 && region1 == region2
  {
    assert InstanceKey(id1, acct1, region1) == id1 + "_" + (acct1 + "_" + region1);
    assert InstanceKey(id2, acct2, region2) == id2 + "_" + (acct2 + "_" + region2);
    UnderscoreSplit(id1, acct1 + "_" + region1, id2, acct2 + "_" + region2);
    UnderscoreSplit(acct1, region1, acct2, region2);
  }

  /** Helper: the first '_' splits a string in a unique way. */
  lemma UnderscoreSplit(a1: string, b1: string, a2: string, b2: string)
    requires '_' !in a1 && '_' !in a2
    requires a1 + "_" + b1 == a2 + "_" + b2
    ensures a1 == a2 && b1 == b2
  {
    var s := a1 + "_" + b1;
    FirstUnderscore(a1, b1);
    FirstUnderscore(a2, b2);
    assert |a1| == |a2|;
    assert a1 == s[..|a1|] && a2 == s[..|a2|];
    assert b1 == s[|a1| + 1..] && b2 == s[|a2| + 1..];
  }

  /** Helper: in a + "_" + b the first '_' sits right after a. */
  lemma FirstUnderscore(a: string, b: string)
    requires '_' !in a
    ensures (a + "_" + b)[|a|] == '_'
    ensures forall i :: 0 <= i < |a| ==> (a + "_" + b)[i] != '_'
  {
    assert forall i :: 0 <= i < |a| ==> (a + "_" + b)[i] == a[i];
  }

  /** Without that assumption two different instances can share a key. */
  lemma InstanceKeyCanCollide()
    ensures InstanceKey("i_1", "2", "r") == InstanceKey("i", "1_2", "r")
  {
  }

  // ---------------------------------------------------------------------
  // The collection

  /** One instance as seen from one cell. */
  datatype Sighting = Sighting(inst: NativeInstance, account: string, region: string)

  function KeyOf(s: Sighting): string { InstanceKey(s.inst.id, s.account, s.region) }

  /** The record `main` stores for a sighting. */
  function Record(s: Sighting): Instance { Normalize(s.inst, s.account) }

  /** `instances_found` after storing the given sightings in order into m. */
  function Store(m: map<string, Instance>, ss: seq<Sighting>): map<string, Instance> {
    Assign(m, ss, KeyOf, Record)
  }

  function Sight(r: Reservation, account: string, region: string): seq<Sighting> {
    seq(|r|, i requires 0 <= i < |r| => Sighting(r[i], account, region))
  }

  /** The sightings of one page: its reservations' instances in order. */
  function PageSightings(page: Page, account: string, region: string): seq<Sighting>
    decreases |page|
  {
    if page == [] then []
    else PageSightings(page[..|page| - 1], account, region) + Sight(page[|page| - 1], account, region)
  }

  /** The sightings of a listing's pages, in order. */
  function ListingSightings(pages: seq<Page>, account: string, region: string): seq<Sighting>
    decreases |pages|
  {
    if pages == [] then []
    else ListingSightings(pages[..|pages| - 1], account, region) + PageSightings(pages[|pages| - 1], account, region)
  }

  /** One (profile, region) cell. A client, account or paginator failure is
      logged and the cell yields nothing; otherwise it yields every listed
      instance, and an exception while paging is not caught. */
  function Cell(cloud: Cloud, profile: string, region: string): Harvest<Sighting> {
    if cloud.client(profile, region).Fail? then Empty()
    else match cloud.account(profile, region)
      case Fail => Empty()
      case Ok(acct) =>
        match cloud.paginator(profile, region)
        case Fail => Empty()
        case Ok(listing) => Harvest(ListingSightings(listing.pages, acct, region), listing.raises)
  }

  function Cells(cloud: Cloud): (string, string) -> Harvest<Sighting> {
    (p, r) => Cell(cloud, p, r)
  }

  lemma CellsApply(cloud: Cloud, profile: string, region: string)
    ensures Cells(cloud)(profile, region) == Cell(cloud, profile, region)
  {
  }

  function Opens(cloud: Cloud): string -> bool {
    p => cloud.session(p).Ok?
  }

  /** The sweep over all cells. */
  function Harvested(cloud: Cloud, profiles: seq<string>, regions: seq<string>): Harvest<Sighting> {
    Sweep(Opens(cloud), Cells(cloud), profiles, regions)
  }

  /** Builds the record for one instance: the tag scan with its `break`, the
      ENI loop, and the field defaults. */
  method NormalizeInstance(inst: NativeInstance, account: string) returns (rec: Instance)
    ensures rec == Normalize(inst, account)
  {
    var name := NA;
    if inst.tags.Some? {
      var tags := inst.tags.value;
      var i := 0;
      while i < |tags|
        invariant 0 <= i <= |tags|
        invariant FirstNameTag(tags[i..]) == FirstNameTag(tags)
      {
        if tags[i].key == NameKey {
          name := tags[i].value;
          break;
        }
        assert tags[i..][1..] == tags[i + 1..];
        i := i + 1;
      }
    }
    var enis: map<string, EniInfo> := map[];
    for i := 0 to |inst.enis|
      invariant enis == EniMap(inst.enis[..i])
    {
      var e := inst.enis[i];
      assert inst.enis[..i + 1][..i] == inst.enis[..i];
      enis := enis[e.id := EniInfo(e.privateIp, e.ipv6, e.vpcId, e.subnetId)];
    }
    assert inst.enis[..|inst.enis|] == inst.enis;
    var az := if inst.placement.Some? then inst.placement.value.az.GetOr(NA) else NA;
    rec := Instance(inst.id, name, account, inst.instanceType, inst.state, az,
                    inst.privateIp.GetOr(NA), inst.publicIp, inst.vpcId.GetOr(NA), inst.subnetId.GetOr(NA), enis);
  }

  /** Storing one more sighting is one more dict assignment. */
  lemma StoreSnoc(m: map<string, Instance>, ss: seq<Sighting>, s: Sighting)
    ensures Store(m, ss + [s]) == Store(m, ss)[KeyOf(s) := Record(s)]
  {
    assert (ss + [s])[..|ss|] == ss;
  }

  lemma SightSnoc(r: Reservation, k: nat, account: string, region: string)
    requires k < |r|
    ensures Sight(r[..k + 1], account, region) == Sight(r[..k], account, region) + [Sighting(r[k], account, region)]
  {
  }

  lemma PageSnoc(page: Page, j: nat, account: string, region: string)
    requires j < |page|
    ensures PageSightings(page[..j + 1], account, region)
            == PageSightings(page[..j], account, region) + Sight(page[j], account, region)
  {
    assert page[..j + 1][..j] == page[..j];
  }

  lemma ListingSnoc(pages: seq<Page>, i: nat, account: string, region: string)
    requires i < |pages|
    ensures ListingSightings(pages[..i + 1], account, region)
            == ListingSightings(pages[..i], account, region) + PageSightings(pages[i], account, region)
  {
    assert pages[..i + 1][..i] == pages[..i];
  }

  /** The innermost loop: every instance of one reservation, in order. */
  method StoreReservation(found: map<string, Instance>, reservation: Reservation, account: string, region: string)
    returns (found': map<string, Instance>)
    ensures found' == Store(found, Sight(reservation, account, region))
  {
    found' := found;
    assert Sight(reservation[..0], account, region) == [];
    for k := 0 to |reservation|
      invariant found' == Store(found, Sight(reservation[..k], account, region))
    {
      var rec := NormalizeInstance(reservation[k], account);
      SightSnoc(reservation, k, account, region);
      StoreSnoc(found, Sight(reservation[..k], account, region), Sighting(reservation[k], account, region));
      found' := found'[InstanceKey(reservation[k].id, account, region) := rec];
    }
    assert reservation[..|reservation|] == reservation;
  }

  /** The middle loop: every reservation of one page, in order. */
  method StorePage(found: map<string, Instance>, page: Page, account: string, region: string)
    returns (found': map<string, Instance>)
    ensures found' == Store(found, PageSightings(page, account, region))
  {
    found' := found;
    assert page[..0] == [];
    for j := 0 to |page|
      invariant found' == Store(found, PageSightings(page[..j], account, region))
    {
      found' := StoreReservation(found', page[j], account, region);
      PageSnoc(page, j, account, region);
      AssignAppend(found, PageSightings(page[..j], account, region), Sight(page[j], account, region), KeyOf, Record);
    }
    assert page[..|page|] == page;
  }

  /** Pages through one cell's listing, storing every instance as it comes. */
  method CollectCell(found: map<string, Instance>, cloud: Cloud, profile: string, region: string)
    returns (found': map<string, Instance>, crashed: bool)
    ensures found' == Store(found, Cell(cloud, profile, region).items)
    ensures crashed == Cell(cloud, profile, region).crashed
  {
    found', crashed := found, false;
    if cloud.client(profile, region).Fail? {
      return;
    }
    var acct: Remote<string> := cloud.account(profile, region);
    if acct.Fail? {
      return;
    }
    var paginator: Remote<Listing<Page>> := cloud.paginator(profile, region);
    if paginator.Fail? {
      return;
    }
    var account, pages: seq<Page> := acct.value, paginator.value.pages;
    assert pages[..0] == [];
    for i := 0 to |pages|
      invariant found' == Store(found, ListingSightings(pages[..i], account, region))
    {
      found' := StorePage(found', pages[i], account, region);
      ListingSnoc(pages, i, account, region);
      AssignAppend(found, ListingSightings(pages[..i], account, region), PageSightings(pages[i], account, region), KeyOf, Record);
    }
    assert pages[..|pages|] == pages;
    crashed := paginator.value.raises;
  }

  /** The region loop for one profile whose session opened; a crash in a
      cell leaves the loop. */
  method CollectRow(found: map<string, Instance>, cloud: Cloud, profile: string, regions: seq<string>)
    returns (found': map<string, Instance>, crashed: bool)
    ensures found' == Store(found, Row(Cells(cloud), profile, regions).items)
    ensures crashed == Row(Cells(cloud), profile, regions).crashed
  {
    found', crashed := found, false;
    assert regions[..0] == [];
    var j := 0;
    while j < |regions| && !crashed
      invariant 0 <= j <= |regions|
      invariant found' == Store(found, Row(Cells(cloud), profile, regions[..j]).items)
      invariant crashed == Row(Cells(cloud), profile, regions[..j]).crashed
    {
      found', crashed := CollectRegion(found, found', cloud, profile, regions, j);
      j := j + 1;
    }
    RowDone(Cells(cloud), profile, regions, j);
  }

  /** One more region of a row that has not crashed yet. */
  method CollectRegion(found: map<string, Instance>, sofar: map<string, Instance>, cloud: Cloud, profile: string,
                       regions: seq<string>, j: nat)
    returns (found': map<string, Instance>, crashed: bool)
    requires j < |regions| && !Row(Cells(cloud), profile, regions[..j]).crashed
    requires sofar == Store(found, Row(Cells(cloud), profile, regions[..j]).items)
    ensures found' == Store(found, Row(Cells(cloud), profile, regions[..j + 1]).items)
    ensures crashed == Row(Cells(cloud), profile, regions[..j + 1]).crashed
  {
    RowAssignStep(Cells(cloud), profile, regions, j, found, KeyOf, Record);
    CellsApply(cloud, profile, regions[j]);
    found', crashed := CollectCell(sofar, cloud, profile, regions[j]);
  }

  /** The collection loop of `main`: profiles outer, regions inner; a session
      failure skips the profile, a crash in a cell ends the sweep. */
  method Collect(cloud: Cloud, profiles: seq<string>, regions: seq<string>)
    returns (found: map<string, Instance>, crashed: bool)
    ensures found == Store(map[], Harvested(cloud, profiles, regions).items)
    ensures crashed == Harvested(cloud, profiles, regions).crashed
  {
    found, crashed := map[], false;
    assert profiles[..0] == [];
    var i := 0;
    while i < |profiles| && !crashed
      invariant 0 <= i <= |profiles|
      invariant found == Store(map[], Harvested(cloud, profiles[..i], regions).items)
      invariant crashed == Harvested(cloud, profiles[..i], regions).crashed
    {
      SweepAssignStep(Opens(cloud), Cells(cloud), profiles, regions, i, map[], KeyOf, Record);
      if cloud.session(profiles[i]).Ok? {
        found, crashed := CollectRow(found, cloud, profiles[i], regions);
      }
      i := i + 1;
    }
    SweepDone(Opens(cloud), Cells(cloud), profiles, regions, i);
  }

  /** Failure isolation, end to end, one direction: when the sweep does not
      crash, every stored key was listed by some cell of an opened profile. */
  lemma CollectedKeysListed(cloud: Cloud, profiles: seq<string>, regions: seq<string>, k: string)
    requires !Harvested(cloud, profiles, regions).crashed
    requires k in Store(map[], Harvested(cloud, profiles, regions).items)
    ensures exists i, j, s :: 0 <= i < |profiles| && 0 <= j < |regions| && cloud.session(profiles[i]).Ok?
                              && s in Cell(cloud, profiles[i], regions[j]).items && KeyOf(s) == k
  {
    var h := Harvested(cloud, profiles, regions);
    AssignKeys(map[], h.items, KeyOf, Record);
    var n :| 0 <= n < |h.items| && KeyOf(h.items[n]) == k;
    var s := h.items[n];
    SweepMembers(Opens(cloud), Cells(cloud), profiles, regions, s);
    var i, j :| 0 <= i < |profiles| && 0 <= j < |regions| && Opens(cloud)(profiles[i])
                && s in Cells(cloud)(profiles[i], regions[j]).items;
    CellsApply(cloud, profiles[i], regions[j]);
  }

  /** The other direction: when the sweep does not crash, an instance listed
      by any cell of an opened profile is stored under its key, whatever
      other cells failed. */
  lemma CollectedKeysComplete(cloud: Cloud, profiles: seq<string>, regions: seq<string>, i: nat, j: nat, s: Sighting)
    requires !Harvested(cloud, profiles, regions).crashed
    requires i < |profiles| && j < |regions| && cloud.session(profiles[i]).Ok?
    requires s in Cell(cloud, profiles[i], regions[j]).items
    ensures KeyOf(s) in Store(map[], Harvested(cloud, profiles, regions).items)
  {
    var h := Harvested(cloud, profiles, regions);
    CellsApply(cloud, profiles[i], regions[j]);
    SweepMembers(Opens(cloud), Cells(cloud), profiles, regions, s);
    var n :| 0 <= n < |h.items| && h.items[n] == s;
    AssignKeys(map[], h.items, KeyOf, Record);
  }

  // ---------------------------------------------------------------------
  // Rendering

  const TableHeaders: seq<string> := ["Name", "Instance ID", "Account", "AZ"]

  /** A table row: name, id, account and AZ, with budgets of 50, 50, 30 and 20
      percent of the width. */
  function TableRow(info: Instance, width: nat, wrap: bool, wrapper: (string, nat) -> string): seq<string> {
    [Fit(info.name, Share(width, 50), wrap, wrapper),
     Fit(info.instanceId, Share(width, 50), wrap, wrapper),
     Fit(info.account, Share(width, 30), wrap, wrapper),
     Fit(info.az, Share(width, 20), wrap, wrapper)]
  }

  function RowOf(width: nat, wrap: bool, wrapper: (string, nat) -> string): ((string, Instance)) -> seq<string> {
    (e: (string, Instance)) => TableRow(e.1, width, wrap, wrapper)
  }

  /** The table body: one row per stored instance, in sorted key order
      (`sorted(instances_found.items())`). */
  function TableData(found: map<string, Instance>, width: nat, wrap: bool,
                     wrapper: (string, nat) -> string): seq<seq<string>> {
    Map(Items(found), RowOf(width, wrap, wrapper))
  }

  /** The loop body of `format_table_data`: the four fields of one record,
      each truncated to or wrapped at its column budget. */
  method FormatRow(info: Instance, maxName: nat, maxIdent: nat, maxAccount: nat, maxRegion: nat,
                   wrap: bool, wrapper: (string, nat) -> string)
    returns (row: seq<string>)
    ensures row == [Fit(info.name, maxName, wrap, wrapper), Fit(info.instanceId, maxIdent, wrap, wrapper),
                    Fit(info.account, maxAccount, wrap, wrapper), Fit(info.az, maxRegion, wrap, wrapper)]
  {
    var name, ident, acct, az := info.name, info.instanceId, info.account, info.az;
    if !wrap {
      if |name| > maxName { name := SliceTo(name, maxName - 3) + Ellipsis; }
      if |ident| > maxIdent { ident := SliceTo(ident, maxIdent - 3) + Ellipsis; }
      if |acct| > maxAccount { acct := SliceTo(acct, maxAccount - 3) + Ellipsis; }
      if |az| > maxRegion { az := SliceTo(az, maxRegion - 3) + Ellipsis; }
    } else {
      name := wrapper(name, maxName);
      ident := wrapper(ident, maxIdent);
      acct := wrapper(acct, maxAccount);
      az := wrapper(az, maxRegion);
    }
    row := [name, ident, acct, az];
  }

  /** `format_table_data`: the column budgets, then one row per record in
      sorted key order. */
  method FormatTableData(found: map<string, Instance>, width: nat, wrap: bool, wrapper: (string, nat) -> string)
    returns (headers: seq<string>, data: seq<seq<string>>)
    ensures headers == TableHeaders
    ensures data == TableData(found, width, wrap, wrapper)
  {
    headers := TableHeaders;
    data := [];
    var maxName, maxIdent, maxAccount, maxRegion := Share(width, 50), Share(width, 50), Share(width, 30), Share(width, 20);
    var items := Items(found);
    for j := 0 to |items|
      invariant data == Map(items[..j], RowOf(width, wrap, wrapper))
    {
      var row := FormatRow(items[j].1, maxName, maxIdent, maxAccount, maxRegion, wrap, wrapper);
      MapSnoc(items, j, RowOf(width, wrap, wrapper));
      data := data + [row];
    }
    assert items[..|items|] == items;
  }

  /** The table has one row per stored instance: row j shows the instance
      under the j-th key in increasing key order. */
  lemma TableOrder(found: map<string, Instance>, width: nat, wrap: bool, wrapper: (string, nat) -> string)
    ensures var data := TableData(found, width, wrap, wrapper);
            var items := Items(found);
            && |data| == |found|
            && (forall j :: 0 <= j < |data| ==>
                  items[j].0 in found && data[j] == TableRow(found[items[j].0], width, wrap, wrapper))
  {
    var items, data := Items(found), TableData(found, width, wrap, wrapper);
    ItemsSpec(found);
    MapIndex(items, RowOf(width, wrap, wrapper));
    forall j | 0 <= j < |data|
      ensures data[j] == TableRow(items[j].1, width, wrap, wrapper)
    {
    }
  }

  /** Truncate mode: a field within its column budget is shown unchanged, and
      a longer one is cut to exactly its budget whenever the budget is at
      least 3. */
  lemma TruncatedRow(info: Instance, width: nat, wrapper: (string, nat) -> string)
    ensures var row := TableRow(info, width, false, wrapper);
            && |row| == 4
            && (|info.name| <= Share(width, 50) ==> row[0] == info.name)
            && (|info.name| > Share(width, 50) >= 3 ==> |row[0]| == Share(width, 50))
            && (|info.instanceId| <= Share(width, 50) ==> row[1] == info.instanceId)
            && (|info.instanceId| > Share(width, 50) >= 3 ==> |row[1]| == Share(width, 50))
            && (|info.account| <= Share(width, 30) ==> row[2] == info.account)
            && (|info.account| > Share(width, 30) >= 3 ==> |row[2]| == Share(width, 30))
            && (|info.az| <= Share(width, 20) ==> row[3] == info.az)
            && (|info.az| > Share(width, 20) >= 3 ==> |row[3]| == Share(width, 20))
  {
  }

  function Value(e: (string, Instance)): Instance { e.1 }

  /** The stored records, in sorted key order. */
  function Records(found: map<string, Instance>): (r: seq<Instance>)
    ensures |r| == |found|
  {
    Map(Items(found), Value)
  }

  /** Every stored record is listed, and nothing else. */
  lemma RecordsSpec(found: map<string, Instance>)
    ensures forall k :: k in found ==> found[k] in Records(found)
    ensures forall x :: x in Records(found) ==> x in found.Values
  {
    var items := Items(found);
    ItemsSpec(found);
    MapIndex(items, Value);
    forall k | k in found
      ensures found[k] in Records(found)
    {
      var j :| 0 <= j < |items| && items[j] == (k, found[k]);
      assert Records(found)[j] == found[k];
    }
  }

  const CsvHeader: seq<string> :=
    ["InstanceID", "Name", "Account", "Type", "State", "AZ", "PrivateIP", "PublicIP", "VPC", "Subnet", "ENIs"]

  /** The CSV sort key (account, az, instance_id). */
  function SortKey(info: Instance): seq<string> { [info.account, info.az, info.instanceId] }

  /** One CSV data row; csv.writer writes an absent public address as an empty
      field, and `encodeEnis` stands for the compact `json.dumps` of the ENIs. */
  function CsvRow(info: Instance, encodeEnis: map<string, EniInfo> -> string): seq<string> {
    [info.instanceId, info.name, info.account, info.instanceType, info.state, info.az,
     info.privateIpv4, info.publicIpv4.GetOr(""), info.vpc, info.subnet, encodeEnis(info.enis)]
  }

  function CsvRowOf(encodeEnis: map<string, EniInfo> -> string): Instance -> seq<string> {
    info => CsvRow(info, encodeEnis)
  }

  /** The records in CSV order. */
  function CsvOrder(found: map<string, Instance>): seq<Instance> {
    SortByKey(Records(found), SortKey)
  }

  /** The data rows of the CSV file: one per record, sorted by (account, az,
      instance_id). */
  function CsvBody(found: map<string, Instance>, encodeEnis: map<string, EniInfo> -> string): seq<seq<string>> {
    Map(CsvOrder(found), CsvRowOf(encodeEnis))
  }

  /** The CSV file: the 11-column header, then the data rows. */
  function CsvRows(found: map<string, Instance>, encodeEnis: map<string, EniInfo> -> string): seq<seq<string>> {
    [CsvHeader] + CsvBody(found, encodeEnis)
  }

  /** The (account, AZ, instance id) columns of a CSV data row. */
  function ColumnsKey(row: seq<string>): seq<string> {
    if |row| == 11 then [row[2], row[5], row[0]] else row
  }

  /** The file holds the header and one 11-column row per stored instance. */
  lemma CsvRowsLayout(found: map<string, Instance>, encodeEnis: map<string, EniInfo> -> string)
    ensures var rows := CsvRows(found, encodeEnis);
            && |rows| == |found| + 1 && rows[0] == CsvHeader
            && forall n :: 1 <= n < |rows| ==> |rows[n]| == 11
  {
    var sorted := CsvOrder(found);
    assert |sorted| == |found| by {
      assert |multiset(sorted)| == |multiset(Records(found))|;
    }
    MapIndex(sorted, CsvRowOf(encodeEnis));
  }

  /** The data rows are ordered by their account, AZ and instance id columns. */
  lemma CsvRowsSorted(found: map<string, Instance>, encodeEnis: map<string, EniInfo> -> string)
    ensures var body := CsvBody(found, encodeEnis);
            forall a, b :: 0 <= a < b < |body| ==> !TupleLess(ColumnsKey(body[b]), ColumnsKey(body[a]))
  {
    var sorted := CsvOrder(found);
    var body := CsvBody(found, encodeEnis);
    MapIndex(sorted, CsvRowOf(encodeEnis));
    forall a, b | 0 <= a < b < |body|
      ensures !TupleLess(ColumnsKey(body[b]), ColumnsKey(body[a]))
    {
      SortKeyColumns(sorted[a], encodeEnis);
      SortKeyColumns(sorted[b], encodeEnis);
    }
  }

  lemma SortKeyColumns(info: Instance, encodeEnis: map<string, EniInfo> -> string)
    ensures ColumnsKey(CsvRow(info, encodeEnis)) == SortKey(info)
  {
  }

  /** Every stored instance has its row in the file, and the data rows are
      the stored instances' rows, each once. */
  lemma CsvRowsContent(found: map<string, Instance>, encodeEnis: map<string, EniInfo> -> string)
    ensures var body := CsvBody(found, encodeEnis);
            && multiset(body) == multiset(Map(Records(found), CsvRowOf(encodeEnis)))
            && forall k :: k in found ==> CsvRow(found[k], encodeEnis) in body
  {
    var body := CsvBody(found, encodeEnis);
    var recs := Records(found);
    RecordsSpec(found);
    MapPermutes(CsvOrder(found), recs, CsvRowOf(encodeEnis));
    MapIndex(recs, CsvRowOf(encodeEnis));
    forall k | k in found
      ensures CsvRow(found[k], encodeEnis) in body
    {
      var j :| 0 <= j < |recs| && recs[j] == found[k];
      assert CsvRow(found[k], encodeEnis) in multiset(Map(recs, CsvRowOf(encodeEnis)));
    }
  }

  /** The output phase of `main`. */
  method Report(found: map<string, Instance>, fmt: Format, dryRun: bool, width: nat,
                wrapper: (string, nat) -> string, encodeEnis: map<string, EniInfo> -> string, writeOk: bool)
    returns (effects: seq<Effect>)
    ensures effects == Route(|found|, fmt, dryRun, ShowTable(TableHeaders, TableData(found, width, true, wrapper)),
                             CsvRows(found, encodeEnis), writeOk)
  {
    if |found| == 0 {
      return [NoneFound];
    }
    effects := [];
    if dryRun {
      if fmt == Json {
        effects := [ShowJson];
      } else {
        var headers, data := FormatTableData(found, width, true, wrapper);
        return [ShowTable(headers, data)];
      }
    }
    if !writeOk {
      effects := effects + [WriteFailed];
    } else if fmt == Csv {
      effects := effects + [WriteCsv(CsvRows(found, encodeEnis)), Wrote(|found|)];
    } else {
      effects := effects + [WriteJson, Wrote(|found|)];
    }
  }

  // ---------------------------------------------------------------------
  // The program

  datatype Exit =
    | BadRegions(invalid: seq<string>)    // logged, exit status 1, nothing else runs
    | Crashed                             // an uncaught exception while paging
    | Finished(effects: seq<Effect>)

  /** The script: region check, then `main`. */
  method Program(requested: seq<string>, regions: seq<string>, cloud: Cloud, fmt: Format, dryRun: bool,
                 width: nat, wrapper: (string, nat) -> string, encodeEnis: map<string, EniInfo> -> string,
                 writeOk: bool)
    returns (exit: Exit)
    ensures InvalidRegions(regions) != [] <==> exit == BadRegions(InvalidRegions(regions))
    ensures InvalidRegions(regions) == [] ==>
              var h := Harvested(cloud, ResolveProfiles(requested, cloud.available), regions);
              if h.crashed then exit == Crashed
              else exit == Finished(Route(|Store(map[], h.items)|, fmt, dryRun,
                                          ShowTable(TableHeaders, TableData(Store(map[], h.items), width, true, wrapper)),
                                          CsvRows(Store(map[], h.items), encodeEnis), writeOk))
  {
    var invalid := InvalidRegions(regions);
    if invalid != [] {
      return BadRegions(invalid);
    }
    var profiles := ResolveProfiles(requested, cloud.available);
    var found, crashed := Collect(cloud, profiles, regions);
    if crashed {
      return Crashed;
    }
    var effects := Report(found, fmt, dryRun, width, wrapper, encodeEnis, writeOk);
    exit := Finished(effects);
  }
}
