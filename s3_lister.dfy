/** The S3 bucket lister: for every profile it lists the buckets, looks up
    each bucket's location, stores one record per bucket name, and then shows
    or writes the collection. */
module S3Lister {
  import opened Common
  import opened Text
  import opened Sorting
  import opened Grid
  import opened Output

  /** The remote side, as plain data: which profiles exist locally, and per
      profile whether a session opens, what the account lookup and
      `list_buckets` answer, and per (profile, bucket) what
      `get_bucket_location` answers (its `LocationConstraint`, if any). */
  datatype Cloud = Cloud(
    available: seq<string>,
    session: string -> Remote<()>,
    account: string -> Remote<string>,
    buckets: string -> Remote<seq<string>>,
    location: (string, string) -> Remote<Option<string>>)

  /** The stored record. */
  datatype Bucket = Bucket(account: string, region: string)

  const DefaultRegion: string := "us-east-1"

  /** The "region" field: "" when the location lookup raised, "us-east-1"
      when the constraint is missing or empty, otherwise the constraint. */
  function BucketRegion(loc: Remote<Option<string>>): string {
    match loc
    case Fail => ""
    case Ok(c) => if c.None? || c.value == "" then DefaultRegion else c.value
  }

  /** The region is empty exactly when the lookup failed, and a present,
      non-empty constraint is kept as it is. */
  lemma BucketRegionSpec(loc: Remote<Option<string>>)
    ensures BucketRegion(loc) == "" <==> loc.Fail?
    ensures loc.Ok? && loc.value.Some? && loc.value.value != "" ==> BucketRegion(loc) == loc.value.value
    ensures loc.Ok? && (loc.value.None? || loc.value.value == "") ==> BucketRegion(loc) == DefaultRegion
  {
  }

  // ---------------------------------------------------------------------
  // The collection

  /** One bucket as seen from one profile. */
  datatype Sighting = Sighting(name: string, account: string, region: string)

  function KeyOf(s: Sighting): string { s.name }

  function Record(s: Sighting): Bucket { Bucket(s.account, s.region) }

  /** `buckets_found` after storing the given sightings in order into m. */
  function Store(m: map<string, Bucket>, ss: seq<Sighting>): map<string, Bucket> {
    Assign(m, ss, KeyOf, Record)
  }

  function Sight(cloud: Cloud, profile: string, names: seq<string>, account: string): seq<Sighting> {
    seq(|names|, i requires 0 <= i < |names| =>
      Sighting(names[i], account, BucketRegion(cloud.location(profile, names[i]))))
  }

  /** What one profile contributes: nothing when its session, account lookup
      or `list_buckets` fails; otherwise every listed bucket, in order, even
      when its location lookup fails. */
  function ProfileSightings(cloud: Cloud, profile: string): seq<Sighting> {
    if cloud.session(profile).Fail? then []
    else match cloud.account(profile)
      case Fail => []
      case Ok(acct) =>
        match cloud.buckets(profile)
        case Fail => []
        case Ok(names) => Sight(cloud, profile, names, acct)
  }

  /** The sightings of all profiles, profile by profile. */
  function Listed(cloud: Cloud, profiles: seq<string>): seq<Sighting>
    decreases |profiles|
  {
    if profiles == [] then []
    else Listed(cloud, profiles[..|profiles| - 1]) + ProfileSightings(cloud, profiles[|profiles| - 1])
  }

  /** Whether a profile gets as far as listing its buckets, and lists `name`. */
  predicate Lists(cloud: Cloud, profile: string, name: string) {
    && cloud.session(profile).Ok? && cloud.account(profile).Ok? && cloud.buckets(profile).Ok?
    && name in cloud.buckets(profile).value
  }

  lemma StoreSnoc(m: map<string, Bucket>, ss: seq<Sighting>, s: Sighting)
    ensures Store(m, ss + [s]) == Store(m, ss)[KeyOf(s) := Record(s)]
  {
    assert (ss + [s])[..|ss|] == ss;
  }

  /** The bucket loop of one profile: the location lookup and its fallbacks,
      then the store. */
  method CollectProfile(found: map<string, Bucket>, cloud: Cloud, profile: string)
    returns (found': map<string, Bucket>)
    ensures found' == Store(found, ProfileSightings(cloud, profile))
  {
    found' := found;
    if cloud.session(profile).Fail? {
      return;
    }
    var acct: Remote<string> := cloud.account(profile);
    if acct.Fail? {
      return;
    }
    var response: Remote<seq<string>> := cloud.buckets(profile);
    if response.Fail? {
      return;
    }
    var account, names := acct.value, response.value;
    for k := 0 to |names|
      invariant found' == Store(found, Sight(cloud, profile, names[..k], account))
    {
      var loc: Remote<Option<string>> := cloud.location(profile, names[k]);
      var location: string;
      if loc.Fail? {
        location := "";
      } else {
        location := loc.value.GetOr("");
        if location == "" {
          location := DefaultRegion;
        }
      }
      var s := Sighting(names[k], account, BucketRegion(loc));
      assert Sight(cloud, profile, names[..k + 1], account) == Sight(cloud, profile, names[..k], account) + [s];
      StoreSnoc(found, Sight(cloud, profile, names[..k], account), s);
      found' := found'[names[k] := Bucket(account, location)];
    }
    assert names[..|names|] == names;
  }

  /** The profile loop of `main`. */
  method Collect(cloud: Cloud, profiles: seq<string>) returns (found: map<string, Bucket>)
    ensures found == Store(map[], Listed(cloud, profiles))
  {
    found := map[];
    assert profiles[..0] == [];
    for i := 0 to |profiles|
      invariant found == Store(map[], Listed(cloud, profiles[..i]))
    {
      found := CollectProfile(found, cloud, profiles[i]);
      assert profiles[..i + 1][..i] == profiles[..i];
      AssignAppend(map[], Listed(cloud, profiles[..i]), ProfileSightings(cloud, profiles[i]), KeyOf, Record);
    }
    assert profiles[..|profiles|] == profiles;
  }

  /** A sighting is in the listing exactly when some profile contributed it. */
  lemma {:induction false} ListedMembers(cloud: Cloud, profiles: seq<string>, s: Sighting)
    ensures s in Listed(cloud, profiles) <==> exists i :: 0 <= i < |profiles| && s in ProfileSightings(cloud, profiles[i])
    decreases |profiles|
  {
    if profiles != [] {
      var init := profiles[..|profiles| - 1];
      ListedMembers(cloud, init, s);
      assert forall i :: 0 <= i < |init| ==> init[i] == profiles[i];
    }
  }

  /** A profile contributes a sighting of a bucket exactly when it lists that
      bucket; the location lookup never drops one. */
  lemma ProfileSightingsSpec(cloud: Cloud, profile: string, name: string)
    ensures Lists(cloud, profile, name) <==> exists s :: s in ProfileSightings(cloud, profile) && s.name == name
  {
    if Lists(cloud, profile, name) {
      var names := cloud.buckets(profile).value;
      var k :| 0 <= k < |names| && names[k] == name;
      assert ProfileSightings(cloud, profile)[k].name == name;
    }
  }

  /** Failure isolation: a bucket is collected exactly when some profile got
      as far as listing it, whatever the other profiles' failures. */
  lemma CollectedBuckets(cloud: Cloud, profiles: seq<string>, name: string)
    ensures name in Store(map[], Listed(cloud, profiles)) <==> exists i :: 0 <= i < |profiles| && Lists(cloud, profiles[i], name)
  {
    var ss := Listed(cloud, profiles);
    AssignKeys(map[], ss, KeyOf, Record);
    if name in Store(map[], ss) {
      var n :| 0 <= n < |ss| && ss[n].name == name;
      ListedMembers(cloud, profiles, ss[n]);
      var i :| 0 <= i < |profiles| && ss[n] in ProfileSightings(cloud, profiles[i]);
      ProfileSightingsSpec(cloud, profiles[i], name);
    }
    if exists i :: 0 <= i < |profiles| && Lists(cloud, profiles[i], name) {
      var i :| 0 <= i < |profiles| && Lists(cloud, profiles[i], name);
      ProfileSightingsSpec(cloud, profiles[i], name);
      var s :| s in ProfileSightings(cloud, profiles[i]) && s.name == name;
      ListedMembers(cloud, profiles, s);
      var n :| 0 <= n < |ss| && ss[n] == s;
    }
  }

  // ---------------------------------------------------------------------
  // Rendering

  const TableHeaders: seq<string> := ["Bucket Name", "Account ID", "Region"]

  /** A table row: bucket name, account and region, with budgets of 50, 30
      and 20 percent of the width. */
  function TableRow(name: string, info: Bucket, width: nat, wrap: bool, wrapper: (string, nat) -> string): seq<string> {
    [Fit(name, Share(width, 50), wrap, wrapper),
     Fit(info.account, Share(width, 30), wrap, wrapper),
     Fit(info.region, Share(width, 20), wrap, wrapper)]
  }

  function RowOf(width: nat, wrap: bool, wrapper: (string, nat) -> string): ((string, Bucket)) -> seq<string> {
    (e: (string, Bucket)) => TableRow(e.0, e.1, width, wrap, wrapper)
  }

  /** The table body: one row per stored bucket, in name order. */
  function TableData(found: map<string, Bucket>, width: nat, wrap: bool,
                     wrapper: (string, nat) -> string): seq<seq<string>> {
    Map(Items(found), RowOf(width, wrap, wrapper))
  }

  /** The loop body of `format_table_data`. */
  method FormatRow(name: string, info: Bucket, maxBucket: nat, maxAccount: nat, maxRegion: nat,
                   wrap: bool, wrapper: (string, nat) -> string)
    returns (row: seq<string>)
    ensures row == [Fit(name, maxBucket, wrap, wrapper), Fit(info.account, maxAccount, wrap, wrapper),
                    Fit(info.region, maxRegion, wrap, wrapper)]
  {
    var bn, acct, region := name, info.account, info.region;
    if !wrap {
      if |bn| > maxBucket { bn := SliceTo(bn, maxBucket - 3) + Ellipsis; }
      if |acct| > maxAccount { acct := SliceTo(acct, maxAccount - 3) + Ellipsis; }
      if |region| > maxRegion { region := SliceTo(region, maxRegion - 3) + Ellipsis; }
    } else {
      bn := wrapper(bn, maxBucket);
      acct := wrapper(acct, maxAccount);
      region := wrapper(region, maxRegion);
    }
    row := [bn, acct, region];
  }

  /** `format_table_data`: the column budgets, then one row per bucket in
      sorted name order. */
  method FormatTableData(found: map<string, Bucket>, width: nat, wrap: bool, wrapper: (string, nat) -> string)
    returns (headers: seq<string>, data: seq<seq<string>>)
    ensures headers == TableHeaders
    ensures data == TableData(found, width, wrap, wrapper)
  {
    headers := TableHeaders;
    data := [];
    var maxBucket, maxAccount, maxRegion := Share(width, 50), Share(width, 30), Share(width, 20);
    var items := Items(found);
    for j := 0 to |items|
      invariant data == Map(items[..j], RowOf(width, wrap, wrapper))
    {
      var row := FormatRow(items[j].0, items[j].1, maxBucket, maxAccount, maxRegion, wrap, wrapper);
      MapSnoc(items, j, RowOf(width, wrap, wrapper));
      data := data + [row];
    }
    assert items[..|items|] == items;
  }

  /** The table has one row per stored bucket: row j shows the bucket with
      the j-th name in increasing order. */
  lemma TableOrder(found: map<string, Bucket>, width: nat, wrap: bool, wrapper: (string, nat) -> string)
    ensures var data := TableData(found, width, wrap, wrapper);
            var items := Items(found);
            && |data| == |found|
            && (forall j :: 0 <= j < |data| ==>
                  items[j].0 in found && data[j] == TableRow(items[j].0, found[items[j].0], width, wrap, wrapper))
  {
    var items, data := Items(found), TableData(found, width, wrap, wrapper);
    ItemsSpec(found);
    MapIndex(items, RowOf(width, wrap, wrapper));
    forall j | 0 <= j < |data|
      ensures data[j] == TableRow(items[j].0, items[j].1, width, wrap, wrapper)
    {
    }
  }

  const CsvHeader: seq<string> := ["BucketName", "AccountId", "Region"]

  function CsvRow(name: string, info: Bucket): seq<string> {
    [name, info.account, info.region]
  }

  function CsvRowOf(e: (string, Bucket)): seq<string> { CsvRow(e.0, e.1) }

  /** The data rows of the CSV file, in sorted bucket-name order. */
  function CsvBody(found: map<string, Bucket>): seq<seq<string>> {
    Map(Items(found), CsvRowOf)
  }

  /** The CSV file: the three-column header, then the data rows. */
  function CsvRows(found: map<string, Bucket>): seq<seq<string>> {
    [CsvHeader] + CsvBody(found)
  }

  /** The data rows are one per stored bucket, in strictly increasing name
      order, each the row of the bucket its first column names. */
  lemma CsvBodyOrder(found: map<string, Bucket>)
    ensures var body := CsvBody(found);
            && |body| == |found|
            && (forall n :: 0 <= n < |body| ==> |body[n]| == 3 && body[n][0] in found && body[n] == CsvRow(body[n][0], found[body[n][0]]))
            && (forall a, b :: 0 <= a < b < |body| ==> LexLess(body[a][0], body[b][0]))
  {
    var items, body := Items(found), CsvBody(found);
    ItemsSpec(found);
    MapIndex(items, CsvRowOf);
    forall n | 0 <= n < |body|
      ensures body[n] == CsvRow(items[n].0, items[n].1) && body[n][0] == items[n].0
    {
    }
  }

  /** Every stored bucket has its row in the file; with the strict order
      above, exactly once. */
  lemma CsvBodyComplete(found: map<string, Bucket>, k: string)
    requires k in found
    ensures CsvRow(k, found[k]) in CsvBody(found)
  {
    var items := Items(found);
    ItemsSpec(found);
    var j :| 0 <= j < |items| && items[j] == (k, found[k]);
    MapIndex(items, CsvRowOf);
    assert CsvBody(found)[j] == CsvRow(k, found[k]);
  }

  /** The output phase of `main`. */
  method Report(found: map<string, Bucket>, fmt: Format, dryRun: bool, width: nat,
                wrapper: (string, nat) -> string, writeOk: bool)
    returns (effects: seq<Effect>)
    ensures effects == Route(|found|, fmt, dryRun, ShowTable(TableHeaders, TableData(found, width, true, wrapper)),
                             CsvRows(found), writeOk)
  {
    if |found| == 0 {
      return [NoneFound];
    }
    effects := [];
    if dryRun {
      if fmt == Json {
        effects := [ShowJson];
      } else {
        var headers, data := FormatTableData(found, width, true, wrapper);
        return [ShowTable(headers, data)];
      }
    }
    if !writeOk {
      effects := effects + [WriteFailed];
    } else if fmt == Csv {
      effects := effects + [WriteCsv(CsvRows(found)), Wrote(|found|)];
    } else {
      effects := effects + [WriteJson, Wrote(|found|)];
    }
  }

  /** `main`: collect, then report; nothing in it escapes uncaught. */
  method Program(requested: seq<string>, cloud: Cloud, fmt: Format, dryRun: bool,
                 width: nat, wrapper: (string, nat) -> string, writeOk: bool)
    returns (effects: seq<Effect>)
    ensures var found := Store(map[], Listed(cloud, ResolveProfiles(requested, cloud.available)));
            effects == Route(|found|, fmt, dryRun, ShowTable(TableHeaders, TableData(found, width, true, wrapper)),
                             CsvRows(found), writeOk)
  {
    var profiles := ResolveProfiles(requested, cloud.available);
    var found := Collect(cloud, profiles);
    effects := Report(found, fmt, dryRun, width, wrapper, writeOk);
  }
}
