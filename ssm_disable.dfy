/** The SSM public-sharing switch: after checking the requested regions, it
    sets the service setting that controls public sharing of SSM documents
    to "Disable" in every region of every profile. */
module SsmDisable {
  import opened Common
  import opened Regions
  import opened Grid

  /** The setting the script changes, and the value it writes. */
  const SettingId: string := "/ssm/documents/console/public-sharing-permission"
  const SettingValue: string := "Disable"

  /** The remote side, as plain data: which profiles exist locally, whether a
      session opens, and per (profile, region) whether the SSM client can be
      made and whether `update_service_setting` succeeds. */
  datatype Cloud = Cloud(
    available: seq<string>,
    session: string -> Remote<()>,
    client: (string, string) -> Remote<()>,
    updateOk: (string, string) -> bool)

  /** What one (profile, region) cell did. */
  datatype Outcome =
    | ClientFailed(profile: string, region: string)            // "Cannot set session in ..."
    | Issued(profile: string, region: string, settingId: string, value: string, applied: bool)

  /** One cell: no call without a client; otherwise one `update_service_setting`
      call with the fixed setting and value, whose failure is logged. Nothing
      escapes a cell. */
  function Cell(cloud: Cloud, profile: string, region: string): Harvest<Outcome> {
    if cloud.client(profile, region).Fail? then Harvest([ClientFailed(profile, region)], false)
    else Harvest([Issued(profile, region, SettingId, SettingValue, cloud.updateOk(profile, region))], false)
  }

  function Cells(cloud: Cloud): (string, string) -> Harvest<Outcome> {
    (p, r) => Cell(cloud, p, r)
  }

  lemma CellsApply(cloud: Cloud, profile: string, region: string)
    ensures Cells(cloud)(profile, region) == Cell(cloud, profile, region)
  {
  }

  function Opens(cloud: Cloud): string -> bool {
    p => cloud.session(p).Ok?
  }

  /** Every cell's outcome, profiles outer and regions inner. */
  function Harvested(cloud: Cloud, profiles: seq<string>, regions: seq<string>): Harvest<Outcome> {
    Sweep(Opens(cloud), Cells(cloud), profiles, regions)
  }

  /** The region loop for one profile whose session opened. */
  method UpdateRegions(outcomes: seq<Outcome>, cloud: Cloud, profile: string, regions: seq<string>)
    returns (outcomes': seq<Outcome>)
    ensures !Row(Cells(cloud), profile, regions).crashed
    ensures outcomes' == outcomes + Row(Cells(cloud), profile, regions).items
  {
    outcomes' := outcomes;
    assert regions[..0] == [];
    for j := 0 to |regions|
      invariant !Row(Cells(cloud), profile, regions[..j]).crashed
      invariant outcomes' == outcomes + Row(Cells(cloud), profile, regions[..j]).items
    {
      var region := regions[j];
      RowStep(Cells(cloud), profile, regions, j);
      CellsApply(cloud, profile, region);
      var ssmClient: Remote<()> := cloud.client(profile, region);
      if ssmClient.Fail? {
        outcomes' := outcomes' + [ClientFailed(profile, region)];
        continue;
      }
      var applied := cloud.updateOk(profile, region);
      outcomes' := outcomes' + [Issued(profile, region, SettingId, SettingValue, applied)];
    }
    assert regions[..|regions|] == regions;
  }

  /** `main`: the profile loop; a session failure skips the profile. No
      failure ends the run early. */
  method DisableAll(cloud: Cloud, profiles: seq<string>, regions: seq<string>) returns (outcomes: seq<Outcome>)
    ensures !Harvested(cloud, profiles, regions).crashed
    ensures outcomes == Harvested(cloud, profiles, regions).items
  {
    outcomes := [];
    assert profiles[..0] == [];
    for i := 0 to |profiles|
      invariant !Harvested(cloud, profiles[..i], regions).crashed
      invariant outcomes == Harvested(cloud, profiles[..i], regions).items
    {
      SweepStep(Opens(cloud), Cells(cloud), profiles, regions, i);
      var session: Remote<()> := cloud.session(profiles[i]);
      if session.Fail? {
        assert Harvested(cloud, profiles[..i], regions).items + [] == Harvested(cloud, profiles[..i], regions).items;
        continue;
      }
      outcomes := UpdateRegions(outcomes, cloud, profiles[i], regions);
    }
    assert profiles[..|profiles|] == profiles;
  }

  /** Every call the script makes writes "Disable" to the public-sharing
      setting; and a call is made in a cell exactly when that profile's
      session opened and that region's client could be made, whatever
      happened in the other cells. */
  lemma IssuedCalls(cloud: Cloud, profiles: seq<string>, regions: seq<string>, x: Outcome)
    requires !Harvested(cloud, profiles, regions).crashed
    ensures x in Harvested(cloud, profiles, regions).items && x.Issued? ==>
              x.settingId == SettingId && x.value == SettingValue && x.applied == cloud.updateOk(x.profile, x.region)
    ensures x.Issued? && x.settingId == SettingId && x.value == SettingValue && x.applied == cloud.updateOk(x.profile, x.region) ==>
              (x in Harvested(cloud, profiles, regions).items <==>
                 exists i, j :: 0 <= i < |profiles| && 0 <= j < |regions| && profiles[i] == x.profile && regions[j] == x.region
                                && cloud.session(x.profile).Ok? && cloud.client(x.profile, x.region).Ok?)
  {
    SweepMembers(Opens(cloud), Cells(cloud), profiles, regions, x);
    forall i, j | 0 <= i < |profiles| && 0 <= j < |regions|
      ensures x in Cells(cloud)(profiles[i], regions[j]).items <==> x in Cell(cloud, profiles[i], regions[j]).items
    {
      CellsApply(cloud, profiles[i], regions[j]);
    }
  }

  /** The script's outcome. */
  datatype Exit =
    | BadRegions(invalid: seq<string>)     // logged, exit status 1, no remote call
    | Done(outcomes: seq<Outcome>)

  /** The script: the region check, then `main`. */
  method Program(requested: seq<string>, regions: seq<string>, cloud: Cloud) returns (exit: Exit)
    ensures InvalidRegions(regions) != [] <==> exit == BadRegions(InvalidRegions(regions))
    ensures InvalidRegions(regions) == [] ==>
              exit == Done(Harvested(cloud, ResolveProfiles(requested, cloud.available), regions).items)
  {
    var invalid := InvalidRegions(regions);
    if invalid != [] {
      return BadRegions(invalid);
    }
    var outcomes := DisableAll(cloud, ResolveProfiles(requested, cloud.available), regions);
    exit := Done(outcomes);
  }
}
