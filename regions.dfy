/** The region allow-list the EC2 lister and the SSM setter check before any
    remote call. */
module Regions {

  const ValidRegions: set<string> :=
    {"us-east-1", "us-east-2", "us-west-1", "us-west-2",
     "ca-central-1", "eu-west-1", "eu-west-2", "eu-central-1"}

  /** `[r for r in regions if r not in VALID_REGIONS]`. */
  function InvalidRegions(regions: seq<string>): (r: seq<string>)
    ensures |r| <= |regions|
    ensures forall x :: x in r <==> x in regions && x !in ValidRegions
    decreases |regions|
  {
    if regions == [] then []
    else
      var init, last := regions[..|regions| - 1], regions[|regions| - 1];
      assert forall x :: x in regions <==> x in init || x == last by {
        assert regions == init + [last];
      }
      InvalidRegions(init) + (if last in ValidRegions then [] else [last])
  }

  /** The check keeps the requested order and repeats: checking a + b reports
      the invalid entries of a, then those of b. */
  lemma {:induction false} InvalidRegionsAppend(a: seq<string>, b: seq<string>)
    ensures InvalidRegions(a + b) == InvalidRegions(a) + InvalidRegions(b)
    decreases |b|
  {
    if b != [] {
      var init, last := b[..|b| - 1], b[|b| - 1];
      assert (a + b)[..|a + b| - 1] == a + init;
      InvalidRegionsAppend(a, init);
    } else {
      assert a + b == a;
    }
  }
}
