/** The profile x region sweep every collector runs: profiles outer, regions
    inner, both in the order given; a profile whose session cannot be opened
    is skipped; each (profile, region) cell contributes what it harvested;
    an exception the program does not catch ends the whole sweep at that
    cell. */
module Grid {
  import opened Common

  /** `if not profiles: profiles = available_profiles`. */
  function ResolveProfiles(requested: seq<string>, available: seq<string>): (r: seq<string>)
    ensures requested != [] ==> r == requested
    ensures requested == [] ==> r == available
  {
    if requested == [] then available else requested
  }

  /** What part of a sweep yielded: its items, in order, and whether it ended
      in an uncaught exception. */
  datatype Harvest<+T> = Harvest(items: seq<T>, crashed: bool)

  function Empty<T>(): Harvest<T> { Harvest([], false) }

  /** Running `next` after `h`: nothing runs once `h` has crashed. */
  function Then<T>(h: Harvest<T>, next: Harvest<T>): (r: Harvest<T>)
    ensures h.crashed ==> r == h
    ensures !h.crashed ==> r.items == h.items + next.items && r.crashed == next.crashed
  {
    if h.crashed then h else Harvest(h.items + next.items, next.crashed)
  }

  /** A harvest that yielded nothing and did not crash changes nothing on
      either side. */
  lemma ThenEmpty<T>(h: Harvest<T>)
    ensures Then(Empty(), h) == h
    ensures Then(h, Empty()) == h
  {
    assert [] + h.items == h.items && h.items + [] == h.items;
  }

  /** Grouping does not matter: running a, b and c in turn is the same
      however the runs are bracketed. */
  lemma ThenAssociative<T>(a: Harvest<T>, b: Harvest<T>, c: Harvest<T>)
    ensures Then(Then(a, b), c) == Then(a, Then(b, c))
  {
    if !a.crashed && !b.crashed {
      assert a.items + b.items + c.items == a.items + (b.items + c.items);
    }
  }

  /** What was collected before is never lost, and a crash stays a crash. */
  lemma ThenExtends<T>(h: Harvest<T>, next: Harvest<T>)
    ensures h.items <= Then(h, next).items
    ensures h.crashed ==> Then(h, next).crashed
  {
  }

  /** One profile's cells, region by region. */
  function Row<T>(cell: (string, string) -> Harvest<T>, profile: string, regions: seq<string>): Harvest<T>
    decreases |regions|
  {
    if regions == [] then Empty()
    else Then(Row(cell, profile, regions[..|regions| - 1]), cell(profile, regions[|regions| - 1]))
  }

  /** The whole sweep: for each profile whose session opens, its row. */
  function Sweep<T>(opens: string -> bool, cell: (string, string) -> Harvest<T>,
                    profiles: seq<string>, regions: seq<string>): Harvest<T>
    decreases |profiles|
  {
    if profiles == [] then Empty()
    else
      var p := profiles[|profiles| - 1];
      Then(Sweep(opens, cell, profiles[..|profiles| - 1], regions),
           if opens(p) then Row(cell, p, regions) else Empty())
  }

  /** A row over a + b is the row over a, then the row over b. */
  lemma {:induction false} RowAppend<T>(cell: (string, string) -> Harvest<T>, profile: string,
                                        a: seq<string>, b: seq<string>)
    ensures Row(cell, profile, a + b) == Then(Row(cell, profile, a), Row(cell, profile, b))
    decreases |b|
  {
    if b == [] {
      assert a + b == a;
      ThenEmpty(Row(cell, profile, a));
    } else {
      var init, last := b[..|b| - 1], b[|b| - 1];
      assert (a + b)[..|a + b| - 1] == a + init && (a + b)[|a + b| - 1] == last;
      RowAppend(cell, profile, a, init);
      ThenAssociative(Row(cell, profile, a), Row(cell, profile, init), cell(profile, last));
    }
  }

  /** A row over one more region is the shorter row, then that region's cell. */
  lemma RowStep<T>(cell: (string, string) -> Harvest<T>, profile: string, regions: seq<string>, j: nat)
    requires j < |regions|
    ensures Row(cell, profile, regions[..j + 1]) == Then(Row(cell, profile, regions[..j]), cell(profile, regions[j]))
  {
    assert regions[..j + 1][..j] == regions[..j];
  }

  /** A sweep over one more profile is the shorter sweep, then that profile's row. */
  lemma SweepStep<T>(opens: string -> bool, cell: (string, string) -> Harvest<T>,
                     profiles: seq<string>, regions: seq<string>, i: nat)
    requires i < |profiles|
    ensures Sweep(opens, cell, profiles[..i + 1], regions)
            == Then(Sweep(opens, cell, profiles[..i], regions),
                    if opens(profiles[i]) then Row(cell, profiles[i], regions) else Empty())
  {
    assert profiles[..i + 1][..i] == profiles[..i];
  }

  /** Once a row has crashed at some region, the later regions are never visited. */
  lemma {:induction false} RowStopsAtCrash<T>(cell: (string, string) -> Harvest<T>, profile: string,
                                              regions: seq<string>, j: nat)
    requires j <= |regions| && Row(cell, profile, regions[..j]).crashed
    ensures Row(cell, profile, regions) == Row(cell, profile, regions[..j])
    decreases |regions|
  {
    if j < |regions| {
      var init := regions[..|regions| - 1];
      assert init[..j] == regions[..j];
      RowStopsAtCrash(cell, profile, init, j);
    } else {
      assert regions[..j] == regions;
    }
  }

  /** Once the sweep has crashed in some profile, the later profiles are never visited. */
  lemma {:induction false} SweepStopsAtCrash<T>(opens: string -> bool, cell: (string, string) -> Harvest<T>,
                                                profiles: seq<string>, regions: seq<string>, i: nat)
    requires i <= |profiles| && Sweep(opens, cell, profiles[..i], regions).crashed
    ensures Sweep(opens, cell, profiles, regions) == Sweep(opens, cell, profiles[..i], regions)
    decreases |profiles|
  {
    if i < |profiles| {
      var init := profiles[..|profiles| - 1];
      assert init[..i] == profiles[..i];
      SweepStopsAtCrash(opens, cell, init, regions, i);
    } else {
      assert profiles[..i] == profiles;
    }
  }

  /** A row loop may stop once it has crashed or run out of regions. */
  lemma RowDone<T>(cell: (string, string) -> Harvest<T>, profile: string, regions: seq<string>, j: nat)
    requires j <= |regions| && (j == |regions| || Row(cell, profile, regions[..j]).crashed)
    ensures Row(cell, profile, regions) == Row(cell, profile, regions[..j])
  {
    if j == |regions| {
      assert regions[..j] == regions;
    } else {
      RowStopsAtCrash(cell, profile, regions, j);
    }
  }

  /** A sweep loop may stop once it has crashed or run out of profiles. */
  lemma SweepDone<T>(opens: string -> bool, cell: (string, string) -> Harvest<T>,
                     profiles: seq<string>, regions: seq<string>, i: nat)
    requires i <= |profiles| && (i == |profiles| || Sweep(opens, cell, profiles[..i], regions).crashed)
    ensures Sweep(opens, cell, profiles, regions) == Sweep(opens, cell, profiles[..i], regions)
  {
    if i == |profiles| {
      assert profiles[..i] == profiles;
    } else {
      SweepStopsAtCrash(opens, cell, profiles, regions, i);
    }
  }

  /** Folding a dict over a row that has not crashed yet: one more region folds
      in that region's cell. */
  lemma RowAssignStep<T, V>(cell: (string, string) -> Harvest<T>, profile: string, regions: seq<string>, j: nat,
                            m: map<string, V>, key: T -> string, val: T -> V)
    requires j < |regions| && !Row(cell, profile, regions[..j]).crashed
    ensures Assign(m, Row(cell, profile, regions[..j + 1]).items, key, val)
            == Assign(Assign(m, Row(cell, profile, regions[..j]).items, key, val), cell(profile, regions[j]).items, key, val)
    ensures Row(cell, profile, regions[..j + 1]).crashed == cell(profile, regions[j]).crashed
  {
    RowStep(cell, profile, regions, j);
    AssignAppend(m, Row(cell, profile, regions[..j]).items, cell(profile, regions[j]).items, key, val);
  }

  /** The same, one profile further in a sweep. */
  lemma SweepAssignStep<T, V>(opens: string -> bool, cell: (string, string) -> Harvest<T>,
                              profiles: seq<string>, regions: seq<string>, i: nat,
                              m: map<string, V>, key: T -> string, val: T -> V)
    requires i < |profiles| && !Sweep(opens, cell, profiles[..i], regions).crashed
    ensures opens(profiles[i]) ==>
              Assign(m, Sweep(opens, cell, profiles[..i + 1], regions).items, key, val)
              == Assign(Assign(m, Sweep(opens, cell, profiles[..i], regions).items, key, val),
                        Row(cell, profiles[i], regions).items, key, val)
              && Sweep(opens, cell, profiles[..i + 1], regions).crashed == Row(cell, profiles[i], regions).crashed
    ensures !opens(profiles[i]) ==>
              Sweep(opens, cell, profiles[..i + 1], regions) == Sweep(opens, cell, profiles[..i], regions)
  {
    SweepStep(opens, cell, profiles, regions, i);
    var before := Sweep(opens, cell, profiles[..i], regions);
    if opens(profiles[i]) {
      AssignAppend(m, before.items, Row(cell, profiles[i], regions).items, key, val);
    } else {
      assert before.items + [] == before.items;
    }
  }

  /** Failure isolation within a row: when the row runs to its end, an item is
      in it exactly when some cell of that profile yielded it. */
  lemma {:induction false} RowMembers<T>(cell: (string, string) -> Harvest<T>, profile: string,
                                        regions: seq<string>, x: T)
    requires !Row(cell, profile, regions).crashed
    ensures x in Row(cell, profile, regions).items
            <==> exists j :: 0 <= j < |regions| && x in cell(profile, regions[j]).items
    decreases |regions|
  {
    if regions != [] {
      var init := regions[..|regions| - 1];
      assert !Row(cell, profile, init).crashed;
      RowMembers(cell, profile, init, x);
      assert forall j :: 0 <= j < |init| ==> init[j] == regions[j];
      if x in cell(profile, regions[|regions| - 1]).items {
        assert x in Row(cell, profile, regions).items;
      }
    }
  }

  /** Failure isolation over the whole sweep: when no cell crashes, an item is
      collected exactly when some cell of a profile whose session opened
      yielded it; failed sessions and failed cells add nothing and take
      nothing away from the others. */
  lemma {:induction false} SweepMembers<T>(opens: string -> bool, cell: (string, string) -> Harvest<T>,
                                          profiles: seq<string>, regions: seq<string>, x: T)
    requires !Sweep(opens, cell, profiles, regions).crashed
    ensures x in Sweep(opens, cell, profiles, regions).items
            <==> exists i, j :: 0 <= i < |profiles| && 0 <= j < |regions| && opens(profiles[i])
                                && x in cell(profiles[i], regions[j]).items
    decreases |profiles|
  {
    if profiles != [] {
      var init, p := profiles[..|profiles| - 1], profiles[|profiles| - 1];
      assert !Sweep(opens, cell, init, regions).crashed;
      SweepMembers(opens, cell, init, regions, x);
      assert forall i :: 0 <= i < |init| ==> init[i] == profiles[i];
      if opens(p) {
        RowMembers(cell, p, regions, x);
        if exists j :: 0 <= j < |regions| && x in cell(p, regions[j]).items {
          var j :| 0 <= j < |regions| && x in cell(p, regions[j]).items;
          assert x in Sweep(opens, cell, profiles, regions).items;
        }
      }
    }
  }
}
