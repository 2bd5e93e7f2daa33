/** The S3 Valkyrie deleter: after a confirmation gate, it pages through
    `list_object_versions` for every (bucket, prefix) target and deletes each
    object version and then each delete marker, counting the deletions that
    succeed. */
module Valkyrie {
  import opened Common

  // ---------------------------------------------------------------------
  // Native records

  /** An entry of a page's `Versions`; `Key` and `VersionId` are read with
      `k['Key']`, so a missing one raises. */
  datatype ObjectVersion = ObjectVersion(key: Option<string>, versionId: Option<string>)

  /** An entry of a page's `DeleteMarkers`; its fields are read with `.get`. */
  datatype DeleteMarker = DeleteMarker(key: Option<string>, versionId: Option<string>)

  /** A page of `list_object_versions`; either list may be missing. */
  datatype Page = Page(versions: Option<seq<ObjectVersion>>, markers: Option<seq<DeleteMarker>>)

  /** One entry of `S3_BUCKETS`. */
  datatype Target = Target(bucket: string, prefix: string)

  /** The remote side, as plain data: whether the session and client can be
      made, what `paginate` answers per target, and whether a
      `delete_object(Bucket, Key, VersionId)` call succeeds. */
  datatype Cloud = Cloud(
    client: Remote<()>,
    paginate: Target -> Remote<Listing<Page>>,
    deleteOk: (string, Option<string>, Option<string>) -> bool)

  // ---------------------------------------------------------------------
  // The log and the counters

  /** One logged line, in the order the sweep emits them. */
  datatype Event =
    | WouldDelete(bucket: string, key: string, versionId: string)
    | Deleted(bucket: string, key: string, versionId: string)
    | DeleteFailed(bucket: string, key: string, versionId: string)
    | WouldRemoveMarker(bucket: string, markerKey: Option<string>, markerVersion: Option<string>)
    | RemovedMarker(bucket: string, markerKey: Option<string>, markerVersion: Option<string>)
    | MarkerFailed(bucket: string, markerKey: Option<string>, markerVersion: Option<string>)
    | NothingToDelete(bucket: string, prefix: string)
    | ListingFailed(bucket: string, prefix: string)        // "Well, that failed"
    | Busted(bucket: string, prefix: string)               // "Well, that's busted"
    | Summary(objects: nat, markers: nat)

  /** The `deleted` dict and the log so far. */
  datatype Tally = Tally(objects: nat, markers: nat, log: seq<Event>)

  /** A tally after part of a target, and whether an exception left it. */
  datatype Step = Step(tally: Tally, raised: bool)

  function Emit(t: Tally, e: Event): Tally { t.(log := t.log + [e]) }

  /** The number of successful version deletions in a log. */
  function DeletedCount(log: seq<Event>): nat
    decreases |log|
  {
    if log == [] then 0 else DeletedCount(log[..|log| - 1]) + if log[|log| - 1].Deleted? then 1 else 0
  }

  /** The number of successful delete-marker removals in a log. */
  function RemovedCount(log: seq<Event>): nat
    decreases |log|
  {
    if log == [] then 0 else RemovedCount(log[..|log| - 1]) + if log[|log| - 1].RemovedMarker? then 1 else 0
  }

  /** The counters count exactly the successful deletions the log records. */
  predicate Consistent(t: Tally) {
    t.objects == DeletedCount(t.log) && t.markers == RemovedCount(t.log)
  }

  lemma CountsSnoc(log: seq<Event>, e: Event)
    ensures DeletedCount(log + [e]) == DeletedCount(log) + if e.Deleted? then 1 else 0
    ensures RemovedCount(log + [e]) == RemovedCount(log) + if e.RemovedMarker? then 1 else 0
  {
    assert (log + [e])[..|log|] == log;
  }

  // ---------------------------------------------------------------------
  // The sweep, as a function of its inputs

  /** One object version. A missing Key or VersionId raises, in the dry-run
      log line or in the error handler of the delete; otherwise a dry run
      only logs, and a real run counts the version only when the delete
      succeeds. */
  function VersionStep(t: Tally, dryRun: bool, cloud: Cloud, bucket: string, v: ObjectVersion): Step {
    if v.key.None? || v.versionId.None? then Step(t, true)
    else if dryRun then Step(Emit(t, WouldDelete(bucket, v.key.value, v.versionId.value)), false)
    else if cloud.deleteOk(bucket, v.key, v.versionId) then
      Step(Emit(t.(objects := t.objects + 1), Deleted(bucket, v.key.value, v.versionId.value)), false)
    else Step(Emit(t, DeleteFailed(bucket, v.key.value, v.versionId.value)), false)
  }

  /** The versions of a page, in order, up to the first that raises. */
  function SweepVersions(t: Tally, dryRun: bool, cloud: Cloud, bucket: string, vs: seq<ObjectVersion>): Step
    decreases |vs|
  {
    if vs == [] then Step(t, false)
    else
      var s := SweepVersions(t, dryRun, cloud, bucket, vs[..|vs| - 1]);
      if s.raised then s else VersionStep(s.tally, dryRun, cloud, bucket, vs[|vs| - 1])
  }

  /** One delete marker: never raises; a failed removal is logged and the
      sweep goes on. */
  function MarkerStep(t: Tally, dryRun: bool, cloud: Cloud, bucket: string, m: DeleteMarker): Tally {
    if dryRun then Emit(t, WouldRemoveMarker(bucket, m.key, m.versionId))
    else if cloud.deleteOk(bucket, m.key, m.versionId) then
      Emit(t.(markers := t.markers + 1), RemovedMarker(bucket, m.key, m.versionId))
    else Emit(t, MarkerFailed(bucket, m.key, m.versionId))
  }

  function SweepMarkers(t: Tally, dryRun: bool, cloud: Cloud, bucket: string, ms: seq<DeleteMarker>): Tally
    decreases |ms|
  {
    if ms == [] then t
    else MarkerStep(SweepMarkers(t, dryRun, cloud, bucket, ms[..|ms| - 1]), dryRun, cloud, bucket, ms[|ms| - 1])
  }

  /** Python's `not page.get(field)`: the list is missing or empty. */
  predicate Blank<T>(xs: Option<seq<T>>) { xs.None? || xs.value == [] }

  /** One page: every version, then every delete marker (a missing list
      counts as empty), then the notice for a page that has neither. */
  function PageStep(t: Tally, dryRun: bool, cloud: Cloud, target: Target, page: Page): Step {
    var s := SweepVersions(t, dryRun, cloud, target.bucket, page.versions.GetOr([]));
    if s.raised then s
    else
      var t' := SweepMarkers(s.tally, dryRun, cloud, target.bucket, page.markers.GetOr([]));
      Step(if Blank(page.versions) && Blank(page.markers) then Emit(t', NothingToDelete(target.bucket, target.prefix)) else t', false)
  }

  function SweepPages(t: Tally, dryRun: bool, cloud: Cloud, target: Target, pages: seq<Page>): Step
    decreases |pages|
  {
    if pages == [] then Step(t, false)
    else
      var s := SweepPages(t, dryRun, cloud, target, pages[..|pages| - 1]);
      if s.raised then s else PageStep(s.tally, dryRun, cloud, target, pages[|pages| - 1])
  }

  /** One (bucket, prefix) target: a failing `paginate` is logged; an
      exception while paging or deleting is logged and abandons the rest of
      this target only. */
  function TargetStep(t: Tally, dryRun: bool, cloud: Cloud, target: Target): Tally {
    match cloud.paginate(target)
    case Fail => Emit(t, ListingFailed(target.bucket, target.prefix))
    case Ok(listing) =>
      var s := SweepPages(t, dryRun, cloud, target, listing.pages);
      if s.raised || listing.raises then Emit(s.tally, Busted(target.bucket, target.prefix)) else s.tally
  }

  function SweepTargets(t: Tally, dryRun: bool, cloud: Cloud, targets: seq<Target>): Tally
    decreases |targets|
  {
    if targets == [] then t
    else TargetStep(SweepTargets(t, dryRun, cloud, targets[..|targets| - 1]), dryRun, cloud, targets[|targets| - 1])
  }

  /** The counters `main` starts from. */
  const Start: Tally := Tally(0, 0, [])

  /** What `main` logs: the sweep, then the summary line with both counters. */
  function MainLog(dryRun: bool, cloud: Cloud, targets: seq<Target>): seq<Event> {
    var t := SweepTargets(Start, dryRun, cloud, targets);
    t.log + [Summary(t.objects, t.markers)]
  }

  // ---------------------------------------------------------------------
  // Properties of the sweep

  /** Counting: every step keeps the counters equal to the successful
      deletions in the log, so a counter moves only with a successful delete;
      a dry run leaves both counters alone and never consults a delete. */
  lemma VersionStepFacts(t: Tally, dryRun: bool, cloud: Cloud, cloud': Cloud, bucket: string, v: ObjectVersion)
    requires Consistent(t)
    ensures Consistent(VersionStep(t, dryRun, cloud, bucket, v).tally)
    ensures dryRun ==> VersionStep(t, dryRun, cloud, bucket, v) == VersionStep(t, dryRun, cloud', bucket, v)
    ensures dryRun ==> VersionStep(t, dryRun, cloud, bucket, v).tally.objects == t.objects
  {
    var s := VersionStep(t, dryRun, cloud, bucket, v);
    if !s.raised {
      CountsSnoc(t.log, s.tally.log[|t.log|]);
      assert s.tally.log == t.log + [s.tally.log[|t.log|]];
    }
  }

  lemma MarkerStepFacts(t: Tally, dryRun: bool, cloud: Cloud, cloud': Cloud, bucket: string, m: DeleteMarker)
    requires Consistent(t)
    ensures Consistent(MarkerStep(t, dryRun, cloud, bucket, m))
    ensures dryRun ==> MarkerStep(t, dryRun, cloud, bucket, m) == MarkerStep(t, dryRun, cloud', bucket, m)
    ensures dryRun ==> MarkerStep(t, dryRun, cloud, bucket, m).markers == t.markers
  {
    var t' := MarkerStep(t, dryRun, cloud, bucket, m);
    CountsSnoc(t.log, t'.log[|t.log|]);
    assert t'.log == t.log + [t'.log[|t.log|]];
  }

  lemma {:induction false} SweepVersionsFacts(t: Tally, dryRun: bool, cloud: Cloud, cloud': Cloud, bucket: string,
                                             vs: seq<ObjectVersion>)
    requires Consistent(t)
    ensures Consistent(SweepVersions(t, dryRun, cloud, bucket, vs).tally)
    ensures dryRun ==> SweepVersions(t, dryRun, cloud, bucket, vs) == SweepVersions(t, dryRun, cloud', bucket, vs)
    ensures dryRun ==> SweepVersions(t, dryRun, cloud, bucket, vs).tally.objects == t.objects
    ensures SweepVersions(t, dryRun, cloud, bucket, vs).tally.markers == t.markers
    decreases |vs|
  {
    if vs != [] {
      var init := vs[..|vs| - 1];
      SweepVersionsFacts(t, dryRun, cloud, cloud', bucket, init);
      var s := SweepVersions(t, dryRun, cloud, bucket, init);
      if !s.raised {
        VersionStepFacts(s.tally, dryRun, cloud, cloud', bucket, vs[|vs| - 1]);
      }
    }
  }

  lemma {:induction false} SweepMarkersFacts(t: Tally, dryRun: bool, cloud: Cloud, cloud': Cloud, bucket: string,
                                            ms: seq<DeleteMarker>)
    requires Consistent(t)
    ensures Consistent(SweepMarkers(t, dryRun, cloud, bucket, ms))
    ensures dryRun ==> SweepMarkers(t, dryRun, cloud, bucket, ms) == SweepMarkers(t, dryRun, cloud', bucket, ms)
    ensures dryRun ==> SweepMarkers(t, dryRun, cloud, bucket, ms).markers == t.markers
    ensures SweepMarkers(t, dryRun, cloud, bucket, ms).objects == t.objects
    decreases |ms|
  {
    if ms != [] {
      var init := ms[..|ms| - 1];
      SweepMarkersFacts(t, dryRun, cloud, cloud', bucket, init);
      MarkerStepFacts(SweepMarkers(t, dryRun, cloud, bucket, init), dryRun, cloud, cloud', bucket, ms[|ms| - 1]);
    }
  }

  lemma PageStepFacts(t: Tally, dryRun: bool, cloud: Cloud, cloud': Cloud, target: Target, page: Page)
    requires Consistent(t)
    ensures Consistent(PageStep(t, dryRun, cloud, target, page).tally)
    ensures dryRun ==> PageStep(t, dryRun, cloud, target, page) == PageStep(t, dryRun, cloud', target, page)
    ensures dryRun ==> PageStep(t, dryRun, cloud, target, page).tally.objects == t.objects
    ensures dryRun ==> PageStep(t, dryRun, cloud, target, page).tally.markers == t.markers
  {
    var vs, ms := page.versions.GetOr([]), page.markers.GetOr([]);
    SweepVersionsFacts(t, dryRun, cloud, cloud', target.bucket, vs);
    var s := SweepVersions(t, dryRun, cloud, target.bucket, vs);
    if !s.raised {
      SweepMarkersFacts(s.tally, dryRun, cloud, cloud', target.bucket, ms);
      var t' := SweepMarkers(s.tally, dryRun, cloud, target.bucket, ms);
      CountsSnoc(t'.log, NothingToDelete(target.bucket, target.prefix));
    }
  }

  lemma {:induction false} SweepPagesFacts(t: Tally, dryRun: bool, cloud: Cloud, cloud': Cloud, target: Target,
                                          pages: seq<Page>)
    requires Consistent(t)
    ensures Consistent(SweepPages(t, dryRun, cloud, target, pages).tally)
    ensures dryRun ==> SweepPages(t, dryRun, cloud, target, pages) == SweepPages(t, dryRun, cloud', target, pages)
    ensures dryRun ==> SweepPages(t, dryRun, cloud, target, pages).tally.objects == t.objects
    ensures dryRun ==> SweepPages(t, dryRun, cloud, target, pages).tally.markers == t.markers
    decreases |pages|
  {
    if pages != [] {
      var init := pages[..|pages| - 1];
      SweepPagesFacts(t, dryRun, cloud, cloud', target, init);
      var s := SweepPages(t, dryRun, cloud, target, init);
      if !s.raised {
        PageStepFacts(s.tally, dryRun, cloud, cloud', target, pages[|pages| - 1]);
      }
    }
  }

  lemma TargetStepFacts(t: Tally, dryRun: bool, cloud: Cloud, cloud': Cloud, target: Target)
    requires Consistent(t) && cloud.paginate == cloud'.paginate
    ensures Consistent(TargetStep(t, dryRun, cloud, target))
    ensures dryRun ==> TargetStep(t, dryRun, cloud, target) == TargetStep(t, dryRun, cloud', target)
    ensures dryRun ==> TargetStep(t, dryRun, cloud, target).objects == t.objects
    ensures dryRun ==> TargetStep(t, dryRun, cloud, target).markers == t.markers
  {
    match cloud.paginate(target)
    case Fail =>
      CountsSnoc(t.log, ListingFailed(target.bucket, target.prefix));
    case Ok(listing) =>
      SweepPagesFacts(t, dryRun, cloud, cloud', target, listing.pages);
      var s := SweepPages(t, dryRun, cloud, target, listing.pages);
      CountsSnoc(s.tally.log, Busted(target.bucket, target.prefix));
  }

  /** Over the whole sweep: the counters always equal the successful
      deletions in the log; in a dry run they stay where they started and the
      outcome of the delete calls makes no difference, since none is made. */
  lemma {:induction false} SweepTargetsFacts(t: Tally, dryRun: bool, cloud: Cloud, cloud': Cloud, targets: seq<Target>)
    requires Consistent(t) && cloud.paginate == cloud'.paginate
    ensures Consistent(SweepTargets(t, dryRun, cloud, targets))
    ensures dryRun ==> SweepTargets(t, dryRun, cloud, targets) == SweepTargets(t, dryRun, cloud', targets)
    ensures dryRun ==> SweepTargets(t, dryRun, cloud, targets).objects == t.objects
    ensures dryRun ==> SweepTargets(t, dryRun, cloud, targets).markers == t.markers
    decreases |targets|
  {
    if targets != [] {
      var init := targets[..|targets| - 1];
      SweepTargetsFacts(t, dryRun, cloud, cloud', init);
      TargetStepFacts(SweepTargets(t, dryRun, cloud, init), dryRun, cloud, cloud', targets[|targets| - 1]);
    }
  }

  /** The summary line of `main` reports exactly the successful deletions
      logged before it, and both are 0 in a dry run. */
  lemma SummaryCounts(dryRun: bool, cloud: Cloud, targets: seq<Target>)
    ensures var log := MainLog(dryRun, cloud, targets);
            && log[|log| - 1] == Summary(DeletedCount(log[..|log| - 1]), RemovedCount(log[..|log| - 1]))
            && (dryRun ==> log[|log| - 1] == Summary(0, 0))
  {
    SweepTargetsFacts(Start, dryRun, cloud, cloud, targets);
    var t := SweepTargets(Start, dryRun, cloud, targets);
    assert MainLog(dryRun, cloud, targets)[..|t.log|] == t.log;
  }

  /** A failed delete of a version does not stop the sweep: the page goes
      on with the next item, and the counter is unchanged. */
  lemma FailedDeleteContinues(t: Tally, cloud: Cloud, bucket: string, v: ObjectVersion)
    requires v.key.Some? && v.versionId.Some? && !cloud.deleteOk(bucket, v.key, v.versionId)
    ensures var s := VersionStep(t, false, cloud, bucket, v);
            !s.raised && s.tally.objects == t.objects
            && s.tally.log == t.log + [DeleteFailed(bucket, v.key.value, v.versionId.value)]
  {
  }

  /** Once a version raises, the rest of the page's versions are skipped. */
  lemma {:induction false} VersionsStopAtRaise(t: Tally, dryRun: bool, cloud: Cloud, bucket: string,
                                              vs: seq<ObjectVersion>, i: nat)
    requires i <= |vs| && SweepVersions(t, dryRun, cloud, bucket, vs[..i]).raised
    ensures SweepVersions(t, dryRun, cloud, bucket, vs) == SweepVersions(t, dryRun, cloud, bucket, vs[..i])
    decreases |vs|
  {
    if i < |vs| {
      var init := vs[..|vs| - 1];
      assert init[..i] == vs[..i];
      VersionsStopAtRaise(t, dryRun, cloud, bucket, init, i);
    } else {
      assert vs[..i] == vs;
    }
  }

  /** Once a page raises, the target's remaining pages are abandoned. */
  lemma {:induction false} PagesStopAtRaise(t: Tally, dryRun: bool, cloud: Cloud, target: Target,
                                           pages: seq<Page>, i: nat)
    requires i <= |pages| && SweepPages(t, dryRun, cloud, target, pages[..i]).raised
    ensures SweepPages(t, dryRun, cloud, target, pages) == SweepPages(t, dryRun, cloud, target, pages[..i])
    decreases |pages|
  {
    if i < |pages| {
      var init := pages[..|pages| - 1];
      assert init[..i] == pages[..i];
      PagesStopAtRaise(t, dryRun, cloud, target, init, i);
    } else {
      assert pages[..i] == pages;
    }
  }

  /** A failure in one target is contained: sweeping a + b is sweeping a,
      whatever happened there, then sweeping b from the shared counters. */
  lemma {:induction false} SweepTargetsAppend(t: Tally, dryRun: bool, cloud: Cloud, a: seq<Target>, b: seq<Target>)
    ensures SweepTargets(t, dryRun, cloud, a + b) == SweepTargets(SweepTargets(t, dryRun, cloud, a), dryRun, cloud, b)
    decreases |b|
  {
    if b == [] {
      assert a + b == a;
    } else {
      assert (a + b)[..|a + b| - 1] == a + b[..|b| - 1];
      SweepTargetsAppend(t, dryRun, cloud, a, b[..|b| - 1]);
    }
  }

  /** Nothing is ever retracted: a target only appends to the log, and ends
      it with the error line when it was abandoned or could not be listed. */
  lemma TargetStepLog(t: Tally, dryRun: bool, cloud: Cloud, target: Target)
    ensures var t' := TargetStep(t, dryRun, cloud, target);
            && |t.log| <= |t'.log| && t'.log[..|t.log|] == t.log
            && (cloud.paginate(target).Fail? ==> t'.log == t.log + [ListingFailed(target.bucket, target.prefix)])
            && (cloud.paginate(target).Ok? && cloud.paginate(target).value.raises ==>
                  t'.log[|t'.log| - 1] == Busted(target.bucket, target.prefix))
  {
    match cloud.paginate(target)
    case Fail =>
    case Ok(listing) =>
      PagesLogGrows(t, dryRun, cloud, target, listing.pages);
  }

  lemma {:induction false} PagesLogGrows(t: Tally, dryRun: bool, cloud: Cloud, target: Target, pages: seq<Page>)
    ensures var s := SweepPages(t, dryRun, cloud, target, pages);
            |t.log| <= |s.tally.log| && s.tally.log[..|t.log|] == t.log
    decreases |pages|
  {
    if pages != [] {
      var init := pages[..|pages| - 1];
      PagesLogGrows(t, dryRun, cloud, target, init);
      var s := SweepPages(t, dryRun, cloud, target, init);
      if !s.raised {
        PageLogGrows(s.tally, dryRun, cloud, target, pages[|pages| - 1]);
      }
    }
  }

  lemma PageLogGrows(t: Tally, dryRun: bool, cloud: Cloud, target: Target, page: Page)
    ensures var s := PageStep(t, dryRun, cloud, target, page);
            |t.log| <= |s.tally.log| && s.tally.log[..|t.log|] == t.log
  {
    var vs, ms := page.versions.GetOr([]), page.markers.GetOr([]);
    VersionsLogGrows(t, dryRun, cloud, target.bucket, vs);
    var s := SweepVersions(t, dryRun, cloud, target.bucket, vs);
    MarkersLogGrows(s.tally, dryRun, cloud, target.bucket, ms);
  }

  lemma {:induction false} VersionsLogGrows(t: Tally, dryRun: bool, cloud: Cloud, bucket: string, vs: seq<ObjectVersion>)
    ensures var s := SweepVersions(t, dryRun, cloud, bucket, vs);
            |t.log| <= |s.tally.log| && s.tally.log[..|t.log|] == t.log
    decreases |vs|
  {
    if vs != [] {
      VersionsLogGrows(t, dryRun, cloud, bucket, vs[..|vs| - 1]);
    }
  }

  lemma {:induction false} MarkersLogGrows(t: Tally, dryRun: bool, cloud: Cloud, bucket: string, ms: seq<DeleteMarker>)
    ensures var t' := SweepMarkers(t, dryRun, cloud, bucket, ms);
            |t.log| <= |t'.log| && t'.log[..|t.log|] == t.log
    decreases |ms|
  {
    if ms != [] {
      MarkersLogGrows(t, dryRun, cloud, bucket, ms[..|ms| - 1]);
    }
  }

  /** A page with neither versions nor delete markers only logs the notice. */
  lemma BlankPage(t: Tally, dryRun: bool, cloud: Cloud, target: Target, page: Page)
    requires Blank(page.versions) && Blank(page.markers)
    ensures PageStep(t, dryRun, cloud, target, page) == Step(Emit(t, NothingToDelete(target.bucket, target.prefix)), false)
  {
  }

  // ---------------------------------------------------------------------
  // The loops of `main`

  /** The version loop of one page; it leaves at the first version that raises. */
  method DeleteVersions(t: Tally, dryRun: bool, cloud: Cloud, bucket: string, vs: seq<ObjectVersion>)
    returns (t': Tally, raised: bool)
    ensures Step(t', raised) == SweepVersions(t, dryRun, cloud, bucket, vs)
  {
    t', raised := t, false;
    assert vs[..0] == [];
    var i := 0;
    while i < |vs| && !raised
      invariant 0 <= i <= |vs|
      invariant Step(t', raised) == SweepVersions(t, dryRun, cloud, bucket, vs[..i])
    {
      var k := vs[i];
      assert vs[..i + 1][..i] == vs[..i];
      if k.key.None? || k.versionId.None? {
        raised := true;
      } else if dryRun {
        t' := Emit(t', WouldDelete(bucket, k.key.value, k.versionId.value));
      } else if cloud.deleteOk(bucket, k.key, k.versionId) {
        t' := t'.(objects := t'.objects + 1);
        t' := Emit(t', Deleted(bucket, k.key.value, k.versionId.value));
      } else {
        t' := Emit(t', DeleteFailed(bucket, k.key.value, k.versionId.value));
      }
      i := i + 1;
    }
    if raised {
      VersionsStopAtRaise(t, dryRun, cloud, bucket, vs, i);
    } else {
      assert vs[..i] == vs;
    }
  }

  /** The delete-marker loop of one page. */
  method RemoveMarkers(t: Tally, dryRun: bool, cloud: Cloud, bucket: string, ms: seq<DeleteMarker>)
    returns (t': Tally)
    ensures t' == SweepMarkers(t, dryRun, cloud, bucket, ms)
  {
    t' := t;
    assert ms[..0] == [];
    for i := 0 to |ms|
      invariant t' == SweepMarkers(t, dryRun, cloud, bucket, ms[..i])
    {
      var key, versionId := ms[i].key, ms[i].versionId;
      assert ms[..i + 1][..i] == ms[..i];
      if dryRun {
        t' := Emit(t', WouldRemoveMarker(bucket, key, versionId));
      } else if cloud.deleteOk(bucket, key, versionId) {
        t' := t'.(markers := t'.markers + 1);
        t' := Emit(t', RemovedMarker(bucket, key, versionId));
      } else {
        t' := Emit(t', MarkerFailed(bucket, key, versionId));
      }
    }
    assert ms[..|ms|] == ms;
  }

  /** One page: versions, then markers, then the notice for a blank page. */
  method SweepPage(t: Tally, dryRun: bool, cloud: Cloud, target: Target, page: Page)
    returns (t': Tally, raised: bool)
    ensures Step(t', raised) == PageStep(t, dryRun, cloud, target, page)
  {
    t', raised := DeleteVersions(t, dryRun, cloud, target.bucket, page.versions.GetOr([]));
    if raised {
      return;
    }
    t' := RemoveMarkers(t', dryRun, cloud, target.bucket, page.markers.GetOr([]));
    if Blank(page.versions) && Blank(page.markers) {
      t' := Emit(t', NothingToDelete(target.bucket, target.prefix));
    }
  }

  /** One target: `paginate`, then its pages until one raises or the
      iterator does. */
  method SweepTarget(t: Tally, dryRun: bool, cloud: Cloud, target: Target) returns (t': Tally)
    ensures t' == TargetStep(t, dryRun, cloud, target)
  {
    var pageIterator: Remote<Listing<Page>> := cloud.paginate(target);
    if pageIterator.Fail? {
      return Emit(t, ListingFailed(target.bucket, target.prefix));
    }
    var pages := pageIterator.value.pages;
    t' := t;
    var raised := false;
    assert pages[..0] == [];
    var i := 0;
    while i < |pages| && !raised
      invariant 0 <= i <= |pages|
      invariant Step(t', raised) == SweepPages(t, dryRun, cloud, target, pages[..i])
    {
      assert pages[..i + 1][..i] == pages[..i];
      t', raised := SweepPage(t', dryRun, cloud, target, pages[i]);
      i := i + 1;
    }
    if raised {
      PagesStopAtRaise(t, dryRun, cloud, target, pages, i);
    } else {
      assert pages[..i] == pages;
    }
    if raised || pageIterator.value.raises {
      t' := Emit(t', Busted(target.bucket, target.prefix));
    }
  }

  /** `main`: the client, the sweep over every target with shared counters,
      and the summary line. */
  method SweepAll(dryRun: bool, cloud: Cloud, targets: seq<Target>) returns (crashed: bool, log: seq<Event>)
    ensures crashed <==> cloud.client.Fail?
    ensures !crashed ==> log == MainLog(dryRun, cloud, targets)
  {
    if cloud.client.Fail? {
      return true, [];
    }
    var deleted := Start;
    assert targets[..0] == [];
    for i := 0 to |targets|
      invariant deleted == SweepTargets(Start, dryRun, cloud, targets[..i])
    {
      assert targets[..i + 1][..i] == targets[..i];
      deleted := SweepTarget(deleted, dryRun, cloud, targets[i]);
    }
    assert targets[..|targets|] == targets;
    crashed, log := false, deleted.log + [Summary(deleted.objects, deleted.markers)];
  }

  // ---------------------------------------------------------------------
  // The confirmation gate

  /** `confirm_destruction_via_valkyrie`: a dry run needs no confirmation;
      otherwise only the exact reply "yes" confirms. */
  function Confirmed(dryRun: bool, reply: string): bool {
    dryRun || reply == "yes"
  }

  /** The line the prompt shows for one target. */
  function TargetLine(target: Target): string {
    "    " + target.bucket + "/" + target.prefix
  }

  /** The gate, with the list of targets it shows before asking. */
  method ConfirmDestruction(dryRun: bool, targets: seq<Target>, reply: string) returns (ok: bool, shown: seq<string>)
    ensures ok == Confirmed(dryRun, reply)
    ensures dryRun ==> shown == []
    ensures !dryRun ==> shown == Map(targets, TargetLine)
  {
    if dryRun {
      return true, [];
    }
    shown := [];
    for i := 0 to |targets|
      invariant shown == Map(targets[..i], TargetLine)
    {
      MapSnoc(targets, i, TargetLine);
      shown := shown + [TargetLine(targets[i])];
    }
    assert targets[..|targets|] == targets;
    ok := reply == "yes";
  }

  /** The script's outcome. */
  datatype Exit =
    | Cancelled                       // the gate said no: `main` never runs
    | Crashed                         // the session or client could not be made
    | Finished(log: seq<Event>)

  /** The entry point: the gate, then `main` only when it confirms. */
  method Program(dryRun: bool, targets: seq<Target>, reply: string, cloud: Cloud)
    returns (shown: seq<string>, exit: Exit)
    ensures !Confirmed(dryRun, reply) <==> exit == Cancelled
    ensures Confirmed(dryRun, reply) && cloud.client.Fail? ==> exit == Crashed
    ensures Confirmed(dryRun, reply) && cloud.client.Ok? ==> exit == Finished(MainLog(dryRun, cloud, targets))
  {
    var verified;
    verified, shown := ConfirmDestruction(dryRun, targets, reply);
    if !verified {
      return shown, Cancelled;
    }
    var crashed, log := SweepAll(dryRun, cloud, targets);
    exit := if crashed then Crashed else Finished(log);
  }

  /** Only the exact reply confirms a real run: no case or spacing variant. */
  lemma OnlyExactYes(reply: string)
    ensures Confirmed(false, reply) <==> reply == "yes"
    ensures !Confirmed(false, "Yes") && !Confirmed(false, "yes ") && !Confirmed(false, "y")
  {
  }
}
