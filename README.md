# pyawsutils, modelled in Dafny

pyawsutils is a set of small AWS command-line scripts. This project models
their common core:

- The scripts resolve the credential profiles to use.
- They walk every (profile, region) cell and call a remote listing or
  update operation in each cell. A failure in a cell is logged and the
  run goes on, unless the failing call sits outside any `try`.
- They merge what they find into one collection keyed by resource identity.
- They show the collection as a console table, or write it as CSV or JSON.

Six scripts are modelled, one Dafny module each:

| module | script | what it does |
|---|---|---|
| `Ec2Lister` | `ec2_instance_lister/list_ec2_instances.py` | EC2 instances over profiles × chosen regions, keyed by `id_account_region` |
| `VpcLister` | `vpc_lister/list_vpcs.py` | VPCs over profiles × four fixed regions, keyed by VPC id |
| `S3Lister` | `s3_bucket_lister/list_s3_buckets.py` | S3 buckets per profile with their location, keyed by bucket name |
| `LambdaLister` | `lambda_runtime_lister/lambda_runtime_lister.py` | Lambda functions and runtimes over profiles × three fixed regions, kept as a list |
| `Valkyrie` | `s3-valkyrie-deleter/s3_valkyrie.py` | deletes every object version and delete marker under (bucket, prefix) targets, after a confirmation gate |
| `SsmDisable` | `ssm_disable_public_doc/ssm_disable_public_doc.py` | sets the SSM public-sharing setting to "Disable" in every cell |

Shared modules:

| module | contents |
|---|---|
| `Common` | `Option`, `Remote` (a remote call that answers or raises), `Listing` (the pages a paginator yields, and whether it raises after them), `Assign` (a dict filled by assignments in order, where the last writer wins) and `Map` (a list comprehension) |
| `Text` | Python string order (`LexLess`) and tuple order (`TupleLess`), slicing, `"..."` truncation, `ljust`, column budgets |
| `Sorting` | `sorted(d.items())` (`Items`) and an insertion sort by key (`SortByKey`) |
| `Regions` | the region allow-list check |
| `Grid` | the profile × region sweep shared by the multi-region scripts |
| `Output` | the output routing shared by the three inventory listers |

How the remote side is modelled:

- AWS is plain input data. Each script gets a `Cloud` value that says, per profile or per cell, whether the session, the client, the account lookup and the listing answer or raise, and what they answer.
- The script's loops are methods. Each method is proved equal to a specification function over that data, such as `Harvested`, `Store`, `Listed` or `MainLog`.
- The properties the scripts promise are lemmas about those functions. Examples are failure isolation, key completeness, output order and counter consistency.
- A cell whose failing call is not inside a `try` ends the whole run. The model shows this as a `crashed` flag that stops the sweep and suppresses all output.

## Model

| member | source | states |
|---|---|---|
| `Common.AssignKeys` | ec2_instance_lister/list_ec2_instances.py:69-76 | a key is in the dict built by successive assignments iff it was there before or some assigned item has that key |
| `Common.AssignLastWins` | ec2_instance_lister/list_ec2_instances.py:69-76 | for a key assigned more than once, the dict holds the value of the last assignment to it |
| `Common.AssignUntouched` | ec2_instance_lister/list_ec2_instances.py:79-91 | an entry that no later item overwrites keeps its earlier value |
| `Common.AssignAppend` | ec2_instance_lister/list_ec2_instances.py:59-91 | assigning a + b equals assigning a, then b, so the collection can be built page by page |
| `Common.MapIndex` | ec2_instance_lister/list_ec2_instances.py:192-215 | element i of a comprehension is f applied to element i of the input |
| `Common.MapPermutes` | ec2_instance_lister/list_ec2_instances.py:113-126 | mapping two permutations of one list gives permutations of one another |
| `Text.LexLessIrreflexive` | ec2_instance_lister/list_ec2_instances.py:192 | Python string order is irreflexive |
| `Text.LexLessAsymmetric` | ec2_instance_lister/list_ec2_instances.py:192 | Python string order is asymmetric |
| `Text.LexLessTransitive` | ec2_instance_lister/list_ec2_instances.py:192 | Python string order is transitive |
| `Text.LexLessTotal` | ec2_instance_lister/list_ec2_instances.py:192 | any two distinct strings are ordered one way or the other |
| `Text.TupleLessAsymmetric` | ec2_instance_lister/list_ec2_instances.py:113 | the order on (account, az, instance_id) tuples is asymmetric |
| `Text.TupleLessTransitive` | ec2_instance_lister/list_ec2_instances.py:113 | the tuple order is transitive |
| `Text.TupleLessTotal` | ec2_instance_lister/list_ec2_instances.py:113 | the tuple order is total on distinct tuples |
| `Text.SliceTo` | ec2_instance_lister/list_ec2_instances.py:201 | Python `s[:n]`, including a negative n: its length and that it is a prefix of s |
| `Text.Truncate` | ec2_instance_lister/list_ec2_instances.py:198-207 | a field within budget is unchanged; a longer one becomes a prefix plus "..." of exactly the budget when the budget is at least 3, and longer than the budget below 3 |
| `Text.Repeat` | lambda_runtime_lister/lambda_runtime_lister.py:96 | `"-" * n` has length n and holds only that character |
| `Text.LJust` | lambda_runtime_lister/lambda_runtime_lister.py:95 | `f"{s:<w}"` keeps s as its prefix, pads with spaces only, and has length max(len(s), w) |
| `Sorting.SortedSet` | vpc_lister/list_vpcs.py:88 | `sorted()` of a dict's keys: strictly increasing, and exactly the keys |
| `Sorting.Items` | ec2_instance_lister/list_ec2_instances.py:192 | `sorted(d.items())` has one pair per entry |
| `Sorting.ItemsSpec` | ec2_instance_lister/list_ec2_instances.py:192 | each pair is (k, d[k]), the keys strictly increase, and every entry appears |
| `Sorting.SortedUnique` | vpc_lister/list_vpcs.py:88 | two strictly sorted lists with the same members are equal, so the sorted key order is unique |
| `Sorting.InsertByKey` | ec2_instance_lister/list_ec2_instances.py:113 | insertion adds exactly one element |
| `Sorting.InsertByKeySorted` | ec2_instance_lister/list_ec2_instances.py:113 | inserting into a list sorted by key keeps it sorted |
| `Sorting.InsertByKeyPlace` | ec2_instance_lister/list_ec2_instances.py:113 | the insertion step puts the new element after every element whose key is not larger, equal keys included, and before every larger one, keeping the others in order |
| `Sorting.SortByKey` | ec2_instance_lister/list_ec2_instances.py:113 | `sorted(..., key=...)`: the result is sorted by key and is a permutation of the input |
| `Regions.InvalidRegions` | ec2_instance_lister/list_ec2_instances.py:246-249 | the rejected regions are exactly the requested ones outside the allow-list |
| `Regions.InvalidRegionsAppend` | ssm_disable_public_doc/ssm_disable_public_doc.py:82 | the check keeps request order: checking a + b reports a's invalid regions, then b's |
| `Grid.ThenEmpty` | ec2_instance_lister/list_ec2_instances.py:41-52 | a cell that yields nothing and does not crash changes nothing, before or after another harvest |
| `Grid.ThenAssociative` | ec2_instance_lister/list_ec2_instances.py:32-59 | running harvests in turn gives the same result however they are grouped, so a row may be split at any region (`RowAppend`) |
| `Grid.ThenExtends` | ec2_instance_lister/list_ec2_instances.py:59 | a later cell never removes what was collected before, and a crash stays a crash |
| `Grid.RowAppend` | ec2_instance_lister/list_ec2_instances.py:41-59 | a row over regions a + b is the row over a, then the row over b, stopping at a crash in a |
| `Grid.RowStopsAtCrash` | ec2_instance_lister/list_ec2_instances.py:59 | once a cell of a row crashes, the later regions change nothing |
| `Grid.SweepStopsAtCrash` | ec2_instance_lister/list_ec2_instances.py:59 | once a profile's row crashes, the later profiles change nothing |
| `Grid.RowMembers` | ec2_instance_lister/list_ec2_instances.py:41-52 | in a row that does not crash, an item is collected iff some region's cell yields it, whatever the other cells did |
| `Grid.SweepMembers` | ec2_instance_lister/list_ec2_instances.py:32-52 | in a sweep that does not crash, an item is collected iff it comes from a cell of a profile whose session opened |
| `Output.Deliver` | ec2_instance_lister/list_ec2_instances.py:108-132 | the count is logged iff the write succeeded, the error iff it failed, and the CSV rows are written iff the format is CSV |
| `Output.Route` | ec2_instance_lister/list_ec2_instances.py:93-132 | an empty collection only warns; a table dry run shows the table and never writes; every other case writes the file and reports the count iff the write succeeds; a JSON dry run prints first |
| `Output.DryRunJsonWritesFile` | ec2_instance_lister/list_ec2_instances.py:97-108 | a JSON dry run of one record writes the file and logs the count |
| `Output.RouteIntended` | ec2_instance_lister/list_ec2_instances.py:164-166 | with the return at the dry-run level, no dry run writes the file, in either format |
| `Output.RouteIntendedAgrees` | ec2_instance_lister/list_ec2_instances.py:108-132 | outside a dry run the intended and the written routing agree |
| `Ec2Lister.FirstNameTag` | ec2_instance_lister/list_ec2_instances.py:63-67 | the name is the value of the first tag whose key is exactly "Name", and there is none iff no tag has that key |
| `Ec2Lister.NormalizeDefaults` | ec2_instance_lister/list_ec2_instances.py:62-91 | the whole record: id, type and state as listed, the cell's account, the display name, one ENI entry per interface id holding the last interface with that id; a missing AZ, private IP, VPC or subnet becomes "N/A", a missing public IP stays absent, and every present field is kept |
| `Ec2Lister.NormalizeInstance` | ec2_instance_lister/list_ec2_instances.py:62-91 | the tag scan with its `break`, the ENI loop and the field defaults build exactly the specified record |
| `Ec2Lister.InstanceKeyInjective` | ec2_instance_lister/list_ec2_instances.py:78 | when the instance id and the account hold no '_', the key determines id, account and region |
| `Ec2Lister.InstanceKeyCanCollide` | ec2_instance_lister/list_ec2_instances.py:78 | without that condition, two different (id, account) pairs share a key |
| `Ec2Lister.StoreReservation` | ec2_instance_lister/list_ec2_instances.py:61-91 | the instance loop stores every instance of a reservation, in order, under its key |
| `Ec2Lister.StorePage` | ec2_instance_lister/list_ec2_instances.py:60-91 | the reservation loop stores every instance of a page, in order |
| `Ec2Lister.CollectCell` | ec2_instance_lister/list_ec2_instances.py:42-91 | a client, account or paginator failure adds nothing; otherwise every listed instance is stored, and a paging exception is reported as a crash |
| `Ec2Lister.CollectRegion` | ec2_instance_lister/list_ec2_instances.py:41-91 | one more region extends the row's collection by that cell |
| `Ec2Lister.CollectRow` | ec2_instance_lister/list_ec2_instances.py:41-91 | the region loop stores exactly the row's items and stops at a crash |
| `Ec2Lister.Collect` | ec2_instance_lister/list_ec2_instances.py:25-91 | `instances_found` is the sweep's sightings stored in order, and the run crashes iff some visited cell raises while paging |
| `Ec2Lister.CollectedKeysListed` | ec2_instance_lister/list_ec2_instances.py:32-91 | every stored key comes from an instance listed by a cell of a profile whose session opened |
| `Ec2Lister.CollectedKeysComplete` | ec2_instance_lister/list_ec2_instances.py:32-91 | every instance listed by such a cell is stored under its key, whatever other cells failed |
| `Ec2Lister.FormatRow` | ec2_instance_lister/list_ec2_instances.py:193-215 | a row is name, id, account and AZ, each truncated or wrapped to its own budget |
| `Ec2Lister.FormatTableData` | ec2_instance_lister/list_ec2_instances.py:182-217 | the fixed headers, and one row per record, built with the 50/50/30/20 percent budgets |
| `Ec2Lister.TableOrder` | ec2_instance_lister/list_ec2_instances.py:192-215 | the table has one row per stored instance; row j shows the instance under the j-th key in sorted order |
| `Ec2Lister.TruncatedRow` | ec2_instance_lister/list_ec2_instances.py:186-207 | in truncate mode, a field within budget is shown unchanged and a longer one is cut to exactly its budget when that is at least 3 |
| `Ec2Lister.Records` | ec2_instance_lister/list_ec2_instances.py:113 | `instances_found.values()` has one record per key |
| `Ec2Lister.RecordsSpec` | ec2_instance_lister/list_ec2_instances.py:113 | every stored record is listed, and nothing else |
| `Ec2Lister.CsvRowsLayout` | ec2_instance_lister/list_ec2_instances.py:110-126 | the file is the 11-column header, then one 11-column row per stored instance |
| `Ec2Lister.CsvRowsSorted` | ec2_instance_lister/list_ec2_instances.py:113-126 | the data rows are ordered by their account, AZ and instance id columns |
| `Ec2Lister.CsvRowsContent` | ec2_instance_lister/list_ec2_instances.py:113-126 | the data rows are a permutation of the stored instances' rows, so every instance has its row exactly once |
| `Ec2Lister.Report` | ec2_instance_lister/list_ec2_instances.py:93-132 | the output phase follows the shared routing, with the wrapped table and the sorted CSV |
| `Ec2Lister.Program` | ec2_instance_lister/list_ec2_instances.py:241-256 | invalid regions are refused before any remote call; otherwise the run crashes iff the sweep does, and outputs the collected instances |
| `VpcLister.NormalizeFields` | vpc_lister/list_vpcs.py:50-66 | the record holds the cell's account and region and the primary CIDR; "cidr6" is the first IPv6 block, or "" without IPv6 associations; there is one association entry per id, holding the last block for it |
| `VpcLister.NormalizeVpc` | vpc_lister/list_vpcs.py:50-66 | the defaults, the IPv6 lookup and the association loop, which merges the growing `tempcidr` after each association, build exactly that record |
| `VpcLister.CollectCell` | vpc_lister/list_vpcs.py:36-66 | a client failure crashes the run; an account or `describe_vpcs` failure adds nothing; otherwise every VPC is stored under its id |
| `VpcLister.CollectRegion` | vpc_lister/list_vpcs.py:35-66 | one more region extends the row's collection by that cell |
| `VpcLister.CollectRow` | vpc_lister/list_vpcs.py:35-66 | the loop over the four fixed regions stores exactly the row's items and stops at a crash |
| `VpcLister.Collect` | vpc_lister/list_vpcs.py:21-66 | `vpcs_found` is the sweep's sightings stored in order; the run crashes iff a client cannot be made |
| `VpcLister.CollectedKeysListed` | vpc_lister/list_vpcs.py:26-66 | every stored VPC id was listed by a cell of a profile whose session opened |
| `VpcLister.CollectedKeysComplete` | vpc_lister/list_vpcs.py:26-66 | every VPC listed by such a cell is stored, whatever other cells failed |
| `VpcLister.FormatRow` | vpc_lister/list_vpcs.py:156-178 | a row is id, account, region and CIDR, each truncated or wrapped to its budget |
| `VpcLister.FormatTableData` | vpc_lister/list_vpcs.py:145-180 | the fixed headers, and one row per VPC with the 50/30/20/20 percent budgets |
| `VpcLister.TableOrder` | vpc_lister/list_vpcs.py:155-178 | one row per stored VPC, in sorted id order |
| `VpcLister.CsvBodyOrder` | vpc_lister/list_vpcs.py:85-95 | one 5-field row per stored VPC, each the row of the VPC its first column names, with strictly increasing ids |
| `VpcLister.CsvBodyComplete` | vpc_lister/list_vpcs.py:88-95 | every stored VPC has its row in the file |
| `VpcLister.Report` | vpc_lister/list_vpcs.py:68-101 | the output phase follows the shared routing |
| `VpcLister.Program` | vpc_lister/list_vpcs.py:19-101 | the run crashes iff the sweep does; otherwise it outputs the collected VPCs |
| `S3Lister.BucketRegionSpec` | s3_bucket_lister/list_s3_buckets.py:48-55 | the region is "" iff the location lookup raised; a missing or empty constraint means "us-east-1"; any other constraint is kept |
| `S3Lister.CollectProfile` | s3_bucket_lister/list_s3_buckets.py:28-59 | a session, account or `list_buckets` failure adds nothing; otherwise every bucket is stored with its region |
| `S3Lister.Collect` | s3_bucket_lister/list_s3_buckets.py:21-59 | `buckets_found` is every profile's sightings stored in order |
| `S3Lister.ListedMembers` | s3_bucket_lister/list_s3_buckets.py:26-59 | a sighting is listed iff some profile contributed it |
| `S3Lister.ProfileSightingsSpec` | s3_bucket_lister/list_s3_buckets.py:36-59 | a profile contributes a bucket iff its session, account and listing succeed and the listing names the bucket; a failed location lookup drops nothing |
| `S3Lister.CollectedBuckets` | s3_bucket_lister/list_s3_buckets.py:26-59 | a bucket is collected iff some profile got as far as listing it, whatever the other profiles did |
| `S3Lister.FormatRow` | s3_bucket_lister/list_s3_buckets.py:146-164 | a row is name, account and region, each truncated or wrapped to its budget |
| `S3Lister.FormatTableData` | s3_bucket_lister/list_s3_buckets.py:136-166 | the fixed headers, and one row per bucket with the 50/30/20 percent budgets |
| `S3Lister.TableOrder` | s3_bucket_lister/list_s3_buckets.py:145-164 | one row per stored bucket, in sorted name order |
| `S3Lister.CsvBodyOrder` | s3_bucket_lister/list_s3_buckets.py:78-86 | one 3-field row per stored bucket, each the row of the bucket its first column names, with strictly increasing names |
| `S3Lister.CsvBodyComplete` | s3_bucket_lister/list_s3_buckets.py:81-86 | every stored bucket has its row in the file |
| `S3Lister.Report` | s3_bucket_lister/list_s3_buckets.py:61-92 | the output phase follows the shared routing |
| `S3Lister.Program` | s3_bucket_lister/list_s3_buckets.py:19-92 | the run always finishes, and outputs the collected buckets |
| `LambdaLister.CollectPage` | lambda_runtime_lister/lambda_runtime_lister.py:88-92 | the page loop appends one row per function that has both a name and a runtime, in order |
| `LambdaLister.CollectCell` | lambda_runtime_lister/lambda_runtime_lister.py:83-92 | a client failure crashes the run; otherwise every page's rows are appended, and a paging exception crashes |
| `LambdaLister.CollectRow` | lambda_runtime_lister/lambda_runtime_lister.py:82-92 | the loop over the three fixed regions appends exactly the row's items and stops at a crash |
| `LambdaLister.Collect` | lambda_runtime_lister/lambda_runtime_lister.py:62-92 | `functions` is the sweep's rows in order; a session or account failure skips the profile |
| `LambdaLister.PageRowsMembers` | lambda_runtime_lister/lambda_runtime_lister.py:88-92 | a row comes from a page iff the page holds a function with that name and runtime, tagged with the cell's account and region |
| `LambdaLister.ListingRowsMembers` | lambda_runtime_lister/lambda_runtime_lister.py:87-92 | a row comes from a listing iff one of its pages holds such a function |
| `LambdaLister.CollectedFunctions` | lambda_runtime_lister/lambda_runtime_lister.py:67-92 | in a run that does not crash, a row is collected iff a profile whose session and account lookup succeeded listed that function in one of the three regions |
| `LambdaLister.ConsoleColumns` | lambda_runtime_lister/lambda_runtime_lister.py:98-99 | a line whose fields fit their widths is 72 characters, with the fields at columns 0, 14 and 57 |
| `LambdaLister.HeaderWidth` | lambda_runtime_lister/lambda_runtime_lister.py:95-96 | the header is 72 characters wide and the rule under it is 70 |
| `LambdaLister.OutputOrder` | lambda_runtime_lister/lambda_runtime_lister.py:94-105 | the console and the file keep collection order, one line or row per function; the file rows carry account, name, runtime and region |
| `LambdaLister.Report` | lambda_runtime_lister/lambda_runtime_lister.py:94-109 | without an output file the table is printed; otherwise the CSV is written, even with no rows |
| `LambdaLister.Program` | lambda_runtime_lister/lambda_runtime_lister.py:61-109 | the run crashes iff the sweep does; otherwise it prints or writes the collected rows |
| `Valkyrie.VersionStepFacts` | s3-valkyrie-deleter/s3_valkyrie.py:44-54 | one version keeps the counters equal to the successful deletions logged; a dry run neither depends on deletions nor counts |
| `Valkyrie.MarkerStepFacts` | s3-valkyrie-deleter/s3_valkyrie.py:56-69 | one delete marker keeps the counters consistent with the log; a dry run neither depends on deletions nor counts |
| `Valkyrie.SweepVersionsFacts` | s3-valkyrie-deleter/s3_valkyrie.py:44-54 | the version loop keeps the counters consistent and leaves the marker counter alone; a dry run does not count |
| `Valkyrie.SweepMarkersFacts` | s3-valkyrie-deleter/s3_valkyrie.py:56-69 | the marker loop keeps the counters consistent and leaves the object counter alone; a dry run does not count |
| `Valkyrie.PageStepFacts` | s3-valkyrie-deleter/s3_valkyrie.py:43-72 | a page keeps the counters consistent; in a dry run it neither depends on deletions nor counts |
| `Valkyrie.SweepPagesFacts` | s3-valkyrie-deleter/s3_valkyrie.py:43-75 | the page loop keeps the counters consistent; in a dry run it neither depends on deletions nor counts |
| `Valkyrie.TargetStepFacts` | s3-valkyrie-deleter/s3_valkyrie.py:32-75 | a target keeps the counters consistent; in a dry run it neither depends on deletions nor counts |
| `Valkyrie.SweepTargetsFacts` | s3-valkyrie-deleter/s3_valkyrie.py:27-75 | all targets keep the counters consistent; a dry run logs the same whatever deletions would do, and counts nothing |
| `Valkyrie.SummaryCounts` | s3-valkyrie-deleter/s3_valkyrie.py:77 | the summary line reports exactly the successful deletions and removals logged before it, and 0 and 0 in a dry run |
| `Valkyrie.FailedDeleteContinues` | s3-valkyrie-deleter/s3_valkyrie.py:48-51 | a failed delete of a complete version is logged, not counted, and the sweep goes on |
| `Valkyrie.VersionsStopAtRaise` | s3-valkyrie-deleter/s3_valkyrie.py:44-54 | once a version raises, the later versions of the page change nothing |
| `Valkyrie.PagesStopAtRaise` | s3-valkyrie-deleter/s3_valkyrie.py:42-75 | once a page raises, the later pages of the target change nothing |
| `Valkyrie.SweepTargetsAppend` | s3-valkyrie-deleter/s3_valkyrie.py:32 | the targets are processed one after another; sweeping a + b is sweeping a, then b |
| `Valkyrie.TargetStepLog` | s3-valkyrie-deleter/s3_valkyrie.py:37-75 | a target only appends to the log; a failing `paginate` logs exactly one error; a raising listing ends with the "busted" error |
| `Valkyrie.PagesLogGrows` | s3-valkyrie-deleter/s3_valkyrie.py:43-72 | the page loop only appends to the log |
| `Valkyrie.PageLogGrows` | s3-valkyrie-deleter/s3_valkyrie.py:44-72 | a page only appends to the log |
| `Valkyrie.VersionsLogGrows` | s3-valkyrie-deleter/s3_valkyrie.py:44-54 | the version loop only appends to the log |
| `Valkyrie.MarkersLogGrows` | s3-valkyrie-deleter/s3_valkyrie.py:56-69 | the marker loop only appends to the log |
| `Valkyrie.BlankPage` | s3-valkyrie-deleter/s3_valkyrie.py:71-72 | a page with no versions and no markers logs only the nothing-to-delete notice |
| `Valkyrie.DeleteVersions` | s3-valkyrie-deleter/s3_valkyrie.py:44-54 | the version loop computes the specified step, stopping at the first version that raises |
| `Valkyrie.RemoveMarkers` | s3-valkyrie-deleter/s3_valkyrie.py:56-69 | the marker loop computes the specified tally |
| `Valkyrie.SweepPage` | s3-valkyrie-deleter/s3_valkyrie.py:43-72 | one page computes the specified step |
| `Valkyrie.SweepTarget` | s3-valkyrie-deleter/s3_valkyrie.py:33-75 | one target computes the specified tally |
| `Valkyrie.SweepAll` | s3-valkyrie-deleter/s3_valkyrie.py:24-77 | `main` crashes iff the session or client cannot be made; otherwise it logs the sweep and then the summary |
| `Valkyrie.ConfirmDestruction` | s3-valkyrie-deleter/s3_valkyrie.py:80-102 | a dry run is confirmed silently; otherwise every target is listed and only the exact reply "yes" confirms |
| `Valkyrie.OnlyExactYes` | s3-valkyrie-deleter/s3_valkyrie.py:97-102 | outside a dry run, confirmation holds iff the reply is "yes"; "Yes", "yes " and "y" are refused |
| `Valkyrie.Program` | s3-valkyrie-deleter/s3_valkyrie.py:105-109 | no deletion runs unless confirmed; otherwise the run crashes iff the client cannot be made, and else logs the sweep |
| `SsmDisable.UpdateRegions` | ssm_disable_public_doc/ssm_disable_public_doc.py:31-47 | the region loop never ends the run and records each cell's outcome in order |
| `SsmDisable.DisableAll` | ssm_disable_public_doc/ssm_disable_public_doc.py:15-47 | `main` never ends the run early; its outcomes are the sweep's, and a session failure skips the profile |
| `SsmDisable.IssuedCalls` | ssm_disable_public_doc/ssm_disable_public_doc.py:23-47 | every call writes "Disable" to the public-sharing setting; a call is made in a cell iff the profile's session opened and the region's client could be made |
| `SsmDisable.Program` | ssm_disable_public_doc/ssm_disable_public_doc.py:77-89 | invalid regions are refused before any remote call; otherwise every cell is visited |

## Findings

| source | as written | input that shows it | evidently intended | confidence | as-written member | corrected member |
|---|---|---|---|---|---|---|
| ec2_instance_lister/list_ec2_instances.py:97-108 | in a dry run the `return` sits in the table branch only, so a JSON dry run prints the collection and then writes the output file; the VPC and S3 listers have the same shape at list_vpcs.py:72-83 and list_s3_buckets.py:65-76 | `--dry-run --outputformat JSON` with one record found | `--dry-run` shows output without writing to a file (list_ec2_instances.py:164-166) | high, not executed | `Output.DryRunJsonWritesFile` | `Output.RouteIntended` |

`Report` and `Program` in the three listers keep the routing as written.
`RouteIntended` is the routing with the `return` moved to the dry-run
level. `RouteIntendedAgrees` shows the two routings agree whenever no dry
run is requested.

Other behaviours of the code that a reader might not expect:

- The EC2 key `id_account_region` is injective only when instance ids and account numbers hold no '_'. `InstanceKeyInjective` proves the conditional statement. `InstanceKeyCanCollide` shows a collision without the condition. AWS identifiers never contain '_'.
- Truncate mode cuts a field to `s[:b-3] + "..."`. When the budget b is below 3, the slice bound is negative and the result is longer than the budget (`Text.Truncate`). Every call in the code passes `wrap=True`, so truncate mode is never reached.
- The Lambda console header is 72 characters wide, but the rule under it is 70 dashes (`LambdaLister.HeaderWidth`).

## Left out

- boto3 calls become fields of each script's `Cloud` value. These calls are treated as infallible: `session.client('sts')`, `session.client('s3')`, and `get_paginator` in the Lambda lister and the deleter. The deleter's session and S3 client are one outcome (`Cloud.client`).
- A `None` account (`.get('Account')` when the key is missing) is not modelled; the account is a string.
- Required-key lookups on listing responses (`inst['InstanceId']`, `vpc['CidrBlock']`, `bucket['Name']` and the like) are assumed present. Their KeyError is not modelled. The optional fields the code reads with `.get` or `in` are modelled.
- The following are outside the model:
  - argument parsing;
  - logging setup and log text;
  - `validate_output_path`;
  - the timestamped default file names;
  - `colorama` styling and the decorative prompt lines;
  - the `input()` call itself (the reply is a parameter).
- `textwrap.wrap` joined by newlines is a parameter (`wrapper`). The terminal width is a parameter. `textwrap.wrap` raising on a zero width is not modelled.
- `tabulate` rendering is not modelled: a table is its headers and rows.
- `json.dumps` output is not modelled. The JSON effects carry no content, and the CSV ENI column is a parameter (`encodeEnis`). The quoting of the `csv` module (including `QUOTE_ALL`) is not modelled: a CSV file is its rows of fields.
- Column budgets `int(w * 0.5)` and the like are computed as `w * 50 / 100` on integers, without floating point.
- Ec2Lister.CsvRowsSorted: leaves the order of rows with equal (account, AZ, id) unstated. Python's sort is stable, so such ties keep the dict's insertion order. The model does not track insertion order: its records reach the sort in key order.
- Ec2Lister.Report: inherits that unstated order of CSV rows with equal (account, AZ, id).
- Ec2Lister.Program: inherits that unstated order of CSV rows with equal (account, AZ, id).
- A write failure part-way through the file is modelled as a failed write; the partial content is not modelled.
- In the deleter, whether `delete_object` succeeds is a function of the call's arguments. Repeating a call with the same arguments gives the same answer.
- Valkyrie's `S3_BUCKETS` and `DRY_RUN` constants become the `targets` and `dryRun` parameters.
