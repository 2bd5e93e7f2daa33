/** What the three inventory listers (EC2, VPC, S3) do with a finished
    collection: warn when it is empty, show it on the console in a dry run,
    and write it to the output file as CSV or JSON. */
module Output {

  /** `--outputformat`. */
  datatype Format = Json | Csv

  /** One observable step of the output phase, in the order it happens. */
  datatype Effect =
    | NoneFound                                        // the "No ... found" warning
    | ShowJson                                         // print(json.dumps(collection))
    | ShowTable(headers: seq<string>, rows: seq<seq<string>>)
    | WriteCsv(rows: seq<seq<string>>)                 // the file's rows, header first
    | WriteJson                                        // the file holds json.dumps(collection)
    | WriteFailed                                      // the "Failed to write" error
    | Wrote(count: nat)                                // the "Wrote N ..." message

  /** The file-writing step: on success the file content and then the count
      written; on failure only the error. */
  function Deliver(fmt: Format, csvRows: seq<seq<string>>, count: nat, writeOk: bool): (r: seq<Effect>)
    ensures writeOk <==> Wrote(count) in r
    ensures !writeOk <==> WriteFailed in r
    ensures !writeOk ==> r == [WriteFailed]
    ensures writeOk ==> r[|r| - 1] == Wrote(count) && (fmt == Csv <==> WriteCsv(csvRows) in r)
  {
    if !writeOk then [WriteFailed]
    else [if fmt == Csv then WriteCsv(csvRows) else WriteJson, Wrote(count)]
  }

  /** Whether an output phase ever touches the output file. */
  predicate WritesFile(effects: seq<Effect>) {
    exists e :: e in effects && (e.WriteCsv? || e.WriteJson? || e.WriteFailed? || e.Wrote?)
  }

  /** The routing shared by the three listers: an empty collection only warns;
      a dry run in table mode shows the table and stops; a dry run in JSON
      mode prints the document and then still writes the file, since the
      `return` sits in the table branch only; otherwise the file is written. */
  function Route(count: nat, fmt: Format, dryRun: bool, table: Effect,
                 csvRows: seq<seq<string>>, writeOk: bool): (r: seq<Effect>)
    requires table.ShowTable?
    ensures count == 0 <==> r == [NoneFound]
    ensures count > 0 && dryRun && fmt == Csv ==> r == [table] && !WritesFile(r)
    ensures count > 0 && !(dryRun && fmt == Csv) ==>
              WritesFile(r) && (Wrote(count) in r <==> writeOk) && (WriteFailed in r <==> !writeOk)
    ensures count > 0 && dryRun && fmt == Json ==> r[0] == ShowJson
  {
    if count == 0 then [NoneFound]
    else if dryRun && fmt == Csv then [table]
    else
      var shown: seq<Effect> := if dryRun then [ShowJson] else [];
      var r := shown + Deliver(fmt, csvRows, count, writeOk);
      assert r[|r| - 1] in r && r[|r| - 1] != NoneFound;
      assert Wrote(count) !in shown && WriteFailed !in shown;
      r
  }

  /** As written, a dry run in JSON mode still writes the output file, although
      `--dry-run` promises output without writing to a file. */
  lemma DryRunJsonWritesFile(csvRows: seq<seq<string>>)
    ensures var r := Route(1, Json, true, ShowTable([], []), csvRows, true);
            WritesFile(r) && Wrote(1) in r
  {
  }

  /** The routing with the `return` at the level of the dry-run test: a dry
      run shows the collection in either format and never touches the file. */
  function RouteIntended(count: nat, fmt: Format, dryRun: bool, table: Effect,
                         csvRows: seq<seq<string>>, writeOk: bool): (r: seq<Effect>)
    requires table.ShowTable?
    ensures count == 0 <==> r == [NoneFound]
    ensures dryRun ==> !WritesFile(r)
    ensures count > 0 && dryRun ==> r == [if fmt == Json then ShowJson else table]
    ensures count > 0 && !dryRun ==> r == Deliver(fmt, csvRows, count, writeOk)
  {
    if count == 0 then [NoneFound]
    else if dryRun then [if fmt == Json then ShowJson else table]
    else
      var r := Deliver(fmt, csvRows, count, writeOk);
      assert r[|r| - 1] in r && r[|r| - 1] != NoneFound;
      r
  }

  /** Outside a dry run the two routings agree. */
  lemma RouteIntendedAgrees(count: nat, fmt: Format, table: Effect, csvRows: seq<seq<string>>, writeOk: bool)
    requires table.ShowTable?
    ensures Route(count, fmt, false, table, csvRows, writeOk) == RouteIntended(count, fmt, false, table, csvRows, writeOk)
  {
  }
}
