/** The path router of `organize_file_worker`: a timestamp, or the modification
    time when there is none, becomes the directories `YYYY/MM/DD` under the output directory. */
module Routing {
  import opened Wrappers
  import opened Text
  import opened DateTimes

  /** `[dt.strftime("%Y"), dt.strftime("%m"), dt.strftime("%d")]`. */
  function DateDirectories(d: Timestamp): seq<string>
  {
    [Decimal(d.year), Pad2(d.month), Pad2(d.day)]
  }

  /** The date organize files by: the metadata timestamp, else the modification time. */
  function RouteDate(meta: Option<Timestamp>, mtime: Timestamp): (d: Timestamp)
    ensures meta.Some? ==> d == meta.value
    ensures meta.None? ==> d == mtime
  {
    meta.GetOr(mtime)
  }

  /** `output_dir / year / month / day`. Every added component is a non-empty
      run of digits that reads back as the chosen date's year, month and day: there is
      no "unknown" directory. */
  function TargetDirectory(outputDir: seq<string>, meta: Option<Timestamp>, mtime: Timestamp): (r: seq<string>)
    ensures |r| == |outputDir| + 3 && r[..|outputDir|] == outputDir
    ensures forall i :: |outputDir| <= i < |r| ==> 1 <= |r[i]| && AllDigits(r[i])
    ensures DecimalValue(r[|outputDir|]) == RouteDate(meta, mtime).year
    ensures DecimalValue(r[|outputDir| + 1]) == RouteDate(meta, mtime).month
    ensures DecimalValue(r[|outputDir| + 2]) == RouteDate(meta, mtime).day
    ensures |r[|outputDir| + 1]| == 2 && |r[|outputDir| + 2]| == 2
  {
    var d := RouteDate(meta, mtime);
    DecimalRoundTrip(d.year);
    outputDir + DateDirectories(d)
  }
}
