/** The metadata extractor of `toki/utils.py`: which tags decide the capture
    time and the device label, and which reader a file goes to. The decoders
    themselves (PIL for EXIF, hachoir for video containers) are represented by
    what they hand back. */
module Metadata {
  import opened Wrappers
  import opened DateTimes
  import opened Extensions

  /** EXIF tag numbers the program looks up. */
  const TagDateTimeOriginal := 36867
  const TagDateTime := 306
  const TagModel := 272

  const UnknownDevice := "Unknown"

  /** The tag table `img.getexif()` returns, keyed by tag number. */
  type Exif = map<int, string>

  /** A recovered capture time, if any, and a device label. */
  datatype Capture = Capture(stamp: Option<Timestamp>, device: string)

  /** The result the readers fall back to: no time, unknown device. */
  const NoCapture := Capture(None, UnknownDevice)

  /** `s.replace(" ", "_")`. */
  function ReplaceSpaces(s: string): (r: string)
    ensures |r| == |s|
    ensures ' ' !in r
    ensures forall i :: 0 <= i < |s| && s[i] != ' ' ==> r[i] == s[i]
    ensures forall i :: 0 <= i < |s| && s[i] == ' ' ==> r[i] == '_'
  {
    if |s| == 0 then ""
    else [if s[0] == ' ' then '_' else s[0]] + ReplaceSpaces(s[1..])
  }

  /** Replacing spaces twice is replacing them once. */
  lemma ReplaceSpacesIdempotent(s: string)
    ensures ReplaceSpaces(ReplaceSpaces(s)) == ReplaceSpaces(s)
  {
    var r := ReplaceSpaces(s);
    assert forall i :: 0 <= i < |r| ==> r[i] != ' ';
  }

  /** The date tag the reader consults exists but `strptime` rejects its text. */
  predicate DateTagRejected(exif: Exif)
  {
    if TagDateTimeOriginal in exif then ParseExifDate(exif[TagDateTimeOriginal]).None?
    else TagDateTime in exif && ParseExifDate(exif[TagDateTime]).None?
  }

  /** `get_exif_datetime`: `read` is the tag table, or `None` when opening the image raised. */
  function ExifCapture(read: Option<Exif>): (r: Capture)
    ensures ' ' !in r.device
    ensures read.None? || |read.value| == 0 ==> r == NoCapture
    ensures read.Some? && DateTagRejected(read.value) ==> r == NoCapture
    ensures read.Some? && TagDateTimeOriginal in read.value ==>
              r.stamp == ParseExifDate(read.value[TagDateTimeOriginal])
    ensures read.Some? && TagDateTimeOriginal !in read.value && TagDateTime in read.value ==>
              r.stamp == ParseExifDate(read.value[TagDateTime])
    ensures read.Some? && TagDateTimeOriginal !in read.value && TagDateTime !in read.value ==>
              r.stamp.None?
    ensures read.Some? && 0 < |read.value| && !DateTagRejected(read.value) && TagModel in read.value ==>
              r.device == ReplaceSpaces(read.value[TagModel])
    ensures read.Some? && TagModel !in read.value ==> r.device == UnknownDevice
  {
    if read.None? || |read.value| == 0 then NoCapture
    else
      var exif := read.value;
      var text :=
        if TagDateTimeOriginal in exif then Some(exif[TagDateTimeOriginal])
        else if TagDateTime in exif then Some(exif[TagDateTime])
        else None;
      if text.Some? && ParseExifDate(text.value).None? then NoCapture
      else
        var stamp := if text.Some? then ParseExifDate(text.value) else None;
        var camera := if TagModel in exif then ReplaceSpaces(exif[TagModel]) else UnknownDevice;
        Capture(stamp, camera)
  }

  /** What hachoir makes of a video file. */
  datatype VideoProbe =
    | NoParser                                  // `createParser` returned nothing
    | ProbeFailed                               // the parser or the extractor raised
    | NoMetadata                                // `extractMetadata` returned nothing
    | Probed(creationDate: Option<Timestamp>)   // metadata, with or without "creation_date"

  /** `get_video_datetime`. */
  function VideoDateTime(probe: VideoProbe): (r: Option<Timestamp>)
    ensures r.Some? <==> probe.Probed? && probe.creationDate.Some?
    ensures r.Some? ==> r == probe.creationDate
  {
    match probe
    case Probed(date) => date
    case _ => None
  }

  /** What each reader would hand back for one file. */
  datatype MediaProbe = MediaProbe(exif: Option<Exif>, video: VideoProbe)

  /** `get_file_datetime`: dispatch on the lower-cased suffix of the file name. */
  function FileCapture(name: string, probe: MediaProbe): (r: Capture)
    ensures ' ' !in r.device
    ensures KindOf(ExtensionOf(name)) == Photo ==> r == ExifCapture(probe.exif)
    ensures KindOf(ExtensionOf(name)) == Video ==> r == Capture(VideoDateTime(probe.video), UnknownDevice)
    ensures KindOf(ExtensionOf(name)) == Other ==> r == NoCapture
  {
    match KindOf(ExtensionOf(name))
    case Photo => ExifCapture(probe.exif)
    case Video => Capture(VideoDateTime(probe.video), UnknownDevice)
    case Other => NoCapture
  }
}
