# toki: per-file naming and routing, in Dafny

toki renames photos and videos to canonical names
`<DATEPART>_<A|C>_<Device>_<fingerprint><ext>` (`rename`) or sorts them into
`<out>/YYYY/MM/DD/` directories (`organize`). This project models the per-file
pipeline of both commands and proves what it promises:

- which files are collected (extension test, case-insensitive);
- how the metadata readers pick the capture time and device label:
  EXIF tag precedence, the `YYYY:MM:DD HH:MM:SS` parse, spaces in the model name,
  the photo/video/other dispatch;
- the MD5 fingerprint with its truncation and all-zero sentinel;
- the canonical name and the date directories;
- the `_dup<N>` collision loop;
- the reports and filesystem operations of the two workers;
- the empty-listing check and the default worker count.

Modules, one per file:

| module | file | models |
|---|---|---|
| `Wrappers` | wrappers.dfy | `Option`, for Python's `None` |
| `Text` | text.dfy | `str.lower`, `str.rfind`, `str(int)`, `int(str)`, `%02d`, `str.join` |
| `Paths` | paths.dfy | `PurePath.suffix` / `.stem` (rfind of '.', not at either end), `str(path)` |
| `DateTimes` | datetimes.dfy | `datetime` validity, `strptime("%Y:%m:%d %H:%M:%S")`, `strftime("%Y%m%d_%H%M%S")` |
| `Extensions` | extensions.dfy | `SUPPORTED_EXTENSIONS`, the photo and video tables, `path.suffix.lower()` |
| `Metadata` | metadata.dfy | `get_exif_datetime`, `get_video_datetime`, `get_file_datetime` |
| `Fingerprint` | fingerprint.dfy | `compute_file_hash`, `HASH_LENGTH` |
| `Naming` | naming.dfy | the canonical name and the duplicate-suffix loop |
| `Routing` | routing.dfy | the `YYYY/MM/DD` target directory of `organize` |
| `Workers` | workers.dfy | `rename_file_worker`, `organize_file_worker` |
| `Batch` | batch.dfy | `collect_files`, the empty-listing check, the default worker count |

How the outside world appears in the model:

- A directory is the set of names present in it (`taken`). This is what `exists()` answers.
- The EXIF decoder is the tag table it returns (`map<int, string>`), or `None` when
  opening the image raises.
- The video decoder is a `VideoProbe`: no parser, a raised error, no metadata, or
  metadata with or without a creation date.
- The file's bytes are an `Option<seq<byte>>`, with `None` when reading raises.
- MD5 is a function parameter returning 32 lower-case hex digits.
- The modification time is a timestamp parameter.
- The outcome of `shutil.move` / `copy2` / `mkdir` is a parameter: `None` for success,
  or the error text. In `organize`, `mkdir` and the copy or move have separate outcomes.
- Workers return their report line, the destination path and the filesystem operations
  they attempt, in order, up to and including the first one that raises. A dry run
  attempts none.

Behaviour of the code worth knowing:

- A second `rename` over already-renamed files is not a no-op. The file's own name is
  present in its directory, so a file that already carries its canonical name is moved
  to `<name>_dup1<ext>`. `Workers.RenameWorker` states this: its destination is never a
  taken name.
- Only the `' '` character of the device label is replaced, not other whitespace.
- `%Y` is written without zero padding, as the C library on Linux does and as Python up
  to 3.12 passes it through. This is the same Python version the `pathlib` model follows.
  Newer Python releases may pad `%Y` to four digits themselves; that is not modelled. The
  15-character `YYYYMMDD_HHMMSS` shape is proved for four-digit years (1000 to 9999).

## Model

| member | source | states |
|---|---|---|
| `Batch.CollectFiles` | toki/main.py:22-29 | every collected path is a listed path with a supported lower-cased suffix; each listed supported path appears as often as it was listed, and unsupported ones never appear |
| `Batch.CollectNothing` | toki/main.py:137-142 | the collection is empty exactly when no listed file has a supported extension |
| `Batch.PlanBatch` | toki/main.py:137-154 | nothing to do iff no supported file; otherwise all collected files are dispatched on a pool of at least one worker: `--workers` as given, or else exactly `max(1, cpu_count - 1)`; the default fails only when `os.cpu_count()` gives `None`; a `--workers` value below 1 makes the pool constructor raise instead of dispatching |
| `Batch.DefaultWorkers` | toki/main.py:149-150 | `max(1, cpu_count - 1)` is at least 1 and at least `cpu_count - 1`, equal to it when `cpu_count >= 2`; a `None` CPU count yields no value (the subtraction raises) |
| `Extensions.ExtensionIgnoresCase` | toki/main.py:27 | any upper/lower-case spelling of a supported extension after a non-empty stem is collected, and its lower-cased form is the extension used |
| `Extensions.SupportedExtensionShape` | toki/utils.py:12 | every supported extension is lower case, begins with its only '.' and has at least four characters |
| `Extensions.ExtensionTablesPartition` | toki/utils.py:75-77 | the photo and video tables are disjoint and together are exactly `SUPPORTED_EXTENSIONS` |
| `Extensions.KindOf` | toki/utils.py:73-81 | photo iff in the photo table, video iff in the video table, and one of the two iff supported |
| `Metadata.ReplaceSpaces` | toki/utils.py:46-47 | same length, no `' '` left, every `' '` becomes `'_'` and every other character is kept |
| `Metadata.ReplaceSpacesIdempotent` | toki/utils.py:47 | replacing spaces in an already-replaced label changes nothing |
| `Metadata.ExifCapture` | toki/utils.py:28-51 | device never contains a space; unreadable or empty EXIF gives (None, "Unknown"); tag 36867, when present, alone decides the time; tag 306 is consulted only without 36867; a rejected date text discards a present Model tag too; otherwise the device is the Model tag with spaces replaced, or "Unknown" without it |
| `Metadata.VideoDateTime` | toki/utils.py:54-68 | a time is returned iff the container was parsed, metadata was extracted and it carries a creation date; that date is returned |
| `Metadata.FileCapture` | toki/utils.py:71-81 | photo extensions give the EXIF result; video extensions give the video time with device "Unknown"; any other extension gives (None, "Unknown"); the device never contains a space |
| `Fingerprint.FileHash` | toki/utils.py:16-25 | always hex digits; on a successful read a prefix of the MD5 digest of Python-slice length `[:hash_length]`; on a failed read all '0' with the length of `"00000000"[:hash_length]` |
| `Fingerprint.DefaultFingerprintLength` | toki/utils.py:13-25 | with the default `HASH_LENGTH` the fingerprint has exactly 8 characters, none of them a '.' |
| `DateTimes.ParseThenFormat` | toki/utils.py:39-44 | a date text accepted by the EXIF parse, formatted with `%Y%m%d_%H%M%S`, gives back the same digits with the separators dropped and '_' between date and time |
| `DateTimes.ParseExifRoundTrip` | toki/utils.py:39-44 | the parse reads the text an EXIF writer stores for any valid timestamp back into that timestamp |
| `DateTimes.ParseExample` | toki/utils.py:40-42 | "2024:01:23 10:15:30" parses to 23 January 2024 10:15:30 |
| `DateTimes.FormatExample` | toki/main.py:45 | 23 January 2024 10:15:30 formats as "20240123_101530" |
| `DateTimes.StampShape` | toki/main.py:45 | for a four-digit year the date part has 15 characters: eight digits, '_' at index 8, six digits |
| `DateTimes.StampRoundTrip` | toki/main.py:45 | the formatted stamp reads back into the timestamp it came from |
| `Naming.DatePartShape` | toki/main.py:43-48 | the date part is "UnknownDate" exactly when there is no timestamp; otherwise a 15-character stamp that reads back to the timestamp |
| `Naming.CanonicalNameRoundTrip` | toki/main.py:43-51 | the canonical name splits back into its fields: the timestamp, confidence 'A' iff there is a timestamp and 'C' otherwise, the device label, the fingerprint and the lower-cased extension |
| `Naming.CanonicalNameSplit` | toki/main.py:51-56 | the `suffix` of a canonical name is its extension and its `stem` is everything before it, so the dup names grow from the whole canonical base |
| `Paths.SplitName` | toki/main.py:56-59 | for a non-empty stem and a one-dot extension, `stem` and `suffix` of `stem + ext` give back the two parts |
| `Naming.DupNameInjective` | toki/main.py:59 | `base_dup<i>ext` and `base_dup<j>ext` are equal only when `i == j` |
| `Naming.ResolutionUnique` | toki/main.py:55-60 | the loop's outcome is determined by the candidate and the taken names: two resolutions of the same input are equal |
| `Naming.ResolveCollision` | toki/main.py:55-60 | the result is never taken; a free candidate is returned unchanged; otherwise the result is `stem_dup<k>ext` for the original stem, where every `_dup<j>` with `j < k` is taken (the least free counter); the loop terminates |
| `Routing.RouteDate` | toki/main.py:80-85 | the metadata timestamp when there is one, else the modification time |
| `Routing.TargetDirectory` | toki/main.py:87-92 | the output directory followed by exactly three non-empty all-digit components that read back as the chosen date's year, month and day; no "unknown" directory exists |
| `Workers.RenameWorker` | toki/main.py:32-69 | unsupported extension: no report and no operation; otherwise it returns the canonical candidate it built, and the destination stays in the file's directory and resolves that candidate against the taken names, with `_dup` names on the candidate's stem and the lower-cased extension; a dry run issues no operation and reports "Would rename: …"; a real run issues one move and reports "Renamed: …", or "Error renaming <path>: <error>" when the move fails |
| `Workers.OrganizeDestination` | toki/main.py:72-101 | unsupported extension: no destination; otherwise a path under the output directory, in the dated target directory, whose name resolves the original file name, with case kept, against the taken names; `_dup` names use the original stem and the lower-cased extension |
| `Workers.OrganizeRun` | toki/main.py:108-116 | `mkdir` comes first; when it raises, no copy or move is attempted and its error is reported; otherwise the copy or move follows, and its error or the success line is reported |
| `Workers.OrganizeWorker` | toki/main.py:72-116 | as written: unsupported extension gives no report and no operation; otherwise the destination of `OrganizeDestination`; a dry run attempts nothing and reports "Would copy/move: …"; a real run attempts `mkdir`, then the copy or move only if `mkdir` succeeded; success is reported with `action.capitalize() + "d"`, so a copy reports "Copyd: …"; failure with `action + "ing"`, so a failed move reports "Error moveing …" |
| `Workers.OrganizeWorkerCorrected` | toki/main.py:72-116 | the same placement and operations as `OrganizeWorker`, with the corrected verbs: a copy reports "Copied: …" and a failed move "Error moving …" |
| `Workers.CopyReportAsWritten` | toki/main.py:114 | as written, a successful copy is reported with the verb "Copyd", which does not end in "ed" |
| `Workers.MoveErrorAsWritten` | toki/main.py:116 | as written, a failed move is reported as "Error moveing", which does not match the "Moving" announced at line 205 |
| `Workers.PastTense` | toki/main.py:114 | the corrected success verb ends in "ed" and starts with the capitalised action's letter |
| `Workers.Gerund` | toki/main.py:116 | the corrected failure verb, capitalised, is the action the command announces ("Copying" / "Moving") |

## Left out

- The `click` commands, the `tqdm` progress output and the final "Completed" line are
  left out. They are interface plumbing. Only the empty-listing check and the worker count
  are modelled (`Batch.PlanBatch`).
- The `ProcessPoolExecutor` fan-out and `as_completed` collection are left out.
  - Their point is concurrency.
  - The unsynchronised check-then-act on a shared directory cannot be expressed per file.
  - Each worker is modelled against a snapshot of its directory's names.
- Real filesystem effects are represented, not performed: `shutil.move`, `shutil.copy2`,
  `mkdir`, `exists` and `stat`. The outcome of the operation is an input.
- In `organize`, `path.stat()` sits outside the `try`, so a failing `stat` raises out of the
  worker. The modification time is taken as given, and that exception is not modelled.
- `path.with_name` raises for a device label containing '/'. This happens outside the `try`.
  Names are plain strings in the model, and that exception is not modelled.
- The internals of PIL, hachoir and MD5 are foreign decoders and a hash, so they are
  represented by what they return. Which tags PIL's `getexif()` exposes at top level is the
  decoder's concern.
- An EXIF value that is not text makes `strptime` raise. This is not modelled: tag values are strings.
- `datetime.fromtimestamp` converts the modification time to local time. The time zone is
  not modelled, and the local date is an input.
- `DateTimes.ParseExifDate` accepts only the fixed-width layout. `strptime` is more lenient:
  it accepts one-digit month, day, hour, minute and second fields, and runs of whitespace
  for the space. That leniency is not modelled.
- `Text.Lower` folds only ASCII letters. For the extension test this is exact, since no
  other character lower-cases to a letter of a supported extension. Elsewhere full Unicode
  case mapping is not modelled.
- `Paths.Suffix` / `Paths.Stem` follow `pathlib` up to Python 3.12: a name ending in '.'
  has no suffix.
- `Paths.PathText` joins components with '/'. It does not model `pathlib`'s normalisation of
  "." and of the root.
- `Batch.PlanBatch`: on Windows `ProcessPoolExecutor` also rejects more than 61 workers.
  That platform limit is not modelled.
- `main.py` at the repository root only prints a notice and exits. It is not part of this model.
- `DateTimes.StampShape`, `DateTimes.StampRoundTrip`, `DateTimes.ParseExifRoundTrip`,
  `Naming.DatePartShape`, `Naming.StemRoundTrip` and `Naming.CanonicalNameRoundTrip`:
  stated for years 1000 to 9999 only. Below that, `%Y` prints fewer digits on Linux.
- `DateTimes.ParseThenFormat`: stated for date texts whose year does not begin with '0',
  for the same reason.

## Findings

| source | as written | input that shows it | evidently intended | confidence | as-written member | corrected member |
|---|---|---|---|---|---|---|
| toki/main.py:114 | `f"{action.capitalize()}d: …"` reports a successful copy as "Copyd: …" | `organize --copy` on any supported file, copy succeeds | "Copied: …" | high; not executed | `Workers.OrganizeWorker`, `Workers.CopyReportAsWritten` | `Workers.OrganizeWorkerCorrected`, `Workers.PastTense` |
| toki/main.py:116 | `f"Error {action}ing …"` reports a failed move as "Error moveing …" | `organize` without `--copy`, the move raises | "Error moving …", matching the "Moving" of line 205 | high; not executed | `Workers.OrganizeWorker`, `Workers.MoveErrorAsWritten` | `Workers.OrganizeWorkerCorrected`, `Workers.Gerund` |
