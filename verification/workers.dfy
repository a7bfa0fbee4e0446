/** The two per-file workers of `toki/main.py`. The filesystem is represented by the
    set of names present in the target directory and by the outcome of the one
    operation the worker performs; the workers report the operations they issue. */
module Workers {
  import opened Wrappers
  import opened Text
  import opened Paths
  import opened DateTimes
  import opened Extensions
  import opened Metadata
  import opened Fingerprint
  import opened Naming
  import opened Routing

  /** The arrow between the old and the new name in every report line. */
  const Arrow := " \U{2192} "

  /** A filesystem operation a worker issues. */
  datatype FsOp =
    | Move(src: FilePath, dst: FilePath)     // `shutil.move`
    | Copy(src: FilePath, dst: FilePath)     // `shutil.copy2`
    | MakeDirs(dir: seq<string>)             // `mkdir(parents=True, exist_ok=True)`

  /** The name `rename_file_worker` builds before looking for collisions. */
  function RenameCandidate(name: string, probe: MediaProbe, content: Option<seq<byte>>,
                           md5: seq<byte> -> HexDigest): string
  {
    CanonicalName(FileCapture(name, probe), FileHash(content, md5, HashLength), ExtensionOf(name))
  }

  /** `rename_file_worker((path, dry_run))`.
      `probe`, `content` and `md5` stand for what the metadata readers and the hash see;
      `taken` is the set of names present in the file's directory; `failure` is the error
      `shutil.move` raises, or `None` when it succeeds. Besides the report line, the
      worker returns its destination, the operations it issues and the canonical
      candidate it tried first. */
  method RenameWorker(path: FilePath, probe: MediaProbe, content: Option<seq<byte>>,
                      md5: seq<byte> -> HexDigest, taken: set<string>, dryRun: bool,
                      failure: Option<string>)
    returns (message: Option<string>, dest: Option<FilePath>, ops: seq<FsOp>, candidate: string)
    ensures dryRun ==> ops == []
    ensures dest.Some? && !dryRun ==> ops == [Move(path, dest.value)]
    ensures dest.Some? && dryRun ==>
              message == Some("Would rename: " + path.name + Arrow + dest.value.name)
    ensures dest.Some? && !dryRun && failure.None? ==>
              message == Some("Renamed: " + path.name + Arrow + dest.value.name)
    ensures dest.Some? && !dryRun && failure.Some? ==>
              message == Some("Error renaming " + PathText(path) + ": " + failure.value)
    ensures dest.Some? ==> dest.value.dir == path.dir && dest.value.name !in taken
    ensures dest.Some? ==> candidate == RenameCandidate(path.name, probe, content, md5)
    ensures dest.Some? ==> Resolves(candidate, Stem(candidate), ExtensionOf(path.name), taken, dest.value.name)
    ensures !IsSupported(path.name) ==> message.None? && dest.None? && ops == []
    ensures IsSupported(path.name) ==> message.Some? && dest.Some?
  {
    var ext := ExtensionOf(path.name);
    if ext !in SupportedExtensions {
      return None, None, [], "";
    }
    candidate := RenameCandidate(path.name, probe, content, md5);
    var name, _ := ResolveCollision(candidate, Stem(candidate), ext, taken);
    var target := FilePath(path.dir, name);
    dest := Some(target);
    if dryRun {
      message := Some("Would rename: " + path.name + Arrow + name);
      ops := [];
    } else {
      ops := [Move(path, target)];
      match failure
      case None => message := Some("Renamed: " + path.name + Arrow + name);
      case Some(e) => message := Some("Error renaming " + PathText(path) + ": " + e);
    }
  }

  /** `action = "copy" if copy_mode else "move"`. */
  function ActionWord(copyMode: bool): string
  {
    if copyMode then "copy" else "move"
  }

  /** The action the `organize` command announces before the batch starts. */
  function HeaderAction(copyMode: bool): string
  {
    if copyMode then "Copying" else "Moving"
  }

  /** The success verb as written: `action.capitalize() + "d"`. */
  function PastTenseAsWritten(action: string): string
  {
    Capitalize(action) + "d"
  }

  /** The failure verb as written: `action + "ing"`. */
  function GerundAsWritten(action: string): string
  {
    action + "ing"
  }

  /** As written, a successful copy is reported as "Copyd", which does not end in "ed". */
  lemma CopyReportAsWritten()
    ensures PastTenseAsWritten(ActionWord(true)) == "Copyd"
    ensures PastTenseAsWritten(ActionWord(true))[3..] != "ed"
  {
  }

  /** As written, a failed move is reported as "Error moveing", unlike the "Moving"
      the command itself announces. */
  lemma MoveErrorAsWritten()
    ensures GerundAsWritten(ActionWord(false)) == "moveing"
    ensures Capitalize(GerundAsWritten(ActionWord(false))) != HeaderAction(false)
  {
    assert Capitalize("moveing") == "Moveing";
  }

  /** The success verb, corrected: a past tense ending in "ed" of the action word. */
  function PastTense(copyMode: bool): (r: string)
    ensures 3 <= |r| && r[|r| - 2..] == "ed"
    ensures r[0] == Capitalize(ActionWord(copyMode))[0]
  {
    if copyMode then "Copied" else "Moved"
  }

  /** The failure verb, corrected: the same gerund the command announces. */
  function Gerund(copyMode: bool): (r: string)
    ensures Capitalize(r) == HeaderAction(copyMode)
  {
    if copyMode then "copying" else "moving"
  }

  /** `target_path.relative_to(output_dir)`. */
  function RelativeText(outputDir: seq<string>, target: FilePath): string
    requires |outputDir| <= |target.dir|
  {
    Join(target.dir[|outputDir|..] + [target.name], "/")
  }

  /** Where `organize_file_worker` puts a file: `None` for an unsupported extension,
      otherwise the dated directory under `outputDir` and the first free name there.
      `mtime` is the file's modification time as a local timestamp; `taken` is the set of
      names present in the dated target directory. */
  method OrganizeDestination(path: FilePath, outputDir: seq<string>, probe: MediaProbe, mtime: Timestamp,
                             taken: set<string>)
    returns (dest: Option<FilePath>)
    ensures dest.Some? ==> outputDir <= dest.value.dir
    ensures dest.Some? ==> dest.value.name !in taken
    ensures dest.Some? ==>
              dest.value.dir == TargetDirectory(outputDir, FileCapture(path.name, probe).stamp, mtime)
    ensures dest.Some? ==>
              Resolves(path.name, Stem(path.name), ExtensionOf(path.name), taken, dest.value.name)
    ensures !IsSupported(path.name) ==> dest.None?
    ensures IsSupported(path.name) ==> dest.Some?
  {
    var ext := ExtensionOf(path.name);
    if ext !in SupportedExtensions {
      return None;
    }
    var stamp := FileCapture(path.name, probe).stamp;
    var dir := TargetDirectory(outputDir, stamp, mtime);
    var name, _ := ResolveCollision(path.name, Stem(path.name), ext, taken);
    dest := Some(FilePath(dir, name));
  }

  /** The `try` block of a real `organize` run for `target`, with given success and failure
      verbs: the directory creation, then the copy or move unless `mkdir` raised, and the
      report of the first error or of success. */
  method OrganizeRun(path: FilePath, outputDir: seq<string>, target: FilePath, copyMode: bool,
                     mkdirFailure: Option<string>, opFailure: Option<string>, success: string, failing: string)
    returns (message: string, ops: seq<FsOp>)
    requires outputDir <= target.dir
    ensures mkdirFailure.Some? ==> ops == [MakeDirs(target.dir)]
    ensures mkdirFailure.None? ==>
              ops == [MakeDirs(target.dir), if copyMode then Copy(path, target) else Move(path, target)]
    ensures mkdirFailure.Some? ==>
              message == "Error " + failing + " " + PathText(path) + ": " + mkdirFailure.value
    ensures mkdirFailure.None? && opFailure.Some? ==>
              message == "Error " + failing + " " + PathText(path) + ": " + opFailure.value
    ensures mkdirFailure.None? && opFailure.None? ==>
              message == success + ": " + path.name + Arrow + RelativeText(outputDir, target)
  {
    match mkdirFailure
    case Some(e) =>
      ops := [MakeDirs(target.dir)];
      message := "Error " + failing + " " + PathText(path) + ": " + e;
    case None =>
      ops := [MakeDirs(target.dir), if copyMode then Copy(path, target) else Move(path, target)];
      match opFailure
      case Some(e) => message := "Error " + failing + " " + PathText(path) + ": " + e;
      case None => message := success + ": " + path.name + Arrow + RelativeText(outputDir, target);
  }

  /** `organize_file_worker((path, output_dir, dry_run, copy_mode))`, with its report verbs
      as written. `mkdirFailure` is the error `target_dir.mkdir` raises and `opFailure` the
      error of `shutil.copy2` / `shutil.move`; `None` is success. */
  method OrganizeWorker(path: FilePath, outputDir: seq<string>, probe: MediaProbe, mtime: Timestamp,
                        taken: set<string>, dryRun: bool, copyMode: bool,
                        mkdirFailure: Option<string>, opFailure: Option<string>)
    returns (message: Option<string>, dest: Option<FilePath>, ops: seq<FsOp>)
    ensures dest.Some? ==> outputDir <= dest.value.dir
    ensures dryRun ==> ops == []
    ensures dest.Some? && !dryRun && mkdirFailure.Some? ==> ops == [MakeDirs(dest.value.dir)]
    ensures dest.Some? && !dryRun && mkdirFailure.None? ==>
              ops == [MakeDirs(dest.value.dir), if copyMode then Copy(path, dest.value) else Move(path, dest.value)]
    ensures dest.Some? && dryRun ==>
              message == Some("Would " + ActionWord(copyMode) + ": " + PathText(path) + Arrow
                              + RelativeText(outputDir, dest.value))
    ensures dest.Some? && !dryRun && mkdirFailure.None? && opFailure.None? ==>
              message == Some(PastTenseAsWritten(ActionWord(copyMode)) + ": " + path.name + Arrow
                              + RelativeText(outputDir, dest.value))
    ensures dest.Some? && !dryRun && mkdirFailure.None? && opFailure.None? && copyMode ==>
              message == Some("Copyd" + ": " + path.name + Arrow + RelativeText(outputDir, dest.value))
    ensures dest.Some? && !dryRun && mkdirFailure.Some? ==>
              message == Some("Error " + GerundAsWritten(ActionWord(copyMode)) + " " + PathText(path) + ": "
                              + mkdirFailure.value)
    ensures dest.Some? && !dryRun && mkdirFailure.None? && opFailure.Some? ==>
              message == Some("Error " + GerundAsWritten(ActionWord(copyMode)) + " " + PathText(path) + ": "
                              + opFailure.value)
    ensures dest.Some? && !dryRun && mkdirFailure.None? && opFailure.Some? && !copyMode ==>
              message == Some("Error " + "moveing" + " " + PathText(path) + ": " + opFailure.value)
    ensures dest.Some? ==> dest.value.name !in taken
    ensures dest.Some? ==>
              dest.value.dir == TargetDirectory(outputDir, FileCapture(path.name, probe).stamp, mtime)
    ensures dest.Some? ==>
              Resolves(path.name, Stem(path.name), ExtensionOf(path.name), taken, dest.value.name)
    ensures !IsSupported(path.name) ==> message.None? && dest.None? && ops == []
    ensures IsSupported(path.name) ==> message.Some? && dest.Some?
  {
    dest := OrganizeDestination(path, outputDir, probe, mtime, taken);
    if dest.None? {
      return None, None, [];
    }
    var target := dest.value;
    var action := ActionWord(copyMode);
    if dryRun {
      message := Some("Would " + action + ": " + PathText(path) + Arrow + RelativeText(outputDir, target));
      ops := [];
    } else {
      if copyMode {
        CopyReportAsWritten();
      } else {
        MoveErrorAsWritten();
      }
      var text;
      text, ops := OrganizeRun(path, outputDir, target, copyMode, mkdirFailure, opFailure,
                               PastTenseAsWritten(action), GerundAsWritten(action));
      message := Some(text);
    }
  }

  /** `organize_file_worker` with the report verbs corrected: "Copied" / "Moved" on
      success and "copying" / "moving" on failure. Placement and operations are those of
      `OrganizeWorker`. */
  method OrganizeWorkerCorrected(path: FilePath, outputDir: seq<string>, probe: MediaProbe, mtime: Timestamp,
                                 taken: set<string>, dryRun: bool, copyMode: bool,
                                 mkdirFailure: Option<string>, opFailure: Option<string>)
    returns (message: Option<string>, dest: Option<FilePath>, ops: seq<FsOp>)
    ensures dest.Some? ==> outputDir <= dest.value.dir
    ensures dryRun ==> ops == []
    ensures dest.Some? && !dryRun && mkdirFailure.Some? ==> ops == [MakeDirs(dest.value.dir)]
    ensures dest.Some? && !dryRun && mkdirFailure.None? ==>
              ops == [MakeDirs(dest.value.dir), if copyMode then Copy(path, dest.value) else Move(path, dest.value)]
    ensures dest.Some? && dryRun ==>
              message == Some("Would " + ActionWord(copyMode) + ": " + PathText(path) + Arrow
                              + RelativeText(outputDir, dest.value))
    ensures dest.Some? && !dryRun && mkdirFailure.None? && opFailure.None? ==>
              message == Some(PastTense(copyMode) + ": " + path.name + Arrow + RelativeText(outputDir, dest.value))
    ensures dest.Some? && !dryRun && mkdirFailure.None? && opFailure.None? && copyMode ==>
              message == Some("Copied" + ": " + path.name + Arrow + RelativeText(outputDir, dest.value))
    ensures dest.Some? && !dryRun && mkdirFailure.Some? ==>
              message == Some("Error " + Gerund(copyMode) + " " + PathText(path) + ": " + mkdirFailure.value)
    ensures dest.Some? && !dryRun && mkdirFailure.None? && opFailure.Some? ==>
              message == Some("Error " + Gerund(copyMode) + " " + PathText(path) + ": " + opFailure.value)
    ensures dest.Some? && !dryRun && mkdirFailure.None? && opFailure.Some? && !copyMode ==>
              message == Some("Error " + "moving" + " " + PathText(path) + ": " + opFailure.value)
    ensures dest.Some? ==> dest.value.name !in taken
    ensures dest.Some? ==>
              dest.value.dir == TargetDirectory(outputDir, FileCapture(path.name, probe).stamp, mtime)
    ensures dest.Some? ==>
              Resolves(path.name, Stem(path.name), ExtensionOf(path.name), taken, dest.value.name)
    ensures !IsSupported(path.name) ==> message.None? && dest.None? && ops == []
    ensures IsSupported(path.name) ==> message.Some? && dest.Some?
  {
    dest := OrganizeDestination(path, outputDir, probe, mtime, taken);
    if dest.None? {
      return None, None, [];
    }
    var target := dest.value;
    if dryRun {
      message := Some("Would " + ActionWord(copyMode) + ": " + PathText(path) + Arrow + RelativeText(outputDir, target));
      ops := [];
    } else {
      var text;
      text, ops := OrganizeRun(path, outputDir, target, copyMode, mkdirFailure, opFailure,
                               PastTense(copyMode), Gerund(copyMode));
      message := Some(text);
    }
  }
}
