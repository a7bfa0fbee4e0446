/** The extension tables of `toki/utils.py` and the extension tests built on them. */
module Extensions {
  import opened Text
  import opened Paths

  /** `SUPPORTED_EXTENSIONS`. */
  const SupportedExtensions: set<string> := {".jpg", ".jpeg", ".png", ".mp4", ".mov", ".avi", ".heic"}

  /** The extensions `get_file_datetime` sends to the EXIF reader. */
  const PhotoExtensions: set<string> := {".jpg", ".jpeg", ".png", ".heic"}

  /** The extensions `get_file_datetime` sends to the video container reader. */
  const VideoExtensions: set<string> := {".mp4", ".mov", ".avi"}

  /** `path.suffix.lower()`. */
  function ExtensionOf(name: string): string
  {
    Lower(Suffix(name))
  }

  /** The test `collect_files` and both workers apply to a file name. */
  predicate IsSupported(name: string)
  {
    ExtensionOf(name) in SupportedExtensions
  }

  datatype MediaKind = Photo | Video | Other

  /** Which metadata reader an (already lower-cased) extension is dispatched to. */
  function KindOf(ext: string): (k: MediaKind)
    ensures k == Photo <==> ext in PhotoExtensions
    ensures k == Video <==> ext in VideoExtensions
    ensures k != Other <==> ext in SupportedExtensions
  {
    if ext in PhotoExtensions then Photo
    else if ext in VideoExtensions then Video
    else Other
  }

  /** The photo and video tables split the supported set exactly. */
  lemma ExtensionTablesPartition()
    ensures PhotoExtensions !! VideoExtensions
    ensures PhotoExtensions + VideoExtensions == SupportedExtensions
  {
  }

  /** A dot followed by at least three lower-case letters or digits. */
  predicate ExtensionShaped(e: string)
  {
    && 4 <= |e| && e[0] == '.'
    && forall i :: 1 <= i < |e| ==> 'a' <= e[i] <= 'z' || '0' <= e[i] <= '9'
  }

  lemma ShapedExtension(e: string)
    requires ExtensionShaped(e)
    ensures '.' !in e[1..]
    ensures Lower(e) == e
  {
    forall j | 0 <= j < |e[1..]|
      ensures e[1..][j] != '.'
    {
      assert e[1..][j] == e[j + 1];
    }
  }

  lemma SupportedExtensionShaped(ext: string)
    requires ext in SupportedExtensions
    ensures ExtensionShaped(ext)
  {
    assert ExtensionShaped(".jpg") && ExtensionShaped(".jpeg") && ExtensionShaped(".png");
    assert ExtensionShaped(".mp4") && ExtensionShaped(".mov") && ExtensionShaped(".avi");
    assert ExtensionShaped(".heic");
    assert ext == ".jpg" || ext == ".jpeg" || ext == ".png" || ext == ".mp4"
        || ext == ".mov" || ext == ".avi" || ext == ".heic";
  }

  /** Every supported extension is lower case, starts with its only dot and has at least three more characters. */
  lemma SupportedExtensionShape(ext: string)
    requires ext in SupportedExtensions
    ensures 4 <= |ext| && ext[0] == '.' && '.' !in ext[1..]
    ensures Lower(ext) == ext
  {
    SupportedExtensionShaped(ext);
    ShapedExtension(ext);
  }

  /** The case of the suffix does not matter: any spelling of a supported
      extension after a non-empty stem is collected, and its lower-cased form is the extension used. */
  lemma {:induction false} ExtensionIgnoresCase(stem: string, spelling: string)
    requires 1 <= |stem|
    requires Lower(spelling) in SupportedExtensions
    ensures ExtensionOf(stem + spelling) == Lower(spelling)
    ensures IsSupported(stem + spelling)
  {
    var ext := Lower(spelling);
    SupportedExtensionShape(ext);
    assert spelling[0] == '.';
    forall j | 1 <= j < |spelling|
      ensures spelling[j] != '.'
    {
      assert ext[j] == ext[1..][j - 1];
    }
    assert '.' !in spelling[1..];
    SplitName(stem, spelling);
  }
}
