/** File names and paths the way `pathlib` splits and prints them. */
module Paths {
  import opened Text

  /** A path as the program builds it: the directory components and the final name. */
  datatype FilePath = FilePath(dir: seq<string>, name: string)

  /** Where `pathlib` splits a name: at the last '.', unless that dot is the
      first or the last character, in which case there is no suffix. */
  function SuffixStart(name: string): (k: nat)
    ensures k <= |name|
  {
    var i := LastIndexOf(name, '.');
    if 0 < i < |name| - 1 then i else |name|
  }

  /** `PurePath.suffix`: the final dot and what follows it, or "". */
  function Suffix(name: string): (r: string)
    ensures r == "" || (2 <= |r| < |name| && r[0] == '.' && '.' !in r[1..])
    ensures Stem(name) + r == name
  {
    var k := SuffixStart(name);
    assert name[..k] + name[k..] == name;
    name[k..]
  }

  /** `PurePath.stem`: the name without its suffix. */
  function Stem(name: string): string
  {
    name[..SuffixStart(name)]
  }

  /** Appending an extension (one leading dot, no other dot) to a non-empty stem
      is undone exactly by `stem` and `suffix`, whatever dots the stem holds. */
  lemma SplitName(stem: string, ext: string)
    requires 1 <= |stem|
    requires 2 <= |ext| && ext[0] == '.' && '.' !in ext[1..]
    ensures Suffix(stem + ext) == ext
    ensures Stem(stem + ext) == stem
  {
    var name := stem + ext;
    assert name[|stem| + 1..] == ext[1..];
    LastIndexOfUnique(name, '.', |stem|);
  }

  /** `str(path)`: the components joined with '/'. */
  function PathText(p: FilePath): string
  {
    Join(p.dir + [p.name], "/")
  }
}
