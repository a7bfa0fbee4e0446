/** The name synthesizer of `rename_file_worker` and the `_dup<N>` collision
    resolution both workers share. */
module Naming {
  import opened Wrappers
  import opened Text
  import opened Paths
  import opened DateTimes
  import opened Extensions
  import opened Metadata

  const UnknownDate := "UnknownDate"

  /** `date_str`: the formatted timestamp, or "UnknownDate". */
  function DatePart(stamp: Option<Timestamp>): string
  {
    match stamp
    case Some(d) => FormatStamp(d)
    case None => UnknownDate
  }

  /** The confidence code: 'A' for a recovered timestamp, 'C' otherwise. */
  function Confidence(stamp: Option<Timestamp>): char
  {
    if stamp.Some? then 'A' else 'C'
  }

  /** The canonical name without its extension. */
  function CanonicalStem(c: Capture, fingerprint: string): string
  {
    DatePart(c.stamp) + "_" + [Confidence(c.stamp)] + "_" + c.device + "_" + fingerprint
  }

  /** `f"{date_str}_{confidence}_{camera_model}_{file_hash}{ext}"`. */
  function CanonicalName(c: Capture, fingerprint: string, ext: string): string
  {
    CanonicalStem(c, fingerprint) + ext
  }

  /** The fields a canonical name is made of. */
  datatype NameParts = NameParts(stamp: Option<Timestamp>, confidence: char, device: string,
                                 fingerprint: string, ext: string)

  /** Splits the stem of a canonical name into its fields, given the fingerprint's length. */
  function DecodeStem(base: string, hashLength: nat, ext: string): Option<NameParts>
  {
    var dateLength := if 11 <= |base| && base[..11] == UnknownDate then 11 else 15;
    if |base| < dateLength + 4 + hashLength then None
    else
      var stamp := if dateLength == 11 then None else ReadStamp(base[..15]);
      if dateLength == 15 && stamp.None? then None
      else if base[dateLength] != '_' || base[dateLength + 2] != '_' || base[|base| - hashLength - 1] != '_' then None
      else Some(NameParts(stamp, base[dateLength + 1], base[dateLength + 3..|base| - hashLength - 1],
                          base[|base| - hashLength..], ext))
  }

  /** Splits a canonical name back into its fields, given the fingerprint's length. */
  function DecodeName(name: string, hashLength: nat): Option<NameParts>
  {
    if Suffix(name) == "" then None else DecodeStem(Stem(name), hashLength, Suffix(name))
  }

  /** The date part is a 15-character "YYYYMMDD_HHMMSS" stamp for a four-digit year,
      and exactly "UnknownDate" without a timestamp. */
  lemma DatePartShape(stamp: Option<Timestamp>)
    requires stamp.Some? ==> 1000 <= stamp.value.year
    ensures stamp.None? <==> DatePart(stamp) == UnknownDate
    ensures stamp.Some? ==> |DatePart(stamp)| == 15 && DatePart(stamp)[8] == '_'
    ensures stamp.Some? ==> AllDigits(DatePart(stamp)[..8]) && AllDigits(DatePart(stamp)[9..])
    ensures stamp.Some? ==> ReadStamp(DatePart(stamp)) == stamp
  {
    if stamp.Some? {
      StampShape(stamp.value);
      StampRoundTrip(stamp.value);
      assert DatePart(stamp)[..8][0] == DatePart(stamp)[0];
      assert DatePart(stamp)[0] != UnknownDate[0];
    }
  }

  /** Where each field sits in `date + "_" + conf + "_" + device + "_" + fingerprint`. */
  lemma StemFields(date: string, conf: char, device: string, fingerprint: string)
    ensures var base := date + "_" + [conf] + "_" + device + "_" + fingerprint;
      && |base| == |date| + 4 + |device| + |fingerprint|
      && base[..|date|] == date
      && base[|date|] == '_' && base[|date| + 1] == conf && base[|date| + 2] == '_'
      && base[|date| + 3..|base| - |fingerprint| - 1] == device
      && base[|base| - |fingerprint| - 1] == '_'
      && base[|base| - |fingerprint|..] == fingerprint
  {
    var tail := "_" + [conf] + "_" + device + "_" + fingerprint;
    var base := date + tail;
    assert base == date + "_" + [conf] + "_" + device + "_" + fingerprint;
    assert base[..|date|] == date;
    assert base[|date|..] == tail;
    var rest := device + "_" + fingerprint;
    assert tail == "_" + [conf] + "_" + rest;
    assert tail[3..] == rest;
    assert base[|date| + 3..] == rest;
    assert rest[..|device|] == device;
    assert rest[|device|] == '_';
    assert rest[|device| + 1..] == fingerprint;
  }

  lemma StemRoundTrip(c: Capture, fingerprint: string, ext: string)
    requires c.stamp.Some? ==> 1000 <= c.stamp.value.year
    ensures DecodeStem(CanonicalStem(c, fingerprint), |fingerprint|, ext)
         == Some(NameParts(c.stamp, Confidence(c.stamp), c.device, fingerprint, ext))
  {
    var date := DatePart(c.stamp);
    var base := CanonicalStem(c, fingerprint);
    StemFields(date, Confidence(c.stamp), c.device, fingerprint);
    DatePartShape(c.stamp);
    var dateLength := if 11 <= |base| && base[..11] == UnknownDate then 11 else 15;
    assert dateLength == |date| by {
      if c.stamp.Some? {
        assert base[..11][0] == date[0];
        assert date[..8][0] == date[0];
      } else {
        assert base[..11] == UnknownDate;
      }
    }
    if c.stamp.Some? {
      assert base[..15] == date;
    }
  }

  /** A canonical name decodes to exactly the fields it was built from: the timestamp,
      'A' when there is one and 'C' when not, the device label, the fingerprint and the extension. */
  lemma CanonicalNameRoundTrip(c: Capture, fingerprint: string, ext: string)
    requires ext in SupportedExtensions
    requires c.stamp.Some? ==> 1000 <= c.stamp.value.year
    ensures DecodeName(CanonicalName(c, fingerprint, ext), |fingerprint|)
         == Some(NameParts(c.stamp, if c.stamp.Some? then 'A' else 'C', c.device, fingerprint, ext))
  {
    CanonicalNameSplit(c, fingerprint, ext);
    StemRoundTrip(c, fingerprint, ext);
  }

  /** Python's `stem` of a canonical name is the name without its extension, and its
      `suffix` is the extension: the base the `_dup<N>` names grow from. */
  lemma CanonicalNameSplit(c: Capture, fingerprint: string, ext: string)
    requires ext in SupportedExtensions
    ensures Suffix(CanonicalName(c, fingerprint, ext)) == ext
    ensures Stem(CanonicalName(c, fingerprint, ext)) == CanonicalStem(c, fingerprint)
  {
    SupportedExtensionShape(ext);
    SplitName(CanonicalStem(c, fingerprint), ext);
  }

  /** `f"{base}_dup{i}{ext}"`. */
  function DupName(stem: string, i: nat, ext: string): string
  {
    stem + "_dup" + Decimal(i) + ext
  }

  /** Different counters give different names: the `_dup<N>` sequence never repeats. */
  lemma DupNameInjective(stem: string, ext: string, i: nat, j: nat)
    requires DupName(stem, i, ext) == DupName(stem, j, ext)
    ensures i == j
  {
    var a, b := DupName(stem, i, ext), DupName(stem, j, ext);
    var lo, hi := |stem| + 4, |a| - |ext|;
    assert a[lo..hi] == Decimal(i);
    assert b[lo..hi] == Decimal(j);
    DecimalInjective(i, j);
  }

  /** The names `_dup1` .. `_dup<n-1>`. */
  ghost function DupsBelow(stem: string, ext: string, n: nat): set<string>
  {
    set j | 1 <= j < n :: DupName(stem, j, ext)
  }

  lemma {:induction false} DupsBelowSize(stem: string, ext: string, n: nat)
    requires 1 <= n
    ensures |DupsBelow(stem, ext, n)| == n - 1
  {
    if n > 1 {
      DupsBelowSize(stem, ext, n - 1);
      var d := DupName(stem, n - 1, ext);
      assert DupsBelow(stem, ext, n) == DupsBelow(stem, ext, n - 1) + {d};
      if d in DupsBelow(stem, ext, n - 1) {
        var j :| 1 <= j < n - 1 && DupName(stem, j, ext) == d;
        DupNameInjective(stem, ext, j, n - 1);
      }
    }
  }

  lemma SubsetSize<T>(a: set<T>, b: set<T>)
    requires a <= b
    ensures |a| <= |b|
  {
    assert b == a + (b - a);
  }

  /** `name` is what the duplicate-handling loop may yield for `candidate`: the candidate
      itself when free, else the first free `_dup<k>` name, every earlier one being taken. */
  ghost predicate Resolves(candidate: string, stem: string, ext: string, taken: set<string>, name: string)
  {
    if candidate !in taken then name == candidate
    else exists k: nat :: && 1 <= k && name == DupName(stem, k, ext) && name !in taken
                          && forall j :: 1 <= j < k ==> DupName(stem, j, ext) in taken
  }

  /** The resolution is a function of the candidate and the taken names: two resolutions agree. */
  lemma ResolutionUnique(candidate: string, stem: string, ext: string, taken: set<string>, a: string, b: string)
    requires Resolves(candidate, stem, ext, taken, a)
    requires Resolves(candidate, stem, ext, taken, b)
    ensures a == b
  {
    if candidate in taken {
      var i: nat :| 1 <= i && a == DupName(stem, i, ext) && a !in taken
                    && forall j :: 1 <= j < i ==> DupName(stem, j, ext) in taken;
      var k: nat :| 1 <= k && b == DupName(stem, k, ext) && b !in taken
                    && forall j :: 1 <= j < k ==> DupName(stem, j, ext) in taken;
    }
  }

  /** The duplicate-handling loop: keep `candidate` if no entry has that name, else take
      `stem + "_dup" + i + ext` for the least `i >= 1` whose name is free. `taken` holds the
      names present in the target directory. */
  method ResolveCollision(candidate: string, stem: string, ext: string, taken: set<string>)
    returns (name: string, k: nat)
    ensures name !in taken
    ensures k == 0 <==> candidate !in taken
    ensures k == 0 ==> name == candidate
    ensures 0 < k ==> name == DupName(stem, k, ext)
    ensures forall j :: 1 <= j < k ==> DupName(stem, j, ext) in taken
    ensures Resolves(candidate, stem, ext, taken, name)
  {
    name := candidate;
    k := 0;
    if name in taken {
      var i := 1;
      while name in taken
        invariant 1 <= i <= |taken| + 2
        invariant name == if i == 1 then candidate else DupName(stem, i - 1, ext)
        invariant forall j :: 1 <= j < i - 1 ==> DupName(stem, j, ext) in taken
        decreases |taken| + 2 - i
      {
        if 2 <= i {
          assert DupsBelow(stem, ext, i) <= taken;
          DupsBelowSize(stem, ext, i);
          SubsetSize(DupsBelow(stem, ext, i), taken);
        }
        name := DupName(stem, i, ext);
        i := i + 1;
      }
      k := i - 1;
    }
  }
}
