/** `compute_file_hash`: a truncated MD5 hex digest of the file's content, or an all-zero
    sentinel when the file cannot be read. MD5 itself is a parameter. */
module Fingerprint {
  import opened Wrappers

  newtype byte = x: int | 0 <= x < 256

  predicate IsHexDigit(c: char)
  {
    '0' <= c <= '9' || 'a' <= c <= 'f'
  }

  /** `hexdigest()` of an MD5 hash: 32 lower-case hexadecimal digits. */
  type HexDigest = s: string | |s| == 32 && forall i :: 0 <= i < |s| ==> IsHexDigit(s[i])
    witness "00000000000000000000000000000000"

  /** `HASH_LENGTH`, the default fingerprint length. */
  const HashLength := 8

  /** The string the sentinel fingerprint is cut from. */
  const Sentinel := "00000000"

  /** How many characters Python's `s[:n]` keeps of a string of length `len`
      (a negative `n` counts from the end). */
  function SliceLength(len: nat, n: int): nat
  {
    if 0 <= n then (if n < len then n else len)
    else if 0 < len + n then len + n
    else 0
  }

  /** Python's `s[:n]`. */
  function SliceTo(s: string, n: int): (r: string)
    ensures |r| == SliceLength(|s|, n)
    ensures r <= s
  {
    s[..SliceLength(|s|, n)]
  }

  /** `compute_file_hash(path, hash_length)`: `content` is the file's bytes, or `None`
      when opening or reading it raised. */
  function FileHash(content: Option<seq<byte>>, md5: seq<byte> -> HexDigest, hashLength: int): (r: string)
    ensures forall i :: 0 <= i < |r| ==> IsHexDigit(r[i])
    ensures content.Some? ==> r <= md5(content.value) && |r| == SliceLength(32, hashLength)
    ensures content.None? ==> |r| == SliceLength(8, hashLength)
    ensures content.None? ==> forall i :: 0 <= i < |r| ==> r[i] == '0'
  {
    match content
    case Some(bytes) => SliceTo(md5(bytes), hashLength)
    case None => SliceTo(Sentinel, hashLength)
  }

  /** With the default length the fingerprint always has eight characters, read or not. */
  lemma DefaultFingerprintLength(content: Option<seq<byte>>, md5: seq<byte> -> HexDigest)
    ensures |FileHash(content, md5, HashLength)| == 8
    ensures '.' !in FileHash(content, md5, HashLength)
  {
    var r := FileHash(content, md5, HashLength);
    assert forall i :: 0 <= i < |r| ==> r[i] != '.';
  }
}
