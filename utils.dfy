/**
 * The C-string helpers of netpong_final/utils.c.
 *
 * A `char *` buffer is an `array<char>`; the C string it holds is the run of
 * characters before its first NUL.  rstrip and rstrip_c truncate that string in
 * place by overwriting trailing characters with NUL; string_in_string_array is a
 * linear search over a NULL-terminated, size-bounded array of strings.
 */
module Utils {

  /** The character that ends a C string. */
  const NUL: char := '\0'

  /** strlen: the index of the first NUL of the buffer (its length if it holds none). */
  function Strlen(buf: seq<char>): (n: nat)
    ensures n <= |buf|
    ensures forall k :: 0 <= k < n ==> buf[k] != NUL
    ensures n < |buf| ==> buf[n] == NUL
  {
    if buf == [] || buf[0] == NUL then 0 else 1 + Strlen(buf[1..])
  }

  /** The C string a buffer holds: everything before its first NUL. */
  function CStr(buf: seq<char>): (s: seq<char>)
    ensures s <= buf && NUL !in s
  {
    buf[..Strlen(buf)]
  }

  /** A NUL-free prefix followed by a NUL (or the end of the buffer) is what strlen measures. */
  lemma StrlenAt(buf: seq<char>, j: nat)
    requires j <= |buf|
    requires forall k :: 0 <= k < j ==> buf[k] != NUL
    requires j < |buf| ==> buf[j] == NUL
    ensures Strlen(buf) == j
  {
  }

  /** The string `t` without its maximal trailing run of `c`. */
  function StripEnd(t: seq<char>, c: char): (r: seq<char>)
    ensures r <= t
    ensures r == [] || r[|r| - 1] != c
    ensures forall k :: |r| <= k < |t| ==> t[k] == c
    decreases |t|
  {
    if t != [] && t[|t| - 1] == c then StripEnd(t[..|t| - 1], c) else t
  }

  /** A cut point with only `c` after it and no `c` just before it is where StripEnd cuts. */
  lemma StripEndAt(t: seq<char>, c: char, j: nat)
    requires j <= |t|
    requires forall k :: j <= k < |t| ==> t[k] == c
    requires j == 0 || t[j - 1] != c
    ensures |StripEnd(t, c)| == j
  {
  }

  /** Index of the first character rstrip_c(buf, c) overwrites (Strlen(buf) when it overwrites nothing). */
  function CutPoint(buf: seq<char>, c: char): nat
  {
    |StripEnd(CStr(buf), c)|
  }

  /** The buffer that rstrip_c(buf, c) leaves behind. */
  function RStripped(buf: seq<char>, c: char): seq<char>
  {
    var n := Strlen(buf);
    var k := CutPoint(buf, c);
    buf[..k] + seq(n - k, _ => NUL) + buf[n..]
  }

  /**
   * Frame condition of rstrip_c: exactly the maximal trailing run of `c` in the
   * C string is overwritten with NUL; every character before the run and every
   * byte at or after the original strlen is left as it was.
   */
  lemma RStripFrame(buf: seq<char>, c: char)
    ensures |RStripped(buf, c)| == |buf|
    ensures CutPoint(buf, c) <= Strlen(buf)
    ensures CutPoint(buf, c) == 0 || buf[CutPoint(buf, c) - 1] != c
    ensures forall i :: 0 <= i < CutPoint(buf, c) ==> RStripped(buf, c)[i] == buf[i]
    ensures forall i :: CutPoint(buf, c) <= i < Strlen(buf) ==> buf[i] == c && RStripped(buf, c)[i] == NUL
    ensures forall i :: Strlen(buf) <= i < |buf| ==> RStripped(buf, c)[i] == buf[i]
  {
  }

  /** Afterwards the C string is the old one with its trailing run of `c` removed, so it does not end in `c`. */
  lemma RStripResult(buf: seq<char>, c: char)
    ensures CStr(RStripped(buf, c)) == StripEnd(CStr(buf), c)
    ensures Strlen(RStripped(buf, c)) == CutPoint(buf, c)
    ensures CStr(RStripped(buf, c)) == [] || CStr(RStripped(buf, c))[|CStr(RStripped(buf, c))| - 1] != c
  {
    var n, k := Strlen(buf), CutPoint(buf, c);
    var r := RStripped(buf, c);
    RStripFrame(buf, c);
    StrlenAt(r, k);
    assert CStr(r) == r[..k] == buf[..k];
    assert StripEnd(CStr(buf), c) == CStr(buf)[..k] == buf[..k];
  }

  /** Applying rstrip_c twice leaves the same buffer as applying it once. */
  lemma RStripIdempotent(buf: seq<char>, c: char)
    ensures RStripped(RStripped(buf, c), c) == RStripped(buf, c)
  {
    var r := RStripped(buf, c);
    var k := CutPoint(buf, c);
    RStripResult(buf, c);
    var t := CStr(r);
    assert t == [] || t[|t| - 1] != c;
    StripEndAt(t, c, |t|);
    assert CutPoint(r, c) == k == Strlen(r);
    var r2 := RStripped(r, c);
    assert r2 == r[..k] + [] + r[k..];
    assert r[..k] + r[k..] == r;
  }

  /** A buffer whose C string is empty is left untouched. */
  lemma RStripEmpty(buf: seq<char>, c: char)
    requires Strlen(buf) == 0
    ensures RStripped(buf, c) == buf
  {
  }

  /** A C string made only of `c` becomes empty; the cut never moves before index 0. */
  lemma RStripAllMatching(buf: seq<char>, c: char)
    requires forall i :: 0 <= i < Strlen(buf) ==> buf[i] == c
    ensures CutPoint(buf, c) == 0
    ensures Strlen(RStripped(buf, c)) == 0
  {
  }

  /** rstrip(s): overwrite the trailing newlines of the C string held by `s` with NUL. */
  method RStrip(s: array?<char>)
    requires s != null ==> NUL in s[..]
    modifies s
    ensures s != null ==> s[..] == RStripped(old(s[..]), '\n')
  {
    if s == null || Strlen(s[..]) == 0 {
      if s != null { RStripEmpty(s[..], '\n'); }
      return;
    }
    ghost var b := s[..];
    var n := Strlen(s[..]);
    var i := n - 1;
    while i >= 0 && s[i] == '\n'
      invariant -1 <= i < n
      invariant forall k :: 0 <= k <= i ==> s[k] == b[k]
      invariant forall k :: i < k < n ==> s[k] == NUL && b[k] == '\n'
      invariant forall k :: n <= k < s.Length ==> s[k] == b[k]
    {
      s[i] := NUL;
      i := i - 1;
    }
    StripEndAt(CStr(b), '\n', i + 1);
    assert s[..] == RStripped(b, '\n');
  }

  /** rstrip_c(s, c): overwrite the trailing run of `c` of the C string held by `s` with NUL. */
  method RStripC(s: array?<char>, c: char)
    requires s != null ==> NUL in s[..]
    modifies s
    ensures s != null ==> s[..] == RStripped(old(s[..]), c)
  {
    if s == null || Strlen(s[..]) == 0 {
      if s != null { RStripEmpty(s[..], c); }
      return;
    }
    ghost var b := s[..];
    var n := Strlen(s[..]);
    var i := n - 1;
    while i >= 0 && s[i] == c
      invariant -1 <= i < n
      invariant forall k :: 0 <= k <= i ==> s[k] == b[k]
      invariant forall k :: i < k < n ==> s[k] == NUL && b[k] == c
      invariant forall k :: n <= k < s.Length ==> s[k] == b[k]
    {
      s[i] := NUL;
      i := i - 1;
    }
    StripEndAt(CStr(b), c, i + 1);
    assert s[..] == RStripped(b, c);
  }

  /**
   * How far string_in_string_array scans: the first index that is at or past
   * `size` or holds a NULL entry (capped at the array's length).
   */
  function ScanEnd(entries: seq<array?<char>>, size: int): (e: nat)
    ensures e <= |entries|
    ensures e == 0 || e <= size
    ensures forall j :: 0 <= j < e ==> entries[j] != null
    ensures e < |entries| && e < size ==> entries[e] == null
  {
    if size <= 0 || entries == [] || entries[0] == null then 0
    else 1 + ScanEnd(entries[1..], size - 1)
  }

  /** When `size` fits the array or a NULL entry ends it, the scan never runs off the array. */
  lemma ScanInBounds(entries: seq<array?<char>>, size: int)
    requires size <= |entries| || null in entries
    ensures ScanEnd(entries, size) < size ==> ScanEnd(entries, size) < |entries|
  {
  }

  /**
   * string_in_string_array(s, arr, size): 0 when some entry before the first
   * NULL and below `size` holds the same C string as `s`, 1 otherwise.
   */
  method StringInStringArray(s: array<char>, arr: array<array?<char>>, size: int) returns (r: int)
    requires NUL in s[..]
    requires size <= arr.Length || null in arr[..]
    requires forall j :: 0 <= j < ScanEnd(arr[..], size) && arr[j] != null ==> NUL in arr[j][..]
    ensures r == 0 || r == 1
    ensures r == 0 <==> exists j :: 0 <= j < ScanEnd(arr[..], size) && arr[j] != null && CStr(arr[j][..]) == CStr(s[..])
  {
    ScanInBounds(arr[..], size);
    var i := 0;
    while i < size && arr[i] != null
      invariant 0 <= i <= ScanEnd(arr[..], size)
      invariant forall j :: 0 <= j < i && arr[j] != null ==> CStr(arr[j][..]) != CStr(s[..])
    {
      if CStr(arr[i][..]) == CStr(s[..]) {
        return 0;
      }
      i := i + 1;
    }
    return 1;
  }
}
