/** The two string operations the access-control gate applies to header
    values: `HeaderValue::to_str().unwrap_or_default()` and `str::trim`. */
module Text {
  import opened Base

  /** A byte `HeaderValue::to_str` accepts: visible ASCII or horizontal tab. */
  predicate IsVisibleAscii(b: Byte) {
    (32 <= b < 127) || b == 9
  }

  predicate AllVisibleAscii(v: Bytes) {
    forall i :: 0 <= i < |v| ==> IsVisibleAscii(v[i])
  }

  /** The bytes of a string whose characters are all below U+0100. */
  function Latin1Bytes(s: string): (v: Bytes)
    requires forall i :: 0 <= i < |s| ==> s[i] as int < 256
    ensures |v| == |s|
    ensures forall i :: 0 <= i < |s| ==> v[i] as int == s[i] as int
  {
    seq(|s|, i requires 0 <= i < |s| => s[i] as int as Byte)
  }

  /** `value.to_str().unwrap_or_default()`: the header value read as text
      when every byte is visible ASCII, and the empty string otherwise. */
  function ToStrOrEmpty(v: Bytes): (s: string)
    ensures forall i :: 0 <= i < |s| ==> s[i] as int < 256
    ensures AllVisibleAscii(v) ==> Latin1Bytes(s) == v
    ensures !AllVisibleAscii(v) ==> s == ""
  {
    if AllVisibleAscii(v) then seq(|v|, i requires 0 <= i < |v| => v[i] as int as char)
    else ""
  }

  predicate AllWhitespace(s: string) {
    forall i :: 0 <= i < |s| ==> IsWhitespace(s[i])
  }

  /** No whitespace at either end: what `str::trim` leaves behind. */
  predicate IsTrimmed(s: string) {
    s == [] || (!IsWhitespace(s[0]) && !IsWhitespace(s[|s| - 1]))
  }

  /** Every character of `s` at a position in `[lo, hi)` is whitespace. */
  predicate WhitespaceBetween(s: string, lo: int, hi: int)
    requires 0 <= lo <= hi <= |s|
  {
    forall i :: lo <= i < hi ==> IsWhitespace(s[i])
  }

  /** Scans forward from `i` past whitespace: the position of the first
      non-whitespace character at or after `i`, or the end. */
  function SkipForward(s: string, i: nat): (j: nat)
    requires i <= |s|
    ensures i <= j <= |s| && WhitespaceBetween(s, i, j)
    ensures j == |s| || !IsWhitespace(s[j])
    decreases |s| - i
  {
    if i < |s| && IsWhitespace(s[i]) then SkipForward(s, i + 1) else i
  }

  /** Scans backward from `j`, not below `lo`, past whitespace: the end of
      the last non-whitespace character before `j`, or `lo`. */
  function SkipBackward(s: string, lo: nat, j: nat): (k: nat)
    requires lo <= j <= |s|
    ensures lo <= k <= j && WhitespaceBetween(s, k, j)
    ensures k == lo || !IsWhitespace(s[k - 1])
    decreases j
  {
    if lo < j && IsWhitespace(s[j - 1]) then SkipBackward(s, lo, j - 1) else j
  }

  /** `str::trim`: the part of `s` between its leading and its trailing
      whitespace. */
  function Trim(s: string): (r: string)
    ensures IsTrimmed(r)
    ensures exists a, b :: 0 <= a <= b <= |s| && r == s[a..b]
                           && WhitespaceBetween(s, 0, a) && WhitespaceBetween(s, b, |s|)
  {
    var a := SkipForward(s, 0);
    var b := SkipBackward(s, a, |s|);
    s[a..b]
  }

  /** Trimming characterised independently of how it is computed: whatever
      whitespace surrounds a trimmed core, `Trim` returns that core. */
  lemma TrimRecoversCore(a: string, m: string, b: string)
    requires AllWhitespace(a) && AllWhitespace(b) && IsTrimmed(m)
    ensures Trim(a + m + b) == m
  {
    var s := a + m + b;
    var i, j := |a|, |a| + |m|;
    assert forall x :: 0 <= x < i ==> s[x] == a[x];
    assert forall x :: j <= x < |s| ==> s[x] == b[x - j];
    if m != [] {
      assert s[i] == m[0] && s[j - 1] == m[|m| - 1];
      assert s[i..j] == m;
    }
  }

  /** Trimming twice is trimming once. */
  lemma TrimIdempotent(s: string)
    ensures Trim(Trim(s)) == Trim(s)
  {
    var r := Trim(s);
    assert [] + r + [] == r;
    TrimRecoversCore([], r, []);
  }
}
