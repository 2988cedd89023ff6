/** Rust strings as octets: UTF-8 well-formedness and `str::trim`. */
module Text {
  import opened Bytes

  predicate Continuation(b: byte) {
    0x80 <= b <= 0xBF
  }

  /** Length of the well-formed UTF-8 character `s` starts with, or 0 (Unicode, table 3-7). */
  function CharLen(s: Octets): (n: nat)
    ensures n <= |s|
    ensures n == 1 ==> s[0] < 0x80
    ensures n > 1 ==> forall i :: 0 <= i < n ==> s[i] >= 0x80
  {
    if s == [] then 0
    else if s[0] < 0x80 then 1
    else if |s| >= 2 && 0xC2 <= s[0] <= 0xDF && Continuation(s[1]) then 2
    else if |s| >= 3 && Continuation(s[2])
            && ((s[0] == 0xE0 && 0xA0 <= s[1] <= 0xBF)
                || (s[0] == 0xED && 0x80 <= s[1] <= 0x9F)
                || (0xE1 <= s[0] <= 0xEF && s[0] != 0xED && Continuation(s[1]))) then 3
    else if |s| >= 4 && Continuation(s[2]) && Continuation(s[3])
            && ((s[0] == 0xF0 && 0x90 <= s[1] <= 0xBF)
                || (s[0] == 0xF4 && 0x80 <= s[1] <= 0x8F)
                || (0xF1 <= s[0] <= 0xF3 && Continuation(s[1]))) then 4
    else 0
  }

  /** `str::from_utf8` succeeds. */
  predicate Utf8(s: Octets)
  {
    s == [] || (CharLen(s) > 0 && Utf8(s[CharLen(s)..]))
  }

  lemma CharLenStable(a: Octets, b: Octets)
    requires CharLen(a) > 0
    ensures CharLen(a + b) == CharLen(a)
  {
    assert forall i :: 0 <= i < |a| ==> (a + b)[i] == a[i];
  }

  lemma {:induction false} Utf8Concat(a: Octets, b: Octets)
    requires Utf8(a) && Utf8(b)
    ensures Utf8(a + b)
  {
    if a == [] {
      assert a + b == b;
    } else {
      CharLenStable(a, b);
      var k := CharLen(a);
      assert (a + b)[k..] == a[k..] + b;
      Utf8Concat(a[k..], b);
    }
  }

  // ---------- white space ----------

  // The `White_Space` characters that take one, two and three octets.
  predicate Space1(a: byte) {
    9 <= a <= 13 || a == 32
  }

  predicate Space2(a: byte, b: byte) {
    a == 0xC2 && (b == 0x85 || b == 0xA0)
  }

  predicate Space3(a: byte, b: byte, c: byte) {
    (a == 0xE1 && b == 0x9A && c == 0x80)
    || (a == 0xE2 && b == 0x80 && (0x80 <= c <= 0x8A || c == 0xA8 || c == 0xA9 || c == 0xAF))
    || (a == 0xE2 && b == 0x81 && c == 0x9F)
    || (a == 0xE3 && b == 0x80 && c == 0x80)
  }

  /** Length of the `White_Space` character `s` starts with, or 0. */
  function SpaceLen(s: Octets): (n: nat)
    ensures n <= |s|
    ensures n > 0 ==> s[0] <= 32 || s[0] >= 0x80
    ensures n == 0 && s != [] ==> s[0] != CR && s[0] != LF
  {
    if |s| >= 1 && Space1(s[0]) then 1
    else if |s| >= 2 && Space2(s[0], s[1]) then 2
    else if |s| >= 3 && Space3(s[0], s[1], s[2]) then 3
    else 0
  }

  function TrimStart(s: Octets): (r: Octets)
    ensures |r| <= |s|
    ensures SpaceLen(r) == 0
  {
    if SpaceLen(s) == 0 then s else TrimStart(s[SpaceLen(s)..])
  }

  /** Length of the `White_Space` character `s` ends with, or 0. */
  function SpaceLenAtEnd(s: Octets): (n: nat)
    ensures n <= |s|
    ensures n > 0 ==> s[|s| - 1] <= 32 || s[|s| - 1] >= 0x80
    ensures n == 0 && s != [] ==> s[|s| - 1] != CR && s[|s| - 1] != LF
  {
    if |s| >= 1 && Space1(s[|s| - 1]) then 1
    else if |s| >= 2 && Space2(s[|s| - 2], s[|s| - 1]) then 2
    else if |s| >= 3 && Space3(s[|s| - 3], s[|s| - 2], s[|s| - 1]) then 3
    else 0
  }

  function TrimEnd(s: Octets): (r: Octets)
    ensures r <= s
    ensures SpaceLenAtEnd(r) == 0
  {
    if SpaceLenAtEnd(s) == 0 then s else TrimEnd(s[..|s| - SpaceLenAtEnd(s)])
  }

  /** `str::trim`. */
  function Trim(s: Octets): (r: Octets)
    ensures |r| <= |s|
    ensures r != [] ==> r[0] != LF && r[0] != CR && r[|r| - 1] != LF && r[|r| - 1] != CR
  {
    TrimEnd(TrimStart(s))
  }

  /** A string with no white space at either end is exactly one that `Trim` keeps. */
  lemma TrimKeeps(s: Octets)
    ensures Trim(s) == s <==> SpaceLen(s) == 0 && SpaceLenAtEnd(s) == 0
  {
    if SpaceLen(s) > 0 {
      assert |TrimStart(s)| < |s|;
    }
  }

  lemma TrimIdempotent(s: Octets)
    ensures Trim(Trim(s)) == Trim(s)
  {
    var t := TrimStart(s);
    var r := TrimEnd(t);
    assert forall i :: 0 <= i < |r| ==> r[i] == t[i];
    assert SpaceLen(r) == 0;
    TrimKeeps(r);
  }

  /** Printable ASCII at both ends is enough. */
  lemma TrimKeepsAscii(s: Octets)
    requires s != [] && 33 <= s[0] < 0x80 && 33 <= s[|s| - 1] < 0x80
    ensures Trim(s) == s
  {
    TrimKeeps(s);
  }

  lemma TrimDecimal(n: nat)
    ensures Trim(Decimal(n)) == Decimal(n)
  {
    var d := Decimal(n);
    assert IsDigit(d[0]) && IsDigit(d[|d| - 1]);
    TrimKeepsAscii(d);
  }

  /** `Trim` only removes octets, and never a printable ASCII one. */
  lemma {:induction false} TrimStartContent(s: Octets, b: byte)
    ensures b in TrimStart(s) ==> b in s
    ensures 33 <= b < 0x80 && b in s ==> b in TrimStart(s)
    decreases |s|
  {
    var n := SpaceLen(s);
    if n > 0 {
      TrimStartContent(s[n..], b);
      assert s == s[..n] + s[n..];
      SpaceContent(s, n, b);
    }
  }

  lemma SpaceContent(s: Octets, n: nat, b: byte)
    requires n == SpaceLen(s)
    ensures 33 <= b < 0x80 ==> b !in s[..n]
  {
  }

  lemma {:induction false} TrimEndContent(s: Octets, b: byte)
    ensures b in TrimEnd(s) ==> b in s
    ensures 33 <= b < 0x80 && b in s ==> b in TrimEnd(s)
    decreases |s|
  {
    var n := SpaceLenAtEnd(s);
    if n > 0 {
      var k := |s| - n;
      TrimEndContent(s[..k], b);
      assert s == s[..k] + s[k..];
      SpaceAtEndContent(s, k, b);
    }
  }

  lemma SpaceAtEndContent(s: Octets, k: nat, b: byte)
    requires k == |s| - SpaceLenAtEnd(s)
    ensures 33 <= b < 0x80 ==> b !in s[k..]
  {
  }

  lemma TrimContent(s: Octets, b: byte)
    ensures b in Trim(s) ==> b in s
    ensures 33 <= b < 0x80 && b in s ==> b in Trim(s)
  {
    TrimStartContent(s, b);
    TrimEndContent(TrimStart(s), b);
  }
}
