/** Octets, and the small amount of text handling the engine does on them. */
module Bytes {
  import opened Wrappers

  newtype byte = x: int | 0 <= x < 256

  type Octets = seq<byte>

  const NUL: byte := 0
  const LF: byte := 10
  const CR: byte := 13
  const COLON: byte := 58
  const BACKSLASH: byte := 92

  /** One past the largest `usize` of the 64-bit targets the engine is built for. */
  const USIZE_LIMIT: nat := 0x1_0000_0000_0000_0000

  /** `+` on `usize` in a build without overflow checks. */
  function WrappingAdd(a: nat, b: nat): (r: nat)
    requires a < USIZE_LIMIT && b < USIZE_LIMIT
    ensures r == if a + b < USIZE_LIMIT then a + b else a + b - USIZE_LIMIT
  {
    (a + b) % USIZE_LIMIT
  }

  /** Index of the first `needle`, if there is one. */
  function Find(haystack: Octets, needle: byte): (r: Option<nat>)
    ensures r.Some? ==> r.value < |haystack| && haystack[r.value] == needle
  {
    if haystack == [] then None
    else if haystack[0] == needle then Some(0)
    else
      match Find(haystack[1..], needle)
      case None => None
      case Some(i) => Some(i + 1)
  }

  /** It is the first: nothing before it matches, and nothing at all when there is none. */
  lemma {:induction false} FindFirst(haystack: Octets, needle: byte, i: nat)
    requires i < match Find(haystack, needle) case Some(k) => k case None => |haystack|
    ensures haystack[i] != needle
  {
    if i > 0 {
      FindFirst(haystack[1..], needle, i - 1);
    }
  }

  /** These two facts determine the result. */
  lemma FindUnique(haystack: Octets, needle: byte, i: nat)
    requires i < |haystack| && haystack[i] == needle && needle !in haystack[..i]
    ensures Find(haystack, needle) == Some(i)
  {
    assert forall k :: 0 <= k < i ==> haystack[..i][k] == haystack[k];
    match Find(haystack, needle)
    case None => FindFirst(haystack, needle, i);
    case Some(j) =>
      if i < j {
        FindFirst(haystack, needle, i);
      }
  }

  /** Cutting at a delimiter that does not occur before it. */
  lemma Cut(a: Octets, delimiter: byte, rest: Octets)
    requires delimiter !in a
    ensures var p := a + [delimiter] + rest;
            && Find(p, delimiter) == Some(|a|)
            && p[..|a|] == a && p[|a| + 1..] == rest
  {
    var p := a + [delimiter] + rest;
    assert p[..|a|] == a;
    FindUnique(p, delimiter, |a|);
  }

  lemma DropDrop(s: Octets, a: nat, b: nat)
    requires a + b <= |s|
    ensures s[a..][b..] == s[a + b..]
  {
  }

  /** An answer of `Find` does not change when more octets arrive. */
  lemma FindStable(a: Octets, b: Octets, needle: byte)
    requires Find(a, needle).Some?
    ensures Find(a + b, needle) == Find(a, needle)
  {
    var i := Find(a, needle).value;
    forall k | 0 <= k < i ensures (a + b)[..i][k] != needle {
      FindFirst(a, needle, k);
    }
    FindUnique(a + b, needle, i);
  }

  /** Drop one trailing carriage return. */
  function StripCr(line: Octets): (r: Octets)
    ensures r <= line && |line| <= |r| + 1
  {
    if line != [] && line[|line| - 1] == CR then line[..|line| - 1] else line
  }

  // ---------- ASCII case ----------

  function Lower(b: byte): byte {
    if 65 <= b <= 90 then b + 32 else b
  }

  function LowerAll(s: Octets): (r: Octets)
    ensures |r| == |s|
    ensures forall i :: 0 <= i < |s| ==> r[i] == Lower(s[i])
  {
    seq(|s|, i requires 0 <= i < |s| => Lower(s[i]))
  }

  /** `eq_ignore_ascii_case`. */
  predicate SameName(a: Octets, b: Octets) {
    LowerAll(a) == LowerAll(b)
  }

  // ---------- decimal numbers ----------

  predicate IsDigit(b: byte) {
    48 <= b <= 57
  }

  /** `to_string` of an unsigned number. */
  function Decimal(n: nat): (r: Octets)
    ensures r != [] && forall i :: 0 <= i < |r| ==> IsDigit(r[i])
    decreases n
  {
    if n < 10 then [(48 + n) as byte] else Decimal(n / 10) + [(48 + n % 10) as byte]
  }

  /** The value of a string of digits. */
  function Value(digits: Octets): nat
    requires forall i :: 0 <= i < |digits| ==> IsDigit(digits[i])
  {
    if digits == [] then 0
    else
      assert IsDigit(digits[|digits| - 1]);
      10 * Value(digits[..|digits| - 1]) + (digits[|digits| - 1] as int - 48)
  }

  /** `str::parse` of an unsigned number: an optional plus sign, then at least one digit, within range. */
  function ParseUnsigned(s: Octets, limit: nat): (r: Option<nat>)
    ensures r.Some? ==> r.value < limit
  {
    var digits := if s != [] && s[0] == 43 then s[1..] else s;
    if digits == [] || exists i :: 0 <= i < |digits| && !IsDigit(digits[i]) then None
    else if Value(digits) < limit then Some(Value(digits))
    else None
  }

  function ParseUsize(s: Octets): (r: Option<nat>)
    ensures r.Some? ==> r.value < USIZE_LIMIT
  {
    ParseUnsigned(s, USIZE_LIMIT)
  }

  lemma {:induction false} ValueOfDecimal(n: nat)
    ensures Value(Decimal(n)) == n
    decreases n
  {
    if n >= 10 {
      ValueOfDecimal(n / 10);
      assert Decimal(n)[..|Decimal(n)| - 1] == Decimal(n / 10);
    }
  }

  /** Parsing undoes printing on every `usize`. */
  lemma ParseDecimal(n: nat)
    requires n < USIZE_LIMIT
    ensures ParseUsize(Decimal(n)) == Some(n)
  {
    ValueOfDecimal(n);
    assert IsDigit(Decimal(n)[0]);
  }

  lemma DecimalInjective(m: nat, n: nat)
    requires Decimal(m) == Decimal(n)
    ensures m == n
  {
    ValueOfDecimal(m);
    ValueOfDecimal(n);
  }
}
