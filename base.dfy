/** Values and JavaScript built-ins that every part of the portal relies on:
    optional values, string truthiness, `trim`, `toLowerCase`, `includes`,
    `Array.prototype.slice`, and the abstract calendar behind `Date`. */
module Base {

  datatype Option<+T> = None | Some(value: T)

  /** An optional string that JavaScript treats as true: present and not empty. */
  predicate Present(o: Option<string>) {
    o.Some? && o.value != ""
  }

  /** The characters that `\s` matches in a JavaScript regular expression and
      that `String.prototype.trim` removes (white space and line terminators). */
  const Spaces: set<char> := {
    ' ', '\t', '\n', '\r', '\U{B}', '\U{C}', '\U{A0}', '\U{1680}',
    '\U{2000}', '\U{2001}', '\U{2002}', '\U{2003}', '\U{2004}', '\U{2005}',
    '\U{2006}', '\U{2007}', '\U{2008}', '\U{2009}', '\U{200A}',
    '\U{2028}', '\U{2029}', '\U{202F}', '\U{205F}', '\U{3000}', '\U{FEFF}'
  }

  predicate IsSpace(c: char) {
    c in Spaces
  }

  ghost predicate AllSpace(s: string) {
    forall k :: 0 <= k < |s| ==> IsSpace(s[k])
  }

  /** Multiplying by a positive number keeps the order. */
  lemma MultiplyMonotone(a: int, b: int, c: int)
    requires a <= b && c > 0
    ensures a * c <= b * c
  {
  }

  /** `s.trimStart()`: the suffix of `s` that starts at its first non-space character. */
  function TrimStart(s: string): (r: string)
    ensures |r| <= |s| && r == s[|s| - |r|..]
    ensures AllSpace(s[..|s| - |r|])
    ensures r != [] ==> !IsSpace(r[0])
  {
    if s == [] || !IsSpace(s[0]) then s else TrimStart(s[1..])
  }

  /** `s.trimEnd()`: the prefix of `s` that ends at its last non-space character. */
  function TrimEnd(s: string): (r: string)
    ensures |r| <= |s| && r == s[..|r|]
    ensures AllSpace(s[|r|..])
    ensures r != [] ==> !IsSpace(r[|r| - 1])
  {
    if s == [] || !IsSpace(s[|s| - 1]) then s else TrimEnd(s[..|s| - 1])
  }

  /** `s.trim()`. */
  function Trim(s: string): string {
    TrimEnd(TrimStart(s))
  }

  /** `s.trim()` is empty exactly when `s` consists of white space only, and
      otherwise neither starts nor ends with white space. */
  lemma {:induction false} TrimEmptyIffBlank(s: string)
    ensures Trim(s) == [] <==> AllSpace(s)
    ensures Trim(s) != [] ==> !IsSpace(Trim(s)[0]) && !IsSpace(Trim(s)[|Trim(s)| - 1])
  {
    var t := TrimStart(s);
    var r := TrimEnd(t);
    if r == [] {
      EmptyTrimIsBlank(s);
    } else {
      assert r[0] == t[0] == s[|s| - |t|];
    }
  }

  /** When nothing is left after trimming, everything was white space. */
  lemma EmptyTrimIsBlank(s: string)
    requires Trim(s) == []
    ensures AllSpace(s)
  {
    var t := TrimStart(s);
    var head := s[..|s| - |t|];
    assert t[|Trim(s)|..] == t;
    assert s == head + t;
    forall k | 0 <= k < |s| ensures IsSpace(s[k]) {
      assert s[k] == (head + t)[k];
    }
  }

  /** Trimming twice is the same as trimming once. */
  lemma {:induction false} TrimIdempotent(s: string)
    ensures Trim(Trim(s)) == Trim(s)
  {
    TrimEmptyIffBlank(s);
  }

  /** `s.length`: JavaScript counts UTF-16 code units, so a character above
      U+FFFF (stored as a surrogate pair) counts twice. */
  function Utf16Length(s: string): (n: nat)
    ensures |s| <= n <= 2 * |s|
    ensures n == 0 <==> s == []
  {
    if s == [] then 0 else (if s[0] as int > 0xFFFF then 2 else 1) + Utf16Length(s[1..])
  }

  /** For text within the Basic Multilingual Plane, `.length` is the number
      of characters. */
  lemma {:induction false} Utf16LengthBmp(s: string)
    requires forall k :: 0 <= k < |s| ==> s[k] as int <= 0xFFFF
    ensures Utf16Length(s) == |s|
  {
    if s != [] {
      Utf16LengthBmp(s[1..]);
    }
  }

  /** One character outside the Basic Multilingual Plane already has length 2. */
  lemma AstralCharHasLengthTwo(c: char)
    requires c as int > 0xFFFF
    ensures Utf16Length([c]) == 2
  {
    assert [c][1..] == [];
  }

  /** `toLowerCase` on one character: the ASCII capitals A-Z become a-z. */
  function LowerChar(c: char): (d: char)
    ensures 'A' <= c <= 'Z' ==> d != c && 'a' <= d <= 'z'
    ensures !('A' <= c <= 'Z') ==> d == c
  {
    if 'A' <= c <= 'Z' then (c as int - 'A' as int + 'a' as int) as char else c
  }

  /** `s.toLowerCase()` restricted to ASCII letters. */
  function Lower(s: string): (r: string)
    ensures |r| == |s|
  {
    seq(|s|, k requires 0 <= k < |s| => LowerChar(s[k]))
  }

  lemma LowerIdempotent(s: string)
    ensures Lower(Lower(s)) == Lower(s)
  {
  }

  /** `hay.includes(needle)`, computed by trying every start position. */
  function Includes(hay: string, needle: string): bool
    decreases |hay|
  {
    if |needle| > |hay| then false
    else if needle <= hay then true
    else Includes(hay[1..], needle)
  }

  ghost predicate OccursAt(hay: string, needle: string, i: int) {
    0 <= i && i + |needle| <= |hay| && hay[i..i + |needle|] == needle
  }

  /** `includes` holds exactly when the needle occurs somewhere in the haystack. */
  lemma {:induction false} IncludesIffOccurs(hay: string, needle: string)
    ensures Includes(hay, needle) <==> exists i :: OccursAt(hay, needle, i)
    decreases |hay|
  {
    if |needle| > |hay| {
    } else if needle <= hay {
      assert OccursAt(hay, needle, 0);
    } else {
      IncludesIffOccurs(hay[1..], needle);
      if exists i :: OccursAt(hay[1..], needle, i) {
        var i :| OccursAt(hay[1..], needle, i);
        assert hay[1..][i..i + |needle|] == hay[i + 1..i + 1 + |needle|];
        assert OccursAt(hay, needle, i + 1);
      }
      if exists i :: OccursAt(hay, needle, i) {
        var i :| OccursAt(hay, needle, i);
        assert i != 0;
        assert hay[1..][i - 1..i - 1 + |needle|] == hay[i..i + |needle|];
        assert OccursAt(hay[1..], needle, i - 1);
      }
    }
  }

  /** The empty string is included in every string. */
  lemma IncludesEmpty(hay: string)
    ensures Includes(hay, "")
  {
  }

  /** Decimal digits of a natural number, as template literals print it. */
  function NatToDecimal(n: nat): string
    decreases n
  {
    if n < 10 then [('0' as int + n) as char]
    else NatToDecimal(n / 10) + [('0' as int + n % 10) as char]
  }

  /** `String(n)` for an integer. */
  function IntToDecimal(n: int): string {
    if n < 0 then "-" + NatToDecimal(-n) else NatToDecimal(n)
  }

  /** What `btoa` accepts: every UTF-16 code unit is at most U+00FF. A
      character above U+FFFF is two surrogate units, both above U+00FF. */
  predicate Latin1(s: string) {
    forall k :: 0 <= k < |s| ==> s[k] as int <= 0xFF
  }

  lemma {:induction false} NatToDecimalLatin1(n: nat)
    ensures Latin1(NatToDecimal(n))
    decreases n
  {
    if n >= 10 {
      NatToDecimalLatin1(n / 10);
    }
  }

  /** The decimal form of a number is plain ASCII. */
  lemma DecimalIsLatin1(n: int)
    ensures Latin1(IntToDecimal(n))
  {
    NatToDecimalLatin1(if n < 0 then -n else n);
  }

  /** How `Array.prototype.slice` resolves one bound: a negative bound counts
      from the end, and the result is clamped to `[0, len]`. */
  function SliceBound(i: int, len: nat): (r: nat)
    ensures r <= len
    ensures 0 <= i <= len ==> r == i
    ensures i > len ==> r == len
    ensures i < 0 ==> r == if len + i < 0 then 0 else len + i
  {
    if i < 0 then (if len + i < 0 then 0 else len + i) else if i > len then len else i
  }

  /** `s.slice(start, end)`. */
  function JsSlice<T>(s: seq<T>, start: int, end: int): (r: seq<T>)
    ensures |r| <= |s|
    ensures 0 <= start <= end <= |s| ==> r == s[start..end]
    ensures 0 <= start <= |s| <= end ==> r == s[start..]
    ensures |s| <= start || 0 <= end <= start ==> r == []
  {
    var a, b := SliceBound(start, |s|), SliceBound(end, |s|);
    if a < b then s[a..b] else []
  }

  /** Calendar arithmetic on millisecond timestamps, as `Date` performs it
      (`setDate`, `setMonth`, `setFullYear`), and the month a timestamp falls
      in, numbered as `12 * year + month`. These depend on the time zone and on
      month lengths, which this model does not fix. */
  datatype Calendar = Calendar(
    addDays: (int, int) -> int,
    addMonths: (int, int) -> int,
    addYears: (int, int) -> int,
    monthOf: int -> int)
}
