/** The two string operations the client code depends on: JavaScript's
    `String.prototype.trim`, used by the publish guard and the search guard,
    and the `full_name ILIKE '%query%'` match of the profile search. */
module Text {

  /** The code points `trim` strips: ECMAScript WhiteSpace (tab, vertical
      tab, form feed, space, no-break space, byte order mark and the Unicode
      space separators) and LineTerminator (LF, CR, U+2028, U+2029). */
  predicate IsWhitespace(c: char) {
    var n := c as int;
    n == 0x09 || n == 0x0A || n == 0x0B || n == 0x0C || n == 0x0D
    || n == 0x20 || n == 0xA0 || n == 0x1680 || (0x2000 <= n <= 0x200A)
    || n == 0x2028 || n == 0x2029 || n == 0x202F || n == 0x205F
    || n == 0x3000 || n == 0xFEFF
  }

  /** Every character of `s[lo..hi]` is whitespace. */
  predicate BlankBetween(s: string, lo: int, hi: int)
    requires 0 <= lo && hi <= |s|
  {
    forall i :: lo <= i < hi ==> IsWhitespace(s[i])
  }

  /** The index of the first non-whitespace character at or after `i`
      (`|s|` if there is none). */
  function Lead(s: string, i: nat): (r: nat)
    requires i <= |s|
    ensures i <= r <= |s| && BlankBetween(s, i, r)
    ensures r < |s| ==> !IsWhitespace(s[r])
    decreases |s| - i
  {
    if i < |s| && IsWhitespace(s[i]) then Lead(s, i + 1) else i
  }

  /** One past the last non-whitespace character before `j` (0 if there is
      none). */
  function Trail(s: string, j: nat): (r: nat)
    requires j <= |s|
    ensures r <= j && BlankBetween(s, r, j)
    ensures 0 < r ==> !IsWhitespace(s[r - 1])
  {
    if 0 < j && IsWhitespace(s[j - 1]) then Trail(s, j - 1) else j
  }

  /** `s.trim()`: `s` with its leading and trailing whitespace cut off. It
      is empty exactly when `s` is all whitespace; otherwise it neither
      starts nor ends with whitespace. */
  function Trim(s: string): (r: string)
    ensures |r| <= |s|
    ensures r == [] <==> BlankBetween(s, 0, |s|)
    ensures r != [] ==> r == s[Lead(s, 0)..Trail(s, |s|)]
    ensures r != [] ==> !IsWhitespace(r[0]) && !IsWhitespace(r[|r| - 1])
  {
    var a := Lead(s, 0);
    if a == |s| then []
    else
      var b := Trail(s, |s|);
      s[a..b]
  }

  /** The UTF-16 code units JavaScript's `length` counts for one character:
      two (a surrogate pair) above the Basic Multilingual Plane, one below. */
  function CodeUnits(c: char): nat {
    if c as int > 0xFFFF then 2 else 1
  }

  /** `s.length` in JavaScript: code units, not characters. */
  function Utf16Length(s: string): (n: nat)
    ensures |s| <= n <= 2 * |s|
    ensures n == |s| <==> forall i :: 0 <= i < |s| ==> CodeUnits(s[i]) == 1
  {
    if s == [] then 0 else CodeUnits(s[0]) + Utf16Length(s[1..])
  }

  lemma {:induction false} Utf16LengthAppend(a: string, b: string)
    ensures Utf16Length(a + b) == Utf16Length(a) + Utf16Length(b)
  {
    if a == [] {
      assert a + b == b;
    } else {
      assert (a + b)[0] == a[0] && (a + b)[1..] == a[1..] + b;
      Utf16LengthAppend(a[1..], b);
    }
  }

  /** Trimming never lengthens a string, counted in code units. */
  lemma TrimShortens(s: string)
    ensures Utf16Length(Trim(s)) <= Utf16Length(s)
  {
    var r := Trim(s);
    if r != [] {
      var a, b := Lead(s, 0), Trail(s, |s|);
      assert s == s[..a] + r + s[b..];
      Utf16LengthAppend(s[..a], r);
      Utf16LengthAppend(s[..a] + r, s[b..]);
    }
  }

  /** ASCII upper-case letters folded to lower case. */
  function LowerAscii(c: char): (d: char)
    ensures 'A' <= c <= 'Z' ==> 'a' <= d <= 'z'
    ensures !('A' <= c <= 'Z') ==> d == c
  {
    if 'A' <= c <= 'Z' then (c as int + 32) as char else c
  }

  function Fold(s: string): (r: string)
    ensures |r| == |s|
    ensures forall i :: 0 <= i < |s| ==> r[i] == LowerAscii(s[i])
  {
    if s == [] then [] else [LowerAscii(s[0])] + Fold(s[1..])
  }

  /** `needle` occurs in `hay` as a contiguous run. */
  predicate IsInfix(needle: string, hay: string) {
    needle <= hay || (hay != [] && IsInfix(needle, hay[1..]))
  }

  /** `needle` occurs in `hay` starting at index `i`. */
  predicate OccursAt(needle: string, hay: string, i: int) {
    0 <= i <= |hay| - |needle| && hay[i..i + |needle|] == needle
  }

  lemma {:induction false} IsInfixAt(needle: string, hay: string)
    ensures IsInfix(needle, hay) <==> exists i :: OccursAt(needle, hay, i)
  {
    if needle <= hay {
      assert OccursAt(needle, hay, 0);
    } else if hay == [] {
    } else {
      IsInfixAt(needle, hay[1..]);
      if exists i :: OccursAt(needle, hay, i) {
        var i :| OccursAt(needle, hay, i);
        assert i != 0;
        assert OccursAt(needle, hay[1..], i - 1);
      }
      if IsInfix(needle, hay[1..]) {
        var j :| OccursAt(needle, hay[1..], j);
        assert OccursAt(needle, hay, j + 1);
      }
    }
  }

  /** `value ILIKE '%pattern%'`, with case folding limited to ASCII letters
      and the pattern read literally. */
  predicate ILikeContains(value: string, pattern: string) {
    IsInfix(Fold(pattern), Fold(value))
  }
}
