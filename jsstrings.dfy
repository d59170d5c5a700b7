/** The JavaScript string and array built-ins the application relies on,
    with ECMAScript's semantics: `trim`, `indexOf`, `lastIndexOf`,
    `substring`, `slice`, `split(' ')[0]`, `charAt(0)` and
    `encodeURIComponent`. Strings are sequences of characters. */
module JsStrings {

  /** ECMAScript WhiteSpace and LineTerminator code points, the set `trim` removes. */
  predicate IsWhitespace(c: char) {
    c == '\t' || c == '\n' || c == '\U{B}' || c == '\U{C}' || c == '\r' || c == ' '
    || c == '\U{A0}' || c == '\U{1680}' || ('\U{2000}' <= c <= '\U{200A}')
    || c == '\U{2028}' || c == '\U{2029}' || c == '\U{202F}' || c == '\U{205F}'
    || c == '\U{3000}' || c == '\U{FEFF}'
  }

  predicate AllWhitespace(s: string) {
    forall i :: 0 <= i < |s| ==> IsWhitespace(s[i])
  }

  /** Leading whitespace removed: the longest suffix that does not start with whitespace. */
  function TrimStart(s: string): (r: string)
    ensures |r| <= |s|
  {
    if |s| > 0 && IsWhitespace(s[0]) then TrimStart(s[1..]) else s
  }

  lemma {:induction false} TrimStartSpec(s: string)
    ensures var r := TrimStart(s);
            r == s[|s| - |r|..] && AllWhitespace(s[..|s| - |r|]) && (r == [] || !IsWhitespace(r[0]))
  {
    if |s| > 0 && IsWhitespace(s[0]) {
      TrimStartSpec(s[1..]);
      var r := TrimStart(s[1..]);
      assert s[..|s| - |r|] == [s[0]] + s[1..][..|s| - 1 - |r|];
      assert s[|s| - |r|..] == s[1..][|s| - 1 - |r|..];
    }
  }

  /** Trailing whitespace removed: the longest prefix that does not end with whitespace. */
  function TrimEnd(s: string): (r: string)
    ensures |r| <= |s|
  {
    if |s| > 0 && IsWhitespace(s[|s| - 1]) then TrimEnd(s[..|s| - 1]) else s
  }

  lemma {:induction false} TrimEndSpec(s: string)
    ensures var r := TrimEnd(s);
            r == s[..|r|] && AllWhitespace(s[|r|..]) && (r == [] || !IsWhitespace(r[|r| - 1]))
  {
    if |s| > 0 && IsWhitespace(s[|s| - 1]) {
      TrimEndSpec(s[..|s| - 1]);
      var r := TrimEnd(s[..|s| - 1]);
      assert s[|r|..] == s[..|s| - 1][|r|..] + [s[|s| - 1]];
      assert s[..|r|] == s[..|s| - 1][..|r|];
    }
  }

  /** The whitespace removed by `TrimStart` and then `TrimEnd` lies at the
      two ends of the input, and what is left has none at either end. */
  lemma TrimWitness(s: string)
    ensures var t := TrimStart(s);
            var r := TrimEnd(t);
            var i := |s| - |t|;
            i + |r| <= |s| && r == s[i..i + |r|]
            && AllWhitespace(s[..i]) && AllWhitespace(s[i + |r|..])
            && (r == [] || (!IsWhitespace(r[0]) && !IsWhitespace(r[|r| - 1])))
  {
    var t := TrimStart(s);
    TrimStartSpec(s);
    TrimEndSpec(t);
    var r := TrimEnd(t);
    var i := |s| - |t|;
    assert s[i..i + |r|] == t[..|r|];
    assert s[i + |r|..] == t[|r|..];
    assert r != [] ==> r[0] == t[0];
  }

  /** `String.prototype.trim`: the substring left after removing whitespace at
      both ends; it neither starts nor ends with whitespace. */
  function Trim(s: string): (r: string)
    ensures var i := |s| - |TrimStart(s)|;
            i + |r| <= |s| && r == s[i..i + |r|]
            && AllWhitespace(s[..i]) && AllWhitespace(s[i + |r|..])
    ensures r == [] || (!IsWhitespace(r[0]) && !IsWhitespace(r[|r| - 1]))
  {
    TrimWitness(s);
    TrimEnd(TrimStart(s))
  }

  /** A string trims to "" exactly when it is all whitespace. */
  lemma TrimEmptyIff(s: string)
    ensures Trim(s) == [] <==> AllWhitespace(s)
  {
    var r := Trim(s);
    var i := |s| - |TrimStart(s)|;
    if r == [] {
      forall k | 0 <= k < |s| ensures IsWhitespace(s[k]) {
        if k < i { assert s[..i][k] == s[k]; } else { assert s[i..][k - i] == s[k]; }
      }
    } else {
      assert s[i] == r[0] && !IsWhitespace(s[i]);
    }
  }

  /** The first position at or after `i` holding `c`, or -1. */
  function IndexFrom(s: string, c: char, i: nat): (r: int)
    requires i <= |s|
    ensures r == -1 || i <= r < |s|
    ensures r == -1 <==> forall k :: i <= k < |s| ==> s[k] != c
    ensures r >= 0 ==> s[r] == c && forall k :: i <= k < r ==> s[k] != c
    decreases |s| - i
  {
    if i == |s| then -1 else if s[i] == c then i else IndexFrom(s, c, i + 1)
  }

  /** `String.prototype.indexOf` for one character: the first position, or -1. */
  function IndexOf(s: string, c: char): (r: int)
    ensures -1 <= r < |s|
    ensures r == -1 <==> c !in s
    ensures r >= 0 ==> s[r] == c && forall k :: 0 <= k < r ==> s[k] != c
  {
    IndexFrom(s, c, 0)
  }

  /** The last position before `n` holding `c`, or -1. */
  function LastIndexBefore(s: string, c: char, n: nat): (r: int)
    requires n <= |s|
    ensures -1 <= r < n
    ensures r == -1 <==> forall k :: 0 <= k < n ==> s[k] != c
    ensures r >= 0 ==> s[r] == c && forall k :: r < k < n ==> s[k] != c
  {
    if n == 0 then -1 else if s[n - 1] == c then n - 1 else LastIndexBefore(s, c, n - 1)
  }

  /** `String.prototype.lastIndexOf` for one character: the last position, or -1. */
  function LastIndexOf(s: string, c: char): (r: int)
    ensures -1 <= r < |s|
    ensures r == -1 <==> c !in s
    ensures r >= 0 ==> s[r] == c && forall k :: r < k < |s| ==> s[k] != c
  {
    LastIndexBefore(s, c, |s|)
  }

  function Clamp(x: int, len: nat): (r: nat)
    ensures r <= len
    ensures 0 <= x <= len ==> r == x
  {
    if x < 0 then 0 else if x > len then len else x
  }

  /** `String.prototype.substring(start, end)`: both bounds clamped to the
      string, then swapped if the first is larger. */
  function Substring(s: string, start: int, end: int): (r: string)
    ensures 0 <= start <= end <= |s| ==> r == s[start..end]
    ensures 0 <= end <= start <= |s| ==> r == s[end..start]
    ensures |r| <= |s|
  {
    var a, b := Clamp(start, |s|), Clamp(end, |s|);
    if a <= b then s[a..b] else s[b..a]
  }

  /** `Array.prototype.slice(0, end)`: a negative end counts back from the length. */
  function SliceTo<T>(s: seq<T>, end: int): (r: seq<T>)
    ensures |r| <= |s| && r == s[..|r|]
    ensures 0 <= end ==> |r| == if end < |s| then end else |s|
    ensures end < 0 ==> |r| == if |s| + end < 0 then 0 else |s| + end
  {
    var k := if end < 0 then (if |s| + end < 0 then 0 else |s| + end)
             else if end < |s| then end else |s|;
    s[..k]
  }

  /** `s.split(' ')[0]`: the text before the first space, or all of `s`. */
  function BeforeFirstSpace(s: string): (r: string)
    ensures |r| <= |s| && r == s[..|r|]
    ensures ' ' !in r
    ensures |r| < |s| ==> s[|r|] == ' '
  {
    var k := IndexOf(s, ' ');
    if k == -1 then s else s[..k]
  }

  /** `s.charAt(0)`: the first character as a string, "" when `s` is empty. */
  function FirstChar(s: string): (r: string)
    ensures |r| == if s == [] then 0 else 1
    ensures r == s[..|r|]
  {
    if s == [] then "" else [s[0]]
  }

  /** The characters `encodeURIComponent` leaves as they are: A-Z a-z 0-9 - _ . ! ~ * ' ( ) */
  predicate IsUnreserved(c: char) {
    ('A' <= c <= 'Z') || ('a' <= c <= 'z') || ('0' <= c <= '9')
    || c == '-' || c == '_' || c == '.' || c == '!' || c == '~' || c == '*'
    || c == '\'' || c == '(' || c == ')'
  }

  /** The UTF-8 encoding of one code point, as byte values. */
  function Utf8(c: char): (bs: seq<int>)
    ensures 1 <= |bs| <= 4
    ensures forall i :: 0 <= i < |bs| ==> 0 <= bs[i] < 256
  {
    var cp := c as int;
    if cp < 0x80 then [cp]
    else if cp < 0x800 then [0xC0 + cp / 64, 0x80 + cp % 64]
    else if cp < 0x10000 then [0xE0 + cp / 4096, 0x80 + (cp / 64) % 64, 0x80 + cp % 64]
    else [0xF0 + cp / 262144, 0x80 + (cp / 4096) % 64, 0x80 + (cp / 64) % 64, 0x80 + cp % 64]
  }

  const HexDigits: string := "0123456789ABCDEF"

  /** Each byte as `%XY`, upper-case hexadecimal. */
  function PercentEncode(bs: seq<int>): (r: string)
    requires forall i :: 0 <= i < |bs| ==> 0 <= bs[i] < 256
    ensures |r| == 3 * |bs|
    ensures forall i :: 0 <= i < |r| ==> r[i] == '%' || r[i] in HexDigits
  {
    if bs == [] then ""
    else ['%', HexDigits[bs[0] / 16], HexDigits[bs[0] % 16]] + PercentEncode(bs[1..])
  }

  /** `encodeURIComponent`: unreserved characters are copied, every other one
      is replaced by the percent-encoding of its UTF-8 bytes. The result holds
      only unreserved characters and '%', so it contains none of the URI
      delimiters ':', '/', '?', '#', '&', '='. */
  function EncodeUriComponent(s: string): (r: string)
    ensures forall i :: 0 <= i < |r| ==> IsUnreserved(r[i]) || r[i] == '%'
    ensures |s| <= |r|
  {
    if s == [] then ""
    else
      var head := if IsUnreserved(s[0]) then [s[0]] else PercentEncode(Utf8(s[0]));
      head + EncodeUriComponent(s[1..])
  }

  /** A string of unreserved characters is its own encoding. */
  lemma {:induction false} EncodeUnreservedIdentity(s: string)
    requires forall i :: 0 <= i < |s| ==> IsUnreserved(s[i])
    ensures EncodeUriComponent(s) == s
  {
    if s != [] {
      EncodeUnreservedIdentity(s[1..]);
    }
  }

  /** Encoding distributes over concatenation. */
  lemma {:induction false} EncodeAppend(a: string, b: string)
    ensures EncodeUriComponent(a + b) == EncodeUriComponent(a) + EncodeUriComponent(b)
  {
    if a == [] {
      assert a + b == b;
    } else {
      assert (a + b)[0] == a[0];
      assert (a + b)[1..] == a[1..] + b;
      EncodeAppend(a[1..], b);
    }
  }

  /** Every character that is not unreserved makes the encoding longer. */
  lemma {:induction false} EncodeGrows(s: string, k: nat)
    requires k < |s| && !IsUnreserved(s[k])
    ensures |EncodeUriComponent(s)| >= |s| + 2
  {
    if k > 0 {
      EncodeGrows(s[1..], k - 1);
    }
  }

  /** So a string is its own encoding only if it is all unreserved characters. */
  lemma EncodeIdentityOnlyIfUnreserved(s: string)
    requires EncodeUriComponent(s) == s
    ensures forall i :: 0 <= i < |s| ==> IsUnreserved(s[i])
  {
    forall i | 0 <= i < |s| ensures IsUnreserved(s[i]) {
      if !IsUnreserved(s[i]) {
        EncodeGrows(s, i);
      }
    }
  }
}
