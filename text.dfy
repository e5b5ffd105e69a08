/**
 * The JavaScript string operations the server relies on, over `string` (a sequence
 * of characters): `trim`, `split` on a one-character separator, `join`,
 * `startsWith`, `includes` and the default comparison used by `Array.prototype.sort`.
 */
module Text {

  /** ECMAScript WhiteSpace and LineTerminator code points, the set `trim` removes. */
  const JsWhitespace: set<char> := {
    '\U{0009}', '\U{000A}', '\U{000B}', '\U{000C}', '\U{000D}', '\U{0020}', '\U{00A0}', '\U{1680}',
    '\U{2000}', '\U{2001}', '\U{2002}', '\U{2003}', '\U{2004}', '\U{2005}', '\U{2006}', '\U{2007}',
    '\U{2008}', '\U{2009}', '\U{200A}', '\U{2028}', '\U{2029}', '\U{202F}', '\U{205F}', '\U{3000}',
    '\U{FEFF}'
  }

  predicate IsJsWhitespace(c: char) {
    c in JsWhitespace
  }

  predicate AllWhitespace(s: string) {
    forall i :: 0 <= i < |s| ==> IsJsWhitespace(s[i])
  }

  /** `String.prototype.trimStart`; also the whitespace skip at the start of `parseInt`. */
  function TrimStart(s: string): string {
    if |s| > 0 && IsJsWhitespace(s[0]) then TrimStart(s[1..]) else s
  }

  /** `trimStart` keeps a suffix that does not start with whitespace. */
  lemma {:induction false} TrimStartSuffix(s: string)
    ensures var r := TrimStart(s); |r| <= |s| && r == s[|s| - |r|..] && (|r| > 0 ==> !IsJsWhitespace(r[0]))
  {
    if |s| > 0 && IsJsWhitespace(s[0]) {
      TrimStartSuffix(s[1..]);
    }
  }

  function TrimEnd(s: string): (r: string)
    ensures |r| <= |s| && r == s[..|r|]
    ensures |r| > 0 ==> !IsJsWhitespace(r[|r| - 1])
  {
    if |s| > 0 && IsJsWhitespace(s[|s| - 1]) then TrimEnd(s[..|s| - 1]) else s
  }

  /** `String.prototype.trim`. */
  function Trim(s: string): (r: string)
    ensures |r| <= |s|
    ensures |r| > 0 ==> !IsJsWhitespace(r[0]) && !IsJsWhitespace(r[|r| - 1])
  {
    TrimStartSuffix(s);
    TrimEnd(TrimStart(s))
  }

  /** `trim` keeps a contiguous piece of its input. */
  lemma TrimChars(s: string)
    ensures forall ch :: ch in Trim(s) ==> ch in s
  {
    var t := TrimStart(s);
    var r := TrimEnd(t);
    TrimStartSuffix(s);
    assert forall ch :: ch in r ==> ch in t;
  }

  lemma {:induction false} TrimStartEmptyIff(s: string)
    ensures TrimStart(s) == "" <==> AllWhitespace(s)
  {
    if |s| > 0 && IsJsWhitespace(s[0]) {
      TrimStartEmptyIff(s[1..]);
      assert AllWhitespace(s) <==> AllWhitespace(s[1..]);
    }
  }

  lemma {:induction false} TrimEndEmptyIff(s: string)
    ensures TrimEnd(s) == "" <==> AllWhitespace(s)
  {
    if |s| > 0 && IsJsWhitespace(s[|s| - 1]) {
      TrimEndEmptyIff(s[..|s| - 1]);
      assert AllWhitespace(s) <==> AllWhitespace(s[..|s| - 1]);
    }
  }

  /** `trim` yields the empty string exactly for all-whitespace input. */
  lemma TrimEmptyIffWhitespace(s: string)
    ensures Trim(s) == "" <==> AllWhitespace(s)
  {
    var t := TrimStart(s);
    TrimStartSuffix(s);
    TrimStartEmptyIff(s);
    TrimEndEmptyIff(t);
  }

  /** A string without surrounding whitespace is its own trim. */
  lemma TrimIdempotent(s: string)
    ensures Trim(Trim(s)) == Trim(s)
  {
    var r := Trim(s);
    assert TrimStart(r) == r;
    TrimStartSuffix(r);
    assert TrimEnd(r) == r;
  }

  /** `s.split(c)` for a one-character separator `c`. */
  function Split(s: string, c: char): (r: seq<string>)
    ensures |r| >= 1
    ensures forall i :: 0 <= i < |r| ==> c !in r[i]
  {
    if |s| == 0 then [""]
    else
      var rest := Split(s[1..], c);
      if s[0] == c then [""] + rest else [[s[0]] + rest[0]] + rest[1..]
  }

  /** `parts.join(c)`. */
  function Join(parts: seq<string>, c: char): string {
    if |parts| == 0 then ""
    else if |parts| == 1 then parts[0]
    else parts[0] + [c] + Join(parts[1..], c)
  }

  /** Splitting a piece that holds no separator, followed by a separator, peels that piece off. */
  lemma {:induction false} SplitPrefix(p: string, c: char, rest: string)
    requires c !in p
    ensures Split(p + [c] + rest, c) == [p] + Split(rest, c)
    ensures Split(p, c) == [p]
  {
    if |p| > 0 {
      SplitPrefix(p[1..], c, rest);
      assert (p + [c] + rest)[1..] == p[1..] + [c] + rest;
      assert [p[0]] + p[1..] == p;
    } else {
      assert p + [c] + rest == [c] + rest;
    }
  }

  /** `join` then `split` on a separator that no part contains gives the parts back. */
  lemma {:induction false} SplitJoin(parts: seq<string>, c: char)
    requires |parts| >= 1
    requires forall i :: 0 <= i < |parts| ==> c !in parts[i]
    ensures Split(Join(parts, c), c) == parts
  {
    if |parts| == 1 {
      SplitPrefix(parts[0], c, "");
    } else {
      SplitJoin(parts[1..], c);
      SplitPrefix(parts[0], c, Join(parts[1..], c));
    }
  }

  /** Every piece of a split occurs in the split string. */
  lemma {:induction false} SplitPiecesAreSubstrings(s: string, c: char, x: string)
    requires x in Split(s, c)
    ensures IsSubstring(x, s)
  {
    if |s| > 0 {
      var rest := Split(s[1..], c);
      if s[0] == c {
        if x != "" {
          SplitPiecesAreSubstrings(s[1..], c, x);
          var k :| 0 <= k <= |s[1..]| && x <= s[1..][k..];
          assert s[1..][k..] == s[k + 1..];
        } else {
          assert x <= s[0..];
        }
      } else if x == [s[0]] + rest[0] {
        SplitHeadIsPrefix(s[1..], c);
        assert x <= s[0..];
      } else {
        assert x in rest[1..];
        SplitPiecesAreSubstrings(s[1..], c, x);
        var k :| 0 <= k <= |s[1..]| && x <= s[1..][k..];
        assert s[1..][k..] == s[k + 1..];
      }
    } else {
      assert x <= s[0..];
    }
  }

  /** The first piece of a split is a prefix of the string. */
  lemma {:induction false} SplitHeadIsPrefix(s: string, c: char)
    ensures Split(s, c)[0] <= s
  {
    if |s| > 0 {
      SplitHeadIsPrefix(s[1..], c);
    }
  }

  /** `s.includes(x)` for strings. */
  predicate IsSubstring(x: string, s: string) {
    exists k :: 0 <= k <= |s| && x <= s[k..]
  }

  /** `s.startsWith(p)`. */
  predicate StartsWith(s: string, p: string) {
    p <= s
  }

  /** `s.split(c).map(x => x.trim()).filter(Boolean)`: trimmed, non-empty pieces in order. */
  function SplitTrimmed(s: string, c: char): (r: seq<string>)
    ensures forall i :: 0 <= i < |r| ==> Clean(r[i]) && c !in r[i]
  {
    TrimNonEmpty(Split(s, c), c)
  }

  /** Non-empty, and neither starts nor ends with whitespace. */
  predicate Clean(x: string) {
    |x| > 0 && !IsJsWhitespace(x[0]) && !IsJsWhitespace(x[|x| - 1])
  }

  /** `parts.map(x => x.trim()).filter(Boolean)`; pieces free of `c` stay free of it. */
  function TrimNonEmpty(parts: seq<string>, c: char): (r: seq<string>)
    ensures |r| <= |parts|
    ensures forall i :: 0 <= i < |r| ==> Clean(r[i])
    ensures (forall i :: 0 <= i < |parts| ==> c !in parts[i]) ==> forall i :: 0 <= i < |r| ==> c !in r[i]
  {
    if |parts| == 0 then []
    else
      var t := Trim(parts[0]);
      TrimChars(parts[0]);
      var rest := TrimNonEmpty(parts[1..], c);
      if t == "" then rest else [t] + rest
  }

  /**
   * Lexicographic order by code point. It stands for the default order of
   * `Array.prototype.sort`, which compares UTF-16 code units; the two agree whenever
   * one of the two strings is ASCII.
   */
  predicate LexLe(a: string, b: string) {
    if |a| == 0 then true
    else if |b| == 0 then false
    else if a[0] != b[0] then a[0] < b[0]
    else LexLe(a[1..], b[1..])
  }

  lemma {:induction false} LexLeTotal(a: string, b: string)
    ensures LexLe(a, b) || LexLe(b, a)
  {
    if |a| > 0 && |b| > 0 && a[0] == b[0] {
      LexLeTotal(a[1..], b[1..]);
    }
  }

  lemma {:induction false} LexLeAntisymmetric(a: string, b: string)
    requires LexLe(a, b) && LexLe(b, a)
    ensures a == b
  {
    if |a| > 0 && |b| > 0 {
      LexLeAntisymmetric(a[1..], b[1..]);
      assert a == [a[0]] + a[1..] && b == [b[0]] + b[1..];
    }
  }
}
