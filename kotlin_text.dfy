/**
 * The Kotlin standard-library string operations the app relies on:
 * `Char.isWhitespace`, `isBlank`, `trim` and `joinToString`.
 * Strings are sequences of characters.
 */
module KotlinText {

  /** `Char.isWhitespace` on the JVM: Java's `Character.isWhitespace` or
      `Character.isSpaceChar`, i.e. the control characters U+0009..U+000D and
      U+001C..U+001F, and the space, line and paragraph separators. */
  predicate IsWhitespace(c: char) {
    var n := c as int;
    || 9 <= n <= 13
    || 28 <= n <= 32
    || n == 0xA0
    || n == 0x1680
    || 0x2000 <= n <= 0x200A
    || n == 0x2028 || n == 0x2029
    || n == 0x202F || n == 0x205F
    || n == 0x3000
  }

  /** `CharSequence.isBlank`: empty or whitespace only. */
  predicate IsBlank(s: string) {
    forall i :: 0 <= i < |s| ==> IsWhitespace(s[i])
  }

  /** Blankness splits over concatenation. */
  lemma BlankConcat(a: string, b: string)
    ensures IsBlank(a + b) <==> IsBlank(a) && IsBlank(b)
  {
    if IsBlank(a) && IsBlank(b) {
      forall i | 0 <= i < |a + b| ensures IsWhitespace((a + b)[i]) {
        if i < |a| { assert (a + b)[i] == a[i]; } else { assert (a + b)[i] == b[i - |a|]; }
      }
    }
    if IsBlank(a + b) {
      forall i | 0 <= i < |a| ensures IsWhitespace(a[i]) { assert a[i] == (a + b)[i]; }
      forall i | 0 <= i < |b| ensures IsWhitespace(b[i]) { assert b[i] == (a + b)[|a| + i]; }
    }
  }

  /** Drops the leading whitespace: what is dropped is blank, and what is
      left is a suffix of `s` that, when non-empty, starts with a
      non-whitespace character. */
  function TrimStart(s: string): (r: string)
    ensures |r| <= |s| && r == s[|s| - |r|..]
    ensures IsBlank(s[..|s| - |r|])
    ensures r != [] ==> !IsWhitespace(r[0])
  {
    if s != [] && IsWhitespace(s[0]) then
      var r := TrimStart(s[1..]);
      assert s[..|s| - |r|] == [s[0]] + s[1..][..|s| - 1 - |r|];
      BlankConcat([s[0]], s[1..][..|s| - 1 - |r|]);
      r
    else
      s
  }

  /** Drops the trailing whitespace: what is dropped is blank, and what is
      left is a prefix of `s` that, when non-empty, ends with a
      non-whitespace character. */
  function TrimEnd(s: string): (r: string)
    ensures |r| <= |s| && r == s[..|r|]
    ensures IsBlank(s[|r|..])
    ensures r != [] ==> !IsWhitespace(r[|r| - 1])
  {
    if s != [] && IsWhitespace(s[|s| - 1]) then
      var r := TrimEnd(s[..|s| - 1]);
      assert s[|r|..] == s[..|s| - 1][|r|..] + [s[|s| - 1]];
      BlankConcat(s[..|s| - 1][|r|..], [s[|s| - 1]]);
      r
    else
      s
  }

  /** `String.trim()`: removes leading and trailing whitespace. */
  function Trim(s: string): (r: string)
    ensures |r| <= |s|
    ensures r != [] ==> !IsWhitespace(r[0]) && !IsWhitespace(r[|r| - 1])
  {
    TrimEnd(TrimStart(s))
  }

  /** The trimmed string is a contiguous piece `s[i..j]` of `s` with only
      whitespace around it, and neither of its ends is whitespace. */
  lemma TrimIsInnerPart(s: string)
    ensures exists i, j :: 0 <= i <= j <= |s| && Trim(s) == s[i..j] && IsBlank(s[..i]) && IsBlank(s[j..])
    ensures Trim(s) != [] ==> !IsWhitespace(Trim(s)[0]) && !IsWhitespace(Trim(s)[|Trim(s)| - 1])
  {
    var t := TrimStart(s);
    var r := TrimEnd(t);
    var i := |s| - |t|;
    var j := i + |r|;
    assert r == s[i..j];
    assert s[j..] == t[|r|..];
  }

  /** Trimming yields the empty string exactly when the input is blank. */
  lemma TrimEmptyIffBlank(s: string)
    ensures Trim(s) == "" <==> IsBlank(s)
  {
    var t := TrimStart(s);
    if Trim(t) == "" {
      assert t[0..] == t;
      assert s == s[..|s| - |t|] + t;
      BlankConcat(s[..|s| - |t|], t);
    }
  }

  /** The summed lengths of the parts. */
  function TotalLength(parts: seq<string>): nat {
    if parts == [] then 0 else |parts[0]| + TotalLength(parts[1..])
  }

  /** `Iterable<String>.joinToString(sep)`: the parts in order with one
      separator between neighbours, so it starts with the first part and is
      as long as the parts plus one separator per gap. */
  function JoinToString(parts: seq<string>, sep: string): (r: string)
    ensures parts == [] ==> r == ""
    ensures parts != [] ==> parts[0] <= r
    ensures |r| == TotalLength(parts) + (if parts == [] then 0 else (|parts| - 1) * |sep|)
  {
    if |parts| == 0 then ""
    else if |parts| == 1 then parts[0]
    else parts[0] + sep + JoinToString(parts[1..], sep)
  }

  /** When no part is empty, the joined text is empty exactly when there
      are no parts. */
  lemma {:induction false} JoinEmptyIffNoParts(parts: seq<string>, sep: string)
    requires forall i :: 0 <= i < |parts| ==> parts[i] != ""
    ensures JoinToString(parts, sep) == "" <==> parts == []
  {
    if |parts| >= 2 {
      assert |JoinToString(parts, sep)| >= |parts[0]| > 0;
    }
  }
}
