/** Options, results and the text vocabulary shared by every component. */
module Common {
  datatype Option<+T> = None | Some(value: T)

  datatype Result<+T, +E> = Ok(value: T) | Err(error: E)

  /** The stream behind a list of chunks. */
  function Flatten<T>(chunks: seq<seq<T>>): seq<T> {
    if chunks == [] then [] else chunks[0] + Flatten(chunks[1..])
  }

  lemma {:induction false} FlattenSplit<T>(chunks: seq<seq<T>>, n: nat)
    requires n <= |chunks|
    ensures Flatten(chunks) == Flatten(chunks[..n]) + Flatten(chunks[n..])
    decreases n
  {
    if n == 0 {
      assert chunks[0..] == chunks && [] + Flatten(chunks) == Flatten(chunks);
    } else {
      FlattenSplit(chunks[1..], n - 1);
      assert chunks[..n][1..] == chunks[1..][..n - 1] && chunks[1..][n - 1..] == chunks[n..];
    }
  }
}

/**
 Text as a sequence of Unicode scalar values.  The source scans the UTF-8 bytes of a `String`, but every byte
 it compares with is ASCII, and no byte of a longer scalar is: scanning scalars visits the same decisions.
 Byte counts are kept through `ByteLen`.
 */
module Text {

  /** `u8::is_ascii_whitespace`: vertical tab is not in it. */
  predicate IsAsciiWhitespace(c: char) {
    c == ' ' || c == '\t' || c == '\n' || c == '\r' || c as int == 0x0C
  }

  /** `char::is_whitespace`, the Unicode White_Space property that `str::trim` uses. */
  predicate IsWhitespace(c: char) {
    var n := c as int;
    || IsAsciiWhitespace(c)
    || n == 0x0B || n == 0x85 || n == 0xA0 || n == 0x1680
    || 0x2000 <= n <= 0x200A
    || n == 0x2028 || n == 0x2029 || n == 0x202F || n == 0x205F || n == 0x3000
  }

  /** The Unicode White_Space property, character by character. */
  lemma WhiteSpaceIs(c: char)
    ensures IsAsciiWhitespace(c) <==> c as int in {0x09, 0x0A, 0x0C, 0x0D, 0x20}
    ensures IsWhitespace(c) <==>
            || c as int in {0x09, 0x0A, 0x0B, 0x0C, 0x0D, 0x20, 0x85, 0xA0, 0x1680}
            || c as int in {0x2028, 0x2029, 0x202F, 0x205F, 0x3000}
            || 0x2000 <= c as int <= 0x200A
  {
  }

  predicate IsDigit(c: char) { '0' <= c <= '9' }

  predicate IsUpper(c: char) { 'A' <= c <= 'Z' }

  predicate IsLower(c: char) { 'a' <= c <= 'z' }

  predicate IsAlpha(c: char) { IsUpper(c) || IsLower(c) }

  predicate AllAsciiWhitespace(s: string) { forall k :: 0 <= k < |s| ==> IsAsciiWhitespace(s[k]) }

  predicate AllDigits(s: string) { forall k :: 0 <= k < |s| ==> IsDigit(s[k]) }

  function ToLower(s: string): (r: string)
    ensures |r| == |s|
  {
    seq(|s|, k requires 0 <= k < |s| =>
      if IsUpper(s[k]) then ((s[k] as int - 'A' as int) + 'a' as int) as char else s[k])
  }

  /** `str::contains`. */
  predicate Contains(s: string, pat: string) {
    exists k :: 0 <= k <= |s| && pat <= s[k..]
  }

  /** `str::trim_end`: the longest prefix that does not end in white space. */
  function TrimEnd(s: string): (r: string)
    ensures r <= s
    ensures r == "" || !IsWhitespace(r[|r| - 1])
  {
    if s != "" && IsWhitespace(s[|s| - 1]) then TrimEnd(s[..|s| - 1]) else s
  }

  /** `str::trim_start`: the longest suffix that does not begin with white space. */
  function TrimStart(s: string): (r: string)
    ensures |r| <= |s|
    ensures r == "" || !IsWhitespace(r[0])
  {
    if s != "" && IsWhitespace(s[0]) then TrimStart(s[1..]) else s
  }

  /** `str::trim`. */
  function Trim(s: string): string { TrimEnd(TrimStart(s)) }

  /** Drop leading ASCII white space, what the drain loop skips between sentences. */
  function SkipSpace(s: string): (r: string)
    ensures |r| <= |s|
    ensures r == "" || !IsAsciiWhitespace(r[0])
  {
    if s != "" && IsAsciiWhitespace(s[0]) then SkipSpace(s[1..]) else s
  }

  /** `SkipSpace` is a cut: white space before it, the result after it. */
  lemma {:induction false} SkipSpaceSplits(s: string) returns (k: nat)
    ensures k <= |s| && SkipSpace(s) == s[k..] && AllAsciiWhitespace(s[..k])
  {
    if s != "" && IsAsciiWhitespace(s[0]) {
      var j := SkipSpaceSplits(s[1..]);
      k := j + 1;
      assert s[1..][j..] == s[k..];
      forall i | 0 <= i < k
        ensures IsAsciiWhitespace(s[..k][i])
      {
        if i > 0 {
          assert s[1..][..j][i - 1] == s[i];
        }
      }
    } else {
      k := 0;
      assert s[0..] == s;
    }
  }

  /** UTF-8 length of one scalar value. */
  function Utf8Len(c: char): (n: nat)
    ensures 1 <= n <= 4
  {
    var v := c as int;
    if v < 0x80 then 1 else if v < 0x800 then 2 else if v < 0x10000 then 3 else 4
  }

  /** UTF-8 length of a text: Rust's `str::len`. */
  function ByteLen(s: string): nat {
    if s == "" then 0 else ByteLen(s[..|s| - 1]) + Utf8Len(s[|s| - 1])
  }

  lemma {:induction false} ByteLenConcat(a: string, b: string)
    ensures ByteLen(a + b) == ByteLen(a) + ByteLen(b)
  {
    if b == "" {
      assert a + b == a;
    } else {
      assert (a + b)[..|a + b| - 1] == a + b[..|b| - 1];
      ByteLenConcat(a, b[..|b| - 1]);
    }
  }

  lemma ByteLenSplit(s: string, k: nat)
    requires k <= |s|
    ensures ByteLen(s) == ByteLen(s[..k]) + ByteLen(s[k..])
  {
    assert s == s[..k] + s[k..];
    ByteLenConcat(s[..k], s[k..]);
  }

  /** `SkipSpace` does not see white space put in front of its argument. */
  lemma {:induction false} SkipSpaceAbsorbs(w: string, s: string)
    requires AllAsciiWhitespace(w)
    ensures SkipSpace(w + s) == SkipSpace(s)
  {
    if w == "" {
      assert w + s == s;
    } else {
      assert (w + s)[1..] == w[1..] + s;
      SkipSpaceAbsorbs(w[1..], s);
    }
  }

  lemma {:induction false} TrimStartAbsorbs(w: string, s: string)
    requires forall k :: 0 <= k < |w| ==> IsWhitespace(w[k])
    ensures TrimStart(w + s) == TrimStart(s)
  {
    if w == "" {
      assert w + s == s;
    } else {
      assert (w + s)[1..] == w[1..] + s;
      TrimStartAbsorbs(w[1..], s);
    }
  }

  lemma TrimAbsorbs(w: string, s: string)
    requires AllAsciiWhitespace(w)
    ensures Trim(w + s) == Trim(s)
  {
    TrimStartAbsorbs(w, s);
  }

  /** Trailing white space is all that `TrimEnd` removes, so a prefix survives when something solid follows. */
  lemma {:induction false} TrimEndPrefix(w: string, s: string)
    requires TrimEnd(s) != ""
    ensures TrimEnd(w + s) == w + TrimEnd(s)
  {
    assert (w + s)[|w + s| - 1] == s[|s| - 1];
    if IsWhitespace(s[|s| - 1]) {
      assert (w + s)[..|w + s| - 1] == w + s[..|s| - 1];
      TrimEndPrefix(w, s[..|s| - 1]);
    }
  }

  lemma {:induction false} BlankIsWhitespace(s: string)
    requires TrimEnd(s) == ""
    ensures forall k :: 0 <= k < |s| ==> IsWhitespace(s[k])
  {
    if s != "" {
      BlankIsWhitespace(s[..|s| - 1]);
    }
  }

  lemma BlankTrims(s: string)
    requires TrimEnd(s) == ""
    ensures Trim(s) == ""
  {
    BlankIsWhitespace(s);
    assert s + "" == s;
    TrimStartAbsorbs(s, "");
  }

  predicate Blank(w: string) { forall k :: 0 <= k < |w| ==> IsWhitespace(w[k]) }

  lemma {:induction false} TrimEndAbsorbs(s: string, w: string)
    requires Blank(w)
    ensures TrimEnd(s + w) == TrimEnd(s)
  {
    if w == "" {
      assert s + w == s;
    } else {
      assert (s + w)[..|s + w| - 1] == s + w[..|w| - 1];
      TrimEndAbsorbs(s, w[..|w| - 1]);
    }
  }

  lemma TrimStrips(w: string, s: string, w': string)
    requires Blank(w) && Blank(w') && s != "" && !IsWhitespace(s[0]) && !IsWhitespace(s[|s| - 1])
    ensures Trim(w + s + w') == s
  {
    assert w + s + w' == w + (s + w');
    TrimStartAbsorbs(w, s + w');
    TrimEndAbsorbs(s, w');
  }
}

/** Unsigned numbers in decimal. */
module Numerals {

  function Digit(d: nat): char
    requires d < 10
  {
    ('0' as int + d) as char
  }

  /** `format!("{}", n)` on an unsigned number. */
  function Decimal(n: nat): (s: string)
    ensures s != ""
  {
    if n < 10 then [Digit(n)] else Decimal(n / 10) + [Digit(n % 10)]
  }

  function Value(s: string): int {
    if s == "" then 0 else Value(s[..|s| - 1]) * 10 + (s[|s| - 1] as int - '0' as int)
  }

  lemma {:induction false} DecimalReadsBack(n: nat)
    ensures Value(Decimal(n)) == n
  {
    var s := Decimal(n);
    if n < 10 {
      assert s[..0] == "";
    } else {
      assert s[..|s| - 1] == Decimal(n / 10);
      DecimalReadsBack(n / 10);
    }
  }
}
