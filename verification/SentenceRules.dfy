/**
 The boundary rules of the sentence segmenter (crates/monoloop-interpreter/src/sentence.rs), stated as what
 a position sees: the text before it, the character on it and the one after it.
 */
module SentenceRules {
  import opened Common
  import opened Text

  /** Code-span and bracket state after a prefix. */
  datatype Scan = Scan(code: bool, paren: nat, bracket: nat, brace: nat)

  function Close(depth: nat): nat { if depth > 0 then depth - 1 else 0 }

  function Advance(st: Scan, c: char): Scan {
    if c == '`' then st.(code := !st.code)
    else if st.code then st
    else match c
      case '(' => st.(paren := st.paren + 1)
      case ')' => st.(paren := Close(st.paren))
      case '[' => st.(bracket := st.bracket + 1)
      case ']' => st.(bracket := Close(st.bracket))
      case '{' => st.(brace := st.brace + 1)
      case '}' => st.(brace := Close(st.brace))
      case _ => st
  }

  function ScanOf(p: string): Scan {
    if p == "" then Scan(false, 0, 0, 0) else Advance(ScanOf(p[..|p| - 1]), p[|p| - 1])
  }

  /** What may follow an ordered-list dot: white space, end of buffer, or markdown opening an item. */
  predicate MarkerMayPrecede(next: Option<char>) {
    next.None? || IsAsciiWhitespace(next.value) || next.value in {'*', '_', '`', '['}
  }

  /** Length of the digit run that ends `p`. */
  function DigitRun(p: string): (n: nat)
    ensures n <= |p|
  {
    if p != "" && IsDigit(p[|p| - 1]) then DigitRun(p[..|p| - 1]) + 1 else 0
  }

  /** A dot after `p` is an ordered-list marker: one to three digits on their own. */
  predicate ListMarker(p: string, next: Option<char>) {
    var n := DigitRun(p);
    && 1 <= n <= 3
    && (n == |p| || IsAsciiWhitespace(p[|p| - n - 1]))
    && MarkerMayPrecede(next)
  }

  /** The whole (trimmed) text is just a list marker. */
  predicate OnlyListMarker(t: string) {
    t != "" && t[|t| - 1] == '.' && ListMarker(t[..|t| - 1], None)
  }

  const ABBREVIATIONS: seq<string> :=
    ["Mr", "Mrs", "Ms", "Dr", "Prof", "Sr", "Jr", "vs", "etc", "Inc", "Ltd", "St"]

  /** `eq_ignore_ascii_case` against the table. */
  predicate IsAbbreviation(word: string) {
    exists k :: 0 <= k < |ABBREVIATIONS| && ToLower(ABBREVIATIONS[k]) == ToLower(word)
  }

  /** Longest alphabetic suffix. */
  function LastWord(p: string): string {
    if p != "" && IsAlpha(p[|p| - 1]) then LastWord(p[..|p| - 1]) + [p[|p| - 1]] else ""
  }

  /** Longest suffix without ASCII white space. */
  function LastToken(p: string): string {
    if p != "" && !IsAsciiWhitespace(p[|p| - 1]) then LastToken(p[..|p| - 1]) + [p[|p| - 1]] else ""
  }

  predicate IsShortWord(w: string) {
    |w| == 1 || (2 <= |w| <= 3 && IsAbbreviation(w))
  }

  predicate IsLinkToken(token: string) {
    Contains(token, "://") || Contains(token, "www.") || Contains(token, "/")
  }

  predicate EndsInDigit(p: string) { p != "" && IsDigit(p[|p| - 1]) }

  predicate EndsInLetter(p: string) { p != "" && IsAlpha(p[|p| - 1]) }

  /** A dot after `p` belongs to a decimal, an initial, an abbreviation or a link. */
  predicate AbbreviationOrDecimal(p: string, next: Option<char>) {
    || (EndsInDigit(p) && next.Some? && IsDigit(next.value))
    || IsShortWord(LastWord(p))
    || IsLinkToken(LastToken(p) + ".")
  }

  /** What after a terminator confirms the sentence end. */
  predicate Confirms(p: string, c: char, next: char) {
    || IsAsciiWhitespace(next)
    || next in {'"', '\'', ')', ']'}
    || (c == '.' && IsUpper(next) && EndsInLetter(p))
  }

  predicate IsTerminator(c: char) { c in {'.', '!', '?'} }

  /** Text `p` followed by terminator `c` and then `next` is a complete sentence. */
  predicate TerminatorCut(p: string, c: char, next: char) {
    var st := ScanOf(p);
    && !st.code && st.paren == 0 && st.bracket == 0 && st.brace == 0
    && IsTerminator(c)
    && !(c == '.' && (ListMarker(p, Some(next)) || AbbreviationOrDecimal(p, Some(next))))
    && Confirms(p, c, next)
  }

  /** Text `p` followed by a blank line is a complete paragraph. */
  predicate ParagraphCut(p: string, c: char, next: char) {
    && !ScanOf(p).code
    && c == '\n' && next == '\n'
    && Trim(p) != "" && !OnlyListMarker(Trim(p))
  }

  /** The sentence in `s` is decided at position `i`; the decision looks one character ahead. */
  predicate CutAt(s: string, i: nat) {
    i + 1 < |s| && (TerminatorCut(s[..i], s[i], s[i + 1]) || ParagraphCut(s[..i], s[i], s[i + 1]))
  }

  /** A terminator belongs to its sentence, a blank line does not. */
  function EndOf(s: string, i: nat): nat
    requires i < |s|
  {
    if IsTerminator(s[i]) then i + 1 else i
  }

  function EndFrom(s: string, i: nat): (r: Option<nat>)
    decreases |s| - i
    ensures r.Some? ==> 1 <= r.value < |s|
  {
    if i >= |s| then None
    else if CutAt(s, i) then Some(EndOf(s, i))
    else EndFrom(s, i + 1)
  }

  /** Exclusive end of the first complete sentence: where the first cut puts it. */
  function SentenceEnd(s: string): (r: Option<nat>)
    ensures r.Some? ==> 1 <= r.value < |s|
  {
    EndFrom(s, 0)
  }

  /** `EndFrom` finds the first cut at or after `i`. */
  lemma {:induction false} EndFromIsFirst(s: string, i: nat, k: nat)
    requires i <= k < |s| && CutAt(s, k)
    requires forall j :: i <= j < k ==> !CutAt(s, j)
    ensures EndFrom(s, i) == Some(EndOf(s, k))
    decreases k - i
  {
    if i < k {
      EndFromIsFirst(s, i + 1, k);
    }
  }

  /** Conversely, an end found comes from a first cut. */
  lemma {:induction false} FirstCut(s: string, i: nat) returns (k: nat)
    requires EndFrom(s, i).Some?
    ensures i <= k < |s| && CutAt(s, k) && EndFrom(s, i).value == EndOf(s, k)
    ensures forall j :: i <= j < k ==> !CutAt(s, j)
    decreases |s| - i
  {
    if CutAt(s, i) {
      k := i;
    } else {
      k := FirstCut(s, i + 1);
    }
  }

  /** An end found in a buffer is still the end after any extension. */
  lemma EndIsStable(s: string, t: string)
    requires SentenceEnd(s).Some?
    ensures SentenceEnd(s + t) == SentenceEnd(s)
  {
    var k := FirstCut(s, 0);
    forall j | 0 <= j <= k
      ensures CutAt(s + t, j) == CutAt(s, j)
    {
      assert (s + t)[..j] == s[..j];
    }
    EndFromIsFirst(s + t, 0, k);
  }

  // Every test a cut makes is blind to white space in front of the text.

  lemma {:induction false} ScanShift(w: string, p: string)
    requires AllAsciiWhitespace(w)
    ensures ScanOf(w + p) == ScanOf(p)
  {
    if p != "" {
      assert (w + p)[..|w + p| - 1] == w + p[..|p| - 1];
      ScanShift(w, p[..|p| - 1]);
    } else if w != "" {
      assert w + p == w;
      assert w[..|w| - 1] + "" == w[..|w| - 1];
      ScanShift(w[..|w| - 1], "");
    }
  }

  lemma {:induction false} LastWordShift(w: string, p: string)
    requires AllAsciiWhitespace(w)
    ensures LastWord(w + p) == LastWord(p)
  {
    if p != "" {
      assert (w + p)[..|w + p| - 1] == w + p[..|p| - 1];
      LastWordShift(w, p[..|p| - 1]);
    } else {
      assert w + p == w;
    }
  }

  lemma {:induction false} LastTokenShift(w: string, p: string)
    requires AllAsciiWhitespace(w)
    ensures LastToken(w + p) == LastToken(p)
  {
    if p != "" {
      assert (w + p)[..|w + p| - 1] == w + p[..|p| - 1];
      LastTokenShift(w, p[..|p| - 1]);
    } else {
      assert w + p == w;
    }
  }

  lemma {:induction false} DigitRunShift(w: string, p: string)
    requires AllAsciiWhitespace(w)
    ensures DigitRun(w + p) == DigitRun(p)
  {
    if p != "" {
      assert (w + p)[..|w + p| - 1] == w + p[..|p| - 1];
      DigitRunShift(w, p[..|p| - 1]);
    } else {
      assert w + p == w;
    }
  }

  lemma ListMarkerShift(w: string, p: string, next: Option<char>)
    requires AllAsciiWhitespace(w)
    ensures ListMarker(w + p, next) == ListMarker(p, next)
  {
    DigitRunShift(w, p);
    var n := DigitRun(p);
    if n < |p| {
      assert (w + p)[|w + p| - n - 1] == p[|p| - n - 1];
    } else if w != "" {
      assert (w + p)[|w| - 1] == w[|w| - 1];
    }
  }

  lemma EndingShift(w: string, p: string)
    requires AllAsciiWhitespace(w)
    ensures EndsInDigit(w + p) == EndsInDigit(p)
    ensures EndsInLetter(w + p) == EndsInLetter(p)
  {
    if p == "" {
      assert w + p == w;
    } else {
      assert (w + p)[|w + p| - 1] == p[|p| - 1];
    }
  }

  lemma AbbreviationShift(w: string, p: string, next: Option<char>)
    requires AllAsciiWhitespace(w)
    ensures AbbreviationOrDecimal(w + p, next) == AbbreviationOrDecimal(p, next)
  {
    EndingShift(w, p);
    LastWordShift(w, p);
    LastTokenShift(w, p);
  }

  lemma TerminatorCutShift(w: string, p: string, c: char, next: char)
    requires AllAsciiWhitespace(w)
    ensures TerminatorCut(w + p, c, next) == TerminatorCut(p, c, next)
  {
    ScanShift(w, p);
    ListMarkerShift(w, p, Some(next));
    AbbreviationShift(w, p, Some(next));
    EndingShift(w, p);
  }

  lemma CutShift(w: string, s: string, i: nat)
    requires AllAsciiWhitespace(w) && i < |s|
    ensures CutAt(w + s, |w| + i) == CutAt(s, i)
  {
    if i + 1 < |s| {
      assert (w + s)[..|w| + i] == w + s[..i];
      TerminatorCutShift(w, s[..i], s[i], s[i + 1]);
      ScanShift(w, s[..i]);
      TrimAbsorbs(w, s[..i]);
    }
  }

  lemma NoCutInLeadingSpace(w: string, s: string, i: nat)
    requires AllAsciiWhitespace(w) && i < |w|
    ensures !CutAt(w + s, i)
  {
    assert (w + s)[i] == w[i];
    assert (w + s)[..i] == w[..i];
    assert w[..i] + "" == w[..i];
    TrimAbsorbs(w[..i], "");
  }

  function Shifted(n: nat, r: Option<nat>): Option<nat> {
    if r.None? then None else Some(n + r.value)
  }

  lemma {:induction false} EndFromShift(w: string, s: string, i: nat)
    requires AllAsciiWhitespace(w) && i <= |s|
    ensures EndFrom(w + s, |w| + i) == Shifted(|w|, EndFrom(s, i))
    decreases |s| - i
  {
    hide CutAt;
    if i < |s| {
      CutShift(w, s, i);
      EndFromShift(w, s, i + 1);
    }
  }

  lemma {:induction false} EndFromSkipsSpace(w: string, s: string, i: nat)
    requires AllAsciiWhitespace(w) && i <= |w|
    ensures EndFrom(w + s, i) == EndFrom(w + s, |w|)
    decreases |w| - i
  {
    if i < |w| {
      NoCutInLeadingSpace(w, s, i);
      EndFromSkipsSpace(w, s, i + 1);
    }
  }

  /** White space in front of the buffer only shifts the end. */
  lemma EndShifts(w: string, s: string)
    requires AllAsciiWhitespace(w)
    ensures SentenceEnd(w + s) == Shifted(|w|, SentenceEnd(s))
  {
    EndFromSkipsSpace(w, s, 0);
    EndFromShift(w, s, 0);
  }

  /** The text up to an end is never blank, so the drain loop's emptiness guard never fires. */
  lemma CompletedIsSolid(s: string)
    requires SentenceEnd(s).Some?
    ensures TrimEnd(s[..SentenceEnd(s).value]) != ""
  {
    var k := FirstCut(s, 0);
    var raw := s[..SentenceEnd(s).value];
    if IsTerminator(s[k]) {
      assert raw[|raw| - 1] == s[k];
    } else {
      assert raw == s[..k];
      if TrimEnd(raw) == "" {
        BlankTrims(raw);
      }
    }
  }
}
