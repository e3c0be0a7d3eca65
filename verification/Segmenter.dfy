/** The scanner loops and the segmenter object of crates/monoloop-interpreter/src/sentence.rs. */
module Segmenter {
  import opened Common
  import opened Text
  import opened SentenceRules

  function NextChar(s: string, i: nat): Option<char> {
    if i + 1 < |s| then Some(s[i + 1]) else None
  }

  /** The loop's digits are the whole run. */
  lemma {:induction false} DigitsFromLoop(p: string, start: nat)
    requires start <= |p| && forall k :: start <= k < |p| ==> IsDigit(p[k])
    requires start == 0 || !IsDigit(p[start - 1])
    ensures DigitRun(p) == |p| - start
  {
    if start < |p| {
      DigitsFromLoop(p[..|p| - 1], start);
    }
  }

  method LooksLikeOrderedListMarker(s: string, dot: nat) returns (b: bool)
    requires dot < |s|
    ensures b == ListMarker(s[..dot], NextChar(s, dot))
  {
    var start := dot;
    while start > 0 && IsDigit(s[start - 1])
      invariant 0 <= start <= dot && forall k :: start <= k < dot ==> IsDigit(s[k])
    {
      start := start - 1;
    }
    DigitsFromLoop(s[..dot], start);
    if start == dot || !(1 <= dot - start <= 3) {
      return false;
    }
    if start > 0 && !IsAsciiWhitespace(s[start - 1]) {
      return false;
    }
    if dot + 1 >= |s| {
      return true;
    }
    var next := s[dot + 1];
    b := IsAsciiWhitespace(next) || next == '*' || next == '_' || next == '`' || next == '[';
  }

  lemma TrimTwice(s: string)
    ensures Trim(Trim(s)) == Trim(s)
  {
    var t := Trim(s);
    if t != "" {
      assert t[0] == TrimStart(s)[0];
    }
  }

  method IsOnlyListMarker(s: string) returns (b: bool)
    ensures b == OnlyListMarker(Trim(s))
  {
    var t := Trim(s);
    if t == "" || t[|t| - 1] != '.' {
      return false;
    }
    b := LooksLikeOrderedListMarker(t, |t| - 1);
  }

  /** The loops' word and token are the longest alphabetic and solid suffixes. */
  lemma {:induction false} WordFromLoop(p: string, start: nat)
    requires start <= |p| && forall k :: start <= k < |p| ==> IsAlpha(p[k])
    requires start == 0 || !IsAlpha(p[start - 1])
    ensures LastWord(p) == p[start..]
  {
    if start < |p| {
      WordFromLoop(p[..|p| - 1], start);
    }
  }

  lemma {:induction false} TokenFromLoop(p: string, start: nat)
    requires start <= |p| && forall k :: start <= k < |p| ==> !IsAsciiWhitespace(p[k])
    requires start == 0 || IsAsciiWhitespace(p[start - 1])
    ensures LastToken(p) == p[start..]
  {
    if start < |p| {
      TokenFromLoop(p[..|p| - 1], start);
    }
  }

  method IsTitle(word: string) returns (b: bool)
    ensures b == IsAbbreviation(word)
  {
    b := false;
    for k := 0 to |ABBREVIATIONS|
      invariant b <==> exists j :: 0 <= j < k && ToLower(ABBREVIATIONS[j]) == ToLower(word)
    {
      if ToLower(ABBREVIATIONS[k]) == ToLower(word) {
        b := true;
      }
    }
  }

  /** The short-word heuristic: an initial or a title before the dot. */
  method EndsInShortWord(s: string, dot: nat) returns (b: bool)
    requires dot < |s|
    ensures b == IsShortWord(LastWord(s[..dot]))
  {
    ghost var p := s[..dot];
    var start := dot;
    while start > 0 && IsAlpha(s[start - 1])
      invariant 0 <= start <= dot && forall k :: start <= k < dot ==> IsAlpha(p[k])
    {
      start := start - 1;
    }
    WordFromLoop(p, start);
    var len := dot - start;
    if len == 1 {
      return true;
    }
    if len == 2 || len == 3 {
      var word := s[start..dot];
      assert word == LastWord(p);
      b := IsTitle(word);
    } else {
      b := false;
    }
  }

  /** The token that the dot closes. */
  method TokenBefore(s: string, dot: nat) returns (token: string)
    requires dot < |s| && s[dot] == '.'
    ensures token == LastToken(s[..dot]) + "."
  {
    ghost var p := s[..dot];
    var t := dot;
    while t > 0 && !IsAsciiWhitespace(s[t - 1])
      invariant 0 <= t <= dot && forall k :: t <= k < dot ==> !IsAsciiWhitespace(p[k])
    {
      t := t - 1;
    }
    TokenFromLoop(p, t);
    token := s[t..dot + 1];
  }

  method LooksLikeAbbreviationOrDecimal(s: string, dot: nat) returns (b: bool)
    requires dot < |s| && s[dot] == '.'
    ensures b == AbbreviationOrDecimal(s[..dot], NextChar(s, dot))
  {
    hide IsLinkToken, IsShortWord, IsDigit;
    if dot > 0 && IsDigit(s[dot - 1]) && dot + 1 < |s| && IsDigit(s[dot + 1]) {
      return true;
    }
    var short := EndsInShortWord(s, dot);
    if short {
      return true;
    }
    var token := TokenBefore(s, dot);
    b := IsLinkToken(token);
  }

  method FindSentenceEnd(s: string) returns (r: Option<nat>)
    ensures r == SentenceEnd(s)
  {
    var i := 0;
    var inCodeSpan := false;
    var paren, bracket, brace := 0, 0, 0;
    while i < |s|
      invariant i <= |s| && paren >= 0 && bracket >= 0 && brace >= 0
      invariant ScanOf(s[..i]) == Scan(inCodeSpan, paren, bracket, brace)
      invariant EndFrom(s, i) == SentenceEnd(s)
    {
      var c := s[i];
      assert s[..i + 1][..i] == s[..i];
      if c == '`' {
        inCodeSpan := !inCodeSpan;
        i := i + 1;
        continue;
      }
      if inCodeSpan {
        i := i + 1;
        continue;
      }
      match c {
        case '(' => paren := paren + 1;
        case ')' => paren := if paren > 0 then paren - 1 else 0;
        case '[' => bracket := bracket + 1;
        case ']' => bracket := if bracket > 0 then bracket - 1 else 0;
        case '{' => brace := brace + 1;
        case '}' => brace := if brace > 0 then brace - 1 else 0;
        case _ =>
          if IsTerminator(c) {
            var ends := TerminatorEnds(s, i, paren, bracket, brace);
            if ends {
              return Some(i + 1);
            }
          } else if c == '\n' && i + 1 < |s| && s[i + 1] == '\n' {
            var before := Trim(s[..i]);
            var marker := IsOnlyListMarker(before);
            TrimTwice(s[..i]);
            if before != "" && !marker {
              return Some(i);
            }
          }
      }
      i := i + 1;
    }
    return None;
  }

  /** The terminator arm of the scan. */
  method TerminatorEnds(s: string, i: nat, paren: nat, bracket: nat, brace: nat) returns (b: bool)
    requires i < |s| && IsTerminator(s[i])
    requires ScanOf(s[..i]) == Scan(false, paren, bracket, brace)
    ensures b <==> i + 1 < |s| && TerminatorCut(s[..i], s[i], s[i + 1])
  {
    var c := s[i];
    if paren > 0 || bracket > 0 || brace > 0 {
      return false;
    }
    if c == '.' {
      var marker := LooksLikeOrderedListMarker(s, i);
      if marker {
        return false;
      }
      var abbreviation := LooksLikeAbbreviationOrDecimal(s, i);
      if abbreviation {
        return false;
      }
    }
    if i + 1 >= |s| {
      return false;
    }
    var next := s[i + 1];
    if IsAsciiWhitespace(next) {
      return true;
    }
    if next == '"' || next == '\'' || next == ')' || next == ']' {
      return true;
    }
    b := c == '.' && IsUpper(next) && i > 0 && IsAlpha(s[i - 1]);
  }

  /** One completed sentence with the bytes it took out of the buffer. */
  datatype CompletedSentence = CompletedSentence(content: string, contentBytes: nat, bytesConsumed: nat)

  /** Sentences in order, and what stays buffered. */
  datatype Drained = Drained(done: seq<CompletedSentence>, rest: string)

  /** First position from `i` on that is not ASCII white space. */
  function SpaceEnd(s: string, i: nat): (k: nat)
    requires i <= |s|
    decreases |s| - i
    ensures i <= k <= |s|
  {
    if i < |s| && IsAsciiWhitespace(s[i]) then SpaceEnd(s, i + 1) else i
  }

  function SentenceOf(s: string, end: nat): CompletedSentence
    requires end <= |s|
  {
    var content := TrimEnd(s[..end]);
    CompletedSentence(content, ByteLen(content), ByteLen(s[..SpaceEnd(s, end)]))
  }

  /** All complete sentences of a buffer: cut at the first end, skip white space, go on. */
  function Drain(s: string): Drained
    decreases |s|
  {
    match SentenceEnd(s)
    case None => Drained([], s)
    case Some(end) =>
      var d := Drain(s[SpaceEnd(s, end)..]);
      Drained([SentenceOf(s, end)] + d.done, d.rest)
  }

  /** What sealing does with a drained remainder: promote it trimmed, unless it is blank. */
  function SealRest(rest: string): Drained {
    if Trim(rest) == "" then Drained([], rest)
    else Drained([CompletedSentence(Trim(rest), ByteLen(Trim(rest)), ByteLen(rest))], "")
  }

  function Seal(s: string): Drained {
    var d := Drain(s);
    var e := SealRest(d.rest);
    Drained(d.done + e.done, e.rest)
  }

  lemma DrainStep(s: string)
    requires SentenceEnd(s).Some?
    ensures var end := SentenceEnd(s).value;
            var rest := s[SpaceEnd(s, end)..];
            && SentenceOf(s, end).content != ""
            && Drain(s).done == [SentenceOf(s, end)] + Drain(rest).done
            && Drain(s).rest == Drain(rest).rest
  {
    CompletedIsSolid(s);
  }

  lemma DrainStop(s: string)
    requires SentenceEnd(s).None?
    ensures Drain(s) == Drained([], s)
  {
  }

  /** Draining leaves nothing complete behind. */
  lemma {:induction false} DrainIsExhaustive(s: string)
    ensures SentenceEnd(Drain(s).rest).None?
    decreases |s|
  {
    if SentenceEnd(s).Some? {
      DrainIsExhaustive(s[SpaceEnd(s, SentenceEnd(s).value)..]);
    }
  }

  method SkipFollowing(s: string, end: nat) returns (consume: nat)
    requires end <= |s|
    ensures consume == SpaceEnd(s, end)
  {
    consume := end;
    while consume < |s| && IsAsciiWhitespace(s[consume])
      invariant end <= consume <= |s|
      invariant SpaceEnd(s, end) == SpaceEnd(s, consume)
    {
      consume := consume + 1;
    }
  }

  class SentenceSegmenter {
    var buf: string

    constructor ()
      ensures buf == ""
    {
      buf := "";
    }

    method BufferedBytes() returns (n: nat)
      ensures n == ByteLen(buf)
    {
      n := ByteLen(buf);
    }

    method Push(text: string) returns (out: seq<CompletedSentence>)
      modifies this
      ensures out == Drain(old(buf) + text).done
      ensures buf == Drain(old(buf) + text).rest
    {
      buf := buf + text;
      out := DrainComplete(false);
    }

    method SealAtCleanEnd() returns (out: seq<CompletedSentence>)
      modifies this
      ensures out == Seal(old(buf)).done
      ensures buf == Seal(old(buf)).rest
    {
      out := DrainComplete(true);
    }

    method TakeUnresolved() returns (text: string)
      modifies this
      ensures text == old(buf) && buf == ""
    {
      text := buf;
      buf := "";
    }

    method DrainComplete(sealRemainder: bool) returns (out: seq<CompletedSentence>)
      modifies this
      ensures Drained(out, buf) == if sealRemainder then Seal(old(buf)) else Drain(old(buf))
    {
      hide SentenceEnd, Drain, TrimEnd, TrimStart, ByteLen;
      out := [];
      var end := FindSentenceEnd(buf);
      while end.Some?
        invariant end == SentenceEnd(buf)
        invariant out + Drain(buf).done == Drain(old(buf)).done
        invariant Drain(buf).rest == Drain(old(buf)).rest
        decreases |buf|
      {
        DrainStep(buf);
        var content := TrimEnd(buf[..end.value]);
        var consume := SkipFollowing(buf, end.value);
        var bytesConsumed := ByteLen(buf[..consume]);
        buf := buf[consume..];
        if content != "" {
          out := out + [CompletedSentence(content, ByteLen(content), bytesConsumed)];
        }
        end := FindSentenceEnd(buf);
      }
      DrainStop(buf);
      if sealRemainder && Trim(buf) != "" {
        var content := Trim(buf);
        out := out + [CompletedSentence(content, ByteLen(content), ByteLen(buf))];
        buf := "";
      }
    }
  }
}
