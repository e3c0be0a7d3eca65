/** What the boundary rules come to on text, said with the characters themselves. */
module SentenceMeaning {
  import opened Common
  import opened Text
  import opened SentenceRules
  import opened Segmenter
  import opened ChunkIndependence
  import opened SegmenterProperties

  const TERMINATORS: set<char> := {'.', '!', '?'}
  const CLOSERS: set<char> := {'"', '\'', ')', ']'}
  const SPACES: set<char> := {' ', '\t', '\n', '\r', '\U{0C}'}

  /** Text without anything the scan stops at or counts. */
  predicate Calm(p: string) {
    forall k :: 0 <= k < |p| ==> p[k] !in {'.', '!', '?', '\n', '`', '(', ')', '[', ']', '{', '}'}
  }

  predicate Letter(c: char) { 'a' <= c <= 'z' || 'A' <= c <= 'Z' }

  predicate EndsWith(p: string, w: string) { |w| <= |p| && p[|p| - |w|..] == w }

  /** `w` is the run of letters at the end of `p`. */
  predicate EndsInWord(p: string, w: string) {
    && EndsWith(p, w) && (forall k :: 0 <= k < |w| ==> Letter(w[k]))
    && (|w| == |p| || !Letter(p[|p| - |w| - 1]))
  }

  /** `d` is the run of digits at the end of `p`. */
  predicate EndsInNumber(p: string, d: string) {
    && EndsWith(p, d) && (forall k :: 0 <= k < |d| ==> '0' <= d[k] <= '9')
    && (|d| == |p| || !('0' <= p[|p| - |d| - 1] <= '9'))
  }

  /** `k` is what stands at the end of `p` behind its last white space. */
  predicate EndsInToken(p: string, k: string) {
    && EndsWith(p, k) && (forall i :: 0 <= i < |k| ==> k[i] !in SPACES)
    && (|k| == |p| || p[|p| - |k| - 1] in SPACES)
  }

  /** The titles, in small letters; of the source's table, the one of four letters is never looked up. */
  const TITLES: set<string> := {"mr", "mrs", "ms", "dr", "sr", "jr", "vs", "etc", "inc", "ltd", "st"}

  // What the rules make of it.

  lemma {:induction false} CalmScan(p: string)
    requires Calm(p)
    ensures ScanOf(p) == Scan(false, 0, 0, 0)
  {
    if p != "" {
      CalmScan(p[..|p| - 1]);
    }
  }

  lemma CalmHoldsNoCut(p: string, t: string, i: nat)
    requires Calm(p) && i < |p|
    ensures !CutAt(p + t, i)
  {
    assert (p + t)[i] == p[i];
    PlainHoldsNoCut(p + t, i);
  }

  /** The first end is the cut behind text that holds none. */
  lemma CutBehind(p: string, c: char, n: char, t: string)
    requires c in TERMINATORS && TerminatorCut(p, c, n)
    requires forall i :: 0 <= i < |p| ==> !CutAt(p + [c] + [n] + t, i)
    ensures SentenceEnd(p + [c] + [n] + t) == Some(|p| + 1)
  {
    hide TerminatorCut, ParagraphCut;
    var s := p + [c] + [n] + t;
    assert s[..|p|] == p && s[|p|] == c && s[|p| + 1] == n;
    EndFromIsFirst(s, 0, |p|);
  }

  lemma CalmThenCut(p: string, c: char, n: char, t: string)
    requires Calm(p) && c in TERMINATORS && TerminatorCut(p, c, n)
    ensures SentenceEnd(p + [c] + [n] + t) == Some(|p| + 1)
  {
    hide TerminatorCut, SentenceEnd, Calm;
    assert p + [c] + [n] + t == p + ([c] + [n] + t);
    forall i | 0 <= i < |p| ensures !CutAt(p + [c] + [n] + t, i) {
      CalmHoldsNoCut(p, [c] + [n] + t, i);
    }
    CutBehind(p, c, n, t);
  }

  lemma {:induction false} WordBehind(q: string, w: string)
    requires EndsLetters(q) && forall k :: 0 <= k < |w| ==> IsAlpha(w[k])
    ensures LastWord(q + w) == w
  {
    if w == "" {
      assert q + w == q;
    } else {
      assert (q + w)[..|q + w| - 1] == q + w[..|w| - 1];
      WordBehind(q, w[..|w| - 1]);
      assert w[..|w| - 1] + [w[|w| - 1]] == w;
    }
  }

  predicate EndsLetters(q: string) { q == "" || !Letter(q[|q| - 1]) }

  lemma {:induction false} DigitsBehind(q: string, d: string)
    requires (q == "" || !IsDigit(q[|q| - 1])) && AllDigits(d)
    ensures DigitRun(q + d) == |d|
  {
    if d == "" {
      assert q + d == q;
    } else {
      assert (q + d)[..|q + d| - 1] == q + d[..|d| - 1];
      DigitsBehind(q, d[..|d| - 1]);
    }
  }

  lemma {:induction false} ExactTokenBehind(q: string, k: string)
    requires (q == "" || q[|q| - 1] in SPACES) && forall i :: 0 <= i < |k| ==> k[i] !in SPACES
    ensures LastToken(q + k) == k
  {
    if k == "" {
      assert q + k == q;
    } else {
      assert (q + k)[..|q + k| - 1] == q + k[..|k| - 1];
      ExactTokenBehind(q, k[..|k| - 1]);
      assert k[..|k| - 1] + [k[|k| - 1]] == k;
    }
  }

  lemma LinkExactly(p: string, k: string)
    requires Calm(p) && EndsWith(p, k)
    ensures IsLinkToken(k + ".") <==> '/' in k || EndsWith(k, "www")
  {
    var t := k + ".";
    if '/' in k || EndsWith(k, "www") {
      LinkHolds(k);
    } else {
      forall i | 0 <= i <= |t|
        ensures !("://" <= t[i..]) && !("/" <= t[i..]) && !("www." <= t[i..])
      {
        NoLinkAt(p, k, i);
      }
    }
  }

  lemma LinkHolds(k: string)
    requires '/' in k || EndsWith(k, "www")
    ensures IsLinkToken(k + ".")
  {
    var s := k + ".";
    if '/' in k {
      var i :| 0 <= i < |k| && k[i] == '/';
      assert s[i..][0] == '/';
      assert "/" <= s[i..];
    } else {
      assert s[|k| - 3..] == "www.";
      assert "www." <= s[|k| - 3..];
    }
  }

  lemma NoLinkAt(p: string, k: string, i: nat)
    requires Calm(p) && EndsWith(p, k) && '/' !in k && !EndsWith(k, "www") && i <= |k| + 1
    ensures var t := (k + ".")[i..]; !("://" <= t) && !("/" <= t) && !("www." <= t)
  {
    var s := k + ".";
    assert forall j :: 0 <= j < |k| ==> k[j] == p[|p| - |k| + j] && k[j] != '.' && k[j] != '/';
    var t := s[i..];
    assert forall j :: 0 <= j < |t| ==> t[j] == s[i + j];
    PrefixAt("://", t, 1);
    PrefixAt("/", t, 0);
    PrefixAt("www.", t, 0);
    PrefixAt("www.", t, 1);
    PrefixAt("www.", t, 2);
    PrefixAt("www.", t, 3);
    assert i + 3 == |k| ==> |k[i..]| == 3 && k[i] == t[0] && k[i + 1] == t[1] && k[i + 2] == t[2];
    WwwAtEnd(k);
  }

  lemma WwwAtEnd(k: string)
    ensures |k| >= 3 && k[|k| - 3] == 'w' && k[|k| - 2] == 'w' && k[|k| - 1] == 'w' ==> EndsWith(k, "www")
  {
  }

  lemma PrefixAt(x: string, t: string, j: nat)
    requires j < |x|
    ensures x <= t ==> j < |t| && t[j] == x[j]
  {
  }

  lemma LowerIsLetters(w: string)
    requires forall k :: 0 <= k < |w| ==> IsLower(ToLower(w)[k])
    ensures forall k :: 0 <= k < |w| ==> Letter(w[k])
  {
    forall k | 0 <= k < |w| ensures Letter(w[k]) {
      assert IsLower(ToLower(w)[k]);
    }
  }

  lemma TitleIsAbbreviation(w: string)
    requires ToLower(w) in TITLES
    ensures IsAbbreviation(w) && 2 <= |w| <= 3 && forall k :: 0 <= k < |w| ==> Letter(w[k])
  {
    LowerIsLetters(w);
    TableInSmallLetters();
    var k :| 0 <= k < |ABBREVIATIONS| && ToLower(ABBREVIATIONS[k]) == ToLower(w);
  }

  lemma TableInSmallLetters()
    ensures forall t :: t in TITLES ==> exists k :: 0 <= k < |ABBREVIATIONS| && ToLower(ABBREVIATIONS[k]) == t
    ensures forall k :: 0 <= k < |ABBREVIATIONS| && |ABBREVIATIONS[k]| <= 3 ==> ToLower(ABBREVIATIONS[k]) in TITLES
  {
    hide ToLower;
    Lowered("Mr", "mr");
    Lowered("Mrs", "mrs");
    Lowered("Ms", "ms");
    Lowered("Dr", "dr");
    Lowered("Sr", "sr");
    Lowered("Jr", "jr");
    Lowered("vs", "vs");
    Lowered("etc", "etc");
    Lowered("Inc", "inc");
    Lowered("Ltd", "ltd");
    Lowered("St", "st");
    assert ABBREVIATIONS[0] == "Mr" && ABBREVIATIONS[1] == "Mrs" && ABBREVIATIONS[2] == "Ms";
    assert ABBREVIATIONS[3] == "Dr" && ABBREVIATIONS[4] == "Prof" && ABBREVIATIONS[5] == "Sr";
    assert ABBREVIATIONS[6] == "Jr" && ABBREVIATIONS[7] == "vs";
    assert ABBREVIATIONS[8] == "etc" && ABBREVIATIONS[9] == "Inc" && ABBREVIATIONS[10] == "Ltd";
    assert ABBREVIATIONS[11] == "St";
  }

  lemma Lowered(w: string, l: string)
    requires |w| == |l|
    requires forall k :: 0 <= k < |w| ==>
               l[k] == if 'A' <= w[k] <= 'Z' then ((w[k] as int - 'A' as int) + 'a' as int) as char else w[k]
    ensures ToLower(w) == l
  {
  }

  lemma ShortWordExactly(w: string)
    ensures IsShortWord(w) <==> |w| == 1 || ToLower(w) in TITLES
  {
    hide ToLower;
    TableInSmallLetters();
    if ToLower(w) in TITLES {
      TitleIsAbbreviation(w);
    }
    if 2 <= |w| <= 3 && IsAbbreviation(w) {
      var k :| 0 <= k < |ABBREVIATIONS| && ToLower(ABBREVIATIONS[k]) == ToLower(w);
      assert |ABBREVIATIONS[k]| == |ToLower(ABBREVIATIONS[k])| == |w|;
    }
  }

  // Sentences that end.

  /** A question or an exclamation ends in front of white space or a closer, whatever calm text it closes. */
  lemma ShoutsEnd(p: string, c: char, n: char, t: string)
    requires Calm(p) && (c == '!' || c == '?') && (n in SPACES || n in CLOSERS)
    ensures SentenceEnd(p + [c] + [n] + t) == Some(|p| + 1)
  {
    hide ListMarker, AbbreviationOrDecimal, SentenceEnd;
    CalmScan(p);
    CalmThenCut(p, c, n, t);
  }

  /** `p` closes with a list marker without its dot: one to three digits on their own. */
  predicate EndsInMarker(p: string, d: string) {
    1 <= |d| <= 3 && (|d| == |p| || (|d| < |p| && p[|p| - |d| - 1] in SPACES))
  }

  /**
   Exactly when a dot after calm text ends the sentence: white space, a closer or, after a letter, a capital follows;
   and the text does not close with a single letter, a title, a token that holds a slash or ends in "www", or a list
   marker that white space follows.
   */
  lemma DotEndsExactly(p: string, w: string, k: string, d: string, n: char, t: string)
    requires Calm(p) && EndsInWord(p, w) && EndsInToken(p, k) && EndsInNumber(p, d)
    requires n != '\n' || t == "" || t[0] != '\n'
    ensures SentenceEnd(p + ['.'] + [n] + t) == Some(|p| + 1) <==>
            && (n in SPACES || n in CLOSERS || ('A' <= n <= 'Z' && w != ""))
            && |w| != 1 && ToLower(w) !in TITLES
            && '/' !in k && !EndsWith(k, "www")
            && !(EndsInMarker(p, d) && n in SPACES)
  {
    hide SentenceEnd, ToLower;
    DotCutExactly(p, w, k, d, n);
    if TerminatorCut(p, '.', n) {
      CalmThenCut(p, '.', n, t);
    } else {
      assert p + ['.'] + [n] + t == p + "." + ([n] + t);
      PrefixAt("\n\n", [n] + t, 0);
      PrefixAt("\n\n", [n] + t, 1);
      DotCutsOnly(p, [n] + t);
    }
  }

  lemma DotCutExactly(p: string, w: string, k: string, d: string, n: char)
    requires Calm(p) && EndsInWord(p, w) && EndsInToken(p, k) && EndsInNumber(p, d)
    ensures TerminatorCut(p, '.', n) <==>
            && (n in SPACES || n in CLOSERS || ('A' <= n <= 'Z' && w != ""))
            && |w| != 1 && ToLower(w) !in TITLES
            && '/' !in k && !EndsWith(k, "www")
            && !(EndsInMarker(p, d) && n in SPACES)
  {
    hide ToLower, IsLinkToken, IsShortWord, LastWord, LastToken, DigitRun, ScanOf, Calm, EndsWith, EndsInWord,
         EndsInToken, EndsInNumber;
    CalmScan(p);
    SuffixesAre(p, w, k, d);
    TokenIsAtEnd(p, k);
    LinkExactly(p, k);
    ShortWordExactly(w);
    MarkerExactly(p, d, n);
  }

  lemma TokenIsAtEnd(p: string, k: string)
    requires EndsInToken(p, k)
    ensures EndsWith(p, k)
  {
    hide EndsWith;
  }

  lemma SuffixesAre(p: string, w: string, k: string, d: string)
    requires EndsInWord(p, w) && EndsInToken(p, k) && EndsInNumber(p, d)
    ensures LastWord(p) == w && LastToken(p) == k && DigitRun(p) == |d| && (EndsInLetter(p) <==> w != "")
  {
    hide LastWord, LastToken, DigitRun, EndsInWord, EndsInToken, EndsInNumber;
    WordIs(p, w);
    TokenIs(p, k);
    NumberIs(p, d);
    LetterAtEnd(p, w);
  }

  lemma WordIs(p: string, w: string)
    requires EndsInWord(p, w)
    ensures LastWord(p) == w
  {
    hide LastWord;
    var q := p[..|p| - |w|];
    assert p == q + w;
    assert q != "" ==> q[|q| - 1] == p[|p| - |w| - 1];
    WordBehind(q, w);
  }

  lemma TokenIs(p: string, k: string)
    requires EndsInToken(p, k)
    ensures LastToken(p) == k
  {
    hide LastToken;
    var q := p[..|p| - |k|];
    assert p == q + k;
    assert q != "" ==> q[|q| - 1] == p[|p| - |k| - 1];
    ExactTokenBehind(q, k);
  }

  lemma NumberIs(p: string, d: string)
    requires EndsInNumber(p, d)
    ensures DigitRun(p) == |d|
  {
    hide DigitRun;
    var q := p[..|p| - |d|];
    assert p == q + d;
    assert q != "" ==> q[|q| - 1] == p[|p| - |d| - 1];
    DigitsBehind(q, d);
  }

  lemma MarkerExactly(p: string, d: string, n: char)
    requires DigitRun(p) == |d| <= |p|
    ensures (n in SPACES || n in CLOSERS || 'A' <= n <= 'Z') ==>
              (ListMarker(p, Some(n)) <==> EndsInMarker(p, d) && n in SPACES)
  {
    hide DigitRun;
  }

  lemma LetterAtEnd(p: string, w: string)
    requires EndsInWord(p, w)
    ensures EndsInLetter(p) <==> w != ""
  {
    if w != "" {
      assert p[|p| - 1] == w[|w| - 1];
    }
  }

  /** For one: a statement after a word of four letters or more, in a token without a slash, ends. */
  lemma StatementsEnd(q: string, w: string, n: char, t: string)
    requires Calm(q + w) && (q == "" || q[|q| - 1] in SPACES) && |w| >= 4 && (forall k :: 0 <= k < |w| ==> Letter(w[k]))
    requires !EndsWith(w, "www") && (n in SPACES || n in CLOSERS || 'A' <= n <= 'Z')
    ensures SentenceEnd(q + w + ['.'] + [n] + t) == Some(|q| + |w| + 1)
  {
    hide SentenceEnd, TerminatorCut, EndsInWord, EndsInToken, EndsInNumber, ToLower, Calm;
    var p := q + w;
    WordAlone(q, w);
    TitlesAreShort(w);
    SlashIsNoLetter(w);
    DotCutExactly(p, w, w, "", n);
    CalmThenCut(p, '.', n, t);
  }

  lemma SlashIsNoLetter(w: string)
    requires forall k :: 0 <= k < |w| ==> Letter(w[k])
    ensures '/' !in w
  {
  }

  lemma WordAlone(q: string, w: string)
    requires (q == "" || q[|q| - 1] in SPACES) && w != "" && forall k :: 0 <= k < |w| ==> Letter(w[k])
    ensures EndsInWord(q + w, w) && EndsInToken(q + w, w) && EndsInNumber(q + w, "")
  {
    var p := q + w;
    assert p[|p| - |w|..] == w && p[|p|..] == "";
    assert |q| > 0 ==> p[|p| - |w| - 1] == q[|q| - 1];
    assert p[|p| - 1] == w[|w| - 1];
  }

  lemma CalmWord(w: string)
    requires forall k :: 0 <= k < |w| ==> Letter(w[k])
    ensures Calm(w)
  {
  }

  lemma TitlesAreShort(w: string)
    requires |w| > 3
    ensures ToLower(w) !in TITLES
  {
  }

  /** A blank line ends a paragraph, in front of the line, unless it is blank or only a list marker. */
  lemma ParagraphsEnd(p: string, t: string)
    requires Calm(p) && Trim(p) != ""
    ensures SentenceEnd(p + "\n\n" + t) == Some(|p|)
  {
    hide Trim, TerminatorCut;
    var s := p + "\n\n" + t;
    assert s == p + ("\n\n" + t);
    CalmScan(p);
    CalmIsNoMarker(p);
    forall i | 0 <= i < |p| ensures !CutAt(s, i) {
      CalmHoldsNoCut(p, "\n\n" + t, i);
    }
    assert s[..|p|] == p && s[|p|] == '\n' && s[|p| + 1] == '\n';
    EndFromIsFirst(s, 0, |p|);
  }

  lemma {:induction false} TrimOfCalm(p: string)
    requires Calm(p)
    ensures Calm(Trim(p))
  {
    var w := TrimStartSplits(p);
    assert forall k :: 0 <= k < |Trim(p)| ==> Trim(p)[k] == p[w + k];
  }

  lemma CalmIsNoMarker(p: string)
    requires Calm(p)
    ensures !OnlyListMarker(Trim(p))
  {
    hide Trim, ListMarker;
    TrimOfCalm(p);
  }

  // Text that does not end.

  /** A terminator that is the last character waits for the next one. */
  lemma LastCharacterWaits(p: string, c: char)
    requires Calm(p) && c in TERMINATORS
    ensures SentenceEnd(p + [c]) == None
  {
    hide TerminatorCut, ParagraphCut;
    var s := p + [c];
    forall i | 0 <= i < |s| ensures !CutAt(s, i) {
      if i < |p| {
        CalmHoldsNoCut(p, [c], i);
      }
    }
    NoCutNoEnd(s, 0);
  }

  lemma {:induction false} NoCutNoEnd(s: string, i: nat)
    requires forall j :: i <= j < |s| ==> !CutAt(s, j)
    ensures EndFrom(s, i) == None
    decreases |s| - i
  {
    hide CutAt;
    if i < |s| {
      NoCutNoEnd(s, i + 1);
    }
  }

  /** In front of a letter, a digit or a vertical tab a question or an exclamation goes on. */
  lemma ShoutsGoOn(p: string, c: char, n: char)
    requires Calm(p) && (c == '!' || c == '?')
    requires 'a' <= n <= 'z' || 'A' <= n <= 'Z' || '0' <= n <= '9' || n == '\U{0B}'
    ensures SentenceEnd(p + [c] + [n]) == None
  {
    hide ListMarker, AbbreviationOrDecimal, ScanOf;
    var s := p + [c] + [n];
    assert s == p + [c, n];
    forall i | 0 <= i < |s| ensures !CutAt(s, i) {
      if i < |p| {
        CalmHoldsNoCut(p, [c, n], i);
      } else {
        assert s[..|p|] == p && s[|p|] == c;
      }
    }
    NoCutNoEnd(s, 0);
  }

  /** A dot in front of a small letter or a digit is no end: a file name, a version. */
  lemma DotInsideToken(q: string, t: string)
    requires t != "" && ('a' <= t[0] <= 'z' || '0' <= t[0] <= '9')
    ensures SentenceEnd(q + "." + t) != Some(|q| + 1)
  {
    hide ListMarker, AbbreviationOrDecimal, ScanOf;
    DotIsNoEnd(q, t);
  }

  lemma DotCutsOnly(q: string, t: string)
    requires t != "" && !TerminatorCut(q, '.', t[0]) && !("\n\n" <= t)
    ensures SentenceEnd(q + "." + t) != Some(|q| + 1)
  {
    hide TerminatorCut, ScanOf;
    var s := q + "." + t;
    assert s[..|q|] == q && s[|q|] == '.' && s[|q| + 1] == t[0] && s[|q| + 1..] == t;
    assert |t| > 1 ==> s[|q| + 2] == t[1];
    if SentenceEnd(s) == Some(|q| + 1) {
      var k := FirstCut(s, 0);
      CutsAtTerminator(s[..k], s[k], s[k + 1]);
    }
  }

  /** A dot that does not cut ends nothing, when no line break follows it. */
  lemma DotIsNoEnd(q: string, t: string)
    requires t != "" && t[0] != '\n' && !TerminatorCut(q, '.', t[0])
    ensures SentenceEnd(q + "." + t) != Some(|q| + 1)
  {
    hide TerminatorCut, SentenceEnd;
    DotCutsOnly(q, t);
  }

  /** A dot after a title, in any case, is no end, whatever stands in front of it. */
  lemma DotAfterTitle(q: string, w: string, t: string)
    requires ToLower(w) in TITLES && EndsLetters(q) && t != "" && t[0] != '\n'
    ensures SentenceEnd(q + w + "." + t) != Some(|q| + |w| + 1)
  {
    hide ScanOf, SentenceEnd, IsAbbreviation, ListMarker, IsLinkToken, ToLower;
    TitleIsAbbreviation(w);
    WordBehind(q, w);
    DotIsNoEnd(q + w, t);
  }

  /** Nor is a dot after a single letter. */
  lemma DotAfterInitial(q: string, c: char, t: string)
    requires ('a' <= c <= 'z' || 'A' <= c <= 'Z') && EndsLetters(q) && t != "" && t[0] != '\n'
    ensures SentenceEnd(q + [c] + "." + t) != Some(|q| + 2)
  {
    hide ScanOf, SentenceEnd, IsAbbreviation, ListMarker, IsLinkToken;
    WordBehind(q, [c]);
    DotIsNoEnd(q + [c], t);
  }

  /** Nor one between digits. */
  lemma DotInsideNumber(q: string, c: char, t: string)
    requires '0' <= c <= '9' && t != "" && '0' <= t[0] <= '9'
    ensures SentenceEnd(q + [c] + "." + t) != Some(|q| + 2)
  {
    hide SentenceEnd;
    DotInsideToken(q + [c], t);
  }

  lemma {:induction false} TokenBehind(q: string, w: string)
    requires forall k :: 0 <= k < |w| ==> w[k] !in SPACES
    ensures exists u :: LastToken(q + w) == u + w
  {
    if w == "" {
      assert q + w == q;
      assert LastToken(q + w) == LastToken(q) + w;
    } else {
      var v := w[..|w| - 1];
      assert (q + w)[..|q + w| - 1] == q + v;
      TokenBehind(q, v);
      var u :| LastToken(q + v) == u + v;
      assert v + [w[|w| - 1]] == w;
      assert (u + v) + [w[|w| - 1]] == u + w;
      assert LastToken(q + w) == u + w;
    }
  }

  /** Nor one in a token that holds a slash, nor one that closes "www". */
  lemma DotInsideLink(q: string, w: string, t: string)
    requires (forall k :: 0 <= k < |w| ==> w[k] !in SPACES) && ('/' in w || w == "www") && t != "" && t[0] != '\n'
    ensures SentenceEnd(q + w + "." + t) != Some(|q| + |w| + 1)
  {
    hide ScanOf, SentenceEnd, IsAbbreviation, ListMarker, LastToken;
    TokenBehind(q, w);
    var u :| LastToken(q + w) == u + w;
    assert w == "www" ==> (u + w)[|u + w| - 3..] == w;
    LinkHolds(u + w);
    DotIsNoEnd(q + w, t);
  }

  /** "Prof" is in the table but too long to be looked up: the dot behind it does end. */
  lemma ProfEnds(n: char, t: string)
    requires n in SPACES
    ensures SentenceEnd("Prof" + ['.'] + [n] + t) == Some(5)
  {
    hide SentenceEnd;
    hide Calm;
    assert "" + "Prof" == "Prof" && "Prof"[1..] == "rof";
    CalmWord("Prof");
    StatementsEnd("", "Prof", n, t);
  }

  // Brackets and code.

  /** Open to the end of `p`: parentheses, square or curly brackets, or a code span. */
  predicate StaysOpen(p: string) {
    var st := ScanOf(p);
    st.code || st.paren > 0 || st.bracket > 0 || st.brace > 0
  }

  lemma OpenHoldsNoEnd(a: string, open: char, b: string)
    requires Calm(a) && '\n' !in b
    requires forall j :: 0 <= j <= |b| ==> StaysOpen(a + [open] + b[..j])
    requires open in {'(', '[', '{', '`'}
    ensures SentenceEnd(a + [open] + b) == None
  {
    hide StaysOpen, Calm;
    var s := a + [open] + b;
    assert s == a + ([open] + b);
    forall i | 0 <= i < |s| ensures !CutAt(s, i) {
      if i < |a| {
        CalmHoldsNoCut(a, [open] + b, i);
      } else if i == |a| {
        assert s[i] == open;
        PlainHoldsNoCut(s, i);
      } else {
        var j := i - |a| - 1;
        assert s[i] == b[j];
        assert s[..i] == a + [open] + b[..j];
        OpenHoldsNoCut(s, i);
      }
    }
    NoCutNoEnd(s, 0);
  }

  lemma OpenHoldsNoCut(s: string, i: nat)
    requires i < |s| && StaysOpen(s[..i]) && s[i] != '\n'
    ensures !CutAt(s, i)
  {
    hide ScanOf, ListMarker, AbbreviationOrDecimal;
  }

  lemma {:induction false} ParenStaysOpen(p: string, b: string)
    requires ScanOf(p).paren > 0 && !ScanOf(p).code && ')' !in b && '`' !in b
    ensures ScanOf(p + b).paren > 0 && !ScanOf(p + b).code
  {
    if b == "" {
      assert p + b == p;
    } else {
      assert (p + b)[..|p + b| - 1] == p + b[..|b| - 1];
      ParenStaysOpen(p, b[..|b| - 1]);
    }
  }

  lemma {:induction false} BracketStaysOpen(p: string, b: string)
    requires ScanOf(p).bracket > 0 && !ScanOf(p).code && ']' !in b && '`' !in b
    ensures ScanOf(p + b).bracket > 0 && !ScanOf(p + b).code
  {
    if b == "" {
      assert p + b == p;
    } else {
      assert (p + b)[..|p + b| - 1] == p + b[..|b| - 1];
      BracketStaysOpen(p, b[..|b| - 1]);
    }
  }

  lemma {:induction false} BraceStaysOpen(p: string, b: string)
    requires ScanOf(p).brace > 0 && !ScanOf(p).code && '}' !in b && '`' !in b
    ensures ScanOf(p + b).brace > 0 && !ScanOf(p + b).code
  {
    if b == "" {
      assert p + b == p;
    } else {
      assert (p + b)[..|p + b| - 1] == p + b[..|b| - 1];
      BraceStaysOpen(p, b[..|b| - 1]);
    }
  }

  lemma {:induction false} CodeStays(p: string, b: string)
    requires ScanOf(p).code && '`' !in b
    ensures ScanOf(p + b) == ScanOf(p)
  {
    if b == "" {
      assert p + b == p;
    } else {
      assert (p + b)[..|p + b| - 1] == p + b[..|b| - 1];
      CodeStays(p, b[..|b| - 1]);
    }
  }

  lemma ScanOpened(a: string, open: char)
    requires Calm(a) && open in {'(', '[', '{', '`'}
    ensures ScanOf(a + [open]) ==
            match open
            case '(' => Scan(false, 1, 0, 0)
            case '[' => Scan(false, 0, 1, 0)
            case '{' => Scan(false, 0, 0, 1)
            case _ => Scan(true, 0, 0, 0)
  {
    CalmScan(a);
    assert (a + [open])[..|a|] == a;
  }

  /** The closing partner of an opening character. */
  function Partner(open: char): char {
    match open case '(' => ')' case '[' => ']' case '{' => '}' case _ => '`'
  }

  /** No end lies behind an opening bracket that is not closed, or a backtick, whatever terminators follow. */
  lemma NoEndInBrackets(a: string, open: char, b: string)
    requires Calm(a) && open in {'(', '[', '{', '`'} && Partner(open) !in b && '`' !in b && '\n' !in b
    ensures SentenceEnd(a + [open] + b) == None
  {
    hide ScanOf, SentenceEnd;
    ScanOpened(a, open);
    forall j | 0 <= j <= |b| ensures StaysOpen(a + [open] + b[..j]) {
      var p, c := a + [open], b[..j];
      assert Partner(open) !in c && '`' !in c;
      match open {
        case '(' => ParenStaysOpen(p, c);
        case '[' => BracketStaysOpen(p, c);
        case '{' => BraceStaysOpen(p, c);
        case _ => CodeStays(p, c);
      }
    }
    OpenHoldsNoEnd(a, open, b);
  }

  /** Behind the match the sentence can end again: the exclamation after a closed bracket or code span does. */
  lemma EndBehindBrackets(a: string, open: char, b: string, n: char, t: string)
    requires Calm(a) && open in {'(', '[', '{', '`'} && n in SPACES
    requires Partner(open) !in b && '`' !in b && '\n' !in b && (open != '`' ==> Calm(b))
    ensures SentenceEnd(a + [open] + b + [Partner(open)] + ['!'] + [n] + t) == Some(|a| + |b| + 3)
  {
    hide TerminatorCut, ScanOf, Calm;
    var p := a + [open] + b + [Partner(open)];
    var s := p + ['!'] + [n] + t;
    ClosedScan(a, open, b);
    ClosedCut(p, n);
    forall i | 0 <= i < |p| ensures !CutAt(s, i) {
      ClosedHoldsNoCut(a, open, b, s, i);
    }
    CutBehind(p, '!', n, t);
  }

  lemma ClosedCut(p: string, n: char)
    requires ScanOf(p) == Scan(false, 0, 0, 0) && n in SPACES
    ensures TerminatorCut(p, '!', n)
  {
    hide ScanOf, ListMarker, AbbreviationOrDecimal;
  }

  lemma ClosedScan(a: string, open: char, b: string)
    requires Calm(a) && open in {'(', '[', '{', '`'} && '`' !in b && (open != '`' ==> Calm(b))
    ensures ScanOf(a + [open] + b + [Partner(open)]) == Scan(false, 0, 0, 0)
  {
    hide Calm;
    var p := a + [open];
    var all := p + b + [Partner(open)];
    ScanOpened(a, open);
    if open == '`' {
      CodeStays(p, b);
    } else {
      CalmAddsNothing(p, b);
    }
    assert all[..|all| - 1] == p + b;
  }

  lemma {:induction false} CalmAddsNothing(p: string, b: string)
    requires Calm(b) && !ScanOf(p).code
    ensures ScanOf(p + b) == ScanOf(p)
  {
    if b == "" {
      assert p + b == p;
    } else {
      assert (p + b)[..|p + b| - 1] == p + b[..|b| - 1];
      CalmAddsNothing(p, b[..|b| - 1]);
    }
  }

  lemma ClosedHoldsNoCut(a: string, open: char, b: string, s: string, i: nat)
    requires Calm(a) && open in {'(', '[', '{', '`'} && '`' !in b && '\n' !in b && (open != '`' ==> Calm(b))
    requires a + [open] + b + [Partner(open)] <= s && i < |a| + |b| + 2
    ensures !CutAt(s, i)
  {
    hide ScanOf, Calm;
    var p := a + [open] + b + [Partner(open)];
    assert s[i] == p[i];
    if i < |a| {
      CalmChar(a, i);
      PlainHoldsNoCut(s, i);
    } else if i == |a| || i == |a| + |b| + 1 {
      PlainHoldsNoCut(s, i);
    } else {
      var j := i - |a| - 1;
      assert s[i] == b[j];
      if open == '`' {
        ScanOpened(a, open);
        CodeStays(a + [open], b[..j]);
        assert s[..i] == a + [open] + b[..j];
        OpenHoldsNoCut(s, i);
      } else {
        CalmChar(b, j);
        PlainHoldsNoCut(s, i);
      }
    }
  }

  lemma CalmChar(p: string, i: nat)
    requires Calm(p) && i < |p|
    ensures !IsTerminator(p[i]) && p[i] != '\n'
  {
  }

  // What comes out.

  /** A drained sentence is never empty and never ends in white space. */
  lemma SentencesAreTrimmed(s: string, k: nat)
    requires k < |Drain(s).done|
    ensures var c := Drain(s).done[k].content; c != "" && !IsWhitespace(c[|c| - 1])
  {
    hide Drain, BufferAt, SentenceEnd, ByteLen, SpaceEnd, IsWhitespace;
    SentenceFromBuffer(s, k);
    CompletedIsSolid(BufferAt(s, k));
  }

  /** What comes out first when a sentence of one line ends in front of a space. */
  lemma FirstOut(p: string, c: char, t: string)
    requires c in TERMINATORS && SentenceEnd(p + [c] + [' '] + t) == Some(|p| + 1)
    requires t == "" || t[0] !in SPACES
    ensures var d := Drain(p + [c] + [' '] + t);
            d.done != [] && d.done[0].content == p + [c] && d.done[1..] == Drain(t).done && d.rest == Drain(t).rest
  {
    hide SentenceEnd, ByteLen, Drain, SpaceEnd, TrimEnd;
    var s, e := p + [c] + [' '] + t, |p| + 1;
    DrainStep(s);
    assert s[..e] == p + [c] && s[e + 1..] == t && s[e] == ' ';
    assert t != "" ==> s[e + 1] == t[0];
    OneSpace(s, e);
    SolidEnd(p + [c]);
  }

  lemma SolidEnd(s: string)
    requires s != "" && s[|s| - 1] in TERMINATORS
    ensures TrimEnd(s) == s
  {
  }

  lemma OneSpace(s: string, e: nat)
    requires e < |s| && s[e] == ' ' && (e + 1 == |s| || s[e + 1] !in SPACES)
    ensures SpaceEnd(s, e) == e + 1
  {
    assert SpaceEnd(s, e + 1) == e + 1;
  }

  lemma ReallyEnds()
    ensures "Really? Fine. " == "Really" + ['?'] + [' '] + "Fine. "
    ensures SentenceEnd("Really" + ['?'] + [' '] + "Fine. ") == Some(7)
  {
    hide SentenceEnd, Calm;
    CalmWord("Really");
    ShoutsEnd("Really", '?', ' ', "Fine. ");
  }

  lemma FineEnds()
    ensures "Fine. " == "Fine" + ['.'] + [' '] + ""
    ensures SentenceEnd("Fine" + ['.'] + [' '] + "") == Some(5)
  {
    hide SentenceEnd, Calm;
    assert "" + "Fine" == "Fine" && "Fine"[1..] == "ine";
    CalmWord("Fine");
    StatementsEnd("", "Fine", ' ', "");
  }

  lemma FineAlone()
    ensures Drain("Fine. ").rest == "" && |Drain("Fine. ").done| == 1 && Drain("Fine. ").done[0].content == "Fine."
  {
    hide Drain, SentenceEnd;
    FineEnds();
    FirstOut("Fine", '.', "");
    DrainNothing();
    assert "Fine" + ['.'] == "Fine.";
    assert |Drain("Fine. ").done[1..]| == 0;
  }

  /** A question and a statement are two sentences. */
  lemma TwoSentences()
    ensures Contents(Drain("Really? Fine. ").done) == ["Really?", "Fine."] && Drain("Really? Fine. ").rest == ""
  {
    hide Drain, SentenceEnd;
    ReallyEnds();
    FirstOut("Really", '?', "Fine. ");
    FineAlone();
    assert "Really" + ['?'] == "Really?";
    var done := Drain("Really? Fine. ").done;
    assert done[1] == done[1..][0] && |done| == 2;
  }
}
