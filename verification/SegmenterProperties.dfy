/** What every push and every session keeps: bytes, text and list markers. */
module SegmenterProperties {
  import opened Common
  import opened Text
  import opened SentenceRules
  import opened Segmenter
  import opened ChunkIndependence

  // Bytes.

  function BytesTaken(done: seq<CompletedSentence>): nat {
    if done == [] then 0 else done[0].bytesConsumed + BytesTaken(done[1..])
  }

  lemma {:induction false} BytesTakenConcat(s: seq<CompletedSentence>, t: seq<CompletedSentence>)
    ensures BytesTaken(s + t) == BytesTaken(s) + BytesTaken(t)
  {
    if s == [] {
      assert s + t == t;
    } else {
      assert (s + t)[1..] == s[1..] + t;
      BytesTakenConcat(s[1..], t);
    }
  }

  /** A push takes out of the buffer exactly the bytes its sentences report. */
  lemma {:induction false} DrainConserves(s: string)
    ensures BytesTaken(Drain(s).done) + ByteLen(Drain(s).rest) == ByteLen(s)
    decreases |s|
  {
    hide SentenceEnd, ByteLen;
    if SentenceEnd(s).Some? {
      var k := SpaceEnd(s, SentenceEnd(s).value);
      ByteLenSplit(s, k);
      DrainConserves(s[k..]);
      assert Drain(s).done[1..] == Drain(s[k..]).done;
    }
  }

  lemma SealConserves(s: string)
    ensures BytesTaken(Seal(s).done) + ByteLen(Seal(s).rest) == ByteLen(s)
  {
    hide Drain, ByteLen, Trim;
    DrainConserves(s);
    var r := Drain(s).rest;
    assert ByteLen("") == 0 by { EmptyBytes(); }
    BytesTakenConcat(Drain(s).done, SealRest(r).done);
  }

  lemma EmptyBytes()
    ensures ByteLen("") == 0
  {
  }

  lemma {:induction false} FeedConserves(buf: string, chunks: seq<string>)
    ensures var f := FeedAll(buf, chunks);
            BytesTaken(f.done) + ByteLen(f.rest) == ByteLen(buf) + ByteLen(Flatten(chunks))
    decreases |chunks|
  {
    hide Drain, ByteLen;
    EmptyBytes();
    if chunks != [] {
      var d := Drain(buf + chunks[0]);
      DrainConserves(buf + chunks[0]);
      FeedConserves(d.rest, chunks[1..]);
      ByteLenConcat(buf, chunks[0]);
      ByteLenConcat(chunks[0], Flatten(chunks[1..]));
      BytesTakenConcat(d.done, FeedAll(d.rest, chunks[1..]).done);
    }
  }

  /** Over a whole session every byte is in a sentence or still buffered. */
  lemma SessionConserves(chunks: seq<string>)
    ensures BytesTaken(Session(chunks).done) + ByteLen(Session(chunks).rest) == ByteLen(Flatten(chunks))
  {
    hide FeedAll, Seal, ByteLen;
    EmptyBytes();
    FeedConserves("", chunks);
    SealConserves(FeedAll("", chunks).rest);
    BytesTakenConcat(FeedAll("", chunks).done, Seal(FeedAll("", chunks).rest).done);
  }

  // Text.

  /** The characters that are not white space, in order. */
  function Solid(s: string): string {
    if s == "" then ""
    else Solid(s[..|s| - 1]) + if IsWhitespace(s[|s| - 1]) then "" else [s[|s| - 1]]
  }

  function Joined(done: seq<CompletedSentence>): string {
    if done == [] then "" else done[0].content + Joined(done[1..])
  }

  lemma {:induction false} SolidConcat(a: string, b: string)
    ensures Solid(a + b) == Solid(a) + Solid(b)
  {
    if b == "" {
      assert a + b == a;
    } else {
      assert (a + b)[..|a + b| - 1] == a + b[..|b| - 1];
      SolidConcat(a, b[..|b| - 1]);
    }
  }

  lemma {:induction false} SolidOfBlank(s: string)
    requires forall k :: 0 <= k < |s| ==> IsWhitespace(s[k])
    ensures Solid(s) == ""
  {
    if s != "" {
      SolidOfBlank(s[..|s| - 1]);
    }
  }

  lemma {:induction false} SolidTrimEnd(s: string)
    ensures Solid(TrimEnd(s)) == Solid(s)
  {
    if s != "" && IsWhitespace(s[|s| - 1]) {
      SolidTrimEnd(s[..|s| - 1]);
    }
  }

  lemma {:induction false} SolidTrimStart(s: string)
    ensures Solid(TrimStart(s)) == Solid(s)
  {
    if s != "" && IsWhitespace(s[0]) {
      SolidTrimStart(s[1..]);
      assert s == [s[0]] + s[1..];
      SolidConcat([s[0]], s[1..]);
      SolidOfBlank([s[0]]);
    }
  }

  lemma {:induction false} JoinedConcat(s: seq<CompletedSentence>, t: seq<CompletedSentence>)
    ensures Joined(s + t) == Joined(s) + Joined(t)
  {
    if s == [] {
      assert s + t == t;
    } else {
      assert (s + t)[1..] == s[1..] + t;
      JoinedConcat(s[1..], t);
    }
  }

  /** One cut loses only white space. */
  lemma CutKeepsText(s: string, e: nat)
    requires e <= |s|
    ensures Solid(s) == Solid(SentenceOf(s, e).content) + Solid(s[SpaceEnd(s, e)..])
  {
    hide Solid, SpaceEnd, TrimEnd, ByteLen;
    var k := SpaceEnd(s, e);
    SpaceEndSkips(s, e);
    assert s == s[..e] + (s[e..k] + s[k..]);
    SolidConcat(s[..e], s[e..k] + s[k..]);
    SolidConcat(s[e..k], s[k..]);
    SolidOfBlank(s[e..k]);
    SolidTrimEnd(s[..e]);
  }

  lemma {:induction false} DrainKeepsText(s: string)
    ensures Solid(Joined(Drain(s).done)) + Solid(Drain(s).rest) == Solid(s)
    decreases |s|
  {
    hide SentenceEnd, SentenceOf, Solid;
    if SentenceEnd(s).Some? {
      var e := SentenceEnd(s).value;
      var rest := s[SpaceEnd(s, e)..];
      CutKeepsText(s, e);
      DrainKeepsText(rest);
      assert Drain(s).done[1..] == Drain(rest).done;
      SolidConcat(SentenceOf(s, e).content, Joined(Drain(rest).done));
    } else {
      SolidOfBlank("");
    }
  }

  lemma Regroup(said: string, more: string, left: string, mid: string, buf: string, first: string, rest: string)
    requires said + mid == buf + first
    requires more + left == mid + rest
    ensures (said + more) + left == buf + (first + rest)
  {
    assert (said + more) + left == said + (more + left);
    assert said + (mid + rest) == (said + mid) + rest;
    assert (buf + first) + rest == buf + (first + rest);
  }

  lemma {:induction false} FeedKeepsText(buf: string, chunks: seq<string>)
    ensures var f := FeedAll(buf, chunks);
            Solid(Joined(f.done)) + Solid(f.rest) == Solid(buf) + Solid(Flatten(chunks))
    decreases |chunks|
  {
    hide Drain, Solid;
    SolidOfBlank("");
    if chunks == [] {
      assert Flatten(chunks) == "";
      assert Joined(FeedAll(buf, chunks).done) == "";
    } else {
      var d := Drain(buf + chunks[0]);
      var f := FeedAll(d.rest, chunks[1..]);
      DrainKeepsText(buf + chunks[0]);
      FeedKeepsText(d.rest, chunks[1..]);
      SolidConcat(buf, chunks[0]);
      SolidConcat(chunks[0], Flatten(chunks[1..]));
      JoinedConcat(d.done, f.done);
      SolidConcat(Joined(d.done), Joined(f.done));
      Regroup(Solid(Joined(d.done)), Solid(Joined(f.done)), Solid(f.rest), Solid(d.rest),
              Solid(buf), Solid(chunks[0]), Solid(Flatten(chunks[1..])));
    }
  }

  lemma SealKeepsText(rest: string)
    ensures Solid(Joined(SealRest(rest).done)) == Solid(rest)
  {
    SolidTrimStart(rest);
    SolidTrimEnd(TrimStart(rest));
    if Trim(rest) != "" {
      assert SealRest(rest).done[1..] == [];
      assert Joined(SealRest(rest).done) == Trim(rest);
    }
  }

  /** A session loses, repeats and reorders nothing: the sentences joined are the text, up to white space. */
  lemma SessionKeepsText(chunks: seq<string>)
    ensures Solid(Joined(Session(chunks).done)) == Solid(Flatten(chunks))
  {
    hide FeedAll, SealRest, Session, Solid;
    SolidOfBlank("");
    SealAfterFeed(chunks);
    var f := FeedAll("", chunks);
    FeedKeepsText("", chunks);
    SealKeepsText(f.rest);
    JoinedConcat(f.done, SealRest(f.rest).done);
    SolidConcat(Joined(f.done), Joined(SealRest(f.rest).done));
  }

  // List markers.

  /** One to three digits and a dot, nothing else. */
  predicate BareMarker(t: string) {
    2 <= |t| <= 4 && t[|t| - 1] == '.' && AllDigits(t[..|t| - 1])
  }

  predicate IsCloser(c: char) { c in {'"', '\'', ')', ']'} }

  /** The text opens with a bare marker whose dot touches a quote or a closing bracket. */
  predicate MarkerThenCloser(s: string, n: nat) {
    n < |s| && BareMarker(s[..n]) && IsCloser(s[n])
  }

  predicate SpaceOrDigits(p: string) { forall k :: 0 <= k < |p| ==> IsWhitespace(p[k]) || IsDigit(p[k]) }

  lemma {:induction false} PlainText(p: string)
    requires SpaceOrDigits(p)
    ensures ScanOf(p) == Scan(false, 0, 0, 0) && LastWord(p) == "" && SpaceOrDigits(LastToken(p))
  {
    if p != "" {
      PlainText(p[..|p| - 1]);
    }
  }

  lemma {:induction false} DigitSuffixes(d: string)
    requires AllDigits(d)
    ensures DigitRun(d) == |d| && LastToken(d) == d
  {
    if d != "" {
      DigitSuffixes(d[..|d| - 1]);
      assert d[..|d| - 1] + [d[|d| - 1]] == d;
    }
  }

  lemma DigitRunOfDigits(d: string)
    requires AllDigits(d)
    ensures DigitRun(d) == |d| && LastWord(d) == "" && LastToken(d) == d
    ensures ScanOf(d) == Scan(false, 0, 0, 0)
  {
    hide DigitRun, LastWord, LastToken, ScanOf;
    DigitSuffixes(d);
    PlainText(d);
  }

  lemma DigitsAreNoLink(d: string)
    requires AllDigits(d)
    ensures !IsLinkToken(d + ".")
  {
    var t := d + ".";
    forall k | 0 <= k <= |t|
      ensures !("://" <= t[k..]) && !("www." <= t[k..]) && !("/" <= t[k..])
    {
      if k < |t| {
        assert t[k..][0] == t[k];
        assert t[k] == '.' || IsDigit(t[k]);
      }
    }
  }

  /** A lone 1-3 digit marker is cut off by its dot exactly when a closer touches the dot. */
  lemma MarkerDotCut(d: string, next: char)
    requires AllDigits(d) && 1 <= |d| <= 3
    ensures TerminatorCut(d, '.', next) <==> IsCloser(next)
  {
    DigitRunOfDigits(d);
    DigitsAreNoLink(d);
  }

  lemma DigitsHoldNoCut(s: string, n: nat, i: nat)
    requires n < |s| && AllDigits(s[..n]) && i < n
    ensures !CutAt(s, i)
  {
    assert s[i] == s[..n][i];
  }

  /** Text that opens with a marker: its first sentence is the bare marker exactly in front of a closer. */
  lemma FirstSentenceOfMarker(s: string)
    requires s == "" || !IsAsciiWhitespace(s[0])
    requires SentenceEnd(s).Some?
    ensures BareMarker(SentenceOf(s, SentenceEnd(s).value).content) <==>
            MarkerThenCloser(s, SentenceEnd(s).value)
  {
    var e := SentenceEnd(s).value;
    var k := FirstCut(s, 0);
    var raw := s[..e];
    var content := TrimEnd(raw);
    if IsTerminator(s[k]) {
      assert raw[|raw| - 1] == s[k];
      assert content == raw;
      assert raw[..|raw| - 1] == s[..k];
      if BareMarker(content) {
        MarkerDotCut(s[..k], s[k + 1]);
      }
    } else {
      assert raw == s[..k];
      if BareMarker(content) {
        MarkerIsNoParagraph(raw);
      }
    }
  }

  /** A paragraph that is only a marker is never closed by a blank line. */
  lemma MarkerIsNoParagraph(p: string)
    requires BareMarker(TrimEnd(p))
    ensures OnlyListMarker(Trim(p))
  {
    var t := TrimEnd(p);
    assert p[0] == t[0];
    assert t[0] == t[..|t| - 1][0];
    assert TrimStart(p) == p;
    DigitRunOfDigits(t[..|t| - 1]);
  }

  lemma MarkerBeforeCloserEnds(s: string, n: nat)
    requires MarkerThenCloser(s, n)
    ensures SentenceEnd(s) == Some(n)
  {
    var d := s[..n - 1];
    assert s[..n][..n - 1] == d;
    assert s[n - 1] == s[..n][n - 1];
    forall i | 0 <= i < n - 1
      ensures !CutAt(s, i)
    {
      DigitsHoldNoCut(s, n - 1, i);
    }
    MarkerDotCut(d, s[n]);
    EndFromIsFirst(s, 0, n - 1);
  }

  /** The buffer in front of which the k-th sentence of a push is found. */
  function BufferAt(s: string, k: nat): string
    requires k < |Drain(s).done|
    decreases k
  {
    if k == 0 then s
    else
      var rest := s[SpaceEnd(s, SentenceEnd(s).value)..];
      assert Drain(s).done[1..] == Drain(rest).done;
      BufferAt(rest, k - 1)
  }

  lemma {:induction false} SentenceFromBuffer(s: string, k: nat)
    requires k < |Drain(s).done|
    ensures var b := BufferAt(s, k);
            SentenceEnd(b).Some? && Drain(s).done[k] == SentenceOf(b, SentenceEnd(b).value)
    decreases k
  {
    if k > 0 {
      var rest := s[SpaceEnd(s, SentenceEnd(s).value)..];
      assert Drain(s).done[1..] == Drain(rest).done;
      SentenceFromBuffer(rest, k - 1);
    }
  }

  /** `SkipSpace` of the k-th sentence is a bare marker exactly when a closer touches its dot. */
  lemma MarkersStayAttached(s: string, k: nat)
    requires k < |Drain(s).done|
    ensures var b := SkipSpace(BufferAt(s, k));
            BareMarker(SkipSpace(Drain(s).done[k].content)) <==> exists n :: MarkerThenCloser(b, n)
  {
    hide Drain, BufferAt, SentenceEnd, BareMarker, SentenceOf;
    SentenceFromBuffer(s, k);
    var b := BufferAt(s, k);
    var j := SkipSpaceSplits(b);
    var w, u := b[..j], b[j..];
    assert b == w + u;
    EndShifts(w, u);
    var e := SentenceEnd(u).value;
    CompletedIsSolid(u);
    FirstSentenceShift(w, u, e);
    SkipSpaceAbsorbs(w, SentenceOf(u, e).content);
    FirstSentenceOfMarker(u);
    SolidContentKeepsFront(u, e);
    forall n | MarkerThenCloser(u, n)
      ensures n == e
    {
      MarkerBeforeCloserEnds(u, n);
    }
  }

  lemma SolidContentKeepsFront(u: string, e: nat)
    requires e <= |u| && (u == "" || !IsAsciiWhitespace(u[0]))
    ensures SkipSpace(SentenceOf(u, e).content) == SentenceOf(u, e).content
  {
    var content := SentenceOf(u, e).content;
    if content != "" {
      assert content[0] == u[0];
    }
  }

  // Markers behind any white space.

  /**
   White space, one to three digits and a dot at `n - 1`, in front of a closer; or in front of ASCII white space
   when the white space before the digits ends in a character that is not ASCII.
   */
  predicate DetachedMarker(b: string, w: nat, n: nat) {
    && w + 2 <= n <= w + 4 && n < |b|
    && Blank(b[..w]) && AllDigits(b[w..n - 1]) && b[n - 1] == '.'
    && (IsCloser(b[n]) || (w > 0 && !IsAsciiWhitespace(b[w - 1]) && IsAsciiWhitespace(b[n])))
  }

  lemma PlainIsNoLink(p: string)
    requires SpaceOrDigits(p)
    ensures !IsLinkToken(p + ".")
  {
    var t := p + ".";
    forall k | 0 <= k <= |t|
      ensures !("://" <= t[k..]) && !("www." <= t[k..]) && !("/" <= t[k..])
    {
      if k < |t| {
        assert t[k..][0] == t[k];
        assert t[k] == '.' || IsWhitespace(t[k]) || IsDigit(t[k]);
      }
    }
  }

  lemma {:induction false} DigitRunBehindSpace(w: string, d: string)
    requires Blank(w) && AllDigits(d)
    ensures DigitRun(w + d) == |d|
  {
    if d == "" {
      assert w + d == w;
    } else {
      assert (w + d)[..|w + d| - 1] == w + d[..|d| - 1];
      DigitRunBehindSpace(w, d[..|d| - 1]);
    }
  }

  /** The dot of a marker behind white space cuts in front of a closer, or where the rules miss the marker. */
  lemma SpacedMarkerCut(w: string, d: string, next: char)
    requires Blank(w) && AllDigits(d) && 1 <= |d| <= 3
    ensures TerminatorCut(w + d, '.', next) <==>
            IsCloser(next) || (w != "" && !IsAsciiWhitespace(w[|w| - 1]) && IsAsciiWhitespace(next))
  {
    hide IsLinkToken, ToLower, IsAbbreviation, ScanOf, LastWord, LastToken, DigitRun;
    var p := w + d;
    assert SpaceOrDigits(p);
    PlainText(p);
    PlainIsNoLink(LastToken(p));
    DigitRunBehindSpace(w, d);
    assert p[|p| - 1] == d[|d| - 1];
    assert w != "" ==> p[|p| - |d| - 1] == w[|w| - 1];
  }

  lemma BlankHoldsNoCut(s: string, w: nat, i: nat)
    requires i < w <= |s| && Blank(s[..w])
    ensures !CutAt(s, i)
  {
    assert s[i] == s[..w][i];
    var p := s[..i];
    assert Blank(p) by {
      assert forall k :: 0 <= k < i ==> p[k] == s[..w][k];
    }
    assert p + "" == p;
    TrimStartAbsorbs(p, "");
  }

  lemma DetachedMarkerEnds(b: string, w: nat, n: nat)
    requires DetachedMarker(b, w, n)
    ensures SentenceEnd(b) == Some(n) && BareMarker(Trim(SentenceOf(b, n).content))
  {
    hide TerminatorCut, Trim, ByteLen;
    var d := b[w..n - 1];
    forall i | 0 <= i < n - 1
      ensures !CutAt(b, i)
    {
      if i < w {
        BlankHoldsNoCut(b, w, i);
      } else {
        assert b[i] == d[i - w];
        PlainHoldsNoCut(b, i);
      }
    }
    assert b[..n - 1] == b[..w] + d;
    SpacedMarkerCut(b[..w], d, b[n]);
    EndFromIsFirst(b, 0, n - 1);
    var t := b[w..n];
    assert t[..|t| - 1] == d && t[0] == d[0] && t[|t| - 1] == '.';
    assert b[..n] == b[..w] + t + "";
    TrimStrips(b[..w], t, "");
    assert TrimEnd(b[..n]) == b[..n];
  }

  lemma {:induction false} TrimStartSplits(s: string) returns (w: nat)
    ensures w <= |s| && TrimStart(s) == s[w..] && Blank(s[..w])
  {
    if s != "" && IsWhitespace(s[0]) {
      var j := TrimStartSplits(s[1..]);
      w := j + 1;
      assert s[1..][j..] == s[w..];
      assert forall k :: 0 < k < w ==> s[k] == s[1..][..j][k - 1];
    } else {
      w := 0;
      assert s[0..] == s;
    }
  }

  lemma TrimIgnoresEnd(s: string)
    ensures Trim(TrimEnd(s)) == Trim(s)
  {
    hide IsWhitespace, TrimStart, TrimEnd;
    var w := TrimStartSplits(s);
    var u := s[w..];
    assert s == s[..w] + u;
    if u == "" {
      BlankTrimsAway(s, w);
    } else {
      SolidFrontStays(u);
      TrimEndPrefix(s[..w], u);
      TrimStartAbsorbs(s[..w], TrimEnd(u));
    }
  }

  lemma BlankTrimsAway(s: string, w: nat)
    requires w == |s| && Blank(s[..w])
    ensures TrimEnd(s) == "" && Trim(s) == Trim("")
  {
    assert s[..w] == s && s + "" == s && "" + s == s;
    TrimEndAbsorbs("", s);
    TrimStartAbsorbs(s, "");
  }

  lemma SolidFrontStays(u: string)
    requires u != "" && !IsWhitespace(u[0])
    ensures TrimEnd(u) != "" && TrimStart(TrimEnd(u)) == TrimEnd(u) && TrimEnd(TrimEnd(u)) == TrimEnd(u)
  {
    if TrimEnd(u) == "" {
      BlankIsWhitespace(u);
    }
  }

  lemma BareIsOnlyMarker(t: string)
    requires BareMarker(t)
    ensures OnlyListMarker(t)
  {
    DigitRunOfDigits(t[..|t| - 1]);
  }

  /** A first sentence that is a bare marker, trimmed, is a detached marker in its buffer. */
  lemma BareSentenceIsDetached(b: string) returns (w: nat)
    requires SentenceEnd(b).Some? && BareMarker(Trim(SentenceOf(b, SentenceEnd(b).value).content))
    ensures DetachedMarker(b, w, SentenceEnd(b).value)
  {
    hide EndFrom, TerminatorCut, ScanOf, OnlyListMarker, BareMarker, DetachedMarker, Trim;
    var n := SentenceEnd(b).value;
    var k := FirstCut(b, 0);
    TrimIgnoresEnd(b[..n]);
    if IsTerminator(b[k]) {
      w := DottedIsDetached(b, k);
    } else {
      w := 0;
      CutsAtTerminator(b[..k], b[k], b[k + 1]);
      BareIsOnlyMarker(Trim(b[..k]));
    }
  }

  lemma DottedIsDetached(b: string, k: nat) returns (w: nat)
    requires k + 1 < |b| && TerminatorCut(b[..k], b[k], b[k + 1]) && BareMarker(Trim(b[..k + 1]))
    ensures DetachedMarker(b, w, k + 1)
  {
    hide TerminatorCut, TrimStart, TrimEnd;
    var raw := b[..k + 1];
    assert IsTerminator(b[k]) by {
      CutsAtTerminator(b[..k], b[k], b[k + 1]);
    }
    w := TrimStartSplits(raw);
    var t := raw[w..];
    TrimEndKeeps(t, raw, w);
    var d := t[..|t| - 1];
    assert d == b[w..k] && raw[..w] == b[..w];
    assert b[..k] == b[..w] + d;
    SpacedMarkerCut(b[..w], d, b[k + 1]);
  }

  lemma CutsAtTerminator(p: string, c: char, next: char)
    ensures TerminatorCut(p, c, next) ==> IsTerminator(c)
  {
    hide ScanOf, AbbreviationOrDecimal, ListMarker;
  }

  lemma TrimEndKeeps(t: string, raw: string, w: nat)
    requires raw != "" && w <= |raw| && t == raw[w..] && IsTerminator(raw[|raw| - 1]) && Blank(raw[..w])
    ensures t != "" && TrimEnd(t) == t && t[|t| - 1] == raw[|raw| - 1]
  {
    assert w > 0 ==> IsWhitespace(raw[..w][w - 1]);
  }

  /**
   In the source's own sense, which trims Unicode white space, the k-th sentence of a push is only a marker exactly
   when a closer touches its dot, or the rules do not see the white space in front of it.
   */
  lemma BareMarkersExactly(s: string, k: nat)
    requires k < |Drain(s).done|
    ensures BareMarker(Trim(Drain(s).done[k].content)) <==> exists w, n :: DetachedMarker(BufferAt(s, k), w, n)
  {
    hide Drain, BufferAt, SentenceEnd, BareMarker, SentenceOf, DetachedMarker, Trim;
    SentenceFromBuffer(s, k);
    var b := BufferAt(s, k);
    if BareMarker(Trim(Drain(s).done[k].content)) {
      var w := BareSentenceIsDetached(b);
    }
    if w, n :| DetachedMarker(b, w, n) {
      DetachedMarkerEnds(b, w, n);
    }
  }

  /** For one: behind a no-break space a marker in front of a space is cut off on its own. */
  lemma NoBreakSpaceDetachesMarker()
    ensures SentenceEnd("\U{A0}1. ") == Some(3)
    ensures SentenceOf("\U{A0}1. ", 3).content == "\U{A0}1."
    ensures BareMarker(Trim("\U{A0}1."))
  {
    hide SentenceEnd, ByteLen, Trim;
    var s := "\U{A0}1. ";
    assert s[1..2] == "1" && s[..1] == "\U{A0}" && s[..3] == "\U{A0}1.";
    DetachedMarkerEnds(s, 1, 3);
    assert TrimEnd("\U{A0}1.") == "\U{A0}1.";
  }

  lemma PlainHoldsNoCut(s: string, i: nat)
    requires i < |s| && !IsTerminator(s[i]) && s[i] != '\n'
    ensures !CutAt(s, i)
  {
  }

  lemma ShoutCut(p: string)
    requires p == "A" || p == " B"
    ensures TerminatorCut(p, '!', ' ')
  {
    hide ListMarker, AbbreviationOrDecimal;
    assert p[..|p| - 1] == "" || p[..|p| - 1] == " ";
    assert ScanOf(" ") == Scan(false, 0, 0, 0) by {
      assert " "[..0] == "";
    }
    assert ScanOf(p) == Scan(false, 0, 0, 0);
  }

  /** A cut can show: the second push keeps the white space the single push skipped. */
  lemma CutCanShow()
    ensures CutShows("A! ", " B! ")
  {
    hide TerminatorCut, ParagraphCut, ByteLen;
    var a, b := "A! ", " B! ";
    assert a[..1] == "A" && b[..2] == " B";
    ShoutCut("A");
    ShoutCut(" B");
    PlainHoldsNoCut(a, 0);
    PlainHoldsNoCut(b, 0);
    PlainHoldsNoCut(b, 1);
    EndFromIsFirst(a, 0, 1);
    EndFromIsFirst(b, 0, 2);
    assert SpaceEnd(a, 2) == 3;
    assert a[3..] == "";
    DrainNothing();
    DrainStep(a);
  }
}
