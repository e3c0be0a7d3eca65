/**
 "Fragment boundaries carry no meaning": whatever way a text is cut into pushes, the segmenter says the same
 sentences, up to white space at the front of each.
 */
module ChunkIndependence {
  import opened Common
  import opened Text
  import opened SentenceRules
  import opened Segmenter

  function Contents(done: seq<CompletedSentence>): (r: seq<string>)
    ensures |r| == |done| && forall k :: 0 <= k < |r| ==> r[k] == done[k].content
  {
    seq(|done|, k requires 0 <= k < |done| => done[k].content)
  }

  /** Contents without leading ASCII white space. */
  function Stripped(done: seq<CompletedSentence>): (r: seq<string>)
    ensures |r| == |done| && forall k :: 0 <= k < |r| ==> r[k] == SkipSpace(done[k].content)
  {
    seq(|done|, k requires 0 <= k < |done| => SkipSpace(done[k].content))
  }

  /** Push every chunk in turn into a segmenter that holds `buf`. */
  function FeedAll(buf: string, chunks: seq<string>): Drained
    decreases |chunks|
  {
    if chunks == [] then Drained([], buf)
    else
      var d := Drain(buf + chunks[0]);
      var f := FeedAll(d.rest, chunks[1..]);
      Drained(d.done + f.done, f.rest)
  }

  /** A whole life: a fresh segmenter, the pushes, then the seal. */
  function Session(chunks: seq<string>): Drained {
    var f := FeedAll("", chunks);
    var e := Seal(f.rest);
    Drained(f.done + e.done, e.rest)
  }

  /** The segmenter object lives the session its specification describes. */
  method RunSession(chunks: seq<string>) returns (sentences: seq<CompletedSentence>, left: string)
    ensures Drained(sentences, left) == Session(chunks)
  {
    hide Drain, Seal;
    var segmenter := new SentenceSegmenter();
    sentences := [];
    var k := 0;
    while k < |chunks|
      invariant k <= |chunks|
      invariant sentences + FeedAll(segmenter.buf, chunks[k..]).done == FeedAll("", chunks).done
      invariant FeedAll(segmenter.buf, chunks[k..]).rest == FeedAll("", chunks).rest
    {
      var out := segmenter.Push(chunks[k]);
      assert chunks[k..][1..] == chunks[k + 1..];
      sentences := sentences + out;
      k := k + 1;
    }
    var out := segmenter.SealAtCleanEnd();
    sentences := sentences + out;
    left := segmenter.buf;
  }

  lemma StrippedConcat(s: seq<CompletedSentence>, t: seq<CompletedSentence>)
    ensures Stripped(s + t) == Stripped(s) + Stripped(t)
  {
  }

  lemma ContentsConcat(s: seq<CompletedSentence>, t: seq<CompletedSentence>)
    ensures Contents(s + t) == Contents(s) + Contents(t)
  {
  }

  // One cut.

  lemma {:induction false} SpaceEndShift(w: string, s: string, i: nat)
    requires i <= |s|
    ensures SpaceEnd(w + s, |w| + i) == |w| + SpaceEnd(s, i)
    decreases |s| - i
  {
    if i < |s| && IsAsciiWhitespace(s[i]) {
      SpaceEndShift(w, s, i + 1);
    }
  }

  /** Skipping stops inside `a`, or runs on through the front of `b`. */
  lemma {:induction false} SpaceEndExtend(a: string, b: string, i: nat)
    requires i <= |a|
    ensures var k := SpaceEnd(a, i);
            SpaceEnd(a + b, i) == if k < |a| then k else |a| + SpaceEnd(b, 0)
    decreases |a| - i
  {
    if i < |a| {
      if IsAsciiWhitespace(a[i]) {
        SpaceEndExtend(a, b, i + 1);
      }
    } else {
      SpaceEndShift(a, b, 0);
    }
  }

  lemma {:induction false} SpaceEndSkips(s: string, i: nat)
    requires i <= |s|
    ensures forall k :: i <= k < SpaceEnd(s, i) ==> IsAsciiWhitespace(s[k])
    decreases |s| - i
  {
    if i < |s| && IsAsciiWhitespace(s[i]) {
      SpaceEndSkips(s, i + 1);
    }
  }

  /** The sentence cut out of a buffer with white space in front is the same sentence with it in front. */
  lemma FirstSentenceShift(w: string, s: string, e: nat)
    requires AllAsciiWhitespace(w) && e <= |s| && TrimEnd(s[..e]) != ""
    ensures SentenceOf(w + s, |w| + e).content == w + SentenceOf(s, e).content
    ensures (w + s)[SpaceEnd(w + s, |w| + e)..] == s[SpaceEnd(s, e)..]
  {
    assert (w + s)[..|w| + e] == w + s[..e];
    TrimEndPrefix(w, s[..e]);
    SpaceEndShift(w, s, e);
  }

  lemma LeadingSpaceDrain(w: string, s: string)
    requires AllAsciiWhitespace(w)
    ensures Stripped(Drain(w + s).done) == Stripped(Drain(s).done)
    ensures SkipSpace(Drain(w + s).rest) == SkipSpace(Drain(s).rest)
  {
    hide SentenceEnd, SentenceOf;
    EndShifts(w, s);
    if SentenceEnd(s).Some? {
      var e := SentenceEnd(s).value;
      DrainStep(s);
      CompletedIsSolid(s);
      DrainStep(w + s);
      FirstSentenceShift(w, s, e);
      SkipSpaceAbsorbs(w, SentenceOf(s, e).content);
    } else {
      SkipSpaceAbsorbs(w, s);
    }
  }

  /** The first sentence of a longer buffer, and what is left after it. */
  lemma FirstSentenceExtend(a: string, b: string, e: nat)
    requires e <= |a|
    ensures SentenceOf(a + b, e).content == SentenceOf(a, e).content
    ensures var k := SpaceEnd(a, e);
            (a + b)[SpaceEnd(a + b, e)..] == if k < |a| then a[k..] + b else b[SpaceEnd(b, 0)..]
  {
    assert (a + b)[..e] == a[..e];
    SpaceEndExtend(a, b, e);
  }

  lemma DrainNothing()
    ensures Drain("") == Drained([], "")
  {
  }

  lemma SplitLeadingSpace(b: string) returns (w: string, s: string)
    ensures b == w + s && AllAsciiWhitespace(w) && s == b[SpaceEnd(b, 0)..]
    ensures |w| == SpaceEnd(b, 0)
  {
    SpaceEndSkips(b, 0);
    w, s := b[..SpaceEnd(b, 0)], b[SpaceEnd(b, 0)..];
  }

  /** Draining in two steps says what draining at once says. */
  lemma {:induction false} DrainSplit(a: string, b: string)
    ensures Stripped(Drain(a + b).done) == Stripped(Drain(a).done) + Stripped(Drain(Drain(a).rest + b).done)
    ensures SkipSpace(Drain(a + b).rest) == SkipSpace(Drain(Drain(a).rest + b).rest)
    decreases |a|
  {
    hide SentenceEnd, SentenceOf, SkipSpace, SpaceEnd, Drain, Stripped;
    if SentenceEnd(a).None? {
      DrainStop(a);
    } else {
      var e := SentenceEnd(a).value;
      var k := SpaceEnd(a, e);
      EndIsStable(a, b);
      DrainStep(a);
      DrainStep(a + b);
      FirstSentenceExtend(a, b, e);
      var left := (a + b)[SpaceEnd(a + b, e)..];
      StrippedConcat([SentenceOf(a, e)], Drain(a[k..]).done);
      StrippedConcat([SentenceOf(a + b, e)], Drain(left).done);
      assert Stripped([SentenceOf(a, e)]) == Stripped([SentenceOf(a + b, e)]);
      if k < |a| {
        DrainSplit(a[k..], b);
      } else {
        assert a[k..] == "";
        DrainNothing();
        assert "" + b == b;
        var w, s := SplitLeadingSpace(b);
        LeadingSpaceDrain(w, s);
      }
    }
  }

  // Whole sessions.

  lemma {:induction false} FeedAllIsDrain(buf: string, chunks: seq<string>)
    requires SentenceEnd(buf).None?
    ensures Stripped(FeedAll(buf, chunks).done) == Stripped(Drain(buf + Flatten(chunks)).done)
    ensures SkipSpace(FeedAll(buf, chunks).rest) == SkipSpace(Drain(buf + Flatten(chunks)).rest)
    decreases |chunks|
  {
    hide SentenceEnd, SkipSpace, Drain, Stripped;
    if chunks == [] {
      assert buf + Flatten(chunks) == buf;
      DrainStop(buf);
    } else {
      var c, rest := chunks[0], Flatten(chunks[1..]);
      var d := Drain(buf + c);
      DrainIsExhaustive(buf + c);
      FeedAllIsDrain(d.rest, chunks[1..]);
      DrainSplit(buf + c, rest);
      assert buf + Flatten(chunks) == (buf + c) + rest;
      StrippedConcat(d.done, FeedAll(d.rest, chunks[1..]).done);
    }
  }

  lemma {:induction false} FeedAllIsExhaustive(buf: string, chunks: seq<string>)
    requires SentenceEnd(buf).None?
    ensures SentenceEnd(FeedAll(buf, chunks).rest).None?
    decreases |chunks|
  {
    hide SentenceEnd;
    if chunks != [] {
      DrainIsExhaustive(buf + chunks[0]);
      FeedAllIsExhaustive(Drain(buf + chunks[0]).rest, chunks[1..]);
    }
  }

  lemma TrimOfSkipped(s: string)
    ensures Trim(SkipSpace(s)) == Trim(s)
  {
    var k := SkipSpaceSplits(s);
    assert s == s[..k] + s[k..];
    TrimAbsorbs(s[..k], s[k..]);
  }

  /** A seal looks only at the trimmed remainder. */
  lemma SealRestEquivalent(r1: string, r2: string)
    requires SkipSpace(r1) == SkipSpace(r2)
    ensures Contents(SealRest(r1).done) == Contents(SealRest(r2).done)
    ensures Stripped(SealRest(r1).done) == Stripped(SealRest(r2).done)
  {
    TrimOfSkipped(r1);
    TrimOfSkipped(r2);
  }

  lemma SealAfterFeed(chunks: seq<string>)
    ensures var f := FeedAll("", chunks);
            Session(chunks) == Drained(f.done + SealRest(f.rest).done, SealRest(f.rest).rest)
  {
    FeedAllIsExhaustive("", chunks);
    DrainStop(FeedAll("", chunks).rest);
  }

  /** Any two ways of cutting one text give the same sentences, once leading white space is stripped. */
  lemma ChunkingCarriesNoMeaning(c1: seq<string>, c2: seq<string>)
    requires Flatten(c1) == Flatten(c2)
    ensures Stripped(Session(c1).done) == Stripped(Session(c2).done)
  {
    hide Drain, FeedAll, SealRest, Session, SkipSpace;
    SealAfterFeed(c1);
    SealAfterFeed(c2);
    FeedAllIsDrain("", c1);
    FeedAllIsDrain("", c2);
    SealRestEquivalent(FeedAll("", c1).rest, FeedAll("", c2).rest);
  }

  // Leading white space is the only difference, and this is when there is one.

  /** A cut after `a` shows: `a` was used up by a sentence, `b` begins with white space and completes a sentence. */
  predicate CutShows(a: string, b: string) {
    && Drain(a).done != [] && Drain(a).rest == ""
    && b != "" && IsAsciiWhitespace(b[0])
    && SentenceEnd(b).Some?
  }

  lemma LeadingSpaceShows(w: string, s: string)
    requires AllAsciiWhitespace(w)
    ensures Contents(Drain(w + s).done) == Contents(Drain(s).done) <==> w == "" || SentenceEnd(w + s).None?
  {
    hide SentenceEnd, SentenceOf;
    EndShifts(w, s);
    if SentenceEnd(s).Some? {
      var e := SentenceEnd(s).value;
      DrainStep(s);
      CompletedIsSolid(s);
      DrainStep(w + s);
      FirstSentenceShift(w, s, e);
      if w == "" {
        assert w + s == s;
      } else {
        assert Contents(Drain(w + s).done)[0] == w + SentenceOf(s, e).content;
        assert Contents(Drain(s).done)[0] == SentenceOf(s, e).content;
      }
    }
  }

  lemma {:induction false} DrainSplitExact(a: string, b: string)
    ensures Contents(Drain(a + b).done) == Contents(Drain(a).done) + Contents(Drain(Drain(a).rest + b).done)
       <==> !CutShows(a, b)
    decreases |a|
  {
    hide SentenceEnd, SentenceOf, SpaceEnd, Drain, Contents;
    if SentenceEnd(a).Some? {
      var e := SentenceEnd(a).value;
      var k := SpaceEnd(a, e);
      EndIsStable(a, b);
      DrainStep(a);
      DrainStep(a + b);
      FirstSentenceExtend(a, b, e);
      var first := SentenceOf(a, e).content;
      ContentsConcat([SentenceOf(a, e)], Drain(a[k..]).done);
      ContentsConcat([SentenceOf(a + b, e)], Drain((a + b)[SpaceEnd(a + b, e)..]).done);
      assert Contents([SentenceOf(a, e)]) == [first] == Contents([SentenceOf(a + b, e)]);
      if k < |a| {
        DrainSplitExact(a[k..], b);
        if Drain(a[k..]).done == [] {
          RestWhenSilent(a[k..]);
        }
        SameHead(first, Contents(Drain(a[k..] + b).done),
                 Contents(Drain(a[k..]).done) + Contents(Drain(Drain(a).rest + b).done));
        assert Contents(Drain(a).done) + Contents(Drain(Drain(a).rest + b).done)
            == [first] + (Contents(Drain(a[k..]).done) + Contents(Drain(Drain(a).rest + b).done));
      } else {
        assert a[k..] == "";
        DrainNothing();
        assert "" + b == b;
        var w, s := SplitLeadingSpace(b);
        SpaceEndUnfold(b);
        LeadingSpaceShows(w, s);
        SameHead(first, Contents(Drain(s).done), Contents(Drain(b).done));
      }
    } else {
      DrainStop(a);
    }
  }

  lemma SameHead(x: string, s: seq<string>, t: seq<string>)
    ensures [x] + s == [x] + t <==> s == t
  {
    assert ([x] + s)[1..] == s && ([x] + t)[1..] == t;
  }

  lemma SpaceEndUnfold(b: string)
    ensures SpaceEnd(b, 0) > 0 <==> b != "" && IsAsciiWhitespace(b[0])
  {
  }

  lemma RestWhenSilent(s: string)
    ensures Drain(s).done == [] ==> Drain(s).rest == s
  {
  }

  lemma FeedPair(a: string, b: string)
    ensures FeedAll("", [a, b]).done == Drain(a).done + Drain(Drain(a).rest + b).done
    ensures FeedAll("", [a, b]).rest == Drain(Drain(a).rest + b).rest
  {
    hide Drain;
    assert "" + a == a;
    assert [a, b][1..] == [b];
    assert FeedAll(Drain(a).rest, [b]).rest == Drain(Drain(a).rest + b).rest;
  }

  lemma FeedOne(s: string)
    ensures FeedAll("", [s]) == Drain(s)
  {
    hide Drain;
    assert "" + s == s;
    assert [s][1..] == [];
  }

  lemma SameTail(s: seq<string>, t: seq<string>, x: seq<string>)
    ensures s + x == t + x <==> s == t
  {
    if s + x == t + x {
      assert (s + x)[..|s|] == s && (t + x)[..|t|] == t;
    }
  }

  /** Two pushes say exactly what one push says, except when the cut shows. */
  lemma CutIsInvisible(a: string, b: string)
    ensures Contents(Session([a, b]).done) == Contents(Session([a + b]).done) <==> !CutShows(a, b)
  {
    hide Drain, FeedAll, Session, SealRest, CutShows, SkipSpace;
    SealAfterFeed([a, b]);
    SealAfterFeed([a + b]);
    FeedPair(a, b);
    FeedOne(a + b);
    DrainSplit(a, b);
    DrainSplitExact(a, b);
    var two, one := FeedAll("", [a, b]), FeedAll("", [a + b]);
    SealRestEquivalent(two.rest, one.rest);
    var tail := Contents(SealRest(one.rest).done);
    assert Contents(Session([a, b]).done) == Contents(two.done) + tail;
    assert Contents(Session([a + b]).done) == Contents(one.done) + tail;
    assert Contents(two.done) == Contents(Drain(a).done) + Contents(Drain(Drain(a).rest + b).done);
    SameTail(Contents(two.done), Contents(one.done), tail);
  }
}
