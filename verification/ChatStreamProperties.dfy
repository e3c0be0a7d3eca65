/** What chunking, and a whole stream of tool deltas, cannot change. */
module ChatStreamProperties {
  import opened Common
  import opened Text
  import opened Utf8
  import opened ChatStream

  // Chunking.

  lemma {:induction false} FeedConcat(cfg: Config, st: Sse, a: seq<byte>, b: seq<byte>)
    ensures Feed(cfg, st, a + b) ==
            match Feed(cfg, st, a)
            case Handled(st', out) => After(out, Feed(cfg, st', b))
            case rejected => rejected
    decreases |a|
  {
    hide FeedByte;
    if a == [] {
      assert a + b == b;
      AfterNothing(Feed(cfg, st, b));
    } else {
      assert (a + b)[1..] == a[1..] + b;
      match FeedByte(cfg, st, a[0])
      case Handled(st', out) =>
        FeedConcat(cfg, st', a[1..], b);
        var f := Feed(cfg, st', a[1..]);
        if f.Handled? {
          AfterTwice(out, f.out, Feed(cfg, f.st, b));
        }
      case _ =>
    }
  }

  lemma ByteKeepsDone(cfg: Config, st: Sse, b: byte)
    requires st.done
    ensures FeedByte(cfg, st, b).st.done
  {
  }

  lemma {:induction false} FeedKeepsDone(cfg: Config, st: Sse, chunk: seq<byte>)
    requires st.done
    ensures Feed(cfg, st, chunk).st.done
    decreases |chunk|
  {
    hide FeedByte;
    if chunk != [] {
      ByteKeepsDone(cfg, st, chunk[0]);
      if FeedByte(cfg, st, chunk[0]).Handled? {
        FeedKeepsDone(cfg, FeedByte(cfg, st, chunk[0]).st, chunk[1..]);
      }
    }
  }

  lemma FeedOne(cfg: Config, st: Sse, b: byte)
    ensures Feed(cfg, st, [b]) == FeedByte(cfg, st, b)
  {
    hide FeedByte;
    assert [b][1..] == [];
    var f := FeedByte(cfg, st, b);
    if f.Handled? {
      assert f.out + [] == f.out;
    }
  }

  lemma PushOne(cfg: Config, st: Sse, a: seq<byte>)
    ensures PushAll(cfg, st, [a]) == ObservedOf(Pushed(cfg, st, a))
  {
    hide Pushed;
    assert [a][1..] == [];
    var p := Pushed(cfg, st, a);
    if p.Handled? {
      assert p.out + [] == p.out;
    }
  }

  lemma PushTwo(cfg: Config, st: Sse, a: seq<byte>, b: seq<byte>)
    ensures PushAll(cfg, st, [a, b]) ==
            match Pushed(cfg, st, a)
            case Handled(st', out) => Deliver(out, ObservedOf(Pushed(cfg, st', b)))
            case rejected => ObservedOf(rejected)
  {
    hide Pushed;
    assert [a, b][1..] == [b];
    if Pushed(cfg, st, a).Handled? {
      PushOne(cfg, Pushed(cfg, st, a).st, b);
    }
  }

  /** One push of `a + b` and two pushes look the same to the caller. */
  predicate SameObservation(cfg: Config, st: Sse, a: seq<byte>, b: seq<byte>) {
    PushAll(cfg, st, [a + b]) == PushAll(cfg, st, [a, b])
  }

  /**
   A cut before `[DONE]` changes neither state nor error.  It changes the fragments handed over exactly when the
   first piece yields some and the second is rejected: one push loses with the error what two have delivered.
   */
  lemma CutBeforeDone(cfg: Config, st: Sse, a: seq<byte>, b: seq<byte>)
    requires !st.done && Pushed(cfg, st, a).Handled? && !Pushed(cfg, st, a).st.done
    ensures var one, two := PushAll(cfg, st, [a + b]), PushAll(cfg, st, [a, b]);
            one.st == two.st && one.error == two.error
    ensures var first := Pushed(cfg, st, a);
            SameObservation(cfg, st, a, b) <==> first.out == [] || Pushed(cfg, first.st, b).Handled?
  {
    hide Feed;
    PushOne(cfg, st, a + b);
    PushTwo(cfg, st, a, b);
    FeedConcat(cfg, st, a, b);
    var first := Pushed(cfg, st, a);
    var second := Pushed(cfg, first.st, b);
    if second.Rejected? && first.out != [] {
      assert first.out + [] != [];
    }
  }

  /** A piece that is rejected is rejected in any longer push as well. */
  lemma RejectedCut(cfg: Config, st: Sse, a: seq<byte>, b: seq<byte>)
    requires Pushed(cfg, st, a).Rejected?
    ensures SameObservation(cfg, st, a, b)
  {
    hide Feed;
    PushOne(cfg, st, a + b);
    PushTwo(cfg, st, a, b);
    FeedConcat(cfg, st, a, b);
  }

  /** A byte pushed after `[DONE]` in its own chunk is ignored, in the chunk of `[DONE]` it is not. */
  lemma CutAfterDoneShows(cfg: Config, st: Sse, a: seq<byte>)
    requires !st.done && Pushed(cfg, st, a).Handled? && Pushed(cfg, st, a).st.done
    ensures !SameObservation(cfg, st, a, [0x78])
  {
    PushOne(cfg, st, a + [0x78]);
    PushTwo(cfg, st, a, [0x78]);
    FeedConcat(cfg, st, a, [0x78]);
    FeedOne(cfg, Pushed(cfg, st, a).st, 0x78);
  }

  function Filler(n: nat): (r: seq<byte>)
    ensures |r| == n && forall k :: 0 <= k < n ==> r[k] == 0x78
  {
    seq(n, _ => 0x78)
  }

  /** A line longer than the cap is rejected from any state. */
  lemma {:induction false} LongLineIsRejected(cfg: Config, st: Sse, n: nat)
    requires n > 0 && |st.carry| + n > cfg.maxLine
    ensures Feed(cfg, st, Filler(n)).Rejected?
    decreases n
  {
    if |st.carry| < cfg.maxLine {
      assert Filler(n)[1..] == Filler(n - 1);
      LongLineIsRejected(cfg, st.(carry := st.carry + [0x78]), n - 1);
    }
  }

  /** A cut is invisible to every continuation exactly when it follows neither `[DONE]` nor a fragment. */
  lemma CutIsInvisible(cfg: Config, st: Sse, a: seq<byte>)
    requires !st.done
    ensures var first := Pushed(cfg, st, a);
            (forall b :: SameObservation(cfg, st, a, b)) <==> first.Rejected? || (!first.st.done && first.out == [])
  {
    hide Pushed, SameObservation, Feed;
    var first := Pushed(cfg, st, a);
    if first.Rejected? {
      forall b ensures SameObservation(cfg, st, a, b) {
        RejectedCut(cfg, st, a, b);
      }
    } else if first.st.done {
      CutAfterDoneShows(cfg, st, a);
    } else if first.out == [] {
      forall b ensures SameObservation(cfg, st, a, b) {
        CutBeforeDone(cfg, st, a, b);
      }
    } else {
      var b := Filler(cfg.maxLine + 1);
      LongPushIsRejected(cfg, first.st);
      CutBeforeDone(cfg, st, a, b);
    }
  }

  lemma LongPushIsRejected(cfg: Config, st: Sse)
    requires !st.done
    ensures Pushed(cfg, st, Filler(cfg.maxLine + 1)).Rejected?
  {
    LongLineIsRejected(cfg, st, cfg.maxLine + 1);
  }

  // A cut that shows, byte for byte.

  lemma {:induction false} PlainBytesAreCarried(cfg: Config, st: Sse, t: seq<byte>)
    requires LF !in t && |st.carry| + |t| <= cfg.maxLine
    ensures Feed(cfg, st, t) == Handled(st.(carry := st.carry + t), [])
    decreases |t|
  {
    hide FeedByte;
    if t == [] {
      assert st.carry + t == st.carry;
    } else {
      PlainByteIsCarried(cfg, st, t[0]);
      PlainBytesAreCarried(cfg, st.(carry := st.carry + [t[0]]), t[1..]);
      assert st.carry + [t[0]] + t[1..] == st.carry + t;
    }
  }

  lemma PlainByteIsCarried(cfg: Config, st: Sse, b: byte)
    requires b != LF && |st.carry| < cfg.maxLine
    ensures FeedByte(cfg, st, b) == Handled(st.(carry := st.carry + [b]), [])
  {
    hide HandleLine;
  }

  const DEMO: Config := Config(64, 64, 64, _ => Some([Choice(Some(0), Some("hi"), [], None)]), _ => true, _ => [])

  /** A line and the blank line that dispatches it. */
  function EventOf(line: string): seq<byte> { EncodeAll(line) + [LF, LF] }

  /** One event, whose payload says "hi". */
  const EVENT: seq<byte> := EventOf("data:x")

  const MARKER: seq<byte> := EventOf("data: [DONE]")

  /** A line that is not UTF-8. */
  const BROKEN: seq<byte> := [0xFF, LF]

  lemma EncodedDecodes(s: string)
    ensures SplitValid(EncodeAll(s)) == Split(s, [])
  {
    hide SplitValid, EncodeAll;
    var split := SplitValid(EncodeAll(s));
    SplitIsLongest(EncodeAll(s), s);
    SplitConserves(EncodeAll(s));
    EncodedLength(s);
    var more := split.text[|s|..];
    assert split.text == s + more;
    ByteLenConcat(s, more);
    if more != "" {
      NotEmptyHasBytes(more);
    }
  }

  lemma NotEmptyHasBytes(s: string)
    requires s != ""
    ensures ByteLen(s) > 0
  {
  }

  /** An ASCII byte comes only from its own character. */
  lemma {:induction false} EncodedHolds(s: string, c: char)
    requires c !in s && c as int < 0x80
    ensures c as int !in EncodeAll(s)
  {
    if s != "" {
      EncodedHolds(s[1..], c);
      assert s[0] != c;
      assert c as int !in Encode(s[0]);
    }
  }

  lemma {:induction false} EncodedLast(s: string)
    requires s != "" && s[|s| - 1] as int != CR
    ensures EncodeAll(s) != [] && EncodeAll(s)[|EncodeAll(s)| - 1] != CR
  {
    if |s| > 1 {
      EncodedLast(s[1..]);
    }
  }

  /** A data line on its own, within the bound, is an event of one line. */
  lemma EventIsDispatched(cfg: Config, st: Sse, line: string)
    requires line != "" && '\n' !in line && line[|line| - 1] != '\r' && ByteLen(line) <= cfg.maxLine
    requires Payload(line).Some? && st.carry == [] && st.lines == []
    ensures Feed(cfg, st, EventOf(line)) == Dispatch(cfg, st.(lines := [Payload(line).value]))
  {
    hide SplitValid, Feed, Dispatch, Payload, EncodeAll, ByteLen;
    var t := EncodeAll(line);
    EncodedHolds(line, '\n');
    EncodedDecodes(line);
    EncodedLast(line);
    EncodedLength(line);
    PlainBytesAreCarried(cfg, st, t);
    assert [] + t == t;
    var s1, s2 := st.(carry := t), st.(lines := [Payload(line).value]);
    assert FeedByte(cfg, s1, LF) == Handled(s2, []) by {
      assert [] + [Payload(line).value] == [Payload(line).value];
    }
    assert FeedByte(cfg, s2, LF) == Dispatch(cfg, s2);
    assert EventOf(line) == t + ([LF] + [LF]);
    FeedConcat(cfg, st, t, [LF] + [LF]);
    FeedConcat(cfg, s1, [LF], [LF]);
    FeedOne(cfg, s1, LF);
    FeedOne(cfg, s2, LF);
    AfterNothing(Dispatch(cfg, s2));
  }

  lemma EventSaysHi(st: Sse)
    requires st.carry == [] && st.lines == [] && st.tools == map[]
    ensures var o := Feed(DEMO, st, EVENT); o.Handled? && o.out == [TextDelta("hi")] && o.st.done == st.done
    ensures Feed(DEMO, st, EVENT).st.carry == []
  {
    hide Feed, EventOf;
    assert "data:x"[5..] == "x";
    ScalarsAreShort("data:x");
    EventIsDispatched(DEMO, st, "data:x");
    HiEvent(st.(lines := ["x"]));
  }

  lemma HiEvent(st: Sse)
    requires st.carry == [] && st.lines == ["x"] && st.tools == map[]
    ensures var o := Dispatch(DEMO, st);
            o.Handled? && o.out == [TextDelta("hi")] && o.st.done == st.done && o.st.carry == []
  {
    assert Join(["x"]) == "x" && Trim("x") == "x";
    assert ByteLen("x") == 1 by {
      assert "x"[..0] == "";
    }
    var ops := EventOps([Choice(Some(0), Some("hi"), [], None)]);
    assert [Choice(Some(0), Some("hi"), [], None)][1..] == [];
    assert ops == [Say("hi")];
    assert ops[1..] == [];
    assert PerformAll(DEMO, map[], ops) == Assembled(map[], [TextDelta("hi")]);
  }

  lemma MarkerEnds()
    ensures Feed(DEMO, START, MARKER) == Handled(START.(done := true), [])
  {
    hide Feed, Dispatch, Payload, EventOf;
    MarkerPayload();
    ScalarsAreShort("data: [DONE]");
    EventIsDispatched(DEMO, START, "data: [DONE]");
    MarkerIsDone(START.(lines := ["[DONE]"]));
  }

  lemma MarkerPayload()
    ensures Payload("data: [DONE]") == Some("[DONE]")
  {
    assert "data: [DONE]"[5..] == " [DONE]" && " [DONE]"[1..] == "[DONE]";
  }

  lemma MarkerIsDone(st: Sse)
    requires st.lines == ["[DONE]"]
    ensures Dispatch(DEMO, st) == Handled(st.(lines := [], done := true), [])
  {
    hide ByteLen, PerformAll, EventOps;
    assert Join(["[DONE]"]) == "[DONE]" && Trim("[DONE]") == "[DONE]";
    ScalarsAreShort("[DONE]");
  }

  lemma {:induction false} ScalarsAreShort(s: string)
    ensures ByteLen(s) <= 4 * |s|
  {
    if s != "" {
      ScalarsAreShort(s[..|s| - 1]);
    }
  }

  lemma BrokenLine(st: Sse)
    requires st.carry == []
    ensures Feed(DEMO, st, BROKEN).Rejected?
  {
    var st' := st.(carry := [0xFF]);
    assert BROKEN[1..] == [LF] && [] + [0xFF] == [0xFF];
    assert DecodeOne([0xFF]) == None;
    assert FeedByte(DEMO, st', LF).Rejected?;
    FeedOne(DEMO, st', LF);
  }

  /** Cut in front of a broken line, the event is delivered; uncut, it is lost with the error. */
  lemma CutBeforeErrorShows()
    ensures PushAll(DEMO, START, [EVENT, BROKEN]).delivered == [TextDelta("hi")]
    ensures PushAll(DEMO, START, [EVENT + BROKEN]).delivered == []
    ensures PushAll(DEMO, START, [EVENT + BROKEN]).error == PushAll(DEMO, START, [EVENT, BROKEN]).error
  {
    hide Feed, EventOf;
    EventSaysHi(START);
    BrokenLine(Feed(DEMO, START, EVENT).st);
    PushOne(DEMO, START, EVENT + BROKEN);
    PushTwo(DEMO, START, EVENT, BROKEN);
    FeedConcat(DEMO, START, EVENT, BROKEN);
  }

  /** An event after the marker is ignored in a chunk of its own and delivered in the chunk of the marker. */
  lemma CutAfterMarkerShows()
    ensures PushAll(DEMO, START, [MARKER, EVENT]).delivered == []
    ensures PushAll(DEMO, START, [MARKER + EVENT]).delivered == [TextDelta("hi")]
  {
    hide Feed, EventOf;
    MarkerEnds();
    EventSaysHi(START.(done := true));
    PushOne(DEMO, START, MARKER + EVENT);
    PushTwo(DEMO, START, MARKER, EVENT);
    FeedConcat(DEMO, START, MARKER, EVENT);
  }

  // Whole streams.

  /** The whole bytes of the first `n` chunks, fed at once. */
  function FedThrough(cfg: Config, st: Sse, chunks: seq<seq<byte>>, n: nat): Outcome
    requires n <= |chunks|
  {
    Feed(cfg, st, Flatten(chunks[..n]))
  }

  lemma FedThroughNext(cfg: Config, st: Sse, chunks: seq<seq<byte>>, n: nat)
    requires 0 < n <= |chunks|
    ensures FedThrough(cfg, st, chunks, n) ==
            match Feed(cfg, st, chunks[0])
            case Handled(st', out) => After(out, FedThrough(cfg, st', chunks[1..], n - 1))
            case rejected => rejected
  {
    hide Feed;
    assert chunks[..n][0] == chunks[0] && chunks[..n][1..] == chunks[1..][..n - 1];
    FeedConcat(cfg, st, chunks[0], Flatten(chunks[1..][..n - 1]));
  }

  /** What a row of pushes delivers when chunk `n` fails or reaches `[DONE]`: nothing later is processed. */
  lemma {:induction false} StopsAtChunk(cfg: Config, st: Sse, chunks: seq<seq<byte>>, n: nat)
    requires !st.done && n < |chunks|
    requires FedThrough(cfg, st, chunks, n).Handled? && !FedThrough(cfg, st, chunks, n).st.done
    ensures var before, upto := FedThrough(cfg, st, chunks, n), FedThrough(cfg, st, chunks, n + 1);
            && (upto.Rejected? ==> PushAll(cfg, st, chunks) == Observed(before.out, upto.st, Some(upto.error)))
            && (upto.Handled? && upto.st.done ==> PushAll(cfg, st, chunks) == Observed(upto.out, upto.st, None))
    decreases n
  {
    hide Feed, FedThrough;
    FedThroughNext(cfg, st, chunks, n + 1);
    if n == 0 {
      FedThroughNothing(cfg, st, chunks);
      StopsAtFirst(cfg, st, chunks);
    } else {
      FedThroughNext(cfg, st, chunks, n);
      var first := Feed(cfg, st, chunks[0]);
      DoneStays(cfg, first.st, chunks[1..], n - 1);
      StopsAtChunk(cfg, first.st, chunks[1..], n - 1);
    }
  }

  lemma FedThroughNothing(cfg: Config, st: Sse, chunks: seq<seq<byte>>)
    ensures FedThrough(cfg, st, chunks, 0) == Handled(st, [])
  {
  }

  lemma DoneStays(cfg: Config, st: Sse, chunks: seq<seq<byte>>, n: nat)
    requires n <= |chunks|
    ensures st.done ==> FedThrough(cfg, st, chunks, n).st.done
  {
    if st.done {
      FeedKeepsDone(cfg, st, Flatten(chunks[..n]));
    }
  }

  lemma {:induction false} DonePushesNothing(cfg: Config, st: Sse, chunks: seq<seq<byte>>)
    requires st.done
    ensures PushAll(cfg, st, chunks) == Observed([], st, None)
    decreases |chunks|
  {
    if chunks != [] {
      DonePushesNothing(cfg, st, chunks[1..]);
      DeliverNothing(Observed([], st, None));
    }
  }

  lemma FlattenOne(chunks: seq<seq<byte>>)
    requires chunks != []
    ensures Flatten(chunks[..1]) == chunks[0]
  {
    var nothing: seq<seq<byte>> := chunks[..1][1..];
    assert Flatten(nothing) == [];
    assert chunks[0] + Flatten(nothing) == chunks[0];
  }

  lemma StopsAtFirst(cfg: Config, st: Sse, chunks: seq<seq<byte>>)
    requires !st.done && chunks != []
    ensures var first, upto := Feed(cfg, st, chunks[0]), FedThrough(cfg, st, chunks, 1);
            && upto == first
            && (first.Rejected? ==> PushAll(cfg, st, chunks) == Observed([], first.st, Some(first.error)))
            && (first.Handled? && first.st.done ==> PushAll(cfg, st, chunks) == Observed(first.out, first.st, None))
  {
    hide Feed;
    var first := Feed(cfg, st, chunks[0]);
    FlattenOne(chunks);
    if first.Handled? && first.st.done {
      DonePushesNothing(cfg, first.st, chunks[1..]);
      assert first.out + [] == first.out;
    }
  }

  /** Nothing is delivered by the chunks before the one at which the error comes. */
  ghost predicate SilentBeforeError(cfg: Config, st: Sse, chunks: seq<seq<byte>>) {
    exists n ::
      && 0 <= n < |chunks|
      && FedThrough(cfg, st, chunks, n).Handled? && FedThrough(cfg, st, chunks, n).out == []
      && FedThrough(cfg, st, chunks, n + 1).Rejected?
  }

  /** Nothing follows the end marker: no proper part of the stream reaches it, the whole stream may. */
  ghost predicate NothingAfterDone(cfg: Config, st: Sse, stream: seq<byte>) {
    forall p :: p < stream ==> !Feed(cfg, st, p).st.done
  }

  /**
   A stream with nothing after its end marker ends in the same state with the same error however it is cut.
   Accepted, it also delivers the same fragments; rejected, a row of pushes looks like one push exactly when the
   chunks before the failing one yield nothing.
   */
  lemma ChunkedAgainstWhole(cfg: Config, st: Sse, chunks: seq<seq<byte>>)
    requires !st.done && NothingAfterDone(cfg, st, Flatten(chunks))
    ensures var whole, many := Feed(cfg, st, Flatten(chunks)), PushAll(cfg, st, chunks);
            && many.st == whole.st && many.error == ObservedOf(whole).error
            && (many == ObservedOf(whole) <==> whole.Handled? || SilentBeforeError(cfg, st, chunks))
  {
    hide Feed, PushAll, FedThrough, NothingAfterDone;
    PushAllIsFeed(cfg, st, chunks);
    if Feed(cfg, st, Flatten(chunks)).Rejected? {
      var n := FailingChunk(cfg, st, chunks);
      NotDoneBefore(cfg, st, chunks, n);
      StopsAtChunk(cfg, st, chunks, n);
      if SilentBeforeError(cfg, st, chunks) {
        var k :| 0 <= k < |chunks| && FedThrough(cfg, st, chunks, k).Handled?
                 && FedThrough(cfg, st, chunks, k).out == []
                 && FedThrough(cfg, st, chunks, k + 1).Rejected?;
        NotDoneBefore(cfg, st, chunks, k);
        StopsAtChunk(cfg, st, chunks, k);
      }
    }
  }

  /** The chunk in which a rejected stream fails. */
  lemma {:induction false} FailingChunk(cfg: Config, st: Sse, chunks: seq<seq<byte>>) returns (n: nat)
    requires Feed(cfg, st, Flatten(chunks)).Rejected?
    ensures n < |chunks| && FedThrough(cfg, st, chunks, n).Handled? && FedThrough(cfg, st, chunks, n + 1).Rejected?
    decreases |chunks|
  {
    hide Feed, FedThrough;
    if chunks == [] {
      FeedNothing(cfg, st, []);
    }
    var first := Feed(cfg, st, chunks[0]);
    FedThroughNothing(cfg, st, chunks);
    FedThroughNext(cfg, st, chunks, 1);
    if first.Rejected? {
      n := 0;
    } else {
      FeedConcat(cfg, st, chunks[0], Flatten(chunks[1..]));
      var k := FailingChunk(cfg, first.st, chunks[1..]);
      n := k + 1;
      FedThroughNext(cfg, st, chunks, n);
      FedThroughNext(cfg, st, chunks, n + 1);
    }
  }

  /** In a rejected stream the accepted chunks are a proper part, so they do not reach the marker. */
  lemma NotDoneBefore(cfg: Config, st: Sse, chunks: seq<seq<byte>>, n: nat)
    requires n <= |chunks| && NothingAfterDone(cfg, st, Flatten(chunks)) && Feed(cfg, st, Flatten(chunks)).Rejected?
    requires FedThrough(cfg, st, chunks, n).Handled?
    ensures !FedThrough(cfg, st, chunks, n).st.done
  {
    hide Feed;
    var head, tail := Flatten(chunks[..n]), Flatten(chunks[n..]);
    FlattenSplit(chunks, n);
    assert tail == [] ==> head + tail == head;
    assert head < head + tail;
  }

  lemma MarkerStaysLast(cfg: Config, st: Sse, a: seq<byte>, b: seq<byte>)
    requires NothingAfterDone(cfg, st, a + b) && b != [] && Feed(cfg, st, a).Handled?
    ensures !Feed(cfg, st, a).st.done && NothingAfterDone(cfg, Feed(cfg, st, a).st, b)
  {
    hide Feed;
    assert a < a + b;
    forall p | p < b
      ensures !Feed(cfg, Feed(cfg, st, a).st, p).st.done
    {
      assert a + p < a + b;
      FeedConcat(cfg, st, a, p);
    }
  }

  lemma {:induction false} EmptyPushesDoNothing(cfg: Config, st: Sse, chunks: seq<seq<byte>>)
    requires Flatten(chunks) == []
    ensures PushAll(cfg, st, chunks) == Observed([], st, None)
    decreases |chunks|
  {
    if chunks != [] {
      EmptyPushesDoNothing(cfg, st, chunks[1..]);
      DeliverNothing(Observed([], st, None));
    }
  }

  /** Chunk by chunk, with nothing after the marker: same state and error, and the same fragments if accepted. */
  lemma {:induction false} PushAllIsFeed(cfg: Config, st: Sse, chunks: seq<seq<byte>>)
    requires !st.done && NothingAfterDone(cfg, st, Flatten(chunks))
    ensures var whole, many := Feed(cfg, st, Flatten(chunks)), PushAll(cfg, st, chunks);
            && many.st == whole.st && many.error == ObservedOf(whole).error
            && (whole.Handled? ==> many == ObservedOf(whole))
    decreases |chunks|
  {
    hide FeedByte, Feed, NothingAfterDone;
    if chunks == [] {
      FeedNothing(cfg, st, []);
    } else {
      var a, b := chunks[0], Flatten(chunks[1..]);
      FeedConcat(cfg, st, a, b);
      if Feed(cfg, st, a).Handled? {
        var first := Feed(cfg, st, a);
        if b == [] {
          EmptyPushesDoNothing(cfg, first.st, chunks[1..]);
          FeedNothing(cfg, first.st, []);
          assert first.out + [] == first.out;
        } else {
          MarkerStaysLast(cfg, st, a, b);
          PushAllIsFeed(cfg, first.st, chunks[1..]);
        }
      }
    }
  }

  /**
   Two chunkings of a stream with nothing after its end marker, complete or not: same state, same error, and if
   accepted the same fragments.
   */
  lemma SseChunkingCarriesNoMeaning(cfg: Config, c1: seq<seq<byte>>, c2: seq<seq<byte>>)
    requires Flatten(c1) == Flatten(c2) && NothingAfterDone(cfg, START, Flatten(c1))
    ensures var p1, p2 := PushAll(cfg, START, c1), PushAll(cfg, START, c2);
            && p1.st == p2.st && p1.error == p2.error
            && (p1.error.None? ==> p1 == p2)
  {
    hide Feed, PushAll, NothingAfterDone;
    PushAllIsFeed(cfg, START, c1);
    PushAllIsFeed(cfg, START, c2);
  }

  // The tools and fragments of a run are those of its operations, performed in order.

  lemma {:induction false} PerformConcat(cfg: Config, tools: map<nat, Partial>, s: seq<Op>, t: seq<Op>)
    ensures PerformAll(cfg, tools, s + t) ==
            match PerformAll(cfg, tools, s)
            case Assembled(tools', out) => Prefixed(out, PerformAll(cfg, tools', t))
            case refused => refused
    decreases |s|
  {
    hide Perform;
    if s == [] {
      assert s + t == t;
      PrefixedNothing(PerformAll(cfg, tools, t));
    } else {
      assert (s + t)[1..] == s[1..] + t;
      match Perform(cfg, tools, s[0])
      case Assembled(tools', out) =>
        PerformConcat(cfg, tools', s[1..], t);
        var a := PerformAll(cfg, tools', s[1..]);
        if a.Assembled? {
          PrefixedTwice(out, a.out, PerformAll(cfg, a.tools, t));
        }
      case _ =>
    }
  }

  lemma {:induction false} EventOpsConcat(s: seq<Choice>, t: seq<Choice>)
    ensures EventOps(s + t) == EventOps(s) + EventOps(t)
    decreases |s|
  {
    hide ChoiceOps;
    if s == [] {
      assert s + t == t;
    } else {
      assert (s + t)[1..] == s[1..] + t;
      EventOpsConcat(s[1..], t);
    }
  }

  /** `said` is everything out so far; it and the tools are what the operations heard perform. */
  predicate Faithful(cfg: Config, st: Sse, said: seq<Fragment>) {
    PerformAll(cfg, map[], EventOps(st.heard)) == Assembled(st.tools, said)
  }

  lemma DispatchIsFaithful(cfg: Config, st: Sse, said: seq<Fragment>)
    requires Faithful(cfg, st, said) && Dispatch(cfg, st).Handled?
    ensures Faithful(cfg, Dispatch(cfg, st).st, said + Dispatch(cfg, st).out)
  {
    hide ByteLen, Trim, PerformAll, Join, EventOps;
    var data := Join(st.lines);
    if Trim(data) == "[DONE]" {
      assert said + [] == said;
    } else {
      EventOpsConcat(st.heard, cfg.parse(data).value);
      PerformConcat(cfg, map[], EventOps(st.heard), EventOps(cfg.parse(data).value));
    }
  }

  lemma ByteIsFaithful(cfg: Config, st: Sse, said: seq<Fragment>, b: byte)
    requires Faithful(cfg, st, said) && FeedByte(cfg, st, b).Handled?
    ensures Faithful(cfg, FeedByte(cfg, st, b).st, said + FeedByte(cfg, st, b).out)
  {
    hide Dispatch, SplitValid, Payload, PerformAll, EventOps;
    assert said + [] == said;
    var st0 := st.(carry := []);
    if b == LF && WithoutCr(st.carry) == [] && st0.lines != [] {
      assert Faithful(cfg, st0, said);
      DispatchIsFaithful(cfg, st0, said);
    }
  }

  lemma {:induction false} FeedIsFaithful(cfg: Config, st: Sse, said: seq<Fragment>, chunk: seq<byte>)
    requires Faithful(cfg, st, said) && Feed(cfg, st, chunk).Handled?
    ensures Faithful(cfg, Feed(cfg, st, chunk).st, said + Feed(cfg, st, chunk).out)
    decreases |chunk|
  {
    hide FeedByte, Faithful;
    if chunk == [] {
      assert said + [] == said;
    } else {
      var f := FeedByte(cfg, st, chunk[0]);
      ByteIsFaithful(cfg, st, said, chunk[0]);
      FeedIsFaithful(cfg, f.st, said + f.out, chunk[1..]);
      var g := Feed(cfg, f.st, chunk[1..]);
      assert (said + f.out) + g.out == said + (f.out + g.out);
    }
  }

  /** The state after the last push that succeeded. */
  function Accepted(cfg: Config, st: Sse, chunks: seq<seq<byte>>): Sse
    decreases |chunks|
  {
    if chunks == [] then st
    else
      match Pushed(cfg, st, chunks[0])
      case Handled(st', _) => Accepted(cfg, st', chunks[1..])
      case _ => st
  }

  lemma {:induction false} AcceptedIsLast(cfg: Config, st: Sse, chunks: seq<seq<byte>>)
    ensures PushAll(cfg, st, chunks).error.None? ==> Accepted(cfg, st, chunks) == PushAll(cfg, st, chunks).st
    decreases |chunks|
  {
    hide Pushed;
    if chunks != [] && Pushed(cfg, st, chunks[0]).Handled? {
      AcceptedIsLast(cfg, Pushed(cfg, st, chunks[0]).st, chunks[1..]);
    }
  }

  /** What was delivered is what the accepted operations perform, also when a later push fails. */
  lemma {:induction false} PushAllIsFaithful(cfg: Config, st: Sse, said: seq<Fragment>, chunks: seq<seq<byte>>)
    requires Faithful(cfg, st, said)
    ensures Faithful(cfg, Accepted(cfg, st, chunks), said + PushAll(cfg, st, chunks).delivered)
    decreases |chunks|
  {
    hide Feed, Faithful;
    assert said + [] == said;
    if chunks != [] && Pushed(cfg, st, chunks[0]).Handled? {
      var f := Pushed(cfg, st, chunks[0]);
      if !st.done {
        FeedIsFaithful(cfg, st, said, chunks[0]);
      }
      PushAllIsFaithful(cfg, f.st, said + f.out, chunks[1..]);
      var g := PushAll(cfg, f.st, chunks[1..]);
      assert (said + f.out) + g.delivered == said + (f.out + g.delivered);
    }
  }

  // What a log says about one tool index.

  predicate Touches(op: Op, k: nat) { op.Delta? && op.index == k }

  predicate Seen(log: seq<Op>, k: nat) { exists j :: 0 <= j < |log| && Touches(log[j], k) }

  /** In-order concatenation of the argument fragments of index `k`. */
  function ArgsOf(log: seq<Op>, k: nat): string {
    if log == [] then ""
    else
      var op := log[|log| - 1];
      ArgsOf(log[..|log| - 1], k) + if Touches(op, k) && op.args.Some? then op.args.value else ""
  }

  function NameOf(log: seq<Op>, k: nat): string {
    if log == [] then ""
    else
      var op := log[|log| - 1];
      NameOf(log[..|log| - 1], k) + if Touches(op, k) && op.name.Some? then op.name.value else ""
  }

  /** The last non-empty id. */
  function IdOf(log: seq<Op>, k: nat): string {
    if log == [] then ""
    else
      var op := log[|log| - 1];
      if Touches(op, k) && op.id.Some? && op.id.value != "" then op.id.value else IdOf(log[..|log| - 1], k)
  }

  /** A `tool_calls` finish came when index `k` was already known. */
  predicate Finished(log: seq<Op>, k: nat) {
    exists j :: 0 <= j < |log| && log[j] == Finish("tool_calls") && Seen(log[..j], k)
  }

  function ReadyCount(out: seq<Fragment>, k: nat): nat {
    if out == [] then 0
    else (if out[0].Ready? && out[0].index == k then 1 else 0) + ReadyCount(out[1..], k)
  }

  lemma {:induction false} ReadyCountConcat(s: seq<Fragment>, t: seq<Fragment>, k: nat)
    ensures ReadyCount(s + t, k) == ReadyCount(s, k) + ReadyCount(t, k)
  {
    if s == [] {
      assert s + t == t;
    } else {
      assert (s + t)[1..] == s[1..] + t;
      ReadyCountConcat(s[1..], t, k);
    }
  }

  /** A ready fragment is what the log holds when its finish arrives. */
  predicate Justified(cfg: Config, log: seq<Op>, f: Fragment) {
    f.Ready? ==>
      exists n :: 0 <= n < |log| && log[n] == Finish("tool_calls") && JustifiedBy(cfg, log[..n], f)
  }

  predicate JustifiedBy(cfg: Config, log: seq<Op>, f: Fragment)
    requires f.Ready?
  {
    && Seen(log, f.index) && !Finished(log, f.index)
    && f.id == IdOf(log, f.index) != "" && f.name == NameOf(log, f.index) != ""
    && f.arguments == ArgsOf(log, f.index)
    && cfg.complete(f.arguments) && ByteLen(f.arguments) <= cfg.maxArgs
  }

  /** The entry of index `k` is a function of the log. */
  predicate EntryFollows(cfg: Config, log: seq<Op>, tools: map<nat, Partial>, k: nat) {
    && (k in tools <==> Seen(log, k))
    && (k in tools ==>
          && tools[k].arguments == ArgsOf(log, k) && ByteLen(tools[k].arguments) <= cfg.maxArgs
          && tools[k].name == NameOf(log, k)
          && tools[k].id == IdOf(log, k)
          && (tools[k].ready <==> Finished(log, k)))
  }

  ghost predicate Follows(cfg: Config, log: seq<Op>, a: Assembled) {
    && a.Assembled?
    && (forall k :: EntryFollows(cfg, log, a.tools, k))
    && (forall k :: ReadyCount(a.out, k) == if k in a.tools && a.tools[k].ready then 1 else 0)
    && (forall j :: 0 <= j < |a.out| ==> Justified(cfg, log, a.out[j]))
  }

  // One more operation.

  lemma SeenGrows(log: seq<Op>, op: Op, k: nat)
    ensures Seen(log + [op], k) <==> Seen(log, k) || Touches(op, k)
  {
    var more := log + [op];
    if Seen(log, k) {
      var j :| 0 <= j < |log| && Touches(log[j], k);
      assert more[j] == log[j];
    }
    if Touches(op, k) {
      assert more[|log|] == op;
    }
  }

  lemma FinishedGrows(log: seq<Op>, op: Op, k: nat)
    ensures Finished(log + [op], k) <==> Finished(log, k) || (op == Finish("tool_calls") && Seen(log, k))
  {
    var more := log + [op];
    if Finished(log, k) {
      var j :| 0 <= j < |log| && log[j] == Finish("tool_calls") && Seen(log[..j], k);
      assert more[j] == log[j] && more[..j] == log[..j];
    }
    if op == Finish("tool_calls") && Seen(log, k) {
      assert more[|log|] == op && more[..|log|] == log;
    }
    if Finished(more, k) {
      var j :| 0 <= j < |more| && more[j] == Finish("tool_calls") && Seen(more[..j], k);
      if j < |log| {
        assert log[j] == more[j] && more[..j] == log[..j];
      } else {
        assert more[..j] == log;
      }
    }
  }

  lemma SeenIfFinished(log: seq<Op>, k: nat)
    ensures Finished(log, k) ==> Seen(log, k)
  {
    if Finished(log, k) {
      var j :| 0 <= j < |log| && log[j] == Finish("tool_calls") && Seen(log[..j], k);
      var i :| 0 <= i < |log[..j]| && Touches(log[..j][i], k);
      assert Touches(log[i], k);
    }
  }

  lemma TextsGrow(log: seq<Op>, op: Op, k: nat)
    ensures ArgsOf(log + [op], k) == ArgsOf(log, k) + if Touches(op, k) && op.args.Some? then op.args.value else ""
    ensures NameOf(log + [op], k) == NameOf(log, k) + if Touches(op, k) && op.name.Some? then op.name.value else ""
    ensures IdOf(log + [op], k) ==
            if Touches(op, k) && op.id.Some? && op.id.value != "" then op.id.value else IdOf(log, k)
  {
    assert (log + [op])[..|log|] == log;
  }

  lemma JustifiedGrows(cfg: Config, log: seq<Op>, op: Op, f: Fragment)
    requires Justified(cfg, log, f)
    ensures Justified(cfg, log + [op], f)
  {
    hide JustifiedBy;
    if f.Ready? {
      var n :| 0 <= n < |log| && log[n] == Finish("tool_calls") && JustifiedBy(cfg, log[..n], f);
      assert (log + [op])[n] == log[n] && (log + [op])[..n] == log[..n];
    }
  }

  lemma {:induction false} UnseenIsEmpty(log: seq<Op>, k: nat)
    requires !Seen(log, k)
    ensures ArgsOf(log, k) == "" && NameOf(log, k) == "" && IdOf(log, k) == ""
  {
    if log != [] {
      var init := log[..|log| - 1];
      assert log == init + [log[|log| - 1]];
      SeenGrows(init, log[|log| - 1], k);
      UnseenIsEmpty(init, k);
    }
  }

  /** A delta moves its own entry as the log moves, and no other. */
  lemma DeltaFollows(cfg: Config, log: seq<Op>, tools: map<nat, Partial>, op: Op, k: nat)
    requires op.Delta? && IngestDelta(cfg, tools, op).Assembled?
    requires EntryFollows(cfg, log, tools, k)
    ensures EntryFollows(cfg, log + [op], IngestDelta(cfg, tools, op).tools, k)
  {
    hide ByteLen, Seen, Finished, ArgsOf, NameOf, IdOf;
    SeenGrows(log, op, k);
    FinishedGrows(log, op, k);
    SeenIfFinished(log, k);
    TextsGrow(log, op, k);
    if k == op.index {
      if k !in tools {
        UnseenIsEmpty(log, k);
        EmptyText();
      }
      if op.args.Some? {
        ByteLenConcat(Entry(tools, k).arguments, op.args.value);
      }
    }
  }

  lemma EmptyText()
    ensures ByteLen("") == 0
  {
  }

  lemma DeltaKeepsReady(cfg: Config, tools: map<nat, Partial>, op: Op, k: nat)
    requires op.Delta? && IngestDelta(cfg, tools, op).Assembled?
    ensures var a := IngestDelta(cfg, tools, op);
            && (k in a.tools && a.tools[k].ready <==> k in tools && tools[k].ready)
            && ReadyCount(a.out, k) == 0
            && forall j :: 0 <= j < |a.out| ==> !a.out[j].Ready?
  {
    hide ByteLen;
    var a := IngestDelta(cfg, tools, op);
    if |a.out| == 1 {
      assert a.out[1..] == [];
    }
  }

  /** What promoting a list of keys does: exactly the listed entries that were not ready come out, once each. */
  lemma {:induction false} PromoteEffect(cfg: Config, tools: map<nat, Partial>, keys: seq<nat>, k: nat)
    requires Promote(cfg, tools, keys).Assembled?
    ensures var a := Promote(cfg, tools, keys);
            && (k in a.tools <==> k in tools)
            && (k in tools ==> a.tools[k] == if k in keys then tools[k].(ready := true) else tools[k])
            && ReadyCount(a.out, k) == if k in tools && !tools[k].ready && k in keys then 1 else 0
    decreases |keys|
  {
    if keys != [] {
      var h := keys[0];
      assert k in keys <==> k == h || k in keys[1..];
      if h !in tools || tools[h].ready {
        PromoteEffect(cfg, tools, keys[1..], k);
      } else {
        var e := tools[h];
        var tools' := tools[h := e.(ready := true)];
        PromoteEffect(cfg, tools', keys[1..], k);
        var first := [Ready(h, e.id, e.name, e.arguments)];
        assert first[1..] == [];
        ReadyCountConcat(first, Promote(cfg, tools', keys[1..]).out, k);
      }
    }
  }

  /** Every fragment it emits carries the entry it promotes. */
  lemma {:induction false} PromoteFragments(cfg: Config, tools: map<nat, Partial>, keys: seq<nat>, j: nat)
    requires Promote(cfg, tools, keys).Assembled? && j < |Promote(cfg, tools, keys).out|
    ensures var f := Promote(cfg, tools, keys).out[j];
            && f.Ready? && f.index in tools && !tools[f.index].ready && Promotable(cfg, tools[f.index])
            && f.id == tools[f.index].id && f.name == tools[f.index].name && f.arguments == tools[f.index].arguments
    decreases |keys|
  {
    var h := keys[0];
    if h !in tools || tools[h].ready {
      PromoteFragments(cfg, tools, keys[1..], j);
    } else if j > 0 {
      PromoteFragments(cfg, tools[h := tools[h].(ready := true)], keys[1..], j - 1);
    }
  }

  lemma FinishFollows(cfg: Config, log: seq<Op>, tools: map<nat, Partial>, k: nat)
    requires GoodOrder(cfg) && EntryFollows(cfg, log, tools, k)
    requires Promote(cfg, tools, cfg.order(tools)).Assembled?
    ensures EntryFollows(cfg, log + [Finish("tool_calls")], Promote(cfg, tools, cfg.order(tools)).tools, k)
  {
    hide ByteLen, Seen, Finished, ArgsOf, NameOf, IdOf, Promote;
    var op := Finish("tool_calls");
    var keys := cfg.order(tools);
    PromoteEffect(cfg, tools, keys, k);
    assert k in keys <==> k in (set x | x in keys);
    SeenGrows(log, op, k);
    FinishedGrows(log, op, k);
    TextsGrow(log, op, k);
  }

  lemma FinishCounts(cfg: Config, tools: map<nat, Partial>, k: nat)
    requires GoodOrder(cfg) && Promote(cfg, tools, cfg.order(tools)).Assembled?
    ensures var a := Promote(cfg, tools, cfg.order(tools));
            ReadyCount(a.out, k) + (if k in tools && tools[k].ready then 1 else 0)
            == if k in a.tools && a.tools[k].ready then 1 else 0
  {
    hide Promote;
    var keys := cfg.order(tools);
    PromoteEffect(cfg, tools, keys, k);
    assert k in keys <==> k in (set x | x in keys);
  }

  lemma FinishJustifies(cfg: Config, log: seq<Op>, tools: map<nat, Partial>, j: nat)
    requires forall k :: EntryFollows(cfg, log, tools, k)
    requires Promote(cfg, tools, cfg.order(tools)).Assembled? && j < |Promote(cfg, tools, cfg.order(tools)).out|
    ensures Justified(cfg, log + [Finish("tool_calls")], Promote(cfg, tools, cfg.order(tools)).out[j])
  {
    hide Promote, ByteLen, Seen, Finished, ArgsOf, NameOf, IdOf;
    var keys := cfg.order(tools);
    PromoteFragments(cfg, tools, keys, j);
    var f := Promote(cfg, tools, keys).out[j];
    assert EntryFollows(cfg, log, tools, f.index);
    var more := log + [Finish("tool_calls")];
    assert more[|log|] == Finish("tool_calls") && more[..|log|] == log;
    assert JustifiedBy(cfg, log, f);
  }

  lemma QuietFollows(cfg: Config, log: seq<Op>, tools: map<nat, Partial>, op: Op, k: nat)
    requires EntryFollows(cfg, log, tools, k) && !op.Delta? && op != Finish("tool_calls")
    ensures EntryFollows(cfg, log + [op], tools, k)
  {
    hide ByteLen, Seen, Finished, ArgsOf, NameOf, IdOf;
    SeenGrows(log, op, k);
    FinishedGrows(log, op, k);
    TextsGrow(log, op, k);
  }

  /** One operation keeps everything the log says. */
  lemma PerformFollows(cfg: Config, log: seq<Op>, a: Assembled, op: Op)
    requires GoodOrder(cfg) && Follows(cfg, log, a) && Perform(cfg, a.tools, op).Assembled?
    ensures Follows(cfg, log + [op], Prefixed(a.out, Perform(cfg, a.tools, op)))
  {
    hide EntryFollows, Justified, Promote, IngestDelta, ReadyCount, GoodOrder;
    var p := Perform(cfg, a.tools, op);
    forall k
      ensures EntryFollows(cfg, log + [op], p.tools, k)
      ensures ReadyCount(a.out + p.out, k) == if k in p.tools && p.tools[k].ready then 1 else 0
    {
      assert EntryFollows(cfg, log, a.tools, k);
      ReadyCountConcat(a.out, p.out, k);
      if op.Delta? {
        DeltaFollows(cfg, log, a.tools, op, k);
        DeltaKeepsReady(cfg, a.tools, op, k);
      } else if op == Finish("tool_calls") {
        FinishFollows(cfg, log, a.tools, k);
        FinishCounts(cfg, a.tools, k);
      } else {
        QuietFollows(cfg, log, a.tools, op, k);
        QuietCounts(p.out, k);
      }
    }
    forall j | 0 <= j < |a.out + p.out|
      ensures Justified(cfg, log + [op], (a.out + p.out)[j])
    {
      if j < |a.out| {
        JustifiedGrows(cfg, log, op, a.out[j]);
      } else if op == Finish("tool_calls") {
        FinishJustifies(cfg, log, a.tools, j - |a.out|);
      } else if op.Delta? {
        DeltaKeepsReady(cfg, a.tools, op, op.index);
        NotReadyIsJustified(cfg, log + [op], p.out[j - |a.out|]);
      } else {
        NotReadyIsJustified(cfg, log + [op], p.out[j - |a.out|]);
      }
    }
  }

  lemma NotReadyIsJustified(cfg: Config, log: seq<Op>, f: Fragment)
    requires !f.Ready?
    ensures Justified(cfg, log, f)
  {
  }

  lemma QuietCounts(out: seq<Fragment>, k: nat)
    requires out == [] || (|out| == 1 && !out[0].Ready?)
    ensures ReadyCount(out, k) == 0
  {
    if out != [] {
      assert out[1..] == [];
    }
  }

  lemma {:induction false} LogFollows(cfg: Config, log: seq<Op>)
    requires GoodOrder(cfg) && PerformAll(cfg, map[], log).Assembled?
    ensures Follows(cfg, log, PerformAll(cfg, map[], log))
  {
    hide Perform, Follows, GoodOrder;
    if log == [] {
      EmptyFollows(cfg);
    } else {
      var init, op := log[..|log| - 1], log[|log| - 1];
      assert log == init + [op];
      PerformConcat(cfg, map[], init, [op]);
      LogFollows(cfg, init);
      var a := PerformAll(cfg, map[], init);
      PerformOne(cfg, a.tools, op);
      PerformFollows(cfg, init, a, op);
    }
  }

  lemma PerformOne(cfg: Config, tools: map<nat, Partial>, op: Op)
    ensures PerformAll(cfg, tools, [op]) == Perform(cfg, tools, op)
  {
    hide Perform;
    assert [op][1..] == [];
    var p := Perform(cfg, tools, op);
    if p.Assembled? {
      assert p.out + [] == p.out;
    }
  }

  lemma EmptyFollows(cfg: Config)
    ensures Follows(cfg, [], PerformAll(cfg, map[], []))
  {
  }

  /** Readiness in terms of the operations that the accepted choices ask for. */
  lemma ReadinessOfOperations(cfg: Config, chunks: seq<seq<byte>>)
    requires GoodOrder(cfg)
    ensures Follows(cfg, EventOps(Accepted(cfg, START, chunks).heard),
                    Assembled(Accepted(cfg, START, chunks).tools, PushAll(cfg, START, chunks).delivered))
  {
    hide PushAll, Accepted, GoodOrder, Follows, EventOps, PerformAll;
    StartIsFaithful(cfg);
    PushAllIsFaithful(cfg, START, [], chunks);
    assert [] + PushAll(cfg, START, chunks).delivered == PushAll(cfg, START, chunks).delivered;
    LogFollows(cfg, EventOps(Accepted(cfg, START, chunks).heard));
  }

  lemma StartIsFaithful(cfg: Config)
    ensures Faithful(cfg, START, [])
  {
  }
}
