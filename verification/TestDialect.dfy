/**
 One interpretation of the raw-text dialect from bytes to its end report
 (crates/monoloop-interpreter/src/engine.rs, `Owner` with `DialectFamily::Test`), output open.
 */
module TestDialect {
  import opened Common
  import opened Text
  import opened Utf8
  import opened SentenceRules
  import opened Segmenter
  import opened ChunkIndependence
  import opened SegmenterProperties
  import opened SourceSpans

  datatype Limits = Limits(maxUndecoded: nat, maxAssembly: nat)

  datatype Command = Bytes(bytes: seq<byte>) | FinishClean | Cancel | TransportFailed

  datatype EndKind = Complete | Cancelled | TransportLost | LimitExceeded

  datatype End = End(kind: EndKind, sentences: nat, unresolvedBytes: nat, sourceBytes: nat)

  /** Undecoded bytes, assembly buffer, sentences so far, bytes taken in. */
  datatype State = State(frame: seq<byte>, buf: string, done: seq<CompletedSentence>, sourceBytes: nat)

  const START := State([], "", [], 0)

  /** A chunk is taken in, or a limit refuses it and `lost` bytes end up nowhere. */
  datatype Ingested = Fed(st: State) | Refused(st: State, lost: nat)

  function Ingest(limits: Limits, st: State, chunk: seq<byte>): Ingested {
    var st := st.(sourceBytes := st.sourceBytes + |chunk|);
    if |st.frame| + |chunk| > limits.maxUndecoded then Refused(st, |chunk|)
    else
      var split := SplitValid(st.frame + chunk);
      if split.text == "" && split.rest != [] then Fed(st.(frame := st.frame + chunk))
      else if ByteLen(st.buf) + ByteLen(split.text) > limits.maxAssembly then
        Refused(st.(frame := split.rest), ByteLen(split.text))
      else
        var d := Drain(st.buf + split.text);
        Fed(st.(frame := split.rest, buf := d.rest, done := st.done + d.done))
  }

  function Sealed(st: State): State {
    var d := Seal(st.buf);
    st.(buf := d.rest, done := st.done + d.done)
  }

  /** What `finish` reports: everything still buffered is unresolved. */
  function Report(kind: EndKind, st: State): End {
    End(kind, |st.done|, ByteLen(st.buf) + |st.frame|, st.sourceBytes)
  }

  datatype Outcome = Outcome(end: End, st: State, lost: nat)

  /** The command loop; running out of commands is a dropped input. */
  function Run(limits: Limits, st: State, commands: seq<Command>): Outcome
    decreases |commands|
  {
    if commands == [] then Outcome(Report(TransportLost, st), st, 0)
    else match commands[0]
      case Bytes(chunk) =>
        (match Ingest(limits, st, chunk)
         case Fed(st') => Run(limits, st', commands[1..])
         case Refused(st', lost) => Outcome(Report(LimitExceeded, st'), st', lost))
      case FinishClean => Outcome(Report(Complete, Sealed(st)), Sealed(st), 0)
      case Cancel => Outcome(Report(Cancelled, st), st, 0)
      case TransportFailed => Outcome(Report(TransportLost, st), st, 0)
  }

  // Conservation.

  predicate Balanced(limits: Limits, st: State) {
    && st.sourceBytes == BytesTaken(st.done) + ByteLen(st.buf) + |st.frame|
    && |st.frame| <= limits.maxUndecoded && ByteLen(st.buf) <= limits.maxAssembly
  }

  lemma IngestBalances(limits: Limits, st: State, chunk: seq<byte>)
    requires Balanced(limits, st)
    ensures match Ingest(limits, st, chunk)
            case Fed(st') => Balanced(limits, st')
            case Refused(st', lost) =>
              0 < lost && st'.sourceBytes == BytesTaken(st'.done) + ByteLen(st'.buf) + |st'.frame| + lost
  {
    hide SplitValid, Drain, ByteLen, BytesTaken;
    var split := SplitValid(st.frame + chunk);
    SplitConserves(st.frame + chunk);
    ByteLenConcat(st.buf, split.text);
    DrainConserves(st.buf + split.text);
    BytesTakenConcat(st.done, Drain(st.buf + split.text).done);
  }

  lemma {:induction false} RunBalances(limits: Limits, st: State, commands: seq<Command>)
    requires Balanced(limits, st)
    ensures var o := Run(limits, st, commands);
            && o.end.sourceBytes == BytesTaken(o.st.done) + o.end.unresolvedBytes + o.lost
            && (o.lost == 0 <==> o.end.kind != LimitExceeded)
    decreases |commands|
  {
    hide Ingest, Seal, ByteLen, BytesTaken;
    if commands != [] {
      match commands[0]
      case Bytes(chunk) =>
        IngestBalances(limits, st, chunk);
        if Ingest(limits, st, chunk).Fed? {
          RunBalances(limits, Ingest(limits, st, chunk).st, commands[1..]);
        }
      case FinishClean =>
        SealConserves(st.buf);
        BytesTakenConcat(st.done, Seal(st.buf).done);
      case _ =>
    }
  }

  /**
   Every source byte is in a completed sentence or reported unresolved, for any chunking and any bytes, unless
   a limit ended the interpretation, and then never.
   */
  lemma EndConservesBytes(limits: Limits, commands: seq<Command>)
    ensures var o := Run(limits, START, commands);
            o.end.sourceBytes == BytesTaken(o.st.done) + o.end.unresolvedBytes <==> o.end.kind != LimitExceeded
  {
    hide Run, ByteLen;
    EmptyBytes();
    RunBalances(limits, START, commands);
  }

  function BytesIn(commands: seq<Command>): nat {
    if commands == [] then 0 else (if commands[0].Bytes? then |commands[0].bytes| else 0) + BytesIn(commands[1..])
  }

  /** What a state holds back, against which the limits are checked. */
  function Pending(st: State): nat { |st.frame| + ByteLen(st.buf) }

  predicate Ample(limits: Limits, n: nat) { n <= limits.maxUndecoded && n <= limits.maxAssembly }

  lemma AmpleIngest(limits: Limits, st: State, chunk: seq<byte>)
    requires Ample(limits, Pending(st) + |chunk|)
    ensures Ingest(limits, st, chunk).Fed? && Pending(Ingest(limits, st, chunk).st) <= Pending(st) + |chunk|
  {
    hide SplitValid, Drain, ByteLen;
    var split := SplitValid(st.frame + chunk);
    SplitConserves(st.frame + chunk);
    ByteLenConcat(st.buf, split.text);
    DrainConserves(st.buf + split.text);
  }

  /** Limits that cover every byte to come are never exceeded. */
  lemma {:induction false} AmpleLimits(limits: Limits, st: State, commands: seq<Command>)
    requires Ample(limits, Pending(st) + BytesIn(commands))
    ensures Run(limits, st, commands).end.kind != LimitExceeded
    decreases |commands|
  {
    hide Ingest, Seal, Pending, ByteLen;
    if commands != [] && commands[0].Bytes? {
      AmpleIngest(limits, st, commands[0].bytes);
      AmpleLimits(limits, Ingest(limits, st, commands[0].bytes).st, commands[1..]);
    }
  }

  /** With limits that cover the stream, every source byte is in a sentence or unresolved, whatever the commands. */
  lemma AmpleLimitsConserve(limits: Limits, commands: seq<Command>)
    requires Ample(limits, BytesIn(commands))
    ensures var o := Run(limits, START, commands);
            o.end.sourceBytes == BytesTaken(o.st.done) + o.end.unresolvedBytes
  {
    hide Run, ByteLen;
    EmptyBytes();
    AmpleLimits(limits, START, commands);
    EndConservesBytes(limits, commands);
  }

  // Byte chunking.

  /** The texts that a list of byte chunks pushes into the segmenter. */
  function Texts(frame: seq<byte>, chunks: seq<seq<byte>>): seq<string>
    decreases |chunks|
  {
    if chunks == [] then []
    else
      var split := SplitValid(frame + chunks[0]);
      [split.text] + Texts(split.rest, chunks[1..])
  }

  lemma {:induction false} RestIsStuck(bs: seq<byte>)
    ensures SplitValid(SplitValid(bs).rest).text == ""
    decreases |bs|
  {
    if DecodeOne(bs).Some? {
      RestIsStuck(bs[Utf8Len(DecodeOne(bs).value)..]);
    }
  }

  /** A chunk boundary inside a scalar does not change the text that comes through. */
  lemma {:induction false} TextsDecodeTheStream(frame: seq<byte>, chunks: seq<seq<byte>>)
    requires SplitValid(frame).text == ""
    ensures Flatten(Texts(frame, chunks)) == SplitValid(frame + Flatten(chunks)).text
    decreases |chunks|
  {
    hide SplitValid;
    if chunks == [] {
      assert frame + Flatten(chunks) == frame;
    } else {
      var rest := Flatten(chunks[1..]);
      var split := SplitValid(frame + chunks[0]);
      RestIsStuck(frame + chunks[0]);
      TextsDecodeTheStream(split.rest, chunks[1..]);
      SplitCompose(frame + chunks[0], rest);
      assert frame + Flatten(chunks) == (frame + chunks[0]) + rest;
      assert Texts(frame, chunks)[1..] == Texts(split.rest, chunks[1..]);
    }
  }

  function Pushes(chunks: seq<seq<byte>>): seq<Command> {
    if chunks == [] then [FinishClean] else [Bytes(chunks[0])] + Pushes(chunks[1..])
  }

  lemma PushesStep(c: seq<byte>, chunks: seq<seq<byte>>)
    ensures Pushes([c] + chunks) == [Bytes(c)] + Pushes(chunks)
    ensures Pushes([c] + chunks)[1..] == Pushes(chunks)
  {
    assert ([c] + chunks)[1..] == chunks;
  }

  /** A step that is not refused pushes the decoded text and keeps the undecoded bytes. */
  lemma IngestPushesText(limits: Limits, st: State, chunk: seq<byte>)
    requires Ingest(limits, st, chunk).Fed? && SentenceEnd(st.buf).None?
    ensures var split := SplitValid(st.frame + chunk);
            var d := Drain(st.buf + split.text);
            var st' := Ingest(limits, st, chunk).st;
            st'.frame == split.rest && st'.buf == d.rest && st'.done == st.done + d.done
  {
    hide Drain, SentenceEnd, ByteLen, DecodeOne;
    var split := SplitValid(st.frame + chunk);
    if split.text == "" && split.rest != [] {
      SplitIsExact(st.frame + chunk);
      EncodeNothing();
      assert st.buf + "" == st.buf;
      DrainStop(st.buf);
    }
  }

  lemma {:induction false} CleanRunIsSession(limits: Limits, st: State, chunks: seq<seq<byte>>)
    requires SentenceEnd(st.buf).None?
    requires Run(limits, st, Pushes(chunks)).end.kind == Complete
    ensures var f := FeedAll(st.buf, Texts(st.frame, chunks));
            Run(limits, st, Pushes(chunks)).st.done == st.done + f.done + Seal(f.rest).done
    decreases |chunks|
  {
    hide Drain, Seal, SentenceEnd, SplitValid, Ingest;
    if chunks != [] {
      var c, more := chunks[0], chunks[1..];
      assert chunks == [c] + more;
      PushesStep(c, more);
      var st' := Ingest(limits, st, c).st;
      IngestPushesText(limits, st, c);
      var split := SplitValid(st.frame + c);
      DrainIsExhaustive(st.buf + split.text);
      CleanRunIsSession(limits, st', more);
      FeedTextsStep(st.buf, st.frame, c, more);
    }
  }

  lemma FeedTextsStep(buf: string, frame: seq<byte>, c: seq<byte>, more: seq<seq<byte>>)
    ensures var split := SplitValid(frame + c);
            var d := Drain(buf + split.text);
            var f := FeedAll(d.rest, Texts(split.rest, more));
            FeedAll(buf, Texts(frame, [c] + more)) == Drained(d.done + f.done, f.rest)
  {
    hide Drain, SplitValid;
    var split := SplitValid(frame + c);
    assert ([c] + more)[1..] == more;
    var texts := Texts(frame, [c] + more);
    assert texts[0] == split.text && texts[1..] == Texts(split.rest, more);
  }

  /** A clean run is a segmenter session on the text that the bytes encode. */
  lemma CleanRunSays(limits: Limits, chunks: seq<seq<byte>>)
    requires Run(limits, START, Pushes(chunks)).end.kind == Complete
    ensures Run(limits, START, Pushes(chunks)).st.done == Session(Texts([], chunks)).done
    ensures Flatten(Texts([], chunks)) == SplitValid(Flatten(chunks)).text
  {
    hide Run, FeedAll, Seal, SplitValid, Texts, SentenceEnd;
    NothingToDecode();
    NoEndInNothing();
    CleanRunIsSession(limits, START, chunks);
    TextsDecodeTheStream([], chunks);
    assert [] + Flatten(chunks) == Flatten(chunks);
    assert START.done == [];
  }

  lemma NoEndInNothing()
    ensures SentenceEnd("").None?
  {
  }

  /** Two clean runs over the same bytes say the same sentences, however the bytes were cut and bounded. */
  lemma ByteChunkingCarriesNoMeaning(l1: Limits, c1: seq<seq<byte>>, l2: Limits, c2: seq<seq<byte>>)
    requires Flatten(c1) == Flatten(c2)
    requires Run(l1, START, Pushes(c1)).end.kind == Complete
    requires Run(l2, START, Pushes(c2)).end.kind == Complete
    ensures Stripped(Run(l1, START, Pushes(c1)).st.done) == Stripped(Run(l2, START, Pushes(c2)).st.done)
  {
    hide Run, Session, Texts, SplitValid, Stripped, Flatten, Pushes;
    CleanRunSays(l1, c1);
    CleanRunSays(l2, c2);
    ChunkingCarriesNoMeaning(Texts([], c1), Texts([], c2));
  }

  lemma {:induction false} PushesEndClean(limits: Limits, st: State, chunks: seq<seq<byte>>)
    ensures Run(limits, st, Pushes(chunks)).end.kind in {Complete, LimitExceeded}
    ensures BytesIn(Pushes(chunks)) == |Flatten(chunks)|
    decreases |chunks|
  {
    hide Ingest, Seal, ByteLen;
    if chunks == [] {
      assert Pushes(chunks)[1..] == [];
    } else {
      assert chunks == [chunks[0]] + chunks[1..];
      PushesStep(chunks[0], chunks[1..]);
      PushesEndClean(limits, Ingest(limits, st, chunks[0]).st, chunks[1..]);
    }
  }

  lemma AmpleRunIsClean(limits: Limits, chunks: seq<seq<byte>>)
    requires Ample(limits, |Flatten(chunks)|)
    ensures Run(limits, START, Pushes(chunks)).end.kind == Complete
  {
    hide Run, Pushes, ByteLen, Flatten;
    EmptyBytes();
    PushesEndClean(limits, START, chunks);
    AmpleLimits(limits, START, Pushes(chunks));
  }

  /** For every byte stream: with limits that cover it, any two ways of cutting it say the same sentences. */
  lemma AnyByteChunkingSaysTheSame(l1: Limits, c1: seq<seq<byte>>, l2: Limits, c2: seq<seq<byte>>)
    requires Flatten(c1) == Flatten(c2) && Ample(l1, |Flatten(c1)|) && Ample(l2, |Flatten(c2)|)
    ensures Stripped(Run(l1, START, Pushes(c1)).st.done) == Stripped(Run(l2, START, Pushes(c2)).st.done)
  {
    hide Run, Stripped, Flatten, Pushes;
    AmpleRunIsClean(l1, c1);
    AmpleRunIsClean(l2, c2);
    ByteChunkingCarriesNoMeaning(l1, c1, l2, c2);
  }

  // Abrupt ends and limits.

  /** The chunks in turn, and then `last`. */
  function PushesThen(chunks: seq<seq<byte>>, last: seq<Command>): seq<Command> {
    if chunks == [] then last else [Bytes(chunks[0])] + PushesThen(chunks[1..], last)
  }

  predicate IsAbrupt(last: seq<Command>) { last == [] || last[0] == Cancel || last[0] == TransportFailed }

  lemma {:induction false} AbruptRunFrom(limits: Limits, st: State, chunks: seq<seq<byte>>, last: seq<Command>)
    requires IsAbrupt(last) && SentenceEnd(st.buf).None?
    requires Run(limits, st, PushesThen(chunks, last)).end.kind != LimitExceeded
    ensures var o, f := Run(limits, st, PushesThen(chunks, last)), FeedAll(st.buf, Texts(st.frame, chunks));
            && o.end.kind == (if last != [] && last[0] == Cancel then Cancelled else TransportLost)
            && o.st.done == st.done + f.done && o.st.buf == f.rest && o.end.sentences == |st.done| + |f.done|
    decreases |chunks|
  {
    hide Drain, Seal, SentenceEnd, SplitValid, Ingest, ByteLen;
    if chunks == [] {
      assert st.done + [] == st.done;
    } else {
      var c, more := chunks[0], chunks[1..];
      assert chunks == [c] + more;
      assert PushesThen(chunks, last)[1..] == PushesThen(more, last);
      var st' := Ingest(limits, st, c).st;
      IngestPushesText(limits, st, c);
      var split := SplitValid(st.frame + c);
      DrainIsExhaustive(st.buf + split.text);
      AbruptRunFrom(limits, st', more, last);
      FeedTextsStep(st.buf, st.frame, c, more);
    }
  }

  /**
   A run that is cancelled, fails or loses its input says only what the pushes said: the remainder is not promoted.  It
   ends as cancelled or as a transport failure, whatever commands would follow.
   */
  lemma AbruptRunSays(limits: Limits, chunks: seq<seq<byte>>, last: seq<Command>)
    requires IsAbrupt(last) && Ample(limits, |Flatten(chunks)|)
    ensures var o, f := Run(limits, START, PushesThen(chunks, last)), FeedAll("", Texts([], chunks));
            && o.end.kind == (if last != [] && last[0] == Cancel then Cancelled else TransportLost)
            && o.st.done == f.done && o.st.buf == f.rest && o.end.sentences == |f.done|
  {
    hide Run, FeedAll, Texts, SentenceEnd, ByteLen, PushesThen, Flatten;
    NoEndInNothing();
    EmptyBytes();
    AmplePushes(limits, START, chunks, last);
    AbruptRunFrom(limits, START, chunks, last);
    assert [] + FeedAll("", Texts([], chunks)).done == FeedAll("", Texts([], chunks)).done;
  }

  lemma {:induction false} AmplePushes(limits: Limits, st: State, chunks: seq<seq<byte>>, last: seq<Command>)
    requires IsAbrupt(last) && Ample(limits, Pending(st) + |Flatten(chunks)|)
    ensures Run(limits, st, PushesThen(chunks, last)).end.kind != LimitExceeded
    decreases |chunks|
  {
    hide Ingest, Seal, Pending, ByteLen;
    if chunks != [] {
      AmpleIngest(limits, st, chunks[0]);
      assert PushesThen(chunks, last)[1..] == PushesThen(chunks[1..], last);
      AmplePushes(limits, Ingest(limits, st, chunks[0]).st, chunks[1..], last);
    }
  }

  /** A clean end, with limits that cover the stream, says the whole session, and counts its sentences. */
  lemma CleanRunCounts(limits: Limits, chunks: seq<seq<byte>>)
    requires Ample(limits, |Flatten(chunks)|)
    ensures var o := Run(limits, START, Pushes(chunks));
            && o.end.kind == Complete && o.st.done == Session(Texts([], chunks)).done
            && o.end.sentences == |Session(Texts([], chunks)).done|
  {
    hide Session, Texts, Flatten, Run, Pushes, Stripped, SplitValid;
    AmpleRunIsClean(limits, chunks);
    CleanRunSays(limits, chunks);
    RunCounts(limits, START, Pushes(chunks));
  }

  lemma {:induction false} RunCounts(limits: Limits, st: State, commands: seq<Command>)
    ensures Run(limits, st, commands).end.sentences == |Run(limits, st, commands).st.done|
    decreases |commands|
  {
    hide Ingest, Seal, ByteLen;
    if commands != [] && commands[0].Bytes? && Ingest(limits, st, commands[0].bytes).Fed? {
      RunCounts(limits, Ingest(limits, st, commands[0].bytes).st, commands[1..]);
    }
  }

  /** A chunk that would overfill the undecoded bytes, or whose text would overfill the assembly, ends the run. */
  lemma LimitsBite(limits: Limits, st: State, chunk: seq<byte>, more: seq<Command>)
    requires var split := SplitValid(st.frame + chunk);
             || |st.frame| + |chunk| > limits.maxUndecoded
             || (split.text != "" && ByteLen(st.buf) + ByteLen(split.text) > limits.maxAssembly)
    ensures var o := Run(limits, st, [Bytes(chunk)] + more);
            o.end.kind == LimitExceeded && o.st.done == st.done && o.end.sourceBytes == st.sourceBytes + |chunk|
  {
    hide SplitValid, Drain, ByteLen, Seal;
  }

  lemma NothingToDecode()
    ensures SplitValid([]).text == ""
  {
  }

  // The owner object.

  class TestOwner {
    const limits: Limits
    const assembly: ChannelAssembly
    var frameBuf: seq<byte>
    var sourceBytes: nat
    var unresolvedAtEnd: nat
    /** Contents of the sentence events published, in order. */
    var published: seq<string>
    ghost var done: seq<CompletedSentence>

    ghost predicate Valid()
      reads this, assembly, assembly.segmenter
    {
      assembly.Valid() && published == Contents(done) && unresolvedAtEnd == 0
    }

    ghost function Abs(): State
      reads this, assembly.segmenter
    {
      State(frameBuf, assembly.segmenter.buf, done, sourceBytes)
    }

    constructor (limits: Limits)
      ensures Valid() && Abs() == START && this.limits == limits
      ensures fresh(assembly) && fresh(assembly.segmenter)
    {
      this.limits := limits;
      assembly := new ChannelAssembly();
      frameBuf, sourceBytes, unresolvedAtEnd, published, done := [], 0, 0, [], [];
    }

    method IngestBytes(chunk: seq<byte>) returns (ok: bool)
      requires Valid()
      modifies this, assembly, assembly.segmenter
      ensures Valid()
      ensures ok == Ingest(limits, old(Abs()), chunk).Fed?
      ensures Abs() == Ingest(limits, old(Abs()), chunk).st
    {
      hide Drain, ByteLen, SplitValid, AttributeAll, Labels, Repeat;
      sourceBytes := sourceBytes + |chunk|;
      if |frameBuf| + |chunk| > limits.maxUndecoded {
        return false;
      }
      frameBuf := frameBuf + chunk;
      var split := SplitValid(frameBuf);
      if split.text == "" && split.rest != [] {
        return true;
      }
      frameBuf := split.rest;
      var buffered := assembly.segmenter.BufferedBytes();
      if buffered + ByteLen(split.text) > limits.maxAssembly {
        return false;
      }
      ghost var d := Drain(assembly.segmenter.buf + split.text);
      AttributeAllKeepsContents(Labels(assembly.spans) + Repeat(Label(None, None), ByteLen(split.text)), d.done);
      var completed := assembly.Push(split.text, None, None);
      Publish(completed, d.done);
      ok := true;
    }

    method Publish(completed: seq<Attributed>, ghost more: seq<CompletedSentence>)
      requires published == Contents(done)
      requires |completed| == |more| && forall k :: 0 <= k < |more| ==> completed[k].content == more[k].content
      modifies this`published, this`done
      ensures published == Contents(done) && done == old(done) + more
    {
      var k := 0;
      while k < |completed|
        invariant k <= |completed|
        invariant published == old(published) + Contents(more[..k])
        invariant done == old(done)
      {
        published := published + [completed[k].content];
        k := k + 1;
      }
      done := done + more;
    }

    method SealTextChannels()
      requires Valid()
      modifies this, assembly, assembly.segmenter
      ensures Valid() && Abs() == Sealed(old(Abs()))
    {
      hide Segmenter.Seal, AttributeAll, Labels;
      ghost var d := Segmenter.Seal(assembly.segmenter.buf);
      AttributeAllKeepsContents(Labels(assembly.spans), d.done);
      var sealed := assembly.Seal();
      Publish(sealed, d.done);
    }

    method QuarantinePartials()
      requires Valid()
      modifies this, assembly, assembly.segmenter
      ensures unresolvedAtEnd == ByteLen(old(assembly.segmenter.buf)) + |old(frameBuf)|
      ensures Abs() == old(Abs()).(frame := [], buf := "") && published == Contents(done)
    {
      var unresolved := assembly.TakeUnresolved();
      if unresolved != "" {
        unresolvedAtEnd := unresolvedAtEnd + ByteLen(unresolved);
      }
      unresolvedAtEnd := unresolvedAtEnd + |frameBuf|;
      frameBuf := [];
    }

    method Finish(kind: EndKind) returns (end: End)
      requires published == Contents(done)
      ensures end == End(kind, |done|, unresolvedAtEnd + ByteLen(assembly.segmenter.buf) + |frameBuf|, sourceBytes)
    {
      var buffered := assembly.segmenter.BufferedBytes();
      end := End(kind, |published|, unresolvedAtEnd + buffered + |frameBuf|, sourceBytes);
    }

    /** Abrupt ends: quarantine, then report. */
    method Abandon(kind: EndKind) returns (end: End)
      requires Valid()
      modifies this, assembly, assembly.segmenter
      ensures end == Report(kind, old(Abs())) && published == old(published) && done == old(done)
    {
      EmptyBytes();
      QuarantinePartials();
      end := Finish(kind);
    }

    method HandleCommands(commands: seq<Command>) returns (end: End)
      requires Valid()
      modifies this, assembly, assembly.segmenter
      ensures end == Run(limits, old(Abs()), commands).end
      ensures published == Contents(Run(limits, old(Abs()), commands).st.done)
    {
      hide Ingest, Seal, ByteLen;
      var k := 0;
      while k < |commands|
        invariant k <= |commands| && Valid()
        invariant Run(limits, Abs(), commands[k..]) == Run(limits, old(Abs()), commands)
      {
        assert commands[k..][1..] == commands[k + 1..];
        match commands[k] {
          case Bytes(chunk) =>
            var ok := IngestBytes(chunk);
            if !ok {
              end := Finish(LimitExceeded);
              return;
            }
          case FinishClean =>
            SealTextChannels();
            end := Finish(Complete);
            return;
          case Cancel =>
            end := Abandon(Cancelled);
            return;
          case TransportFailed =>
            end := Abandon(TransportLost);
            return;
        }
        k := k + 1;
      }
      end := Abandon(TransportLost);
    }
  }
}
