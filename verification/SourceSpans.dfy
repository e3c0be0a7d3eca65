/**
 Source-time attribution (crates/monoloop-interpreter/src/engine.rs, `ChannelAssembly`): a run-length span list
 beside the text buffer, specified by one label for every buffered byte.
 */
module SourceSpans {
  import opened Common
  import opened Text
  import opened SentenceRules
  import opened Segmenter
  import opened ChunkIndependence
  import opened SegmenterProperties

  datatype Label = Label(time: Option<nat>, step: Option<nat>)

  datatype Span = Span(len: nat, tag: Label)

  datatype SourceTime = SourceTime(firstMs: nat, lastMs: nat)

  datatype SourceMeta = SourceMeta(time: Option<SourceTime>, step: Option<nat>)

  datatype Attributed = Attributed(content: string, meta: SourceMeta)

  function Repeat(l: Label, n: nat): (r: seq<Label>)
    ensures |r| == n && forall k :: 0 <= k < n ==> r[k] == l
  {
    seq(n, _ => l)
  }

  /** One label per byte. */
  function Labels(spans: seq<Span>): seq<Label> {
    if spans == [] then [] else Repeat(spans[0].tag, spans[0].len) + Labels(spans[1..])
  }

  lemma {:induction false} LabelsAppend(spans: seq<Span>, s: Span)
    ensures Labels(spans + [s]) == Labels(spans) + Repeat(s.tag, s.len)
  {
    if spans == [] {
      assert (spans + [s])[1..] == [];
    } else {
      assert (spans + [s])[1..] == spans[1..] + [s];
      LabelsAppend(spans[1..], s);
    }
  }

  function Lower(a: Option<nat>, b: Option<nat>): Option<nat> {
    if a.None? then b else if b.None? then a else if b.value < a.value then b else a
  }

  function Upper(a: Option<nat>, b: Option<nat>): Option<nat> {
    if a.None? then b else if b.None? then a else if b.value > a.value then b else a
  }

  function Earliest(ls: seq<Label>): Option<nat> {
    if ls == [] then None else Lower(Earliest(ls[..|ls| - 1]), ls[|ls| - 1].time)
  }

  function Latest(ls: seq<Label>): Option<nat> {
    if ls == [] then None else Upper(Latest(ls[..|ls| - 1]), ls[|ls| - 1].time)
  }

  function FirstStep(ls: seq<Label>): Option<nat> {
    if ls == [] then None else Lower(FirstStep(ls[..|ls| - 1]), ls[|ls| - 1].step)
  }

  /** `SourceTimeObservation::from_bounds`. */
  function FromBounds(first: Option<nat>, last: Option<nat>): Option<SourceTime> {
    match (first, last)
    case (Some(f), Some(l)) => Some(SourceTime(if l < f then l else f, if l < f then f else l))
    case (Some(t), None) => Some(SourceTime(t, t))
    case (None, Some(t)) => Some(SourceTime(t, t))
    case (None, None) => None
  }

  function MetaOf(ls: seq<Label>): SourceMeta {
    SourceMeta(FromBounds(Earliest(ls), Latest(ls)), FirstStep(ls))
  }

  /** The folds mean what their names say: bounds that are reached, or nothing known at all. */
  lemma {:induction false} BoundsAreTight(ls: seq<Label>)
    ensures Earliest(ls).Some? <==> exists k :: 0 <= k < |ls| && ls[k].time.Some?
    ensures Latest(ls).Some? <==> Earliest(ls).Some?
    ensures forall k :: 0 <= k < |ls| && ls[k].time.Some? ==>
              Earliest(ls).Some? && Latest(ls).Some? &&
              Earliest(ls).value <= ls[k].time.value <= Latest(ls).value
    ensures Earliest(ls).Some? ==> exists k :: 0 <= k < |ls| && ls[k].time == Earliest(ls)
    ensures Latest(ls).Some? ==> exists k :: 0 <= k < |ls| && ls[k].time == Latest(ls)
  {
    if ls != [] {
      var init := ls[..|ls| - 1];
      BoundsAreTight(init);
      assert forall k :: 0 <= k < |init| ==> init[k] == ls[k];
      if Earliest(ls) == Earliest(init) && Earliest(init).Some? {
        var k :| 0 <= k < |init| && init[k].time == Earliest(init);
        assert ls[k].time == Earliest(ls);
      } else {
        assert ls[|ls| - 1].time == Earliest(ls);
      }
      if Latest(ls) == Latest(init) && Latest(init).Some? {
        var k :| 0 <= k < |init| && init[k].time == Latest(init);
        assert ls[k].time == Latest(ls);
      } else {
        assert ls[|ls| - 1].time == Latest(ls);
      }
    }
  }

  lemma {:induction false} StepIsTight(ls: seq<Label>)
    ensures FirstStep(ls).Some? <==> exists k :: 0 <= k < |ls| && ls[k].step.Some?
    ensures forall k :: 0 <= k < |ls| && ls[k].step.Some? ==>
              FirstStep(ls).Some? && FirstStep(ls).value <= ls[k].step.value
    ensures FirstStep(ls).Some? ==> exists k :: 0 <= k < |ls| && ls[k].step == FirstStep(ls)
  {
    if ls != [] {
      var init := ls[..|ls| - 1];
      StepIsTight(init);
      assert forall k :: 0 <= k < |init| ==> init[k] == ls[k];
      if FirstStep(ls) == FirstStep(init) && FirstStep(init).Some? {
        var k :| 0 <= k < |init| && init[k].step == FirstStep(init);
        assert ls[k].step == FirstStep(ls);
      } else {
        assert ls[|ls| - 1].step == FirstStep(ls);
      }
    }
  }

  /** What is reported: the least and the greatest time, and the least step, over the labels that have one. */
  lemma MetaIsTight(ls: seq<Label>)
    ensures MetaOf(ls).time.Some? <==> exists k :: 0 <= k < |ls| && ls[k].time.Some?
    ensures MetaOf(ls).time.Some? ==>
              var t := MetaOf(ls).time.value;
              && (forall k :: 0 <= k < |ls| && ls[k].time.Some? ==> t.firstMs <= ls[k].time.value <= t.lastMs)
              && (exists k :: 0 <= k < |ls| && ls[k].time == Some(t.firstMs))
              && (exists k :: 0 <= k < |ls| && ls[k].time == Some(t.lastMs))
    ensures MetaOf(ls).step.Some? <==> exists k :: 0 <= k < |ls| && ls[k].step.Some?
    ensures MetaOf(ls).step.Some? ==>
              && (forall k :: 0 <= k < |ls| && ls[k].step.Some? ==> MetaOf(ls).step.value <= ls[k].step.value)
              && (exists k :: 0 <= k < |ls| && ls[k].step == MetaOf(ls).step)
  {
    hide Earliest, Latest, FirstStep;
    BoundsAreTight(ls);
    StepIsTight(ls);
  }

  /** A run of one label counts once. */
  lemma {:induction false} FoldRun(ls: seq<Label>, l: Label, n: nat)
    requires n > 0
    ensures Earliest(ls + Repeat(l, n)) == Lower(Earliest(ls), l.time)
    ensures Latest(ls + Repeat(l, n)) == Upper(Latest(ls), l.time)
    ensures FirstStep(ls + Repeat(l, n)) == Lower(FirstStep(ls), l.step)
    decreases n
  {
    var all := ls + Repeat(l, n);
    assert all[..|all| - 1] == ls + Repeat(l, n - 1);
    if n == 1 {
      assert ls + Repeat(l, 0) == ls;
    } else {
      FoldRun(ls, l, n - 1);
    }
  }

  function Min(a: nat, b: nat): nat { if a < b then a else b }

  /** Taking bytes off the first span takes labels off the front. */
  lemma TakeFromFirst(spans: seq<Span>, take: nat)
    requires spans != [] && take <= spans[0].len
    ensures var rest := if take == spans[0].len then spans[1..]
                        else [spans[0].(len := spans[0].len - take)] + spans[1..];
            Labels(spans) == Repeat(spans[0].tag, take) + Labels(rest)
  {
    var s := spans[0];
    if take < s.len {
      var rest := [s.(len := s.len - take)] + spans[1..];
      assert rest[1..] == spans[1..];
      assert Repeat(s.tag, s.len) == Repeat(s.tag, take) + Repeat(s.tag, s.len - take);
    }
  }

  /** Attribution of a list of sentences that eat one label stream from the front. */
  function AttributeAll(ls: seq<Label>, done: seq<CompletedSentence>): seq<Attributed>
    decreases |done|
  {
    if done == [] then []
    else
      var taken := Min(done[0].bytesConsumed, |ls|);
      [Attributed(done[0].content, MetaOf(ls[..Min(done[0].contentBytes, taken)]))]
      + AttributeAll(ls[taken..], done[1..])
  }

  lemma {:induction false} AttributeAllKeepsContents(ls: seq<Label>, done: seq<CompletedSentence>)
    ensures var out := AttributeAll(ls, done);
            |out| == |done| && forall k :: 0 <= k < |done| ==> out[k].content == done[k].content
    decreases |done|
  {
    if done != [] {
      AttributeAllKeepsContents(ls[Min(done[0].bytesConsumed, |ls|)..], done[1..]);
    }
  }

  function DropTaken(ls: seq<Label>, done: seq<CompletedSentence>): seq<Label>
    decreases |done|
  {
    if done == [] then ls else DropTaken(ls[Min(done[0].bytesConsumed, |ls|)..], done[1..])
  }

  lemma {:induction false} DropTakenLength(ls: seq<Label>, done: seq<CompletedSentence>)
    requires BytesTaken(done) <= |ls|
    ensures DropTaken(ls, done) == ls[BytesTaken(done)..]
    decreases |done|
  {
    if done != [] {
      var n := done[0].bytesConsumed;
      DropTakenLength(ls[n..], done[1..]);
      assert ls[n..][BytesTaken(done[1..])..] == ls[BytesTaken(done)..];
    }
  }

  class ChannelAssembly {
    const segmenter: SentenceSegmenter
    var spans: seq<Span>

    /** The labels stay aligned with the text: one for every buffered byte. */
    ghost predicate Valid()
      reads this, segmenter
    {
      |Labels(spans)| == ByteLen(segmenter.buf)
    }

    constructor ()
      ensures Valid() && fresh(segmenter) && segmenter.buf == "" && spans == []
    {
      segmenter := new SentenceSegmenter();
      spans := [];
    }

    method Push(text: string, time: Option<nat>, step: Option<nat>) returns (out: seq<Attributed>)
      requires Valid()
      modifies this, segmenter
      ensures Valid()
      ensures segmenter.buf == Drain(old(segmenter.buf) + text).rest
      ensures var done := Drain(old(segmenter.buf) + text).done;
              var ls := old(Labels(spans)) + Repeat(Label(time, step), ByteLen(text));
              && BytesTaken(done) <= |ls|
              && out == AttributeAll(ls, done)
              && Labels(spans) == ls[BytesTaken(done)..]
    {
      hide Drain, Labels, ByteLen, Repeat;
      ghost var ls := Labels(spans) + Repeat(Label(time, step), ByteLen(text));
      ghost var whole := segmenter.buf + text;
      EmptyBytes();
      if text != "" {
        LabelsAppend(spans, Span(ByteLen(text), Label(time, step)));
        spans := spans + [Span(ByteLen(text), Label(time, step))];
      } else {
        assert ls == Labels(spans);
      }
      var completed := segmenter.Push(text);
      ByteLenConcat(old(segmenter.buf), text);
      DrainConserves(whole);
      out := TakeAll(completed);
      DropTakenLength(ls, completed);
    }

    method Seal() returns (out: seq<Attributed>)
      requires Valid()
      modifies this, segmenter
      ensures Valid()
      ensures segmenter.buf == Segmenter.Seal(old(segmenter.buf)).rest
      ensures var done := Segmenter.Seal(old(segmenter.buf)).done;
              && BytesTaken(done) <= |old(Labels(spans))|
              && out == AttributeAll(old(Labels(spans)), done)
              && Labels(spans) == old(Labels(spans))[BytesTaken(done)..]
    {
      hide Segmenter.Seal, Labels, ByteLen;
      ghost var ls := Labels(spans);
      SealConserves(segmenter.buf);
      var completed := segmenter.SealAtCleanEnd();
      out := TakeAll(completed);
      DropTakenLength(ls, completed);
    }

    method TakeUnresolved() returns (text: string)
      requires Valid()
      modifies this, segmenter
      ensures Valid() && text == old(segmenter.buf) && segmenter.buf == "" && spans == []
    {
      EmptyBytes();
      spans := [];
      text := segmenter.TakeUnresolved();
    }

    method TakeAll(completed: seq<CompletedSentence>) returns (out: seq<Attributed>)
      modifies this
      ensures out == AttributeAll(old(Labels(spans)), completed)
      ensures Labels(spans) == DropTaken(old(Labels(spans)), completed)
    {
      hide Labels, MetaOf;
      ghost var ls := Labels(spans);
      out := [];
      var k := 0;
      while k < |completed|
        invariant k <= |completed|
        invariant out + AttributeAll(Labels(spans), completed[k..]) == AttributeAll(ls, completed)
        invariant DropTaken(Labels(spans), completed[k..]) == DropTaken(ls, completed)
      {
        var c := completed[k];
        var meta := TakeSpans(c.contentBytes, c.bytesConsumed);
        assert completed[k..][1..] == completed[k + 1..];
        out := out + [Attributed(c.content, meta)];
        k := k + 1;
      }
    }

    /** Min/max time and min step over the labels of the content bytes; the consumed labels are dropped. */
    method TakeSpans(contentBytes: nat, bytesConsumed: nat) returns (meta: SourceMeta)
      modifies this
      ensures var ls := old(Labels(spans));
              var taken := Min(bytesConsumed, |ls|);
              meta == MetaOf(ls[..Min(contentBytes, taken)]) && Labels(spans) == ls[taken..]
    {
      hide Labels, Earliest, Latest, FirstStep, Repeat;
      ghost var ls := Labels(spans);
      var first: Option<nat>, last: Option<nat>, stepMin: Option<nat> := None, None, None;
      var seen, remaining := 0, bytesConsumed;
      FoldNothing();
      LabelsOfNone(spans);
      assert ls[0..] == ls && ls[..0] == [];
      while remaining > 0 && spans != []
        invariant 0 <= remaining && seen + remaining == bytesConsumed && seen <= |ls|
        invariant Labels(spans) == ls[seen..]
        invariant first == Earliest(ls[..Min(contentBytes, seen)])
        invariant last == Latest(ls[..Min(contentBytes, seen)])
        invariant stepMin == FirstStep(ls[..Min(contentBytes, seen)])
        decreases remaining, |spans|
      {
        var span := spans[0];
        var take := Min(span.len, remaining);
        var contentTake := if seen < contentBytes then Min(take, contentBytes - seen) else 0;
        TakeFromFirst(spans, take);
        ghost var rest := if take == span.len then spans[1..] else [spans[0].(len := spans[0].len - take)] + spans[1..];
        TakenRun(ls, seen, span.tag, take, Labels(rest));
        if contentTake > 0 {
          ContentRun(ls, seen, span.tag, take, contentBytes);
          first := Lower(first, span.tag.time);
          last := Upper(last, span.tag.time);
          stepMin := Lower(stepMin, span.tag.step);
        } else {
          assert Min(contentBytes, seen) == Min(contentBytes, seen + take);
        }
        seen := seen + take;
        remaining := remaining - take;
        spans := if take == span.len then spans[1..] else [span.(len := span.len - take)] + spans[1..];
      }
      LabelsOfNone(spans);
      assert seen == Min(bytesConsumed, |ls|);
      meta := SourceMeta(FromBounds(first, last), stepMin);
    }
  }

  lemma FoldNothing()
    ensures Earliest([]) == None && Latest([]) == None && FirstStep([]) == None
  {
  }

  lemma LabelsOfNone(spans: seq<Span>)
    ensures spans == [] ==> Labels(spans) == []
  {
  }

  /** The run taken off the span list is the next stretch of the label stream. */
  lemma TakenRun(ls: seq<Label>, seen: nat, l: Label, take: nat, rest: seq<Label>)
    requires seen <= |ls| && ls[seen..] == Repeat(l, take) + rest
    ensures seen + take <= |ls| && ls[seen + take..] == rest && ls[seen..seen + take] == Repeat(l, take)
  {
    var tail := ls[seen..];
    assert tail[take..] == rest && tail[..take] == Repeat(l, take);
    assert tail[take..] == ls[seen + take..];
    assert tail[..take] == ls[seen..seen + take];
  }

  /** Its part within the content extends the attributed prefix by a run of one label. */
  lemma ContentRun(ls: seq<Label>, seen: nat, l: Label, take: nat, contentBytes: nat)
    requires seen + take <= |ls| && ls[seen..seen + take] == Repeat(l, take)
    requires seen < contentBytes && take > 0
    ensures var before, after := ls[..Min(contentBytes, seen)], ls[..Min(contentBytes, seen + take)];
            && Earliest(after) == Lower(Earliest(before), l.time)
            && Latest(after) == Upper(Latest(before), l.time)
            && FirstStep(after) == Lower(FirstStep(before), l.step)
  {
    hide Earliest, Latest, FirstStep;
    var n := Min(take, contentBytes - seen);
    var after := ls[..Min(contentBytes, seen + take)];
    forall j | seen <= j < seen + n
      ensures ls[j] == l
    {
      assert ls[seen..seen + take][j - seen] == ls[j];
    }
    assert after == ls[..seen] + Repeat(l, n);
    FoldRun(ls[..seen], l, n);
  }

  // Which bytes a sentence is attributed from.

  /** A pushed sentence is the front of its buffer, and its content bytes are counted as such. */
  lemma PushAttributesItsOwnBytes(s: string, k: nat)
    requires k < |Drain(s).done|
    ensures var c := Drain(s).done[k];
            c.content <= BufferAt(s, k) && c.contentBytes == ByteLen(c.content) <= c.bytesConsumed
  {
    hide Drain, BufferAt, SentenceEnd, ByteLen, SpaceEnd;
    SentenceFromBuffer(s, k);
    var b := BufferAt(s, k);
    var e := SentenceEnd(b).value;
    var n := SpaceEnd(b, e);
    var content := TrimEnd(b[..e]);
    assert b[..n][..|content|] == content;
    ByteLenSplit(b[..n], |content|);
  }

  /** Text `t` stands at byte offset `off` of `s`. */
  ghost predicate StandsAt(s: string, off: nat, t: string) {
    exists p :: 0 <= p <= |s| && ByteLen(s[..p]) == off && t <= s[p..]
  }

  /** The k-th sentence's buffer begins where the sentences before it end. */
  lemma {:induction false} BufferOffset(s: string, k: nat) returns (p: nat)
    requires k < |Drain(s).done|
    ensures p <= |s| && BufferAt(s, k) == s[p..] && ByteLen(s[..p]) == BytesTaken(Drain(s).done[..k])
    decreases k
  {
    hide Drain, BufferAt, SentenceEnd, SentenceOf, SpaceEnd, ByteLen, BytesTaken;
    if k == 0 {
      p := 0;
      FirstBuffer(s);
    } else {
      var n := LaterBuffer(s, k);
      var q := BufferOffset(s[n..], k - 1);
      p := n + q;
      CutOffset(s, n, q);
    }
  }

  lemma FirstBuffer(s: string)
    requires Drain(s).done != []
    ensures BufferAt(s, 0) == s == s[0..] && BytesTaken(Drain(s).done[..0]) == 0 && ByteLen(s[..0]) == 0
  {
    hide Drain;
  }

  /** Past its first sentence and the white space after it, a buffer goes on like any other. */
  lemma LaterBuffer(s: string, k: nat) returns (n: nat)
    requires 0 < k < |Drain(s).done|
    ensures n <= |s| && k - 1 < |Drain(s[n..]).done| && BufferAt(s, k) == BufferAt(s[n..], k - 1)
    ensures BytesTaken(Drain(s).done[..k]) == ByteLen(s[..n]) + BytesTaken(Drain(s[n..]).done[..k - 1])
  {
    hide SentenceEnd, SpaceEnd, ByteLen, BytesTaken, TrimEnd;
    n := SpaceEnd(s, SentenceEnd(s).value);
    var c, later := SentenceOf(s, SentenceEnd(s).value), Drain(s[n..]).done;
    assert Drain(s).done == [c] + later;
    assert Drain(s).done[1..] == later;
    assert ([c] + later)[..k] == [c] + later[..k - 1];
    BytesTakenCons(c, later[..k - 1]);
  }

  lemma CutOffset(s: string, n: nat, q: nat)
    requires n + q <= |s|
    ensures s[n..][q..] == s[n + q..] && ByteLen(s[..n + q]) == ByteLen(s[..n]) + ByteLen(s[n..][..q])
  {
    hide ByteLen;
    assert s[..n + q] == s[..n] + s[n..][..q];
    ByteLenConcat(s[..n], s[n..][..q]);
  }

  lemma BytesTakenCons(c: CompletedSentence, done: seq<CompletedSentence>)
    ensures BytesTaken([c] + done) == c.bytesConsumed + BytesTaken(done)
  {
    assert ([c] + done)[1..] == done;
  }

  lemma SentenceTakes(s: string, end: nat)
    requires end <= |s|
    ensures SentenceOf(s, end).bytesConsumed == ByteLen(s[..SpaceEnd(s, end)])
  {
    hide ByteLen, SpaceEnd;
  }

  /** What a drain leaves begins where its sentences end. */
  lemma {:induction false} RestOffset(s: string) returns (p: nat)
    ensures p <= |s| && Drain(s).rest == s[p..] && ByteLen(s[..p]) == BytesTaken(Drain(s).done)
    decreases |s|
  {
    hide Drain, SentenceEnd, SpaceEnd, SentenceOf, ByteLen;
    if SentenceEnd(s).None? {
      p := 0;
      DrainStop(s);
      assert s[0..] == s;
      EmptyBytes();
    } else {
      var n := SpaceEnd(s, SentenceEnd(s).value);
      DrainStep(s);
      var q := RestOffset(s[n..]);
      p := n + q;
      BytesTakenCons(SentenceOf(s, SentenceEnd(s).value), Drain(s[n..]).done);
      CutOffset(s, n, q);
      SentenceTakes(s, SentenceEnd(s).value);
    }
  }

  lemma DrainedStandsAt(s: string, more: string, k: nat)
    requires k < |Drain(s).done|
    ensures StandsAt(s + more, BytesTaken(Drain(s).done[..k]), Drain(s).done[k].content)
  {
    hide Drain, ByteLen, BufferAt;
    var p := BufferOffset(s, k);
    PushAttributesItsOwnBytes(s, k);
    assert (s + more)[..p] == s[..p] && (s + more)[p..] == s[p..] + more;
  }

  lemma StandsFurther(head: string, s: string, off: nat, t: string)
    requires StandsAt(s, off, t)
    ensures StandsAt(head + s, ByteLen(head) + off, t)
  {
    hide ByteLen;
    var p :| 0 <= p <= |s| && ByteLen(s[..p]) == off && t <= s[p..];
    var all := head + s;
    assert all[..|head| + p] == head + s[..p] && all[|head| + p..] == s[p..];
    ByteLenConcat(head, s[..p]);
  }

  /** Over any pushes, each sentence stands in the stream where the bytes taken before it end. */
  lemma {:induction false} SentenceStandsAt(buf: string, chunks: seq<string>, j: nat)
    requires j < |FeedAll(buf, chunks).done|
    ensures var done := FeedAll(buf, chunks).done;
            StandsAt(buf + Flatten(chunks), BytesTaken(done[..j]), done[j].content)
    decreases |chunks|
  {
    hide Drain, ByteLen, StandsAt, FeedAll, BytesTaken;
    FeedUnfolds(buf, chunks);
    var s, later := buf + chunks[0], Flatten(chunks[1..]);
    var d := Drain(s);
    var f := FeedAll(d.rest, chunks[1..]);
    var done := FeedAll(buf, chunks).done;
    assert buf + Flatten(chunks) == s + later;
    if j < |d.done| {
      assert done[..j] == d.done[..j];
      DrainedStandsAt(s, later, j);
    } else {
      var i := j - |d.done|;
      SentenceStandsAt(d.rest, chunks[1..], i);
      assert done[..j] == d.done + f.done[..i];
      BytesTakenConcat(d.done, f.done[..i]);
      StandsBeyond(s, later, BytesTaken(f.done[..i]), f.done[i].content);
    }
  }

  // A stream of labelled pushes.

  datatype Push = Push(text: string, tag: Label)

  function TextsOf(pushes: seq<Push>): (r: seq<string>)
    ensures |r| == |pushes|
  {
    if pushes == [] then [] else [pushes[0].text] + TextsOf(pushes[1..])
  }

  /** The labels of the whole stream, one for every byte. */
  function LabelsOf(pushes: seq<Push>): seq<Label> {
    if pushes == [] then [] else Repeat(pushes[0].tag, ByteLen(pushes[0].text)) + LabelsOf(pushes[1..])
  }

  /** What a channel that holds `buf`, labelled `ls`, attributes over a row of pushes. */
  function AssembleAll(buf: string, ls: seq<Label>, pushes: seq<Push>): seq<Attributed>
    decreases |pushes|
  {
    if pushes == [] then []
    else
      var d := Drain(buf + pushes[0].text);
      var ls1 := ls + Repeat(pushes[0].tag, ByteLen(pushes[0].text));
      AttributeAll(ls1, d.done) + AssembleAll(d.rest, DropTaken(ls1, d.done), pushes[1..])
  }

  method AssembleStream(pushes: seq<Push>) returns (out: seq<Attributed>)
    ensures out == AssembleAll("", [], pushes)
  {
    hide Drain, Labels, AttributeAll, DropTaken, ByteLen, Repeat;
    var channel := new ChannelAssembly();
    LabelsOfNone(channel.spans);
    out := [];
    var i := 0;
    assert pushes[0..] == pushes;
    while i < |pushes|
      invariant i <= |pushes| && channel.Valid() && fresh(channel) && fresh(channel.segmenter)
      invariant out + AssembleAll(channel.segmenter.buf, Labels(channel.spans), pushes[i..]) ==
                AssembleAll("", [], pushes)
    {
      ghost var ls := Labels(channel.spans) + Repeat(pushes[i].tag, ByteLen(pushes[i].text));
      ghost var done := Drain(channel.segmenter.buf + pushes[i].text).done;
      assert pushes[i..][1..] == pushes[i + 1..];
      var more := channel.Push(pushes[i].text, pushes[i].tag.time, pushes[i].tag.step);
      DropTakenLength(ls, done);
      out := out + more;
      i := i + 1;
    }
  }

  lemma {:induction false} AttributeConcat(ls: seq<Label>, s: seq<CompletedSentence>, t: seq<CompletedSentence>)
    ensures AttributeAll(ls, s + t) == AttributeAll(ls, s) + AttributeAll(DropTaken(ls, s), t)
    decreases |s|
  {
    hide MetaOf;
    if s == [] {
      assert s + t == t;
    } else {
      var n := Min(s[0].bytesConsumed, |ls|);
      assert (s + t)[1..] == s[1..] + t;
      AttributeConcat(ls[n..], s[1..], t);
    }
  }

  /** Labels beyond the bytes taken do not matter. */
  lemma {:induction false} AttributePrefix(ls: seq<Label>, more: seq<Label>, done: seq<CompletedSentence>)
    requires BytesTaken(done) <= |ls|
    ensures AttributeAll(ls + more, done) == AttributeAll(ls, done)
    decreases |done|
  {
    hide MetaOf;
    if done != [] {
      var n := done[0].bytesConsumed;
      var c := Min(done[0].contentBytes, n);
      assert (ls + more)[n..] == ls[n..] + more && (ls + more)[..c] == ls[..c];
      AttributePrefix(ls[n..], more, done[1..]);
    }
  }

  /** The labels and sentences of a stream from its first push on. */
  lemma FirstPush(buf: string, ls: seq<Label>, pushes: seq<Push>)
    requires |ls| == ByteLen(buf) && pushes != []
    ensures var d := Drain(buf + pushes[0].text);
            var ls1 := ls + Repeat(pushes[0].tag, ByteLen(pushes[0].text));
            var rest, later := DropTaken(ls1, d.done), LabelsOf(pushes[1..]);
            && |rest| == ByteLen(d.rest) && BytesTaken(d.done) <= |ls1|
            && ls + LabelsOf(pushes) == ls1 + later
            && DropTaken(ls1 + later, d.done) == rest + later == (ls1 + later)[BytesTaken(d.done)..]
            && FeedAll(buf, TextsOf(pushes)).done == d.done + FeedAll(d.rest, TextsOf(pushes[1..])).done
  {
    hide Drain, ByteLen, Repeat, DropTaken, BytesTaken, FeedAll, LabelsOf, TextsOf;
    var s := buf + pushes[0].text;
    var first, later := Repeat(pushes[0].tag, ByteLen(pushes[0].text)), LabelsOf(pushes[1..]);
    var d := Drain(s);
    StreamUnfolds(buf, pushes);
    ByteLenConcat(buf, pushes[0].text);
    DrainConserves(s);
    DropTakenLength(ls + first, d.done);
    DropTakenLength((ls + first) + later, d.done);
    DropFront(ls, first, later, BytesTaken(d.done));
  }

  lemma StreamUnfolds(buf: string, pushes: seq<Push>)
    requires pushes != []
    ensures LabelsOf(pushes) == Repeat(pushes[0].tag, ByteLen(pushes[0].text)) + LabelsOf(pushes[1..])
    ensures var d := Drain(buf + pushes[0].text);
            FeedAll(buf, TextsOf(pushes)).done == d.done + FeedAll(d.rest, TextsOf(pushes[1..])).done
  {
    hide Drain, ByteLen, Repeat;
    assert TextsOf(pushes)[1..] == TextsOf(pushes[1..]);
  }

  lemma DropFront(ls: seq<Label>, first: seq<Label>, later: seq<Label>, n: nat)
    requires n <= |ls + first|
    ensures ls + (first + later) == (ls + first) + later
    ensures ((ls + first) + later)[n..] == (ls + first)[n..] + later
  {
  }

  /** Push by push, a channel attributes what attribution against the labels of the whole stream gives. */
  lemma {:induction false} AssemblyIsWhole(buf: string, ls: seq<Label>, pushes: seq<Push>)
    requires |ls| == ByteLen(buf)
    ensures AssembleAll(buf, ls, pushes) == AttributeAll(ls + LabelsOf(pushes), FeedAll(buf, TextsOf(pushes)).done)
    decreases |pushes|
  {
    hide Drain, ByteLen, Repeat, AttributeAll, DropTaken, FeedAll, LabelsOf, TextsOf, BytesTaken;
    if pushes == [] {
      NothingFed(buf, pushes);
      NothingAttributed(ls + LabelsOf(pushes));
    } else {
      var ls1 := ls + Repeat(pushes[0].tag, ByteLen(pushes[0].text));
      var d, later := Drain(buf + pushes[0].text), LabelsOf(pushes[1..]);
      FirstPush(buf, ls, pushes);
      AssemblyIsWhole(d.rest, DropTaken(ls1, d.done), pushes[1..]);
      AttributePrefix(ls1, later, d.done);
      AttributeConcat(ls1 + later, d.done, FeedAll(d.rest, TextsOf(pushes[1..])).done);
    }
  }

  lemma NothingFed(buf: string, pushes: seq<Push>)
    requires pushes == []
    ensures FeedAll(buf, TextsOf(pushes)).done == [] && LabelsOf(pushes) == []
  {
  }

  lemma NothingAttributed(ls: seq<Label>)
    ensures AttributeAll(ls, []) == []
  {
  }

  lemma {:induction false} AttributeAt(ls: seq<Label>, done: seq<CompletedSentence>, j: nat)
    requires BytesTaken(done) <= |ls| && j < |done| && done[j].contentBytes <= done[j].bytesConsumed
    ensures var off := BytesTaken(done[..j]);
            && |AttributeAll(ls, done)| == |done| && off + done[j].contentBytes <= |ls|
            && AttributeAll(ls, done)[j] == Attributed(done[j].content, MetaOf(ls[off..off + done[j].contentBytes]))
    decreases |done|
  {
    hide MetaOf, BytesTaken, AttributeAll;
    AttributeAllKeepsContents(ls, done);
    AttributeUnfolds(ls, done);
    NothingTaken();
    var n := done[0].bytesConsumed;
    if j == 0 {
      assert done[..0] == [];
      assert ls[0..done[0].contentBytes] == ls[..done[0].contentBytes];
    } else {
      AttributeAt(ls[n..], done[1..], j - 1);
      assert done[..j] == [done[0]] + done[1..][..j - 1];
      BytesTakenCons(done[0], done[1..][..j - 1]);
      SliceOfRest(ls, n, BytesTaken(done[1..][..j - 1]), done[j].contentBytes);
    }
  }

  lemma AttributeUnfolds(ls: seq<Label>, done: seq<CompletedSentence>)
    requires done != [] && BytesTaken(done) <= |ls|
    ensures var n, later := done[0].bytesConsumed, done[1..];
            && n <= |ls| && BytesTaken(later) <= |ls[n..]|
            && AttributeAll(ls, done) ==
               [Attributed(done[0].content, MetaOf(ls[..Min(done[0].contentBytes, n)]))] + AttributeAll(ls[n..], later)
  {
    hide MetaOf;
  }

  lemma SliceOfRest(ls: seq<Label>, n: nat, off: nat, len: nat)
    requires n <= |ls| && off + len <= |ls[n..]|
    ensures ls[n..][off..off + len] == ls[n + off..n + off + len]
  {
  }

  lemma {:induction false} FedSentenceIsSized(buf: string, chunks: seq<string>, j: nat)
    requires j < |FeedAll(buf, chunks).done|
    ensures var c := FeedAll(buf, chunks).done[j]; c.contentBytes == ByteLen(c.content) <= c.bytesConsumed
    decreases |chunks|
  {
    hide Drain, ByteLen;
    var d := Drain(buf + chunks[0]);
    if j < |d.done| {
      PushAttributesItsOwnBytes(buf + chunks[0], j);
    } else {
      FedSentenceIsSized(d.rest, chunks[1..], j - |d.done|);
    }
  }

  lemma {:induction false} LabelsMatchText(pushes: seq<Push>)
    ensures |LabelsOf(pushes)| == ByteLen(Flatten(TextsOf(pushes)))
  {
    hide ByteLen;
    EmptyBytes();
    if pushes != [] {
      LabelsMatchText(pushes[1..]);
      assert TextsOf(pushes)[1..] == TextsOf(pushes[1..]);
      ByteLenConcat(pushes[0].text, Flatten(TextsOf(pushes[1..])));
    }
  }

  /**
   End to end, over any labelled pushes: the j-th sentence stands in the stream at the byte offset where the
   sentences before it end, and is attributed exactly from the labels of its own bytes there.
   */
  lemma SentencesOwnTheirBytes(pushes: seq<Push>, j: nat)
    requires j < |FeedAll("", TextsOf(pushes)).done|
    ensures var done := FeedAll("", TextsOf(pushes)).done;
            var off, n := BytesTaken(done[..j]), ByteLen(done[j].content);
            && StandsAt(Flatten(TextsOf(pushes)), off, done[j].content)
            && |AssembleAll("", [], pushes)| == |done| && off + n <= |LabelsOf(pushes)|
            && AssembleAll("", [], pushes)[j] == Attributed(done[j].content, MetaOf(LabelsOf(pushes)[off..off + n]))
  {
    hide FeedAll, ByteLen, StandsAt, AssembleAll, AttributeAll, MetaOf, Flatten, TextsOf, LabelsOf;
    var done := FeedAll("", TextsOf(pushes)).done;
    EmptyBytes();
    AssemblyIsWhole("", [], pushes);
    assert [] + LabelsOf(pushes) == LabelsOf(pushes);
    SentenceStandsAt("", TextsOf(pushes), j);
    assert "" + Flatten(TextsOf(pushes)) == Flatten(TextsOf(pushes));
    FeedConserves("", TextsOf(pushes));
    LabelsMatchText(pushes);
    FedSentenceIsSized("", TextsOf(pushes), j);
    AttributeAt(LabelsOf(pushes), done, j);
  }

  // A sealed remainder.

  /** The bytes of the white space that a text begins with. */
  function LeadBytes(s: string): nat {
    if s != "" && IsWhitespace(s[0]) then Utf8Len(s[0]) + LeadBytes(s[1..]) else 0
  }

  lemma {:induction false} LeadSplits(s: string) returns (w: nat)
    ensures w <= |s| && TrimStart(s) == s[w..] && LeadBytes(s) == ByteLen(s[..w])
    ensures w > 0 <==> s != "" && IsWhitespace(s[0])
    decreases |s|
  {
    hide ByteLen, Utf8Len, IsWhitespace;
    w := 0;
    EmptyBytes();
    if s != "" && IsWhitespace(s[0]) {
      var j := LeadSplits(s[1..]);
      w := j + 1;
      assert s[1..][j..] == s[w..];
      assert s[..w] == [s[0]] + s[1..][..j];
      ByteLenConcat([s[0]], s[1..][..j]);
      OneScalar(s[0]);
    }
  }

  lemma OneScalar(c: char)
    ensures ByteLen([c]) == Utf8Len(c)
  {
    assert [c][..0] == "";
  }

  /** The trimmed text stands behind the leading white space. */
  lemma TrimmedStands(rest: string)
    ensures StandsAt(rest, LeadBytes(rest), Trim(rest))
    ensures LeadBytes(rest) + ByteLen(Trim(rest)) <= ByteLen(rest)
    ensures Trim(rest) != "" ==> (LeadBytes(rest) > 0 <==> IsWhitespace(rest[0]))
  {
    hide ByteLen, LeadBytes;
    var w := LeadSplits(rest);
    var t := Trim(rest);
    assert t <= rest[w..];
    ByteLenSplit(rest, w);
    ByteLenSplit(rest[w..], |t|);
    assert rest[w..][..|t|] == t;
    if w > 0 {
      SomethingHasBytes(rest[..w]);
    } else {
      EmptyBytes();
    }
  }

  lemma SomethingHasBytes(s: string)
    requires s != ""
    ensures ByteLen(s) > 0
  {
  }

  /** What sealing `rest` under the labels `ls` reports: the labels are counted from the first byte. */
  lemma SealReports(ls: seq<Label>, rest: string)
    requires |ls| == ByteLen(rest) && Trim(rest) != ""
    ensures ByteLen(Trim(rest)) <= |ls|
    ensures AttributeAll(ls, SealRest(rest).done) == [Attributed(Trim(rest), MetaOf(ls[..ByteLen(Trim(rest))]))]
  {
    hide ByteLen, Trim, MetaOf;
    TrimmedStands(rest);
    var done := SealRest(rest).done;
    assert done[1..] == [];
  }

  /** Labels that tell the first byte from the others. */
  function FirstByteMarked(n: nat): (ls: seq<Label>)
    ensures |ls| == n && forall k :: 0 <= k < n ==> ls[k] == Label(Some(if k == 0 then 1 else 2), None)
  {
    seq(n, k => Label(Some(if k == 0 then 1 else 2), None))
  }

  lemma ShiftedMetaDiffers(n: nat, lead: nat, len: nat)
    requires 0 < lead && 0 < len && lead + len <= n
    ensures MetaOf(FirstByteMarked(n)[..len]) != MetaOf(FirstByteMarked(n)[lead..lead + len])
  {
    hide Earliest, Latest, FirstStep;
    var ls := FirstByteMarked(n);
    var x, y := ls[..len], ls[lead..lead + len];
    BoundsAreTight(x);
    BoundsAreTight(y);
    assert x[0].time == Some(1);
    assert y[0].time == Some(2);
    assert forall k :: 0 <= k < |y| ==> y[k] == ls[lead + k];
  }

  /** Under these labels a sealed remainder is attributed to its own bytes. */
  ghost predicate SealsItsOwn(ls: seq<Label>, rest: string)
    requires LeadBytes(rest) + ByteLen(Trim(rest)) <= |ls|
  {
    var lead, n := LeadBytes(rest), ByteLen(Trim(rest));
    AttributeAll(ls, SealRest(rest).done) == [Attributed(Trim(rest), MetaOf(ls[lead..lead + n]))]
  }

  /**
   A sealed remainder is trimmed at both ends but attributed from its first byte: whatever the labels, they are
   those of its own bytes, exactly when it does not begin with white space.
   */
  lemma SealAttributesItsOwnBytes(rest: string)
    requires Trim(rest) != ""
    ensures LeadBytes(rest) + ByteLen(Trim(rest)) <= ByteLen(rest)
    ensures (forall ls: seq<Label> | |ls| == ByteLen(rest) :: SealsItsOwn(ls, rest)) <==> !IsWhitespace(rest[0])
  {
    hide ByteLen, Trim, MetaOf, AttributeAll, SealRest, LeadBytes, IsWhitespace;
    TrimmedStands(rest);
    var lead, n := LeadBytes(rest), ByteLen(Trim(rest));
    if IsWhitespace(rest[0]) {
      var ls := FirstByteMarked(ByteLen(rest));
      SomethingHasBytes(Trim(rest));
      SealReports(ls, rest);
      ShiftedMetaDiffers(ByteLen(rest), lead, n);
      assert !SealsItsOwn(ls, rest);
    } else {
      forall ls: seq<Label> | |ls| == ByteLen(rest) ensures SealsItsOwn(ls, rest) {
        SealReports(ls, rest);
        assert ls[0..0 + n] == ls[..n];
      }
    }
  }

  /** The labels a channel still holds after a row of pushes. */
  function LabelsAfter(buf: string, ls: seq<Label>, pushes: seq<Push>): seq<Label>
    decreases |pushes|
  {
    if pushes == [] then ls
    else
      var d := Drain(buf + pushes[0].text);
      var ls1 := ls + Repeat(pushes[0].tag, ByteLen(pushes[0].text));
      LabelsAfter(d.rest, DropTaken(ls1, d.done), pushes[1..])
  }

  /** What a channel attributes over a row of pushes and the seal after them. */
  function AssembleSession(pushes: seq<Push>): seq<Attributed> {
    AssembleAll("", [], pushes)
    + AttributeAll(LabelsAfter("", [], pushes), Segmenter.Seal(FeedAll("", TextsOf(pushes)).rest).done)
  }

  method AssembleAndSeal(pushes: seq<Push>) returns (out: seq<Attributed>)
    ensures out == AssembleSession(pushes)
  {
    hide Drain, Labels, AttributeAll, DropTaken, ByteLen, Repeat, Segmenter.Seal;
    var channel := new ChannelAssembly();
    LabelsOfNone(channel.spans);
    out := [];
    var i := 0;
    assert pushes[0..] == pushes;
    while i < |pushes|
      invariant i <= |pushes| && channel.Valid() && fresh(channel) && fresh(channel.segmenter)
      invariant out + AssembleAll(channel.segmenter.buf, Labels(channel.spans), pushes[i..]) ==
                AssembleAll("", [], pushes)
      invariant LabelsAfter(channel.segmenter.buf, Labels(channel.spans), pushes[i..]) == LabelsAfter("", [], pushes)
      invariant FeedAll(channel.segmenter.buf, TextsOf(pushes[i..])).rest == FeedAll("", TextsOf(pushes)).rest
    {
      ghost var ls := Labels(channel.spans) + Repeat(pushes[i].tag, ByteLen(pushes[i].text));
      ghost var done := Drain(channel.segmenter.buf + pushes[i].text).done;
      assert pushes[i..][1..] == pushes[i + 1..];
      assert TextsOf(pushes[i..])[1..] == TextsOf(pushes[i + 1..]);
      var more := channel.Push(pushes[i].text, pushes[i].tag.time, pushes[i].tag.step);
      DropTakenLength(ls, done);
      out := out + more;
      i := i + 1;
    }
    var last := channel.Seal();
    out := out + last;
  }

  lemma {:induction false} LabelsAfterAre(buf: string, ls: seq<Label>, pushes: seq<Push>)
    requires |ls| == ByteLen(buf)
    ensures var n := BytesTaken(FeedAll(buf, TextsOf(pushes)).done);
            n <= |ls + LabelsOf(pushes)| && LabelsAfter(buf, ls, pushes) == (ls + LabelsOf(pushes))[n..]
    decreases |pushes|
  {
    hide Drain, ByteLen, Repeat, DropTaken, FeedAll, LabelsOf, TextsOf, BytesTaken;
    if pushes == [] {
      NothingFed(buf, pushes);
      NothingTaken();
      assert (ls + [])[0..] == ls;
    } else {
      var ls1 := ls + Repeat(pushes[0].tag, ByteLen(pushes[0].text));
      var d, later := Drain(buf + pushes[0].text), LabelsOf(pushes[1..]);
      var more := FeedAll(d.rest, TextsOf(pushes[1..])).done;
      FirstPush(buf, ls, pushes);
      LabelsAfterAre(d.rest, DropTaken(ls1, d.done), pushes[1..]);
      BytesTakenConcat(d.done, more);
      DropTwice(ls1 + later, BytesTaken(d.done), BytesTaken(more));
    }
  }

  lemma NothingTaken()
    ensures BytesTaken([]) == 0
  {
  }

  lemma DropTwice(x: seq<Label>, m: nat, n: nat)
    requires m <= |x| && n <= |x[m..]|
    ensures x[m..][n..] == x[m + n..]
  {
  }

  /** What is left of the labels when the pushes are done. */
  lemma LabelsLeft(pushes: seq<Push>)
    ensures var f := FeedAll("", TextsOf(pushes));
            && BytesTaken(f.done) + ByteLen(f.rest) == |LabelsOf(pushes)|
            && LabelsAfter("", [], pushes) == LabelsOf(pushes)[BytesTaken(f.done)..]
  {
    hide FeedAll, ByteLen, LabelsAfter, LabelsOf, TextsOf;
    EmptyBytes();
    FeedConserves("", TextsOf(pushes));
    LabelsMatchText(pushes);
    LabelsAfterAre("", [], pushes);
    assert [] + LabelsOf(pushes) == LabelsOf(pushes);
  }

  lemma StandsBeyond(s: string, later: string, off: nat, t: string)
    requires StandsAt(Drain(s).rest + later, off, t)
    ensures StandsAt(s + later, BytesTaken(Drain(s).done) + off, t)
  {
    hide Drain, ByteLen, StandsAt;
    var p := RestOffset(s);
    StandsFurther(s[..p], s[p..] + later, off, t);
    assert s[..p] + (s[p..] + later) == s + later;
  }

  /** What the pushes leave in the buffer begins where their sentences end. */
  lemma {:induction false} RestStandsAt(buf: string, chunks: seq<string>, t: string, lead: nat)
    requires StandsAt(FeedAll(buf, chunks).rest, lead, t)
    ensures StandsAt(buf + Flatten(chunks), BytesTaken(FeedAll(buf, chunks).done) + lead, t)
    decreases |chunks|
  {
    hide Drain, ByteLen, StandsAt, FeedAll, BytesTaken;
    FeedUnfolds(buf, chunks);
    if chunks == [] {
      NothingTaken();
      assert buf + Flatten(chunks) == buf;
    } else {
      var s, later := buf + chunks[0], Flatten(chunks[1..]);
      var d := Drain(s);
      var f := FeedAll(d.rest, chunks[1..]);
      RestStandsAt(d.rest, chunks[1..], t, lead);
      BytesTakenConcat(d.done, f.done);
      StandsBeyond(s, later, BytesTaken(f.done) + lead, t);
      assert buf + Flatten(chunks) == s + later;
    }
  }

  lemma FeedUnfolds(buf: string, chunks: seq<string>)
    ensures chunks == [] ==> FeedAll(buf, chunks) == Drained([], buf)
    ensures chunks != [] ==>
              var d := Drain(buf + chunks[0]);
              var f := FeedAll(d.rest, chunks[1..]);
              FeedAll(buf, chunks) == Drained(d.done + f.done, f.rest)
  {
    hide Drain;
  }

  /**
   Pushes followed by a seal: the remainder, if not blank, becomes one more sentence, which stands in the stream
   behind the leading white space of the remainder, and is attributed from the labels in front of which that white
   space begins.
   */
  lemma SealedSentenceInStream(pushes: seq<Push>)
    requires Trim(FeedAll("", TextsOf(pushes)).rest) != ""
    ensures var f := FeedAll("", TextsOf(pushes));
            var off, lead, n := BytesTaken(f.done), LeadBytes(f.rest), ByteLen(Trim(f.rest));
            && off + lead + n <= |LabelsOf(pushes)|
            && StandsAt(Flatten(TextsOf(pushes)), off + lead, Trim(f.rest))
            && AssembleSession(pushes) ==
               AssembleAll("", [], pushes) + [Attributed(Trim(f.rest), MetaOf(LabelsOf(pushes)[off..off + n]))]
            && (lead == 0 <==> !IsWhitespace(f.rest[0]))
  {
    hide FeedAll, ByteLen, StandsAt, AssembleAll, AttributeAll, MetaOf, Flatten, TextsOf, LabelsOf, Trim, LabelsAfter,
         LeadBytes, IsWhitespace, Drain, SealRest, BytesTaken, SentenceEnd;
    var f := FeedAll("", TextsOf(pushes));
    LabelsLeft(pushes);
    TrimmedStands(f.rest);
    RestStandsAt("", TextsOf(pushes), Trim(f.rest), LeadBytes(f.rest));
    assert "" + Flatten(TextsOf(pushes)) == Flatten(TextsOf(pushes));
    var ls := LabelsOf(pushes)[BytesTaken(f.done)..];
    SealReports(ls, f.rest);
    SealOfDrained("", TextsOf(pushes));
    var n := ByteLen(Trim(f.rest));
    assert ls[..n] == LabelsOf(pushes)[BytesTaken(f.done)..BytesTaken(f.done) + n];
  }

  lemma SealOfDrained(buf: string, chunks: seq<string>)
    requires buf == ""
    ensures Segmenter.Seal(FeedAll(buf, chunks).rest).done == SealRest(FeedAll(buf, chunks).rest).done
  {
    hide FeedAll, SealRest, Drain, SentenceEnd;
    NothingEnds();
    FeedAllIsExhaustive(buf, chunks);
    var rest := FeedAll(buf, chunks).rest;
    DrainStop(rest);
    assert [] + SealRest(rest).done == SealRest(rest).done;
  }

  lemma NothingEnds()
    ensures SentenceEnd("").None?
  {
  }

  /** A space labelled 1 and then a letter labelled 2: the sealed letter is reported with label 1. */
  lemma SealMisattributes()
    ensures var t1, t2 := Label(Some(1), None), Label(Some(2), None);
            AssembleSession([Push(" ", t1), Push("A", t2)]) == [Attributed("A", MetaOf([t1]))]
            && MetaOf([t1]) != MetaOf([t2])
  {
    hide AttributeAll, AssembleAll, AssembleSession, StandsAt, Drain, ByteLen, MetaOf, FeedAll;
    var t1, t2 := Label(Some(1), None), Label(Some(2), None);
    var pushes := [Push(" ", t1), Push("A", t2)];
    assert pushes[1..] == [Push("A", t2)] && pushes[1..][1..] == [];
    assert TextsOf(pushes[1..]) == ["A"] && TextsOf(pushes) == [" ", "A"];
    TwoSilentPushes();
    OneScalar(' ');
    OneScalar('A');
    assert LabelsOf(pushes[1..]) == [t2] && LabelsOf(pushes) == [t1, t2];
    assert Trim(" A") == "A" by {
      assert " A"[1..] == "A";
    }
    SealedSentenceInStream(pushes);
    NothingAssembled(pushes);
    assert [t1, t2][0..0 + 1] == [t1];
    OneLabelMeta(1);
    OneLabelMeta(2);
  }

  lemma OneLabelMeta(t: nat)
    ensures MetaOf([Label(Some(t), None)]) == SourceMeta(Some(SourceTime(t, t)), None)
  {
    var l := Label(Some(t), None);
    FoldNothing();
    FoldRun([], l, 1);
    assert [] + Repeat(l, 1) == [l];
  }

  lemma NothingAssembled(pushes: seq<Push>)
    requires FeedAll("", TextsOf(pushes)).done == []
    ensures AssembleAll("", [], pushes) == []
  {
    hide AssembleAll, FeedAll, TextsOf, LabelsOf;
    EmptyBytes();
    AssemblyIsWhole("", [], pushes);
  }

  lemma TwoSilentPushes()
    ensures FeedAll("", [" ", "A"]) == Drained([], " A")
  {
    hide Drain;
    assert "" + " " == " " && " " + "A" == " A" && [" ", "A"][1..] == ["A"] && ["A"][1..] == [];
    ShortHoldsNothing(" ");
    ShortHoldsNothing(" A");
    assert FeedAll(" A", []) == Drained([], " A");
  }

  lemma ShortHoldsNothing(s: string)
    requires s == " " || s == " A"
    ensures Drain(s) == Drained([], s)
  {
    hide TerminatorCut;
    assert !CutAt(s, 0) by {
      PlainHoldsNoCut(s, 0);
    }
    if |s| > 1 {
      PlainHoldsNoCut(s, 1);
    }
    assert EndFrom(s, |s|) == None && EndFrom(s, 1) == None;
    DrainStop(s);
  }
}
