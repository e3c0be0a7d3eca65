/** Incremental JSON framing (crates/monoloop-interpreter/src/acp.rs, `drain_json_values`). */
module JsonFraming {
  import opened Common
  import opened Utf8

  const QUOTE: byte := 0x22
  const BACKSLASH: byte := 0x5C
  const NEWLINE: byte := 0x0A

  predicate IsSpace(b: byte) { b == 0x20 || b == 0x09 || b == 0x0A || b == 0x0C || b == 0x0D }

  /** `{` or `[`. */
  predicate Opens(b: byte) { b == 0x7B || b == 0x5B }

  /** `}` or `]`. */
  predicate Closes(b: byte) { b == 0x7D || b == 0x5D }

  /** Scanner state: nesting depth, inside a string, after a backslash. */
  datatype Lex = Lex(depth: int, inString: bool, escape: bool)

  const OUTSIDE := Lex(0, false, false)

  function Next(st: Lex, b: byte): Lex {
    if st.inString then
      if st.escape then st.(escape := false)
      else if b == BACKSLASH then st.(escape := true)
      else if b == QUOTE then st.(inString := false)
      else st
    else if b == QUOTE then st.(inString := true)
    else if Opens(b) then st.(depth := st.depth + 1)
    else if Closes(b) then st.(depth := st.depth - 1)
    else st
  }

  /** Byte `b` closes the outermost bracket. */
  predicate Completes(st: Lex, b: byte) { !st.inString && Closes(b) && st.depth == 1 }

  function Shift(n: nat, r: Option<nat>): Option<nat> { if r.None? then None else Some(n + r.value) }

  /** Length of the shortest prefix whose last byte closes the outermost bracket. */
  function ContainerEnd(st: Lex, t: seq<byte>): (r: Option<nat>)
    decreases |t|
    ensures r.Some? ==> 1 <= r.value <= |t|
  {
    if t == [] then None
    else if Completes(st, t[0]) then Some(1)
    else Shift(1, ContainerEnd(Next(st, t[0]), t[1..]))
  }

  /** Length of the first line, newline included. */
  function LineEnd(t: seq<byte>): (r: Option<nat>)
    ensures r.Some? ==> 1 <= r.value <= |t|
  {
    if t == [] then None
    else if t[0] == NEWLINE then Some(1)
    else Shift(1, LineEnd(t[1..]))
  }

  function JsonEnd(buf: seq<byte>): (r: Option<nat>)
    ensures r.Some? ==> 1 <= r.value <= |buf|
  {
    if buf == [] then None
    else if Opens(buf[0]) then ContainerEnd(OUTSIDE, buf)
    else LineEnd(buf)
  }

  function SkipSpaces(buf: seq<byte>): (r: seq<byte>)
    ensures |r| <= |buf|
    ensures r == [] || !IsSpace(r[0])
  {
    if buf != [] && IsSpace(buf[0]) then SkipSpaces(buf[1..]) else buf
  }

  /** Framed texts and the remainder, or the buffer at the text that does not parse. */
  datatype Framed = Framed(texts: seq<seq<byte>>, rest: seq<byte>) | Malformed(rest: seq<byte>)

  function Prepend(texts: seq<seq<byte>>, f: Framed): Framed {
    if f.Malformed? then f else Framed(texts + f.texts, f.rest)
  }

  /** `parses` stands for `serde_json::from_slice`. */
  function Frame(parses: seq<byte> -> bool, buf: seq<byte>): Framed
    decreases |buf|
  {
    var b := SkipSpaces(buf);
    if b == [] then Framed([], [])
    else match JsonEnd(b)
      case None => Framed([], b)
      case Some(end) =>
        if !parses(b[..end]) then Malformed(b)
        else Prepend([b[..end]], Frame(parses, b[end..]))
  }

  method FindCompleteJsonEnd(buf: seq<byte>) returns (r: Option<nat>)
    ensures r == JsonEnd(buf)
  {
    if buf == [] {
      return None;
    }
    if !Opens(buf[0]) {
      r := FindLineEnd(buf);
    } else {
      r := FindContainerEnd(buf);
    }
  }

  method FindLineEnd(buf: seq<byte>) returns (r: Option<nat>)
    ensures r == LineEnd(buf)
  {
    var i := 0;
    while i < |buf|
      invariant i <= |buf| && LineEnd(buf) == Shift(i, LineEnd(buf[i..]))
    {
      if buf[i] == NEWLINE {
        return Some(i + 1);
      }
      assert buf[i..][1..] == buf[i + 1..];
      i := i + 1;
    }
    return None;
  }

  lemma ContainerStep(st: Lex, buf: seq<byte>, i: nat, before: Option<nat>)
    requires i < |buf| && before == Shift(i, ContainerEnd(st, buf[i..]))
    ensures Completes(st, buf[i]) ==> before == Some(i + 1)
    ensures !Completes(st, buf[i]) ==> before == Shift(i + 1, ContainerEnd(Next(st, buf[i]), buf[i + 1..]))
  {
    assert buf[i..][1..] == buf[i + 1..];
  }

  lemma ContainerOfNothing(st: Lex, buf: seq<byte>)
    ensures ContainerEnd(st, buf[|buf|..]) == None
    ensures buf[0..] == buf
  {
  }

  method FindContainerEnd(buf: seq<byte>) returns (r: Option<nat>)
    ensures r == ContainerEnd(OUTSIDE, buf)
  {
    hide ContainerEnd;
    ContainerOfNothing(OUTSIDE, buf);
    var depth, inString, escape := 0, false, false;
    var i := 0;
    while i < |buf|
      invariant i <= |buf|
      invariant escape ==> inString
      invariant ContainerEnd(OUTSIDE, buf) == Shift(i, ContainerEnd(Lex(depth, inString, escape), buf[i..]))
    {
      var b := buf[i];
      ContainerStep(Lex(depth, inString, escape), buf, i, ContainerEnd(OUTSIDE, buf));
      if inString {
        if escape {
          escape := false;
        } else if b == BACKSLASH {
          escape := true;
        } else if b == QUOTE {
          inString := false;
        }
      } else if b == QUOTE {
        inString := true;
      } else if Opens(b) {
        depth := depth + 1;
      } else if Closes(b) {
        depth := depth - 1;
        if depth == 0 {
          return Some(i + 1);
        }
      }
      i := i + 1;
    }
    ContainerOfNothing(Lex(depth, inString, escape), buf);
    return None;
  }

  /** Drain every complete text off the front of the buffer. */
  method DrainJsonValues(parses: seq<byte> -> bool, buffer: seq<byte>)
    returns (out: Result<seq<seq<byte>>, ()>, left: seq<byte>)
    ensures match Frame(parses, buffer)
            case Framed(texts, rest) => out == Ok(texts) && left == rest
            case Malformed(rest) => out == Err(()) && left == rest
  {
    var values: seq<seq<byte>> := [];
    left := buffer;
    while true
      invariant Prepend(values, Frame(parses, left)) == Frame(parses, buffer)
      decreases |left|
    {
      left := DropSpaces(parses, left);
      if left == [] {
        PrependToRest(values, left);
        break;
      }
      var end := FindCompleteJsonEnd(left);
      if end.None? {
        PrependToRest(values, left);
        break;
      }
      var text := left[..end.value];
      if !parses(text) {
        return Err(()), left;
      }
      assert Frame(parses, left) == Prepend([text], Frame(parses, left[end.value..]));
      PrependTwice(values, [text], Frame(parses, left[end.value..]));
      values := values + [text];
      left := left[end.value..];
    }
    out := Ok(values);
  }

  lemma PrependToRest(s: seq<seq<byte>>, rest: seq<byte>)
    ensures Prepend(s, Framed([], rest)) == Framed(s, rest)
  {
    assert s + [] == s;
  }

  lemma PrependTwice(s: seq<seq<byte>>, t: seq<seq<byte>>, f: Framed)
    ensures Prepend(s, Prepend(t, f)) == Prepend(s + t, f)
  {
    if f.Framed? {
      assert s + (t + f.texts) == (s + t) + f.texts;
    }
  }

  method DropSpaces(ghost parses: seq<byte> -> bool, buf: seq<byte>) returns (r: seq<byte>)
    ensures r == SkipSpaces(buf) && SkipSpaces(r) == r
    ensures Frame(parses, r) == Frame(parses, buf)
  {
    var start := 0;
    while start < |buf| && IsSpace(buf[start])
      invariant start <= |buf| && SkipSpaces(buf) == SkipSpaces(buf[start..])
    {
      assert buf[start..][1..] == buf[start + 1..];
      start := start + 1;
    }
    r := buf[start..];
  }

  // Chunk independence, for every byte stream.

  lemma {:induction false} ContainerEndStable(st: Lex, a: seq<byte>, b: seq<byte>)
    requires ContainerEnd(st, a).Some?
    ensures ContainerEnd(st, a + b) == ContainerEnd(st, a)
    decreases |a|
  {
    if !Completes(st, a[0]) {
      assert (a + b)[1..] == a[1..] + b;
      ContainerEndStable(Next(st, a[0]), a[1..], b);
    }
  }

  lemma {:induction false} LineEndStable(a: seq<byte>, b: seq<byte>)
    requires LineEnd(a).Some?
    ensures LineEnd(a + b) == LineEnd(a)
  {
    if a[0] != NEWLINE {
      assert (a + b)[1..] == a[1..] + b;
      LineEndStable(a[1..], b);
    }
  }

  /** A frame end found in a buffer is still the end after any extension. */
  lemma JsonEndStable(a: seq<byte>, b: seq<byte>)
    requires JsonEnd(a).Some?
    ensures JsonEnd(a + b) == JsonEnd(a)
  {
    if Opens(a[0]) {
      ContainerEndStable(OUTSIDE, a, b);
    } else {
      LineEndStable(a, b);
    }
  }

  lemma {:induction false} SkipSpacesExtend(a: seq<byte>, b: seq<byte>)
    ensures SkipSpaces(a + b) == if SkipSpaces(a) != [] then SkipSpaces(a) + b else SkipSpaces(b)
  {
    if a == [] {
      assert a + b == b;
    } else if IsSpace(a[0]) {
      assert (a + b)[1..] == a[1..] + b;
      SkipSpacesExtend(a[1..], b);
    }
  }

  /** Space, tab, line feed, form feed and carriage return are skipped in front of a value, and nothing else. */
  lemma {:induction false} SpacesAreSkipped(w: seq<byte>, b: byte, t: seq<byte>)
    requires forall k :: 0 <= k < |w| ==> w[k] in {0x20, 0x09, 0x0A, 0x0C, 0x0D}
    requires b !in {0x20, 0x09, 0x0A, 0x0C, 0x0D}
    ensures SkipSpaces(w + ([b] + t)) == [b] + t
  {
    if w == [] {
      assert w + ([b] + t) == [b] + t;
    } else {
      assert (w + ([b] + t))[1..] == w[1..] + ([b] + t);
      SpacesAreSkipped(w[1..], b, t);
    }
  }

  lemma FrameSkips(parses: seq<byte> -> bool, a: seq<byte>, b: seq<byte>)
    requires SkipSpaces(a) == SkipSpaces(b)
    ensures Frame(parses, a) == Frame(parses, b)
  {
  }

  lemma SkipsTwice(a: seq<byte>)
    ensures SkipSpaces(SkipSpaces(a)) == SkipSpaces(a)
  {
  }

  /**
   One drain of `a + b` in terms of a drain of `a`: the texts of `a` come first, and the rest goes on from what `a`
   leaves; a failure in the rest fails the whole drain, at the same text, and returns no text at all.
   */
  lemma {:induction false} FrameSplit(parses: seq<byte> -> bool, a: seq<byte>, b: seq<byte>)
    ensures match Frame(parses, a)
            case Framed(texts, rest) => Frame(parses, a + b) == Prepend(texts, Frame(parses, rest + b))
            case Malformed(rest) => Frame(parses, a + b) == Malformed(rest + b)
    decreases |a|
  {
    hide JsonEnd, SkipSpaces;
    var s := SkipSpaces(a);
    SkipSpacesExtend(a, b);
    SkipsTwice(a);
    SkipSpacesExtend(s, b);
    if s == [] {
      FrameSkips(parses, a + b, [] + b);
      PrependNothing(Frame(parses, [] + b));
    } else {
      FrameSkips(parses, a + b, s + b);
      if JsonEnd(s).None? {
        PrependNothing(Frame(parses, s + b));
      } else {
        var end := JsonEnd(s).value;
        var text := s[..end];
        JsonEndStable(s, b);
        assert (s + b)[..end] == text;
        assert (s + b)[end..] == s[end..] + b;
        if parses(text) {
          FrameSplit(parses, s[end..], b);
          var f := Frame(parses, s[end..]);
          if f.Framed? {
            PrependTwice([text], f.texts, Frame(parses, f.rest + b));
          }
        }
      }
    }
  }

  lemma PrependNothing(f: Framed)
    ensures Prepend([], f) == f
  {
    if f.Framed? {
      assert [] + f.texts == f.texts;
    }
  }

  /** Texts delivered by a row of drains, the bytes left in the buffer, and whether the last drain failed. */
  datatype Drains = Drains(texts: seq<seq<byte>>, rest: seq<byte>, failed: bool)

  function Once(f: Framed): Drains {
    match f
    case Framed(texts, rest) => Drains(texts, rest, false)
    case Malformed(rest) => Drains([], rest, true)
  }

  function Deliver(texts: seq<seq<byte>>, d: Drains): Drains { d.(texts := texts + d.texts) }

  /** Drain after every chunk, up to the first drain that fails; what earlier drains returned is delivered. */
  function FrameAll(parses: seq<byte> -> bool, buf: seq<byte>, chunks: seq<seq<byte>>): Drains
    decreases |chunks|
  {
    if chunks == [] then Drains([], buf, false)
    else
      match Frame(parses, buf + chunks[0])
      case Framed(texts, rest) => Deliver(texts, FrameAll(parses, rest, chunks[1..]))
      case Malformed(rest) => Drains([], rest, true)
  }

  /** The interpretation's loop: append a chunk, drain, hand over what came out. */
  method IngestChunks(parses: seq<byte> -> bool, chunks: seq<seq<byte>>)
    returns (texts: seq<seq<byte>>, left: seq<byte>, failed: bool)
    ensures Drains(texts, left, failed) == FrameAll(parses, [], chunks)
  {
    hide Frame;
    texts, left, failed := [], [], false;
    var i := 0;
    assert chunks[0..] == chunks;
    DeliverNothing(FrameAll(parses, [], chunks));
    while i < |chunks|
      invariant i <= |chunks|
      invariant Deliver(texts, FrameAll(parses, left, chunks[i..])) == FrameAll(parses, [], chunks)
    {
      assert chunks[i..][1..] == chunks[i + 1..];
      var out, rest := DrainJsonValues(parses, left + chunks[i]);
      if out.Err? {
        assert texts + [] == texts;
        return texts, rest, true;
      }
      DeliverTwice(texts, out.value, FrameAll(parses, rest, chunks[i + 1..]));
      texts, left := texts + out.value, rest;
      i := i + 1;
    }
    assert texts + [] == texts;
  }

  lemma DeliverNothing(d: Drains)
    ensures Deliver([], d) == d
  {
    assert [] + d.texts == d.texts;
  }

  lemma DeliverTwice(s: seq<seq<byte>>, t: seq<seq<byte>>, d: Drains)
    ensures Deliver(s, Deliver(t, d)) == Deliver(s + t, d)
  {
    assert s + (t + d.texts) == (s + t) + d.texts;
  }

  predicate Drained(buf: seq<byte>) { SkipSpaces(buf) == buf && JsonEnd(buf).None? }

  lemma {:induction false} FrameLeavesDrained(parses: seq<byte> -> bool, buf: seq<byte>)
    ensures Frame(parses, buf).Framed? ==> Drained(Frame(parses, buf).rest)
    decreases |buf|
  {
    var b := SkipSpaces(buf);
    SkipsTwice(buf);
    if b != [] && JsonEnd(b).Some? {
      FrameLeavesDrained(parses, b[JsonEnd(b).value..]);
    }
  }

  lemma DrainedFramesNothing(parses: seq<byte> -> bool, buf: seq<byte>)
    requires Drained(buf)
    ensures Frame(parses, buf) == Framed([], buf)
  {
  }

  /** One drain of everything up to chunk `n`. */
  function FramedThrough(parses: seq<byte> -> bool, buf: seq<byte>, chunks: seq<seq<byte>>, n: nat): Framed
    requires n <= |chunks|
  {
    Frame(parses, buf + Flatten(chunks[..n]))
  }

  lemma FramedThroughNothing(parses: seq<byte> -> bool, buf: seq<byte>, chunks: seq<seq<byte>>)
    requires Drained(buf)
    ensures FramedThrough(parses, buf, chunks, 0) == Framed([], buf)
  {
    assert buf + Flatten(chunks[..0]) == buf;
    DrainedFramesNothing(parses, buf);
  }

  lemma FramedThroughNext(parses: seq<byte> -> bool, buf: seq<byte>, chunks: seq<seq<byte>>, n: nat)
    requires 0 < n <= |chunks|
    ensures var later := Flatten(chunks[1..][..n - 1]);
            FramedThrough(parses, buf, chunks, n) ==
            match Frame(parses, buf + chunks[0])
            case Framed(texts, rest) => Prepend(texts, FramedThrough(parses, rest, chunks[1..], n - 1))
            case Malformed(rest) => Malformed(rest + later)
  {
    hide Frame;
    var later := Flatten(chunks[1..][..n - 1]);
    assert chunks[..n][0] == chunks[0] && chunks[..n][1..] == chunks[1..][..n - 1];
    assert buf + Flatten(chunks[..n]) == (buf + chunks[0]) + later;
    FrameSplit(parses, buf + chunks[0], later);
  }

  lemma FramedThroughFirst(parses: seq<byte> -> bool, buf: seq<byte>, chunks: seq<seq<byte>>)
    requires chunks != []
    ensures FramedThrough(parses, buf, chunks, 1) == Frame(parses, buf + chunks[0])
  {
    hide Frame;
    assert Flatten(chunks[..1][1..]) == [];
    assert chunks[0] + Flatten(chunks[..1][1..]) == chunks[0];
  }

  /** Chunk `n` fails: delivered is what one drain of the chunks before it frames, and later chunks are not read. */
  lemma {:induction false} FailsAtChunk(parses: seq<byte> -> bool, buf: seq<byte>, chunks: seq<seq<byte>>, n: nat)
    requires Drained(buf) && n < |chunks|
    requires FramedThrough(parses, buf, chunks, n).Framed? && FramedThrough(parses, buf, chunks, n + 1).Malformed?
    ensures FrameAll(parses, buf, chunks) ==
            Drains(FramedThrough(parses, buf, chunks, n).texts, FramedThrough(parses, buf, chunks, n + 1).rest, true)
    decreases n
  {
    hide Frame, FramedThrough, Drained;
    FramedThroughNext(parses, buf, chunks, n + 1);
    if n == 0 {
      FramedThroughNothing(parses, buf, chunks);
      FramedThroughFirst(parses, buf, chunks);
    } else {
      FramedThroughNext(parses, buf, chunks, n);
      FrameLeavesDrained(parses, buf + chunks[0]);
      FailsAtChunk(parses, Frame(parses, buf + chunks[0]).rest, chunks[1..], n - 1);
    }
  }

  /** A stream that is not malformed is framed the same however it is cut. */
  lemma {:induction false} FrameChunking(parses: seq<byte> -> bool, buf: seq<byte>, chunks: seq<seq<byte>>)
    requires Drained(buf) && Frame(parses, buf + Flatten(chunks)).Framed?
    ensures FrameAll(parses, buf, chunks) == Once(Frame(parses, buf + Flatten(chunks)))
    decreases |chunks|
  {
    hide JsonEnd, SkipSpaces, Frame;
    if chunks == [] {
      assert buf + Flatten(chunks) == buf;
      DrainedFramesNothing(parses, buf);
    } else {
      var rest := Flatten(chunks[1..]);
      var f := Frame(parses, buf + chunks[0]);
      FrameSplit(parses, buf + chunks[0], rest);
      assert buf + Flatten(chunks) == (buf + chunks[0]) + rest;
      FrameLeavesDrained(parses, buf + chunks[0]);
      FrameChunking(parses, f.rest, chunks[1..]);
    }
  }

  lemma {:induction false} FailingChunk(parses: seq<byte> -> bool, buf: seq<byte>, chunks: seq<seq<byte>>)
    returns (n: nat)
    requires Drained(buf) && Frame(parses, buf + Flatten(chunks)).Malformed?
    ensures n < |chunks|
    ensures FramedThrough(parses, buf, chunks, n).Framed? && FramedThrough(parses, buf, chunks, n + 1).Malformed?
    decreases |chunks|
  {
    hide Frame, FramedThrough, JsonEnd, SkipSpaces;
    FramedThroughNothing(parses, buf, chunks);
    SomeChunk(parses, buf, chunks);
    var f := Frame(parses, buf + chunks[0]);
    if f.Malformed? {
      n := 0;
      FramedThroughFirst(parses, buf, chunks);
    } else {
      var later := Flatten(chunks[1..]);
      assert buf + Flatten(chunks) == (buf + chunks[0]) + later;
      FrameSplit(parses, buf + chunks[0], later);
      FrameLeavesDrained(parses, buf + chunks[0]);
      var k := FailingChunk(parses, f.rest, chunks[1..]);
      n := k + 1;
      FramedThroughNext(parses, buf, chunks, n);
      FramedThroughNext(parses, buf, chunks, n + 1);
    }
  }

  lemma SomeChunk(parses: seq<byte> -> bool, buf: seq<byte>, chunks: seq<seq<byte>>)
    requires Drained(buf) && Frame(parses, buf + Flatten(chunks)).Malformed?
    ensures chunks != []
  {
    assert buf + [] == buf;
    DrainedFramesNothing(parses, buf);
  }

  /** No text completes in a chunk before the one that completes the malformed text. */
  ghost predicate SilentBeforeFailure(parses: seq<byte> -> bool, buf: seq<byte>, chunks: seq<seq<byte>>) {
    exists n ::
      && 0 <= n < |chunks|
      && FramedThrough(parses, buf, chunks, n).Framed? && FramedThrough(parses, buf, chunks, n).texts == []
      && FramedThrough(parses, buf, chunks, n + 1).Malformed?
  }

  /**
   Drains after each chunk against one drain of the whole, for every stream and cut.  They fail together.  They
   deliver the same texts exactly when the stream is not malformed, or no text completes before the failing chunk.
   */
  lemma ChunkedAgainstWhole(parses: seq<byte> -> bool, buf: seq<byte>, chunks: seq<seq<byte>>)
    requires Drained(buf)
    ensures var whole, many := Frame(parses, buf + Flatten(chunks)), FrameAll(parses, buf, chunks);
            && (many.failed <==> whole.Malformed?)
            && (many.texts == Once(whole).texts <==> whole.Framed? || SilentBeforeFailure(parses, buf, chunks))
  {
    hide Frame, FramedThrough, FrameAll, Drained;
    if Frame(parses, buf + Flatten(chunks)).Framed? {
      FrameChunking(parses, buf, chunks);
    } else {
      var n := FailingChunk(parses, buf, chunks);
      FailsAtChunk(parses, buf, chunks, n);
      if SilentBeforeFailure(parses, buf, chunks) {
        var k :| 0 <= k < |chunks| && FramedThrough(parses, buf, chunks, k).Framed?
                 && FramedThrough(parses, buf, chunks, k).texts == []
                 && FramedThrough(parses, buf, chunks, k + 1).Malformed?;
        FailsAtChunk(parses, buf, chunks, k);
      }
    }
  }

  /** They fail at the same text: what the failing drain leaves begins with it, in both. */
  lemma SameBadText(parses: seq<byte> -> bool, buf: seq<byte>, chunks: seq<seq<byte>>)
    requires Drained(buf) && Frame(parses, buf + Flatten(chunks)).Malformed?
    ensures var whole, many := Frame(parses, buf + Flatten(chunks)), FrameAll(parses, buf, chunks);
            && many.rest <= whole.rest
            && JsonEnd(many.rest).Some? && JsonEnd(whole.rest) == JsonEnd(many.rest)
            && !parses(many.rest[..JsonEnd(many.rest).value])
  {
    hide Frame, FramedThrough, FrameAll, Drained, JsonEnd;
    var n := FailingChunk(parses, buf, chunks);
    FailsAtChunk(parses, buf, chunks, n);
    var head, later := buf + Flatten(chunks[..n + 1]), Flatten(chunks[n + 1..]);
    FlattenSplit(chunks, n + 1);
    assert buf + Flatten(chunks) == head + later;
    FrameSplit(parses, head, later);
    assert FramedThrough(parses, buf, chunks, n + 1) == Frame(parses, head) by {
      ThroughIs(parses, buf, chunks, n + 1);
    }
    MalformedFront(parses, head);
    JsonEndStable(Frame(parses, head).rest, later);
  }

  lemma ThroughIs(parses: seq<byte> -> bool, buf: seq<byte>, chunks: seq<seq<byte>>, n: nat)
    requires n <= |chunks|
    ensures FramedThrough(parses, buf, chunks, n) == Frame(parses, buf + Flatten(chunks[..n]))
  {
    hide Frame;
  }

  lemma {:induction false} MalformedFront(parses: seq<byte> -> bool, buf: seq<byte>)
    requires Frame(parses, buf).Malformed?
    ensures var bad := Frame(parses, buf).rest; JsonEnd(bad).Some? && !parses(bad[..JsonEnd(bad).value])
    decreases |buf|
  {
    hide JsonEnd, SkipSpaces;
    var b := SkipSpaces(buf);
    if parses(b[..JsonEnd(b).value]) {
      MalformedFront(parses, b[JsonEnd(b).value..]);
    }
  }

  // A cut that shows, byte for byte.

  /** `{}` */
  const EMPTY_OBJECT: seq<byte> := [0x7B, 0x7D]

  /** `x` and a newline. */
  const BAD_LINE: seq<byte> := [0x78, 0x0A]

  lemma BadLineIsFramed(parses: seq<byte> -> bool)
    requires !parses(BAD_LINE)
    ensures Frame(parses, BAD_LINE) == Malformed(BAD_LINE)
  {
    assert BAD_LINE[1..] == [0x0A] && LineEnd(BAD_LINE) == Some(2);
    assert BAD_LINE[..2] == BAD_LINE;
  }

  lemma ObjectIsFramed(parses: seq<byte> -> bool)
    requires parses(EMPTY_OBJECT)
    ensures Frame(parses, EMPTY_OBJECT) == Framed([EMPTY_OBJECT], [])
  {
    assert EMPTY_OBJECT[1..] == [0x7D];
    assert ContainerEnd(Next(OUTSIDE, 0x7B), [0x7D]) == Some(1);
    assert JsonEnd(EMPTY_OBJECT) == Some(2);
    assert EMPTY_OBJECT[..2] == EMPTY_OBJECT && EMPTY_OBJECT[2..] == [];
    assert [EMPTY_OBJECT] + [] == [EMPTY_OBJECT];
  }

  /** Cut in front of a bad line, the object is delivered; uncut, it is lost with the error. */
  lemma CutBeforeFailureShows(parses: seq<byte> -> bool)
    requires parses(EMPTY_OBJECT) && !parses(BAD_LINE)
    ensures FrameAll(parses, [], [EMPTY_OBJECT, BAD_LINE]) == Drains([EMPTY_OBJECT], BAD_LINE, true)
    ensures FrameAll(parses, [], [EMPTY_OBJECT + BAD_LINE]) == Drains([], BAD_LINE, true)
  {
    hide Frame;
    ObjectIsFramed(parses);
    BadLineIsFramed(parses);
    assert [] + EMPTY_OBJECT == EMPTY_OBJECT && [] + BAD_LINE == BAD_LINE;
    assert [EMPTY_OBJECT, BAD_LINE][1..] == [BAD_LINE];
    assert FrameAll(parses, [], [BAD_LINE]) == Drains([], BAD_LINE, true);
    assert [EMPTY_OBJECT] + [] == [EMPTY_OBJECT];
    FrameSplit(parses, EMPTY_OBJECT, BAD_LINE);
    assert [] + (EMPTY_OBJECT + BAD_LINE) == EMPTY_OBJECT + BAD_LINE;
  }
}
