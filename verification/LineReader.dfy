/**
 Bounded line reading (crates/monoloop-connector-cursor/src/process.rs) from a reader that delivers its bytes in
 any chunks.  The specification sees only the byte stream, so no result depends on the chunking.
 */
module LineReader {
  import opened Common
  import opened Utf8

  const NEWLINE: byte := 10

  datatype LineError = TooLong | ReadFailed

  /** The position of the first newline, or the length when there is none. */
  function NewlineAt(s: seq<byte>): (n: nat)
    ensures n <= |s|
    ensures n < |s| ==> s[n] == NEWLINE
    ensures forall k :: 0 <= k < n ==> s[k] != NEWLINE
  {
    if s == [] || s[0] == NEWLINE then 0 else 1 + NewlineAt(s[1..])
  }

  predicate HasLine(s: seq<byte>) { NewlineAt(s) < |s| }

  /** Length of the first line with its newline, or of everything when there is no newline. */
  function LineLen(s: seq<byte>): (n: nat)
    ensures n <= |s|
    ensures s != [] ==> n > 0
  {
    if HasLine(s) then NewlineAt(s) + 1 else |s|
  }

  function Cap(maxBytes: nat): nat { if maxBytes < 1 then 1 else maxBytes }

  /** What one read returns, from the unread bytes and whether the stream breaks off with a read error. */
  function LineOf(rest: seq<byte>, broken: bool, maxBytes: nat): Result<Option<seq<byte>>, LineError> {
    if LineLen(rest) > Cap(maxBytes) then Err(TooLong)
    else if !HasLine(rest) && broken then Err(ReadFailed)
    else if rest == [] then Ok(None)
    else Ok(Some(rest[..LineLen(rest)]))
  }

  lemma {:induction false} NewlineBeyond(a: seq<byte>, b: seq<byte>)
    requires NEWLINE !in a
    ensures NewlineAt(a + b) == |a| + NewlineAt(b)
  {
    if a == [] {
      assert a + b == b;
    } else {
      assert (a + b)[1..] == a[1..] + b;
      NewlineBeyond(a[1..], b);
    }
  }

  lemma {:induction false} NewlineWithin(a: seq<byte>, b: seq<byte>)
    requires HasLine(a)
    ensures NewlineAt(a + b) == NewlineAt(a)
  {
    if a[0] != NEWLINE {
      assert (a + b)[1..] == a[1..] + b;
      NewlineWithin(a[1..], b);
    }
  }

  /** A `BufRead` over reads still to come: a read of zero bytes is the end, so each of them is non-empty. */
  class Reader {
    var buffer: seq<byte>
    var source: seq<seq<byte>>
    const broken: bool

    predicate Valid()
      reads this
    {
      forall k :: 0 <= k < |source| ==> source[k] != []
    }

    function Remaining(): seq<byte>
      reads this
    {
      buffer + Flatten(source)
    }

    constructor (source: seq<seq<byte>>, broken: bool)
      requires forall k :: 0 <= k < |source| ==> source[k] != []
      ensures Valid() && Remaining() == Flatten(source) && this.broken == broken
    {
      this.buffer := [];
      this.source := source;
      this.broken := broken;
    }

    /** The bytes at hand, reading more only when there are none; empty at the end. */
    method FillBuf() returns (r: Result<seq<byte>, LineError>)
      requires Valid()
      modifies this
      ensures Valid() && Remaining() == old(Remaining())
      ensures r == if Remaining() == [] && broken then Err(ReadFailed) else Ok(buffer)
      ensures buffer == [] ==> Remaining() == []
    {
      if buffer == [] && source != [] {
        buffer, source := source[0], source[1..];
      }
      if buffer == [] && broken {
        return Err(ReadFailed);
      }
      return Ok(buffer);
    }

    method Consume(n: nat)
      requires Valid() && n <= |buffer|
      modifies this`buffer
      ensures Valid() && old(buffer) == old(buffer)[..n] + buffer
      ensures Remaining() == old(Remaining())[n..]
    {
      buffer := buffer[n..];
    }
  }

  /**
   One line, whatever the chunks: the bytes through the first newline, or to the end of the stream, when they are
   within the cap, and an error exactly when they are not (or when the stream breaks off before that).
   */
  method ReadLineBounded(reader: Reader, maxBytes: nat) returns (r: Result<Option<seq<byte>>, LineError>)
    requires reader.Valid()
    modifies reader
    ensures reader.Valid()
    ensures r == LineOf(old(reader.Remaining()), reader.broken, maxBytes)
    ensures r.Ok? ==> old(reader.Remaining()) == (if r.value.Some? then r.value.value else []) + reader.Remaining()
    ensures WithinLine(old(reader.Remaining()), reader.Remaining())
    ensures r != Ok(None) && r != Err(ReadFailed) ==> |reader.Remaining()| < |old(reader.Remaining())|
  {
    hide LineOf, LineLen, HasLine, WithinLine, Flatten;
    ghost var rest := reader.Remaining();
    var buf: seq<byte> := [];
    while true
      invariant reader.Valid()
      invariant rest == buf + reader.Remaining()
      invariant NEWLINE !in buf && |buf| <= Cap(maxBytes)
      decreases |reader.Remaining()|
    {
      ghost var unread := reader.Remaining();
      var got := reader.FillBuf();
      if got.Err? {
        AtEnd(rest, buf, unread, reader.broken, maxBytes);
        return Err(got.error);
      }
      var available := got.value;
      if available == [] {
        AtEnd(rest, buf, unread, reader.broken, maxBytes);
        return if buf == [] then Ok(None) else Ok(Some(buf));
      }
      var pos := NewlineAt(available);
      ghost var later := Flatten(reader.source);
      assert rest == buf + (available + later);
      if pos < |available| {
        LineEndsHere(rest, buf, available, later, reader.broken, maxBytes);
        reader.Consume(pos + 1);
        return if |buf| + pos + 1 > Cap(maxBytes) then Err(TooLong) else Ok(Some(buf + available[..pos + 1]));
      }
      LineGoesOn(rest, buf, available, later, reader.broken, maxBytes);
      reader.Consume(|available|);
      if |buf| + |available| > Cap(maxBytes) {
        return Err(TooLong);
      }
      buf := buf + available;
    }
  }

  /** What is left is what was there without some bytes of the first line. */
  predicate WithinLine(before: seq<byte>, after: seq<byte>) {
    0 <= |before| - |after| <= LineLen(before) && before[|before| - |after|..] == after
  }

  lemma AtEnd(rest: seq<byte>, buf: seq<byte>, unread: seq<byte>, broken: bool, maxBytes: nat)
    requires rest == buf + unread && unread == [] && NEWLINE !in buf && |buf| <= Cap(maxBytes)
    ensures rest == buf && WithinLine(rest, unread)
    ensures LineOf(rest, broken, maxBytes) ==
            if broken then Err(ReadFailed) else if buf == [] then Ok(None) else Ok(Some(buf))
  {
    assert rest == buf;
    assert rest[|rest|..] == unread && rest[..|rest|] == rest;
  }

  lemma LineEndsHere(
    rest: seq<byte>, buf: seq<byte>, available: seq<byte>, later: seq<byte>, broken: bool, maxBytes: nat)
    requires rest == buf + (available + later) && NEWLINE !in buf && NewlineAt(available) < |available|
    ensures var pos := NewlineAt(available);
            var line := buf + available[..pos + 1];
            && LineOf(rest, broken, maxBytes) == (if |line| > Cap(maxBytes) then Err(TooLong) else Ok(Some(line)))
            && rest == line + (available + later)[pos + 1..]
            && WithinLine(rest, (available + later)[pos + 1..])
  {
    hide NewlineAt;
    var pos := NewlineAt(available);
    NewlineBeyond(buf, available + later);
    NewlineWithin(available, later);
    Regroup(buf, available, later, pos + 1);
  }

  lemma Regroup(buf: seq<byte>, available: seq<byte>, later: seq<byte>, n: nat)
    requires n <= |available|
    ensures var rest := buf + (available + later);
            && rest[..|buf| + n] == buf + available[..n]
            && rest[|buf| + n..] == (available + later)[n..]
            && rest == (buf + available[..n]) + (available + later)[n..]
  {
    var rest := buf + (available + later);
    assert rest == rest[..|buf| + n] + rest[|buf| + n..];
  }

  lemma LineGoesOn(
    rest: seq<byte>, buf: seq<byte>, available: seq<byte>, later: seq<byte>, broken: bool, maxBytes: nat)
    requires rest == buf + (available + later) && NEWLINE !in buf && NewlineAt(available) == |available|
    ensures NEWLINE !in available
    ensures (available + later)[|available|..] == later && rest == (buf + available) + later && WithinLine(rest, later)
    ensures |buf| + |available| > Cap(maxBytes) ==> LineOf(rest, broken, maxBytes) == Err(TooLong)
  {
    hide NewlineAt;
    NewlineBeyond(buf, available + later);
    NewlineBeyond(available, later);
    Regroup(buf, available, later, |available|);
    assert available[..|available|] == available;
  }

  // A whole stream.

  datatype Reading = Reading(lines: seq<seq<byte>>, end: Option<LineError>)

  /** The lines the pump gets before the end of the stream or the first error. */
  function ReadingOf(rest: seq<byte>, broken: bool, maxBytes: nat): Reading {
    match LineOf(rest, broken, maxBytes)
    case Err(e) => Reading([], Some(e))
    case Ok(None) => Reading([], None)
    case Ok(Some(line)) =>
      var tail := ReadingOf(rest[LineLen(rest)..], broken, maxBytes);
      Reading([line] + tail.lines, tail.end)
  }

  method ReadAll(reader: Reader, maxBytes: nat) returns (r: Reading)
    requires reader.Valid()
    modifies reader
    ensures r == ReadingOf(old(reader.Remaining()), reader.broken, maxBytes)
  {
    hide LineOf, LineLen, HasLine, WithinLine, Flatten, ReadingOf;
    var lines: seq<seq<byte>> := [];
    ghost var rest := reader.Remaining();
    assert [] + ReadingOf(rest, reader.broken, maxBytes).lines == ReadingOf(rest, reader.broken, maxBytes).lines;
    while true
      invariant reader.Valid()
      invariant var all := ReadingOf(rest, reader.broken, maxBytes);
                var tail := ReadingOf(reader.Remaining(), reader.broken, maxBytes);
                all == Reading(lines + tail.lines, tail.end)
      decreases |reader.Remaining()|
    {
      ghost var before := reader.Remaining();
      var got := ReadLineBounded(reader, maxBytes);
      ReadingUnfolds(before, reader.broken, maxBytes, got, reader.Remaining());
      assert lines + [] == lines;
      match got {
        case Err(e) => return Reading(lines, Some(e));
        case Ok(None) => return Reading(lines, None);
        case Ok(Some(line)) =>
          ghost var later := ReadingOf(reader.Remaining(), reader.broken, maxBytes).lines;
          assert lines + ([line] + later) == (lines + [line]) + later;
          lines := lines + [line];
      }
    }
  }

  lemma ReadingUnfolds(
    before: seq<byte>, broken: bool, maxBytes: nat, got: Result<Option<seq<byte>>, LineError>, after: seq<byte>)
    requires got == LineOf(before, broken, maxBytes)
    requires got.Ok? && got.value.Some? ==> before == got.value.value + after
    ensures ReadingOf(before, broken, maxBytes) ==
            match got
            case Err(e) => Reading([], Some(e))
            case Ok(None) => Reading([], None)
            case Ok(Some(line)) =>
              Reading([line] + ReadingOf(after, broken, maxBytes).lines, ReadingOf(after, broken, maxBytes).end)
  {
    hide NewlineAt;
    if got.Ok? && got.value.Some? {
      assert before[LineLen(before)..] == after;
    }
  }

  predicate WellFormedLine(line: seq<byte>, maxBytes: nat) {
    0 < |line| <= Cap(maxBytes) && NEWLINE !in line[..|line| - 1]
  }

  /** Lines within the cap, cut after newlines, that give back the stream when it was read to its end. */
  predicate Faithful(r: Reading, rest: seq<byte>, maxBytes: nat) {
    && Flatten(r.lines) <= rest
    && (r.end == None ==> Flatten(r.lines) == rest)
    && (forall k :: 0 <= k < |r.lines| ==> WellFormedLine(r.lines[k], maxBytes))
    && (forall k :: 0 <= k < |r.lines| - 1 ==> EndsLine(r.lines[k]))
  }

  predicate EndsLine(line: seq<byte>) { line != [] && line[|line| - 1] == NEWLINE }

  /** Whatever the stream, its reading is faithful. */
  lemma {:induction false} LinesConcatenate(rest: seq<byte>, broken: bool, maxBytes: nat)
    ensures Faithful(ReadingOf(rest, broken, maxBytes), rest, maxBytes)
    decreases |rest|
  {
    hide HasLine, Faithful, EndsLine;
    match LineOf(rest, broken, maxBytes) {
      case Err(e) => NothingRead(rest, maxBytes, Some(e));
      case Ok(None) => NothingRead(rest, maxBytes, None);
      case Ok(Some(line)) =>
        var tail := rest[LineLen(rest)..];
        LinesConcatenate(tail, broken, maxBytes);
        assert rest == line + tail;
        FirstLine(rest, maxBytes);
        LineAdded(line, tail, ReadingOf(tail, broken, maxBytes), maxBytes);
    }
  }

  lemma NothingRead(rest: seq<byte>, maxBytes: nat, end: Option<LineError>)
    requires end == None ==> rest == []
    ensures Faithful(Reading([], end), rest, maxBytes)
  {
  }

  lemma LineAdded(line: seq<byte>, tail: seq<byte>, t: Reading, maxBytes: nat)
    requires Faithful(t, tail, maxBytes) && WellFormedLine(line, maxBytes) && (tail != [] ==> EndsLine(line))
    ensures Faithful(Reading([line] + t.lines, t.end), line + tail, maxBytes)
  {
    hide WellFormedLine, EndsLine;
    OneMoreLine(line, t.lines, maxBytes);
    PrefixUnder(line, Flatten(t.lines), tail);
    if t.lines != [] {
      SomethingRead(t.lines, maxBytes);
    }
  }

  lemma SomethingRead(lines: seq<seq<byte>>, maxBytes: nat)
    requires lines != [] && WellFormedLine(lines[0], maxBytes)
    ensures Flatten(lines) != []
  {
  }

  lemma FirstLine(rest: seq<byte>, maxBytes: nat)
    requires 0 < LineLen(rest) <= Cap(maxBytes)
    ensures WellFormedLine(rest[..LineLen(rest)], maxBytes)
    ensures rest[LineLen(rest)..] != [] ==> EndsLine(rest[..LineLen(rest)])
  {
  }

  lemma PrefixUnder(line: seq<byte>, p: seq<byte>, tail: seq<byte>)
    requires p <= tail
    ensures line + p <= line + tail
  {
  }

  lemma OneMoreLine(line: seq<byte>, lines: seq<seq<byte>>, maxBytes: nat)
    requires WellFormedLine(line, maxBytes) && forall k :: 0 <= k < |lines| ==> WellFormedLine(lines[k], maxBytes)
    ensures forall k :: 0 <= k < |[line] + lines| ==> WellFormedLine(([line] + lines)[k], maxBytes)
    ensures Flatten([line] + lines) == line + Flatten(lines)
  {
    assert ([line] + lines)[1..] == lines;
  }

  /** Some stretch of the stream between newlines is longer than the cap allows. */
  ghost predicate HasLongLine(rest: seq<byte>, maxBytes: nat) {
    exists i :: LineStart(rest, i) && LineLen(rest[i..]) > Cap(maxBytes)
  }

  predicate LineStart(rest: seq<byte>, i: int) { 0 <= i <= |rest| && (i == 0 || rest[i - 1] == NEWLINE) }

  lemma LaterLineStart(rest: seq<byte>, i: int)
    requires LineStart(rest, i) && i > 0 && rest != []
    ensures i >= LineLen(rest) && LineStart(rest[LineLen(rest)..], i - LineLen(rest))
    ensures rest[LineLen(rest)..][i - LineLen(rest)..] == rest[i..]
  {
  }

  /** A line over `max(1, maxBytes)` bytes, newline included, is too long: a cap of zero counts as one. */
  lemma TooLongMeans(rest: seq<byte>, maxBytes: nat)
    ensures HasLongLine(rest, maxBytes) <==>
            exists i :: LineStart(rest, i) && LineLen(rest[i..]) > (if maxBytes == 0 then 1 else maxBytes)
  {
    assert Cap(maxBytes) == if maxBytes == 0 then 1 else maxBytes;
  }

  /** A stream without a line that is too long is read to its end, or to where it breaks off. */
  lemma {:induction false} EndsExactly(rest: seq<byte>, broken: bool, maxBytes: nat)
    requires !HasLongLine(rest, maxBytes)
    ensures ReadingOf(rest, broken, maxBytes).end == if broken then Some(ReadFailed) else None
    decreases |rest|
  {
    hide HasLongLine, NewlineAt, Cap;
    TooLongExactly(rest, broken, maxBytes);
    match LineOf(rest, broken, maxBytes) {
      case Err(e) =>
      case Ok(None) =>
      case Ok(Some(line)) =>
        TooLongExactly(rest[LineLen(rest)..], broken, maxBytes);
        EndsExactly(rest[LineLen(rest)..], broken, maxBytes);
    }
  }

  /** Reading fails for length exactly when the stream holds a line over the cap. */
  lemma {:induction false} TooLongExactly(rest: seq<byte>, broken: bool, maxBytes: nat)
    ensures ReadingOf(rest, broken, maxBytes).end == Some(TooLong) <==> HasLongLine(rest, maxBytes)
    decreases |rest|
  {
    assert rest[0..] == rest && LineStart(rest, 0);
    match LineOf(rest, broken, maxBytes) {
      case Err(e) =>
        if e == ReadFailed {
          OneLineOnly(rest, maxBytes);
        }
      case Ok(None) =>
      case Ok(Some(line)) =>
        var n := LineLen(rest);
        TooLongExactly(rest[n..], broken, maxBytes);
        if HasLongLine(rest, maxBytes) {
          var i :| LineStart(rest, i) && LineLen(rest[i..]) > Cap(maxBytes);
          LaterLineStart(rest, i);
        }
        if HasLongLine(rest[n..], maxBytes) {
          var i :| LineStart(rest[n..], i) && LineLen(rest[n..][i..]) > Cap(maxBytes);
          EarlierLineStart(rest, i);
        }
    }
  }

  lemma OneLineOnly(rest: seq<byte>, maxBytes: nat)
    requires !HasLine(rest) && |rest| <= Cap(maxBytes)
    ensures !HasLongLine(rest, maxBytes)
  {
  }

  lemma EarlierLineStart(rest: seq<byte>, i: int)
    requires LineStart(rest[LineLen(rest)..], i)
    requires LineLen(rest[LineLen(rest)..][i..]) > 0
    ensures LineStart(rest, LineLen(rest) + i) && rest[LineLen(rest)..][i..] == rest[LineLen(rest) + i..]
  {
  }
}
