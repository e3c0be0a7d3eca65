/**
 OpenAI Chat Completions streaming (crates/monoloop-interpreter/src/openai_chat.rs): server-sent events (section
 9.2.6 of the WHATWG HTML Standard, LF or CRLF lines, `data:` fields only) and tool-call assembly.
 */
module ChatStream {
  import opened Common
  import opened Text
  import opened Utf8

  const LF: byte := 0x0A
  const CR: byte := 0x0D
  const U32: nat := 0x1_0000_0000

  datatype ErrorKind = FrameLimitExceeded | ToolLimitExceeded | MalformedFrame | MalformedPayload

  /** One tool call being assembled. */
  datatype Partial = Partial(id: string, name: string, arguments: string, emittedWaiting: bool, ready: bool)

  const FRESH := Partial("", "", "", false, false)

  /** What the parsed payload of one event holds that the assembler reads. */
  datatype Choice = Choice(index: Option<nat>, content: Option<string>, calls: seq<ToolDelta>, finish: Option<string>)

  datatype ToolDelta = ToolDelta(index: Option<nat>, id: Option<string>, name: Option<string>, args: Option<string>)

  /** `index` records which tool-call index a tool fragment came from. */
  datatype Fragment =
    | TextDelta(text: string)
    | Waiting(index: nat, id: string, nameSoFar: Option<string>)
    | Ready(index: nat, id: string, name: string, arguments: string)

  /**
   Bounds, and what is foreign to the assembler: the JSON parser reduced to the fields read, the test for a
   complete JSON value, and the iteration order of the hash map.
   */
  datatype Config = Config(
    maxLine: nat,
    maxEvent: nat,
    maxArgs: nat,
    parse: string -> Option<seq<Choice>>,
    complete: string -> bool,
    order: map<nat, Partial> -> seq<nat>)

  ghost predicate GoodOrder(cfg: Config) {
    forall m :: (set k | k in cfg.order(m)) == m.Keys
  }

  /** What one event asks of the assembler, in order. */
  datatype Op =
    | Say(text: string)
    | Delta(index: nat, id: Option<string>, name: Option<string>, args: Option<string>)
    | Finish(reason: string)

  /** `as_u64().unwrap_or(0) as u32`. */
  function Index(i: Option<nat>): nat { if i.None? then 0 else i.value % U32 }

  function DeltaOps(calls: seq<ToolDelta>): seq<Op> {
    if calls == [] then []
    else [Delta(Index(calls[0].index), calls[0].id, calls[0].name, calls[0].args)] + DeltaOps(calls[1..])
  }

  function ChoiceOps(c: Choice): seq<Op> {
    if Index(c.index) != 0 then []
    else
      (if c.content.Some? && c.content.value != "" then [Say(c.content.value)] else [])
      + DeltaOps(c.calls)
      + (if c.finish.Some? then [Finish(c.finish.value)] else [])
  }

  function EventOps(choices: seq<Choice>): seq<Op> {
    if choices == [] then [] else ChoiceOps(choices[0]) + EventOps(choices[1..])
  }

  // Tool assembly.

  datatype Assembled = Assembled(tools: map<nat, Partial>, out: seq<Fragment>)
                     | Refused(tools: map<nat, Partial>, error: ErrorKind)

  function Entry(tools: map<nat, Partial>, k: nat): Partial { if k in tools then tools[k] else FRESH }

  function NameOption(name: string): Option<string> { if name == "" then None else Some(name) }

  /** The entry once id and name of a delta are taken. */
  function Named(e: Partial, op: Op): Partial
    requires op.Delta?
  {
    e.(id := if op.id.Some? && op.id.value != "" then op.id.value else e.id,
       name := if op.name.Some? && op.name.value != "" then e.name + op.name.value else e.name)
  }

  function IngestDelta(cfg: Config, tools: map<nat, Partial>, op: Op): Assembled
    requires op.Delta?
  {
    var e := Named(Entry(tools, op.index), op);
    if op.args.Some? && ByteLen(e.arguments) + ByteLen(op.args.value) > cfg.maxArgs then
      Refused(tools[op.index := e], ToolLimitExceeded)
    else
      var e := if op.args.Some? then e.(arguments := e.arguments + op.args.value) else e;
      if e.id != "" && !e.emittedWaiting && !e.ready then
        Assembled(tools[op.index := e.(emittedWaiting := true)], [Waiting(op.index, e.id, NameOption(e.name))])
      else Assembled(tools[op.index := e], [])
  }

  predicate Promotable(cfg: Config, e: Partial) { e.id != "" && e.name != "" && cfg.complete(e.arguments) }

  function Prefixed(out: seq<Fragment>, a: Assembled): Assembled {
    if a.Refused? then a else Assembled(a.tools, out + a.out)
  }

  function Promote(cfg: Config, tools: map<nat, Partial>, keys: seq<nat>): Assembled
    decreases |keys|
  {
    if keys == [] then Assembled(tools, [])
    else
      var k := keys[0];
      if k !in tools || tools[k].ready then Promote(cfg, tools, keys[1..])
      else
        var e := tools[k];
        if !Promotable(cfg, e) then Refused(tools, MalformedPayload)
        else Prefixed([Ready(k, e.id, e.name, e.arguments)],
                      Promote(cfg, tools[k := e.(ready := true)], keys[1..]))
  }

  function FinishReason(cfg: Config, tools: map<nat, Partial>, reason: string): Assembled {
    if reason == "tool_calls" then Promote(cfg, tools, cfg.order(tools))
    else if reason in {"stop", "length", "content_filter", "null"} then Assembled(tools, [])
    else Refused(tools, MalformedPayload)
  }

  function Perform(cfg: Config, tools: map<nat, Partial>, op: Op): Assembled {
    match op
    case Say(text) => Assembled(tools, [TextDelta(text)])
    case Delta(_, _, _, _) => IngestDelta(cfg, tools, op)
    case Finish(reason) => FinishReason(cfg, tools, reason)
  }

  function PerformAll(cfg: Config, tools: map<nat, Partial>, ops: seq<Op>): Assembled
    decreases |ops|
  {
    if ops == [] then Assembled(tools, [])
    else
      match Perform(cfg, tools, ops[0])
      case Assembled(tools', out) => Prefixed(out, PerformAll(cfg, tools', ops[1..]))
      case refused => refused
  }

  // Lines.

  /** `heard` is history: the choices of every event accepted so far. */
  datatype Sse = Sse(carry: seq<byte>, lines: seq<string>, tools: map<nat, Partial>, done: bool, heard: seq<Choice>)

  const START := Sse([], [], map[], false, [])

  datatype Outcome = Handled(st: Sse, out: seq<Fragment>) | Rejected(st: Sse, error: ErrorKind)

  function Join(lines: seq<string>): string {
    if lines == [] then "" else if |lines| == 1 then lines[0] else lines[0] + "\n" + Join(lines[1..])
  }

  function Dispatch(cfg: Config, st: Sse): Outcome {
    var data := Join(st.lines);
    var st := st.(lines := []);
    if ByteLen(data) > cfg.maxEvent then Rejected(st, FrameLimitExceeded)
    else if Trim(data) == "[DONE]" then Handled(st.(done := true), [])
    else match cfg.parse(data)
      case None => Rejected(st, MalformedPayload)
      case Some(choices) =>
        var ops := EventOps(choices);
        match PerformAll(cfg, st.tools, ops)
        case Assembled(tools, out) => Handled(st.(tools := tools, heard := st.heard + choices), out)
        case Refused(tools, error) => Rejected(st.(tools := tools), error)
  }

  /** `strip_prefix("data:")`, then one optional space. */
  function Payload(line: string): Option<string> {
    if !("data:" <= line) then None
    else
      var rest := line[5..];
      Some(if rest != "" && rest[0] == ' ' then rest[1..] else rest)
  }

  function HandleLine(cfg: Config, st: Sse, line: seq<byte>): Outcome {
    if line == [] then
      if st.lines == [] then Handled(st, []) else Dispatch(cfg, st)
    else
      var split := SplitValid(line);
      if split.rest != [] then Rejected(st, MalformedFrame)
      else if Payload(split.text).Some? then Handled(st.(lines := st.lines + [Payload(split.text).value]), [])
      else Handled(st, [])
  }

  function WithoutCr(line: seq<byte>): seq<byte> {
    if line != [] && line[|line| - 1] == CR then line[..|line| - 1] else line
  }

  function FeedByte(cfg: Config, st: Sse, b: byte): Outcome {
    if b == LF then HandleLine(cfg, st.(carry := []), WithoutCr(st.carry))
    else if |st.carry| >= cfg.maxLine then Rejected(st, FrameLimitExceeded)
    else Handled(st.(carry := st.carry + [b]), [])
  }

  function After(out: seq<Fragment>, o: Outcome): Outcome {
    if o.Rejected? then o else Handled(o.st, out + o.out)
  }

  function Feed(cfg: Config, st: Sse, chunk: seq<byte>): Outcome
    decreases |chunk|
  {
    if chunk == [] then Handled(st, [])
    else
      match FeedByte(cfg, st, chunk[0])
      case Handled(st', out) => After(out, Feed(cfg, st', chunk[1..]))
      case rejected => rejected
  }

  /** `saw_done` is looked at once, on entry. */
  function Pushed(cfg: Config, st: Sse, chunk: seq<byte>): Outcome {
    if st.done then Handled(st, []) else Feed(cfg, st, chunk)
  }

  /** What a caller has after a row of pushes: fragments already handed over stay so when a later push fails. */
  datatype Observed = Observed(delivered: seq<Fragment>, st: Sse, error: Option<ErrorKind>)

  function ObservedOf(o: Outcome): Observed {
    match o
    case Handled(st, out) => Observed(out, st, None)
    case Rejected(st, error) => Observed([], st, Some(error))
  }

  function Deliver(out: seq<Fragment>, o: Observed): Observed { o.(delivered := out + o.delivered) }

  /** The pushes in turn, up to the first that fails. */
  function PushAll(cfg: Config, st: Sse, chunks: seq<seq<byte>>): Observed
    decreases |chunks|
  {
    if chunks == [] then Observed([], st, None)
    else
      match Pushed(cfg, st, chunks[0])
      case Handled(st', out) => Deliver(out, PushAll(cfg, st', chunks[1..]))
      case Rejected(st', error) => Observed([], st', Some(error))
  }

  // The assembler object.

  class OpenAiSseState {
    const cfg: Config
    var lineCarry: seq<byte>
    var eventDataLines: seq<string>
    var tools: map<nat, Partial>
    var sawDone: bool
    ghost var heard: seq<Choice>

    ghost function Abs(): Sse
      reads this
    {
      Sse(lineCarry, eventDataLines, tools, sawDone, heard)
    }

    constructor (cfg: Config)
      ensures Abs() == START && this.cfg == cfg
    {
      this.cfg := cfg;
      lineCarry, eventDataLines, tools, sawDone, heard := [], [], map[], false, [];
    }

    ghost predicate Matches(o: Outcome, r: Result<seq<Fragment>, ErrorKind>)
      reads this
    {
      Abs() == o.st && r == if o.Handled? then Ok(o.out) else Err(o.error)
    }

    method PushBytes(chunk: seq<byte>) returns (r: Result<seq<Fragment>, ErrorKind>)
      modifies this
      ensures Matches(Pushed(cfg, old(Abs()), chunk), r)
    {
      hide HandleLine, Feed;
      if sawDone {
        return Ok([]);
      }
      var out: seq<Fragment> := [];
      var i := 0;
      ghost var whole := Feed(cfg, Abs(), chunk);
      assert chunk[0..] == chunk;
      AfterNothing(whole);
      while i < |chunk|
        invariant i <= |chunk|
        invariant After(out, Feed(cfg, Abs(), chunk[i..])) == whole
      {
        var b := chunk[i];
        FeedStep(cfg, Abs(), chunk, i);
        ghost var before := Abs();
        if b == LF {
          var line := lineCarry;
          lineCarry := [];
          if line != [] && line[|line| - 1] == CR {
            line := line[..|line| - 1];
          }
          var h := OnLine(line);
          if h.Err? {
            return Err(h.error);
          }
          AfterTwice(out, h.value, Feed(cfg, Abs(), chunk[i + 1..]));
          out := out + h.value;
        } else {
          if |lineCarry| >= cfg.maxLine {
            return Err(FrameLimitExceeded);
          }
          lineCarry := lineCarry + [b];
          AfterNothing(Feed(cfg, Abs(), chunk[i + 1..]));
        }
        i := i + 1;
      }
      FeedNothing(cfg, Abs(), chunk);
      assert out + [] == out;
      r := Ok(out);
    }

    /** The interpretation's loop: what a push returns is published before the next chunk is read. */
    method IngestAll(chunks: seq<seq<byte>>) returns (delivered: seq<Fragment>, error: Option<ErrorKind>)
      modifies this
      ensures Observed(delivered, Abs(), error) == PushAll(cfg, old(Abs()), chunks)
    {
      hide Pushed;
      delivered := [];
      var i := 0;
      ghost var whole := PushAll(cfg, Abs(), chunks);
      assert chunks[0..] == chunks;
      DeliverNothing(whole);
      while i < |chunks|
        invariant i <= |chunks|
        invariant Deliver(delivered, PushAll(cfg, Abs(), chunks[i..])) == whole
      {
        assert chunks[i..][1..] == chunks[i + 1..];
        var r := PushBytes(chunks[i]);
        if r.Err? {
          assert delivered + [] == delivered;
          return delivered, Some(r.error);
        }
        DeliverTwice(delivered, r.value, PushAll(cfg, Abs(), chunks[i + 1..]));
        delivered := delivered + r.value;
        i := i + 1;
      }
      assert delivered + [] == delivered;
      error := None;
    }

    method OnLine(line: seq<byte>) returns (r: Result<seq<Fragment>, ErrorKind>)
      modifies this
      ensures Matches(HandleLine(cfg, old(Abs()), line), r)
    {
      hide SplitValid, ByteLen, Trim, PerformAll, Join, EventOps;
      if line == [] {
        if eventDataLines == [] {
          return Ok([]);
        }
        var data := Join(eventDataLines);
        eventDataLines := [];
        if ByteLen(data) > cfg.maxEvent {
          return Err(FrameLimitExceeded);
        }
        if Trim(data) == "[DONE]" {
          sawDone := true;
          return Ok([]);
        }
        var choices := cfg.parse(data);
        if choices.None? {
          return Err(MalformedPayload);
        }
        r := PerformOps(EventOps(choices.value));
        if r.Ok? {
          heard := heard + choices.value;
        }
        return;
      }
      var split := SplitValid(line);
      if split.rest != [] {
        return Err(MalformedFrame);
      }
      if "data:" <= split.text {
        var rest := split.text[5..];
        var payload := if rest != "" && rest[0] == ' ' then rest[1..] else rest;
        eventDataLines := eventDataLines + [payload];
      }
      r := Ok([]);
    }

    /** The tool map and what came out are those of an assembly. */
    ghost predicate Yields(a: Assembled, r: Result<seq<Fragment>, ErrorKind>)
      reads this
    {
      tools == a.tools && r == if a.Assembled? then Ok(a.out) else Err(a.error)
    }

    method PerformOps(ops: seq<Op>) returns (r: Result<seq<Fragment>, ErrorKind>)
      modifies this`tools
      ensures Yields(PerformAll(cfg, old(tools), ops), r)
    {
      hide IngestDelta, FinishReason;
      var out: seq<Fragment> := [];
      var i := 0;
      ghost var whole := PerformAll(cfg, tools, ops);
      assert ops[0..] == ops;
      PrefixedNothing(whole);
      while i < |ops|
        invariant i <= |ops|
        invariant Prefixed(out, PerformAll(cfg, tools, ops[i..])) == whole
      {
        assert ops[i..][1..] == ops[i + 1..];
        ghost var before := tools;
        var h: Result<seq<Fragment>, ErrorKind>;
        match ops[i] {
          case Say(text) => h := Ok([TextDelta(text)]);
          case Delta(_, _, _, _) => h := OnToolDelta(ops[i]);
          case Finish(reason) => h := OnFinishReason(reason);
        }
        assert Yields(Perform(cfg, before, ops[i]), h);
        if h.Err? {
          return Err(h.error);
        }
        PrefixedTwice(out, h.value, PerformAll(cfg, tools, ops[i + 1..]));
        out := out + h.value;
        i := i + 1;
      }
      assert out + [] == out;
      r := Ok(out);
    }

    method OnToolDelta(op: Op) returns (r: Result<seq<Fragment>, ErrorKind>)
      requires op.Delta?
      modifies this`tools
      ensures Yields(IngestDelta(cfg, old(tools), op), r)
    {
      hide ByteLen;
      var entry := Entry(tools, op.index);
      if op.id.Some? && op.id.value != "" {
        entry := entry.(id := op.id.value);
      }
      if op.name.Some? && op.name.value != "" {
        entry := entry.(name := entry.name + op.name.value);
      }
      if op.args.Some? {
        if ByteLen(entry.arguments) + ByteLen(op.args.value) > cfg.maxArgs {
          tools := tools[op.index := entry];
          return Err(ToolLimitExceeded);
        }
        entry := entry.(arguments := entry.arguments + op.args.value);
      }
      if entry.id != "" && !entry.emittedWaiting && !entry.ready {
        entry := entry.(emittedWaiting := true);
        r := Ok([Waiting(op.index, entry.id, NameOption(entry.name))]);
      } else {
        r := Ok([]);
      }
      tools := tools[op.index := entry];
    }

    method OnFinishReason(reason: string) returns (r: Result<seq<Fragment>, ErrorKind>)
      modifies this`tools
      ensures Yields(FinishReason(cfg, old(tools), reason), r)
    {
      if reason == "stop" || reason == "length" || reason == "content_filter" || reason == "null" {
        return Ok([]);
      }
      if reason != "tool_calls" {
        return Err(MalformedPayload);
      }
      var keys := cfg.order(tools);
      var out: seq<Fragment> := [];
      var i := 0;
      ghost var whole := Promote(cfg, tools, keys);
      assert keys[0..] == keys;
      PrefixedNothing(whole);
      while i < |keys|
        invariant i <= |keys|
        invariant Prefixed(out, Promote(cfg, tools, keys[i..])) == whole
      {
        var k := keys[i];
        assert keys[i..][1..] == keys[i + 1..];
        if k in tools && !tools[k].ready {
          var entry := tools[k];
          if entry.id == "" || entry.name == "" || !cfg.complete(entry.arguments) {
            return Err(MalformedPayload);
          }
          tools := tools[k := entry.(ready := true)];
          PrefixedTwice(out, [Ready(k, entry.id, entry.name, entry.arguments)], Promote(cfg, tools, keys[i + 1..]));
          out := out + [Ready(k, entry.id, entry.name, entry.arguments)];
        }
        i := i + 1;
      }
      assert out + [] == out;
      r := Ok(out);
    }
  }

  lemma PrefixedNothing(a: Assembled)
    ensures Prefixed([], a) == a
  {
    if a.Assembled? {
      assert [] + a.out == a.out;
    }
  }

  lemma PrefixedTwice(s: seq<Fragment>, t: seq<Fragment>, a: Assembled)
    ensures Prefixed(s, Prefixed(t, a)) == Prefixed(s + t, a)
  {
    if a.Assembled? {
      assert s + (t + a.out) == (s + t) + a.out;
    }
  }

  lemma AfterNothing(o: Outcome)
    ensures After([], o) == o
  {
    if o.Handled? {
      assert [] + o.out == o.out;
    }
  }

  lemma AfterTwice(s: seq<Fragment>, t: seq<Fragment>, o: Outcome)
    ensures After(s, After(t, o)) == After(s + t, o)
  {
    if o.Handled? {
      assert s + (t + o.out) == (s + t) + o.out;
    }
  }

  lemma DeliverNothing(o: Observed)
    ensures Deliver([], o) == o
  {
    assert [] + o.delivered == o.delivered;
  }

  lemma DeliverTwice(s: seq<Fragment>, t: seq<Fragment>, o: Observed)
    ensures Deliver(s, Deliver(t, o)) == Deliver(s + t, o)
  {
    assert s + (t + o.delivered) == (s + t) + o.delivered;
  }

  lemma FeedStep(cfg: Config, st: Sse, chunk: seq<byte>, i: nat)
    requires i < |chunk|
    ensures Feed(cfg, st, chunk[i..]) ==
            match FeedByte(cfg, st, chunk[i])
            case Handled(st', out) => After(out, Feed(cfg, st', chunk[i + 1..]))
            case rejected => rejected
  {
    assert chunk[i..][1..] == chunk[i + 1..];
  }

  lemma FeedNothing(cfg: Config, st: Sse, chunk: seq<byte>)
    ensures Feed(cfg, st, chunk[|chunk|..]) == Handled(st, [])
  {
  }
}
