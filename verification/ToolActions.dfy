/** Tool assembly in the interpretation owner (crates/monoloop-interpreter/src/engine.rs, `on_tool`). */
module ToolActions {
  import opened Common
  import opened Text

  datatype RequestState = Assembling | Ready | Malformed | Incomplete

  datatype ExecutionState = NotObserved | Waiting | Terminal

  datatype ResultState = Absent | Complete | Unfinished

  datatype Signal =
    | WaitingFor(toolName: Option<string>)
    | RequestReady(name: string, arguments: string)
    | Resolved(success: bool, result: Option<string>)

  datatype Tool = Tool(
    generation: nat,
    name: Option<string>,
    request: RequestState,
    execution: ExecutionState,
    result: ResultState,
    requestPayload: Option<string>,
    resultPayload: Option<string>,
    terminal: Option<bool>)

  const FRESH := Tool(0, None, Assembling, NotObserved, Absent, None, None, None)

  datatype Kind = Created | Advanced | Completed | Abandoned

  /** One published tool event: payloads are exposed only when complete. */
  datatype ToolEvent = ToolEvent(
    kind: Kind,
    action: string,
    generation: nat,
    name: Option<string>,
    request: RequestState,
    execution: ExecutionState,
    result: ResultState,
    requestPayload: Option<string>,
    resultPayload: Option<string>,
    terminal: Option<bool>)

  datatype Limits = Limits(maxActions: nat, maxPayload: nat)

  function SnapshotOf(kind: Kind, action: string, t: Tool): ToolEvent {
    ToolEvent(kind, action, t.generation, t.name, t.request, t.execution, t.result,
              if t.request == Ready then t.requestPayload else None,
              if t.result == Complete then t.resultPayload else None,
              t.terminal)
  }

  datatype Handled = Published(tools: map<string, Tool>, event: ToolEvent) | LimitExceeded(tools: map<string, Tool>)

  function Signalled(t: Tool, signal: Signal): Tool {
    match signal
    case WaitingFor(name) =>
      t.(name := if name.Some? then name else t.name, request := Assembling, execution := Waiting)
    case RequestReady(name, arguments) =>
      t.(name := Some(name), requestPayload := Some(arguments), request := Ready,
         execution := Waiting, result := Absent)
    case Resolved(success, result) =>
      t.(execution := Terminal, result := Complete, resultPayload := result, terminal := Some(success))
  }

  function OnTool(l: Limits, tools: map<string, Tool>, action: string, signal: Signal): Handled {
    if |tools| >= l.maxActions && action !in tools then LimitExceeded(tools)
    else
      var isNew := action !in tools;
      var was := if isNew then FRESH else tools[action];
      var bumped := was.(generation := was.generation + 1);
      if signal.RequestReady? && ByteLen(signal.arguments) > l.maxPayload then LimitExceeded(tools[action := bumped])
      else
        var t := Signalled(bumped, signal);
        var kind := if signal.Resolved? then Completed else if isNew then Created else Advanced;
        Published(tools[action := t], SnapshotOf(kind, action, t))
  }

  /** What an abrupt end does to one tool that is not terminal. */
  function Quarantined(t: Tool): Tool {
    t.(request := if t.request == Ready then Ready else Incomplete,
       result := if t.result == Complete then Complete else Unfinished,
       generation := t.generation + 1)
  }

  /** Quarantine in the map's iteration order; terminal tools are left alone. */
  function QuarantineAll(tools: map<string, Tool>, ids: seq<string>): seq<ToolEvent>
    decreases |ids|
  {
    if ids == [] then []
    else if ids[0] !in tools || tools[ids[0]].terminal.Some? then QuarantineAll(tools, ids[1..])
    else
      var t := Quarantined(tools[ids[0]]);
      [SnapshotOf(Abandoned, ids[0], t)] + QuarantineAll(tools[ids[0] := t], ids[1..])
  }

  /** Tool inputs of one interpretation; an abrupt end quarantines and is last. */
  datatype Input = Tooling(action: string, signal: Signal) | AbruptEnd(ids: seq<string>)

  /** The tool events an interpretation publishes; a limit ends it. */
  function Trace(l: Limits, tools: map<string, Tool>, inputs: seq<Input>): seq<ToolEvent>
    decreases |inputs|
  {
    if inputs == [] then []
    else match inputs[0]
      case AbruptEnd(ids) => QuarantineAll(tools, ids)
      case Tooling(action, signal) =>
        match OnTool(l, tools, action, signal)
        case Published(tools', event) => [event] + Trace(l, tools', inputs[1..])
        case LimitExceeded(_) => []
  }

  class ToolOwner {
    const limits: Limits
    var tools: map<string, Tool>
    var published: seq<ToolEvent>

    constructor (limits: Limits)
      ensures this.limits == limits && tools == map[] && published == []
    {
      this.limits := limits;
      tools, published := map[], [];
    }

    method HandleSignal(action: string, signal: Signal) returns (ok: bool)
      modifies this
      ensures match OnTool(limits, old(tools), action, signal)
              case Published(tools', event) => ok && tools == tools' && published == old(published) + [event]
              case LimitExceeded(tools') => !ok && tools == tools' && published == old(published)
    {
      hide ByteLen, SnapshotOf, Signalled;
      ghost var before := tools;
      if |tools| >= limits.maxActions && action !in tools {
        return false;
      }
      var isNew := action !in tools;
      if isNew {
        tools := tools[action := FRESH];
      }
      var tool := tools[action];
      tool := tool.(generation := tool.generation + 1);
      tools := tools[action := tool];
      assert tools == before[action := tool];
      if signal.RequestReady? && ByteLen(signal.arguments) > limits.maxPayload {
        return false;
      }
      tool := ApplySignal(tool, signal);
      tools := tools[action := tool];
      assert tools == before[action := tool];
      var kind := if signal.Resolved? then Completed else if isNew then Created else Advanced;
      published := published + [SnapshotOf(kind, action, tool)];
      ok := true;
    }

    /** The signal's arm: the fields of one tool, in the order the source sets them. */
    static method ApplySignal(t: Tool, signal: Signal) returns (tool: Tool)
      ensures tool == Signalled(t, signal)
    {
      tool := t;
      match signal {
        case WaitingFor(name) =>
          if name.Some? {
            tool := tool.(name := name);
          }
          tool := tool.(request := Assembling, execution := Waiting);
        case RequestReady(name, arguments) =>
          tool := tool.(name := Some(name), requestPayload := Some(arguments), request := Ready);
          tool := tool.(execution := Waiting, result := Absent);
        case Resolved(success, result) =>
          tool := tool.(execution := Terminal, result := Complete, resultPayload := result, terminal := Some(success));
      }
    }

    method QuarantinePartials(ids: seq<string>)
      modifies this
      ensures published == old(published) + QuarantineAll(old(tools), ids)
    {
      ghost var whole := QuarantineAll(tools, ids);
      ghost var start := published;
      ghost var said: seq<ToolEvent> := [];
      var k := 0;
      assert ids[0..] == ids;
      while k < |ids|
        invariant k <= |ids| && published == start + said
        invariant said + QuarantineAll(tools, ids[k..]) == whole
      {
        assert ids[k..][1..] == ids[k + 1..];
        var id := ids[k];
        if id in tools && tools[id].terminal.None? {
          var tool := tools[id];
          tool := tool.(request := if tool.request == Ready then Ready else Incomplete);
          tool := tool.(result := if tool.result == Complete then Complete else Unfinished);
          tool := tool.(generation := tool.generation + 1);
          tools := tools[id := tool];
          var event := SnapshotOf(Abandoned, id, tool);
          published := published + [event];
          assert start + said + [event] == start + (said + [event]);
          said := said + [event];
        }
        k := k + 1;
      }
    }

    method Interpret(inputs: seq<Input>)
      modifies this
      ensures published == old(published) + Trace(limits, old(tools), inputs)
    {
      ghost var whole := Trace(limits, tools, inputs);
      ghost var start := published;
      ghost var said: seq<ToolEvent> := [];
      var k := 0;
      assert inputs[0..] == inputs;
      while k < |inputs|
        invariant k <= |inputs| && published == start + said
        invariant said + Trace(limits, tools, inputs[k..]) == whole
      {
        hide OnTool, QuarantineAll;
        assert inputs[k..][1..] == inputs[k + 1..];
        match inputs[k] {
          case AbruptEnd(ids) =>
            ghost var last := QuarantineAll(tools, ids);
            QuarantinePartials(ids);
            assert (start + said) + last == start + (said + last);
            return;
          case Tooling(action, signal) =>
            ghost var before := tools;
            var ok := HandleSignal(action, signal);
            if !ok {
              assert said + [] == said;
              return;
            }
            ghost var event := OnTool(limits, before, action, signal).event;
            assert start + said + [event] == start + (said + [event]);
            said := said + [event];
        }
        k := k + 1;
      }
      assert said + [] == said;
    }
  }

  // What the Loop may rely on.

  /** Generations of one action only grow, and a ready event carries a name and a payload. */
  predicate GoodTrace(evs: seq<ToolEvent>) {
    && (forall j :: 0 <= j < |evs| ==> GoodEvent(evs[j]))
    && (forall i, j :: 0 <= i < j < |evs| && evs[i].action == evs[j].action ==> evs[i].generation < evs[j].generation)
  }

  predicate GoodEvent(e: ToolEvent) {
    0 < e.generation && (e.request == Ready ==> e.name.Some? && e.requestPayload.Some?)
  }

  predicate GoodTool(t: Tool) { t.request == Ready ==> t.name.Some? && t.requestPayload.Some? }

  predicate GoodTools(tools: map<string, Tool>) { forall a :: a in tools ==> GoodTool(tools[a]) }

  /** Everything a trace says about an action comes after the generation its tool is at. */
  predicate StartsAfter(tools: map<string, Tool>, evs: seq<ToolEvent>) {
    forall j :: 0 <= j < |evs| && evs[j].action in tools ==> tools[evs[j].action].generation < evs[j].generation
  }

  lemma PrependGood(e: ToolEvent, tools': map<string, Tool>, evs: seq<ToolEvent>)
    requires GoodEvent(e) && GoodTrace(evs) && StartsAfter(tools', evs)
    requires e.action in tools' && tools'[e.action].generation == e.generation
    ensures GoodTrace([e] + evs)
  {
    var all := [e] + evs;
    forall i, j | 0 <= i < j < |all| && all[i].action == all[j].action
      ensures all[i].generation < all[j].generation
    {
      if i == 0 {
        assert all[j] == evs[j - 1];
      } else {
        assert all[i] == evs[i - 1] && all[j] == evs[j - 1];
      }
    }
  }

  lemma PrependStarts(tools: map<string, Tool>, e: ToolEvent, tools': map<string, Tool>, evs: seq<ToolEvent>)
    requires StartsAfter(tools', evs) && e.action in tools' && tools'.Keys == tools.Keys + {e.action}
    requires forall a :: a in tools && a != e.action ==> tools'[a].generation == tools[a].generation
    requires e.action in tools ==> tools[e.action].generation < tools'[e.action].generation == e.generation
    ensures StartsAfter(tools, [e] + evs)
  {
    var all := [e] + evs;
    forall j | 0 <= j < |all| && all[j].action in tools
      ensures tools[all[j].action].generation < all[j].generation
    {
      if j > 0 {
        assert all[j] == evs[j - 1];
      }
    }
  }

  lemma {:induction false} QuarantineIsGood(tools: map<string, Tool>, ids: seq<string>)
    requires GoodTools(tools)
    ensures GoodTrace(QuarantineAll(tools, ids)) && StartsAfter(tools, QuarantineAll(tools, ids))
    decreases |ids|
  {
    if ids != [] {
      if ids[0] !in tools || tools[ids[0]].terminal.Some? {
        QuarantineIsGood(tools, ids[1..]);
      } else {
        var t := Quarantined(tools[ids[0]]);
        assert GoodTool(tools[ids[0]]);
        var tools' := tools[ids[0] := t];
        QuarantineIsGood(tools', ids[1..]);
        var e := SnapshotOf(Abandoned, ids[0], t);
        PrependGood(e, tools', QuarantineAll(tools', ids[1..]));
        PrependStarts(tools, e, tools', QuarantineAll(tools', ids[1..]));
      }
    }
  }

  lemma OnToolIsGood(l: Limits, tools: map<string, Tool>, action: string, signal: Signal)
    requires GoodTools(tools) && OnTool(l, tools, action, signal).Published?
    ensures var h := OnTool(l, tools, action, signal);
            && GoodTools(h.tools) && GoodEvent(h.event) && h.event.action == action
            && h.tools.Keys == tools.Keys + {action} && h.tools[action].generation == h.event.generation
            && (forall a :: a in tools && a != action ==> h.tools[a] == tools[a])
            && (action in tools ==> tools[action].generation < h.event.generation)
  {
    hide ByteLen, Signalled, SnapshotOf, GoodTool, GoodEvent;
    assert action in tools ==> GoodTool(tools[action]);
    var was := if action in tools then tools[action] else FRESH;
    FreshIsGood();
    SignalledIsGood(was, signal, action, Created);
    SignalledIsGood(was, signal, action, Advanced);
    SignalledIsGood(was, signal, action, Completed);
  }

  lemma FreshIsGood()
    ensures GoodTool(FRESH)
  {
  }

  lemma SignalledIsGood(was: Tool, signal: Signal, action: string, kind: Kind)
    requires GoodTool(was)
    ensures var t := Signalled(was.(generation := was.generation + 1), signal);
            && GoodTool(t) && t.generation == was.generation + 1
            && GoodEvent(SnapshotOf(kind, action, t))
            && SnapshotOf(kind, action, t).action == action && SnapshotOf(kind, action, t).generation == t.generation
  {
  }

  /** Whatever the signals, an interpretation publishes a good trace. */
  lemma {:induction false} TraceIsGood(l: Limits, tools: map<string, Tool>, inputs: seq<Input>)
    requires GoodTools(tools)
    ensures GoodTrace(Trace(l, tools, inputs)) && StartsAfter(tools, Trace(l, tools, inputs))
    decreases |inputs|
  {
    hide OnTool, QuarantineAll, GoodTrace, StartsAfter, GoodTools;
    if inputs == [] {
      NothingIsGood(tools);
    } else {
      match inputs[0]
      case AbruptEnd(ids) => QuarantineIsGood(tools, ids);
      case Tooling(action, signal) =>
        var h := OnTool(l, tools, action, signal);
        if h.Published? {
          OnToolIsGood(l, tools, action, signal);
          TraceIsGood(l, h.tools, inputs[1..]);
          PrependGood(h.event, h.tools, Trace(l, h.tools, inputs[1..]));
          PrependStarts(tools, h.event, h.tools, Trace(l, h.tools, inputs[1..]));
        } else {
          NothingIsGood(tools);
        }
    }
  }

  lemma NothingIsGood(tools: map<string, Tool>)
    ensures GoodTrace([]) && StartsAfter(tools, [])
  {
  }
}
