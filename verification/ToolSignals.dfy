/** What the tool events of an interpretation say, in terms of the signals it was given. */
module ToolSignals {
  import opened Common
  import opened Text
  import opened ToolActions

  predicate AllTooling(inputs: seq<Input>) { forall k :: 0 <= k < |inputs| ==> inputs[k].Tooling? }

  /** The signals of one action, in order. */
  function SignalsFor(inputs: seq<Input>, a: string): seq<Signal> {
    if inputs == [] then []
    else
      var last := inputs[|inputs| - 1];
      SignalsFor(inputs[..|inputs| - 1], a) + if last.Tooling? && last.action == a then [last.signal] else []
  }

  // What the latest signals say.

  /** The name given last. */
  function LatestName(sigs: seq<Signal>): Option<string> {
    if sigs == [] then None
    else
      match sigs[|sigs| - 1]
      case RequestReady(name, _) => Some(name)
      case WaitingFor(Some(name)) => Some(name)
      case _ => LatestName(sigs[..|sigs| - 1])
  }

  /** The arguments of the last request, unless the action has gone back to waiting for arguments. */
  function ReadyArguments(sigs: seq<Signal>): Option<string> {
    if sigs == [] then None
    else
      match sigs[|sigs| - 1]
      case RequestReady(_, arguments) => Some(arguments)
      case WaitingFor(_) => None
      case Resolved(_, _) => ReadyArguments(sigs[..|sigs| - 1])
  }

  /** The result given last, unless a new request came after it. */
  function LatestResult(sigs: seq<Signal>): Option<string> {
    if sigs == [] then None
    else
      match sigs[|sigs| - 1]
      case Resolved(_, result) => result
      case RequestReady(_, _) => None
      case WaitingFor(_) => LatestResult(sigs[..|sigs| - 1])
  }

  /** A resolution came after the last request. */
  predicate ResultGiven(sigs: seq<Signal>) {
    sigs != [] && (sigs[|sigs| - 1].Resolved? || (sigs[|sigs| - 1].WaitingFor? && ResultGiven(sigs[..|sigs| - 1])))
  }

  /** Whether the last resolution was a success. */
  function LatestOutcome(sigs: seq<Signal>): Option<bool> {
    if sigs == [] then None
    else if sigs[|sigs| - 1].Resolved? then Some(sigs[|sigs| - 1].success)
    else LatestOutcome(sigs[..|sigs| - 1])
  }

  /** Event `e` of action `a` is what these signals come to, the last of them being the one it reports. */
  predicate Reports(e: ToolEvent, a: string, sigs: seq<Signal>) {
    && sigs != [] && e.action == a && e.generation == |sigs|
    && e.kind == (if sigs[|sigs| - 1].Resolved? then Completed else if |sigs| == 1 then Created else Advanced)
    && e.name == LatestName(sigs)
    && e.request == (if ReadyArguments(sigs).Some? then Ready else Assembling)
    && e.requestPayload == ReadyArguments(sigs)
    && e.execution == (if sigs[|sigs| - 1].Resolved? then Terminal else Waiting)
    && e.result == (if ResultGiven(sigs) then Complete else Absent)
    && e.resultPayload == LatestResult(sigs)
    && e.terminal == LatestOutcome(sigs)
  }

  // The table follows the signals.

  predicate ToolFollows(t: Tool, sigs: seq<Signal>) {
    && t.generation == |sigs| && t.name == LatestName(sigs) && t.terminal == LatestOutcome(sigs)
    && t.request == (if ReadyArguments(sigs).Some? then Ready else Assembling)
    && (t.request == Ready ==> t.requestPayload == ReadyArguments(sigs))
    && t.execution == (if sigs == [] then NotObserved else if sigs[|sigs| - 1].Resolved? then Terminal else Waiting)
    && t.result == (if ResultGiven(sigs) then Complete else Absent)
    && (if t.result == Complete then t.resultPayload == LatestResult(sigs) else LatestResult(sigs) == None)
    && (LatestOutcome(sigs) == None ==> t.result != Complete)
  }

  ghost predicate TableFollows(tools: map<string, Tool>, past: seq<Input>) {
    forall a ::
      (a in tools <==> SignalsFor(past, a) != []) && (a in tools ==> ToolFollows(tools[a], SignalsFor(past, a)))
  }

  lemma SignalsGrow(past: seq<Input>, input: Input, a: string)
    ensures SignalsFor(past + [input], a) ==
            SignalsFor(past, a) + if input.Tooling? && input.action == a then [input.signal] else []
  {
    assert (past + [input])[..|past|] == past;
  }

  lemma LatestGrow(sigs: seq<Signal>, s: Signal)
    ensures LatestName(sigs + [s]) ==
            match s
            case RequestReady(name, _) => Some(name)
            case WaitingFor(Some(name)) => Some(name)
            case _ => LatestName(sigs)
    ensures ReadyArguments(sigs + [s]) ==
            match s case RequestReady(_, args) => Some(args) case WaitingFor(_) => None case _ => ReadyArguments(sigs)
    ensures LatestResult(sigs + [s]) ==
            match s case Resolved(_, r) => r case RequestReady(_, _) => None case _ => LatestResult(sigs)
    ensures ResultGiven(sigs + [s]) <==> s.Resolved? || (s.WaitingFor? && ResultGiven(sigs))
    ensures LatestOutcome(sigs + [s]) == match s case Resolved(b, _) => Some(b) case _ => LatestOutcome(sigs)
  {
    assert (sigs + [s])[..|sigs|] == sigs;
  }

  /** One signal moves the tool as it moves the latest values, and the event reports them. */
  lemma SignalFollows(was: Tool, sigs: seq<Signal>, s: Signal, a: string)
    requires ToolFollows(was, sigs)
    ensures var t := Signalled(was.(generation := was.generation + 1), s);
            var kind := if s.Resolved? then Completed else if sigs == [] then Created else Advanced;
            ToolFollows(t, sigs + [s]) && Reports(SnapshotOf(kind, a, t), a, sigs + [s])
  {
    hide LatestName, ReadyArguments, LatestResult, LatestOutcome, ResultGiven;
    LatestGrow(sigs, s);
  }

  lemma FreshFollows()
    ensures ToolFollows(FRESH, [])
  {
  }

  lemma HandlingFollows(l: Limits, tools: map<string, Tool>, past: seq<Input>, a: string, s: Signal)
    requires TableFollows(tools, past) && OnTool(l, tools, a, s).Published?
    ensures var h := OnTool(l, tools, a, s);
            && TableFollows(h.tools, past + [Tooling(a, s)])
            && Reports(h.event, a, SignalsFor(past + [Tooling(a, s)], a))
  {
    hide SignalsFor, ToolFollows, Reports, Signalled, SnapshotOf, ByteLen;
    var h, now := OnTool(l, tools, a, s), past + [Tooling(a, s)];
    var sigs := SignalsFor(past, a);
    FreshFollows();
    SignalFollows(if a in tools then tools[a] else FRESH, sigs, s, a);
    SignalsGrow(past, Tooling(a, s), a);
    forall b
      ensures b in h.tools <==> SignalsFor(now, b) != []
      ensures b in h.tools ==> ToolFollows(h.tools[b], SignalsFor(now, b))
    {
      SignalsGrow(past, Tooling(a, s), b);
      assert b != a ==> SignalsFor(past, b) + [] == SignalsFor(past, b);
    }
  }

  lemma {:induction false} TraceFollows(
    l: Limits, tools: map<string, Tool>, past: seq<Input>, inputs: seq<Input>, n: nat)
    requires TableFollows(tools, past) && n < |Trace(l, tools, inputs)| && n < |inputs| && AllTooling(inputs[..n + 1])
    ensures Reports(Trace(l, tools, inputs)[n], inputs[n].action, SignalsFor(past + inputs[..n + 1], inputs[n].action))
    decreases n
  {
    hide TableFollows, Reports, OnTool, SignalsFor, QuarantineAll;
    assert inputs[..n + 1][0] == inputs[0];
    var a, s := inputs[0].action, inputs[0].signal;
    HandlingFollows(l, tools, past, a, s);
    var now := past + [inputs[0]];
    if n == 0 {
      assert past + inputs[..1] == now;
    } else {
      assert inputs[1..][..n] == inputs[..n + 1][1..];
      TraceFollows(l, OnTool(l, tools, a, s).tools, now, inputs[1..], n - 1);
      assert now + inputs[1..][..n] == past + inputs[..n + 1];
    }
  }

  lemma NothingFollows()
    ensures TableFollows(map[], [])
  {
  }

  /**
   The n-th event reports the n-th signal: how many signals its action has had, the name given last, the arguments of
   the request that is ready, the result and the outcome given last.
   */
  lemma TraceSays(l: Limits, inputs: seq<Input>, n: nat)
    requires n < |Trace(l, map[], inputs)| && n < |inputs| && AllTooling(inputs[..n + 1])
    ensures Reports(Trace(l, map[], inputs)[n], inputs[n].action, SignalsFor(inputs[..n + 1], inputs[n].action))
  {
    hide Trace, TableFollows, Reports, SignalsFor;
    NothingFollows();
    TraceFollows(l, map[], [], inputs, n);
    assert [] + inputs[..n + 1] == inputs[..n + 1];
  }

  lemma LastSignal(inputs: seq<Input>, n: nat)
    requires n < |inputs| && inputs[n].Tooling?
    ensures SignalsFor(inputs[..n + 1], inputs[n].action) ==
            SignalsFor(inputs[..n], inputs[n].action) + [inputs[n].signal]
  {
    assert inputs[..n + 1] == inputs[..n] + [inputs[n]];
    SignalsGrow(inputs[..n], inputs[n], inputs[n].action);
  }

  /** A request is published as ready with its own name and arguments; a wait exposes none; a resolution its result. */
  lemma SignalIsPublished(l: Limits, inputs: seq<Input>, n: nat)
    requires n < |Trace(l, map[], inputs)| && n < |inputs| && AllTooling(inputs[..n + 1])
    ensures inputs[n].Tooling?
    ensures var e := Trace(l, map[], inputs)[n];
            match inputs[n].signal
            case RequestReady(name, arguments) =>
              && e.request == Ready && e.name == Some(name) && e.requestPayload == Some(arguments)
              && e.resultPayload == None
            case WaitingFor(name) =>
              e.request == Assembling && e.requestPayload == None && (name.Some? ==> e.name == name)
            case Resolved(success, result) =>
              e.kind == Completed && e.resultPayload == result && e.terminal == Some(success)
  {
    hide Trace, SignalsFor, LatestName, ReadyArguments, LatestResult, LatestOutcome;
    TraceSays(l, inputs, n);
    assert inputs[..n + 1][n] == inputs[n];
    LastSignal(inputs, n);
    LatestGrow(SignalsFor(inputs[..n], inputs[n].action), inputs[n].signal);
  }

  // Limits.

  function ActionsIn(inputs: seq<Input>): set<string> { set i | i in inputs && i.Tooling? :: i.action }

  /** The n-th signal is within the limits: room for its action, and its arguments small enough. */
  predicate Allowed(l: Limits, inputs: seq<Input>, n: nat)
    requires n < |inputs| && inputs[n].Tooling?
  {
    && (inputs[n].action in ActionsIn(inputs[..n]) || |ActionsIn(inputs[..n])| < l.maxActions)
    && (inputs[n].signal.RequestReady? ==> ByteLen(inputs[n].signal.arguments) <= l.maxPayload)
  }

  lemma {:induction false} StopsExactly(
    l: Limits, tools: map<string, Tool>, past: seq<Input>, inputs: seq<Input>, n: nat)
    requires tools.Keys == ActionsIn(past) && AllTooling(inputs) && n < |inputs|
    requires n <= |Trace(l, tools, inputs)|
    ensures n < |Trace(l, tools, inputs)| <==> Allowed(l, past + inputs, |past| + n)
    decreases n
  {
    hide OnTool, ByteLen, ActionsIn, QuarantineAll;
    var a, s := inputs[0].action, inputs[0].signal;
    assert (past + inputs)[|past| + n] == inputs[n];
    HandledExactly(l, tools, a, s);
    if n == 0 {
      assert (past + inputs)[..|past|] == past;
    } else {
      var now := past + [inputs[0]];
      ActionsGrow(past, inputs[0]);
      StopsExactly(l, OnTool(l, tools, a, s).tools, now, inputs[1..], n - 1);
      assert now + inputs[1..] == past + inputs;
    }
  }

  lemma HandledExactly(l: Limits, tools: map<string, Tool>, a: string, s: Signal)
    ensures OnTool(l, tools, a, s).Published? <==>
            && (a in tools.Keys || |tools.Keys| < l.maxActions)
            && (s.RequestReady? ==> ByteLen(s.arguments) <= l.maxPayload)
    ensures OnTool(l, tools, a, s).Published? ==> OnTool(l, tools, a, s).tools.Keys == tools.Keys + {a}
  {
    hide Signalled, SnapshotOf, ByteLen;
    assert |tools| == |tools.Keys|;
  }

  lemma ActionsGrow(past: seq<Input>, input: Input)
    requires input.Tooling?
    ensures ActionsIn(past + [input]) == ActionsIn(past) + {input.action}
  {
    assert forall i :: i in past + [input] <==> i in past || i == input;
    assert input in past + [input];
  }

  /** Signals are published in turn, up to the first that a limit refuses, and no further. */
  lemma TraceStopsAtLimit(l: Limits, inputs: seq<Input>, n: nat)
    requires AllTooling(inputs) && n < |inputs| && n <= |Trace(l, map[], inputs)|
    ensures n < |Trace(l, map[], inputs)| <==> Allowed(l, inputs, n)
  {
    hide Trace, Allowed;
    assert ActionsIn([]) == {};
    StopsExactly(l, map[], [], inputs, n);
    assert [] + inputs == inputs;
  }

  // An abrupt end.

  /** What an abrupt end says of a tool that is not terminal: no payload that was not complete. */
  predicate ReportsAbandoned(e: ToolEvent, a: string, sigs: seq<Signal>) {
    && sigs != [] && LatestOutcome(sigs) == None
    && e.action == a && e.kind == Abandoned && e.generation == |sigs| + 1 && e.name == LatestName(sigs)
    && e.request == (if ReadyArguments(sigs).Some? then Ready else Incomplete)
    && e.requestPayload == ReadyArguments(sigs) && e.result == Unfinished && e.resultPayload == None
    && e.execution == Waiting && e.terminal == None
  }

  predicate Distinct(ids: seq<string>) { forall i, j :: 0 <= i < j < |ids| ==> ids[i] != ids[j] }

  /** The table follows the past for every action still to be visited. */
  ghost predicate StillFollows(tools: map<string, Tool>, past: seq<Input>, ids: seq<string>) {
    forall k :: 0 <= k < |ids| ==>
      && (ids[k] in tools <==> SignalsFor(past, ids[k]) != [])
      && (ids[k] in tools ==> ToolFollows(tools[ids[k]], SignalsFor(past, ids[k])))
  }

  lemma QuarantinedReports(t: Tool, sigs: seq<Signal>, a: string)
    requires ToolFollows(t, sigs) && sigs != [] && t.terminal == None
    ensures ReportsAbandoned(SnapshotOf(Abandoned, a, Quarantined(t)), a, sigs)
  {
    hide LatestName, ReadyArguments, LatestResult;
  }

  /** The events of an abrupt end: one for each action visited that has signals and no outcome, and no other. */
  function Unresolved(past: seq<Input>, ids: seq<string>): seq<string>
    decreases |ids|
  {
    if ids == [] then []
    else
      var sigs := SignalsFor(past, ids[0]);
      (if sigs != [] && LatestOutcome(sigs) == None then [ids[0]] else []) + Unresolved(past, ids[1..])
  }

  lemma {:induction false} QuarantineFollows(tools: map<string, Tool>, past: seq<Input>, ids: seq<string>)
    requires StillFollows(tools, past, ids) && Distinct(ids)
    ensures var evs, left := QuarantineAll(tools, ids), Unresolved(past, ids);
            && |evs| == |left|
            && forall k :: 0 <= k < |left| ==> ReportsAbandoned(evs[k], left[k], SignalsFor(past, left[k]))
    decreases |ids|
  {
    hide SignalsFor, ToolFollows, ReportsAbandoned, LatestOutcome, Quarantined, SnapshotOf;
    if ids != [] {
      var a := ids[0];
      var sigs := SignalsFor(past, a);
      assert StillFollows(tools, past, ids[1..]);
      TerminalFollows(tools, past, a);
      if a in tools && tools[a].terminal.None? {
        var t := Quarantined(tools[a]);
        QuarantinedReports(tools[a], sigs, a);
        QuarantineFollows(tools[a := t], past, ids[1..]);
      } else {
        QuarantineFollows(tools, past, ids[1..]);
      }
    }
  }

  lemma TerminalFollows(tools: map<string, Tool>, past: seq<Input>, a: string)
    requires a in tools ==> ToolFollows(tools[a], SignalsFor(past, a))
    ensures a in tools ==> tools[a].terminal == LatestOutcome(SignalsFor(past, a))
  {
    hide SignalsFor;
  }

  lemma {:induction false} TraceEndsWith(
    l: Limits, tools: map<string, Tool>, past: seq<Input>, inputs: seq<Input>, ids: seq<string>)
    requires TableFollows(tools, past) && AllTooling(inputs) && Distinct(ids)
    requires |Trace(l, tools, inputs)| == |inputs|
    ensures var evs, left := Trace(l, tools, inputs + [AbruptEnd(ids)]), Unresolved(past + inputs, ids);
            && |evs| == |inputs| + |left| && Trace(l, tools, inputs) <= evs
            && forall k :: 0 <= k < |left| ==>
                 ReportsAbandoned(evs[|inputs| + k], left[k], SignalsFor(past + inputs, left[k]))
    decreases |inputs|
  {
    hide TableFollows, OnTool, ReportsAbandoned, SignalsFor, Unresolved, QuarantineAll;
    var all := inputs + [AbruptEnd(ids)];
    if inputs == [] {
      assert past + inputs == past;
      TableStillFollows(tools, past, ids);
      QuarantineFollows(tools, past, ids);
    } else {
      var a, s := inputs[0].action, inputs[0].signal;
      var h := OnTool(l, tools, a, s);
      assert all[0] == inputs[0] && all[1..] == inputs[1..] + [AbruptEnd(ids)];
      HandlingFollows(l, tools, past, a, s);
      var now := past + [inputs[0]];
      TraceEndsWith(l, h.tools, now, inputs[1..], ids);
      assert now + inputs[1..] == past + inputs;
      var later := Trace(l, h.tools, all[1..]);
      assert Trace(l, tools, all) == [h.event] + later;
      assert forall k :: 0 <= k < |later| ==> ([h.event] + later)[k + 1] == later[k];
    }
  }

  lemma TableStillFollows(tools: map<string, Tool>, past: seq<Input>, ids: seq<string>)
    requires TableFollows(tools, past)
    ensures StillFollows(tools, past, ids)
  {
    hide SignalsFor, ToolFollows;
  }

  /**
   An abrupt end after signals within the limits publishes, for exactly the actions that have signals and no outcome,
   one event each, which exposes the arguments of a request that is ready and nothing else.
   */
  lemma AbruptEndSays(l: Limits, inputs: seq<Input>, ids: seq<string>)
    requires AllTooling(inputs) && Distinct(ids) && |Trace(l, map[], inputs)| == |inputs|
    ensures var evs, left := Trace(l, map[], inputs + [AbruptEnd(ids)]), Unresolved(inputs, ids);
            && |evs| == |inputs| + |left| && Trace(l, map[], inputs) <= evs
            && forall k :: 0 <= k < |left| ==>
                 ReportsAbandoned(evs[|inputs| + k], left[k], SignalsFor(inputs, left[k]))
  {
    hide Trace, TableFollows, ReportsAbandoned, SignalsFor, Unresolved;
    NothingFollows();
    TraceEndsWith(l, map[], [], inputs, ids);
    assert [] + inputs == inputs;
  }

  // The first time an action is ready.

  predicate IsReady(e: ToolEvent, a: string) { e.action == a && e.request == Ready }

  predicate IsRequest(i: Input, a: string) { i.Tooling? && i.action == a && i.signal.RequestReady? }

  lemma {:induction false} QuarantinedReady(tools: map<string, Tool>, ids: seq<string>, m: nat)
    requires m < |QuarantineAll(tools, ids)| && QuarantineAll(tools, ids)[m].request == Ready
    ensures var a := QuarantineAll(tools, ids)[m].action; a in tools && tools[a].request == Ready
    decreases |ids|
  {
    if ids[0] !in tools || tools[ids[0]].terminal.Some? {
      QuarantinedReady(tools, ids[1..], m);
    } else if m > 0 {
      QuarantinedReady(tools[ids[0] := Quarantined(tools[ids[0]])], ids[1..], m - 1);
    }
  }

  lemma {:induction false} FirstReadyFrom(
    l: Limits, tools: map<string, Tool>, past: seq<Input>, inputs: seq<Input>, a: string, m: nat)
    requires TableFollows(tools, past) && ReadyArguments(SignalsFor(past, a)) == None
    requires m < |Trace(l, tools, inputs)| && IsReady(Trace(l, tools, inputs)[m], a)
    requires forall k :: 0 <= k < m ==> !IsReady(Trace(l, tools, inputs)[k], a)
    ensures m < |inputs| && IsRequest(inputs[m], a) && forall k :: 0 <= k < m ==> !IsRequest(inputs[k], a)
    ensures var e := Trace(l, tools, inputs)[m];
            e.name == Some(inputs[m].signal.name) && e.requestPayload == Some(inputs[m].signal.arguments)
    decreases |inputs|
  {
    hide TableFollows, OnTool, QuarantineAll, SignalsFor, LatestName, ReadyArguments, LatestResult, LatestOutcome;
    var evs := Trace(l, tools, inputs);
    match inputs[0] {
      case AbruptEnd(ids) =>
        QuarantinedReady(tools, ids, m);
        TableIsReady(tools, past, a);
      case Tooling(b, s) =>
        var h := OnTool(l, tools, b, s);
        var now := past + [inputs[0]];
        HandlingFollows(l, tools, past, b, s);
        SignalsGrow(past, inputs[0], a);
        SignalsGrow(past, inputs[0], b);
        LatestGrow(SignalsFor(past, b), s);
        if m > 0 {
          assert SignalsFor(past, a) + [] == SignalsFor(past, a);
          var later := Trace(l, h.tools, inputs[1..]);
          assert evs == [h.event] + later && !IsReady(evs[0], a);
          assert forall k :: 0 <= k < m - 1 ==> later[k] == evs[k + 1];
          FirstReadyFrom(l, h.tools, now, inputs[1..], a, m - 1);
          assert forall k :: 0 < k < m ==> inputs[k] == inputs[1..][k - 1];
        }
    }
  }

  lemma TableIsReady(tools: map<string, Tool>, past: seq<Input>, a: string)
    requires TableFollows(tools, past) && a in tools && tools[a].request == Ready
    ensures ReadyArguments(SignalsFor(past, a)).Some?
  {
    hide SignalsFor;
  }

  /** The first ready event of an action is that of its first request, with that request's name and arguments. */
  lemma FirstReadyIsFirstRequest(l: Limits, inputs: seq<Input>, a: string, m: nat)
    requires m < |Trace(l, map[], inputs)| && IsReady(Trace(l, map[], inputs)[m], a)
    requires forall k :: 0 <= k < m ==> !IsReady(Trace(l, map[], inputs)[k], a)
    ensures m < |inputs| && IsRequest(inputs[m], a) && forall k :: 0 <= k < m ==> !IsRequest(inputs[k], a)
    ensures var e := Trace(l, map[], inputs)[m];
            e.name == Some(inputs[m].signal.name) && e.requestPayload == Some(inputs[m].signal.arguments)
  {
    hide Trace, TableFollows;
    NothingFollows();
    FirstReadyFrom(l, map[], [], inputs, a, m);
  }
}
