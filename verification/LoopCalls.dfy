/** What the Loop asks of registry and runtime, and what it says about the answers. */
module LoopCalls {
  import opened Common
  import opened LoopKeys
  import opened ToolActions
  import opened LoopOwner
  import opened LoopProperties

  /** What a dispatch says for each answer, with its output open. */
  function Saying(key: string, e: ToolEvent, reply: Reply): seq<Output> {
    match reply
    case RegistryFails => []
    case Unavailable(reason) =>
      [UnavailableNotice(key, e.action, reason), OutboundResult(key, e.action, e.generation, ToolUnavailable, reason)]
    case StartFails(error) => [OutboundResult(key, e.action, e.generation, ExecutionFailed, error)]
    case Started(Finishes(outcome, payload)) => [OutboundResult(key, e.action, e.generation, outcome, payload)]
    case Started(CompletionLost) => [OutboundResult(key, e.action, e.generation, ExecutionLost, "completion lost")]
    case Started(NoCompletion) =>
      [OutboundResult(key, e.action, e.generation, ExecutionFailed, "runtime returned no completion")]
  }

  /**
   A dispatch with its output open: it is announced, the registry is asked for the tool by name with its payload, the
   runtime is asked to start it unless the registry has none, and the answer comes out as the result.
   */
  lemma DispatchSays(st: LoopState, key: string, e: ToolEvent, reply: Reply, name: string, payload: string)
    requires key in st.actions && e.name == Some(name) && e.requestPayload == Some(payload) && st.room >= 3
    ensures var s, call := Dispatch(st, key, e, reply), Call(key, e.action, e.generation, name, payload);
            && s.st.out == st.out + [DispatchRequested(key, e.action, e.generation)] + Saying(key, e, reply)
            && s.st.resolved == st.resolved + [call]
            && s.st.started == (if reply.StartFails? || reply.Started? then st.started + [call] else st.started)
            && s.st.unavailable == st.unavailable + (if reply.Unavailable? then 1 else 0)
            && (s.End? <==> reply.RegistryFails?) && (s.End? ==> s.kind == InvariantFailed)
  {
    var o := DispatchRequested(key, e.action, e.generation);
    match reply
    case RegistryFails => assert st.out + [o] + [] == st.out + [o];
    case Unavailable(reason) =>
      var n := UnavailableNotice(key, e.action, reason);
      var r := OutboundResult(key, e.action, e.generation, ToolUnavailable, reason);
      assert st.out + [o] + [n] + [r] == st.out + [o] + [n, r];
    case _ =>
  }

  function Notices(out: seq<Output>): nat {
    if out == [] then 0 else Notices(out[..|out| - 1]) + if out[|out| - 1].UnavailableNotice? then 1 else 0
  }

  function CallsOf(calls: seq<Call>, key: string): nat {
    if calls == [] then 0 else CallsOf(calls[..|calls| - 1], key) + if calls[|calls| - 1].key == key then 1 else 0
  }

  lemma NoticesAppend(out: seq<Output>, o: Output)
    ensures Notices(out + [o]) == Notices(out) + if o.UnavailableNotice? then 1 else 0
  {
    assert (out + [o])[..|out|] == out;
  }

  lemma CallsAppend(calls: seq<Call>, c: Call, key: string)
    ensures CallsOf(calls + [c], key) == CallsOf(calls, key) + if c.key == key then 1 else 0
  {
    assert (calls + [c])[..|calls|] == calls;
  }

  /** What a handled event asks: its own tool, exactly when it dispatches, and to start it only if it was resolved. */
  predicate Asked(l: LoopLimits, st: LoopState, st': LoopState, key: string, e: ToolEvent) {
    if DispatchesNow(l, st, key, e) then
      && Callable(e) && st'.resolved == st.resolved + [CallFor(key, e)]
      && (st'.started == st.started || st'.started == st.started + [CallFor(key, e)])
    else st'.resolved == st.resolved && st'.started == st.started
  }

  lemma EventAsks(l: LoopLimits, st: LoopState, key: string, e: ToolEvent, reply: Reply)
    requires OnToolEvent(l, st, key, e, reply).Continue?
    ensures Asked(l, st, OnToolEvent(l, st, key, e, reply).st, key, e)
  {
    hide DedupKey, Dispatch;
    var st1 := st.(dedup := st.dedup[DedupKey(key, e.generation) := e.generation]);
    var rec := RecordOf(st, key, ReadySeen).(lastGeneration := e.generation, state := ReadySeen, dispatched := true);
    if Callable(e) {
      DispatchAsks(st1.(actions := st1.actions[key := rec]), key, e, reply);
    }
  }

  lemma DispatchAsks(st: LoopState, key: string, e: ToolEvent, reply: Reply)
    requires key in st.actions && Callable(e)
    ensures var s := Dispatch(st, key, e, reply);
            s.Continue? ==>
              && s.st.resolved == st.resolved + [CallFor(key, e)]
              && (s.st.started == st.started || s.st.started == st.started + [CallFor(key, e)])
              && Notices(s.st.out) - Notices(st.out) == s.st.unavailable - st.unavailable
  {
    hide Notices;
    var o := DispatchRequested(key, e.action, e.generation);
    NoticesAppend(st.out, o);
    match reply
    case RegistryFails =>
    case Unavailable(reason) =>
      var n := UnavailableNotice(key, e.action, reason);
      NoticesAppend(st.out + [o], n);
      NoticesAppend(st.out + [o] + [n], OutboundResult(key, e.action, e.generation, ToolUnavailable, reason));
    case StartFails(error) =>
      NoticesAppend(st.out + [o], OutboundResult(key, e.action, e.generation, ExecutionFailed, error));
    case Started(c) =>
      NoticesAppend(st.out + [o], OutboundResult(key, e.action, e.generation, OutcomeOf(c).0, OutcomeOf(c).1));
  }

  lemma EventNotices(l: LoopLimits, st: LoopState, key: string, e: ToolEvent, reply: Reply)
    requires OnToolEvent(l, st, key, e, reply).Continue?
    ensures var st' := OnToolEvent(l, st, key, e, reply).st;
            Notices(st'.out) - Notices(st.out) == st'.unavailable - st.unavailable
  {
    hide DedupKey, Dispatch, Notices;
    var st1 := st.(dedup := st.dedup[DedupKey(key, e.generation) := e.generation]);
    var rec := RecordOf(st, key, ReadySeen).(lastGeneration := e.generation, state := ReadySeen, dispatched := true);
    if Callable(e) {
      DispatchAsks(st1.(actions := st1.actions[key := rec]), key, e, reply);
    }
  }

  /** One resolution for every dispatch, at most one start for every resolution, and every notice counted. */
  ghost predicate CallsAgree(st: LoopState) {
    && Notices(st.out) == st.unavailable
    && forall key :: CallsOf(st.started, key) <= CallsOf(st.resolved, key) == DispatchesOf(st.out, key)
  }

  lemma EventKeepsCalls(l: LoopLimits, st: LoopState, key: string, e: ToolEvent, reply: Reply)
    requires CallsAgree(st) && OnToolEvent(l, st, key, e, reply).Continue?
    ensures CallsAgree(OnToolEvent(l, st, key, e, reply).st)
  {
    hide OnToolEvent, Notices, CallsOf, DispatchesOf, Results, DispatchesNow, TablesMoved, WasDispatched;
    var st' := OnToolEvent(l, st, key, e, reply).st;
    EventAsks(l, st, key, e, reply);
    EventNotices(l, st, key, e, reply);
    forall k ensures CallsOf(st'.started, k) <= CallsOf(st'.resolved, k) == DispatchesOf(st'.out, k) {
      EventOutcome(l, st, key, e, reply, k);
      if DispatchesNow(l, st, key, e) {
        CallsAppend(st.resolved, CallFor(key, e), k);
        CallsAppend(st.started, CallFor(key, e), k);
      }
    }
  }

  lemma DeliveryKeepsCalls(l: LoopLimits, scope: Scope, st: LoopState, d: Delivery, reply: Reply)
    requires CallsAgree(st) && OnDelivered(l, scope, st, d, reply).Continue?
    ensures CallsAgree(OnDelivered(l, scope, st, d, reply).st)
  {
    hide OnToolEvent, Notices, CallsOf, DispatchesOf, ActionKey;
    var st1 := st.(lastSeq := d.sequence, deliveries := st.deliveries + 1);
    assert CallsAgree(st1);
    if d.event.UnitEvent? && InScope(scope, d.event.unit) && d.event.unit.tool.Some? {
      var u := d.event.unit;
      EventKeepsCalls(l, st1, ActionKey(u.interpretation, u.tool.value.action), u.tool.value, reply);
    }
  }

  lemma {:induction false} RunKeepsCalls(l: LoopLimits, scope: Scope, st: LoopState, jobs: seq<Job>)
    requires CallsAgree(st) && Run(l, scope, st, jobs).Continue?
    ensures CallsAgree(Run(l, scope, st, jobs).st)
    decreases |jobs|
  {
    hide OnDelivered, CallsAgree;
    if jobs != [] {
      DeliveryKeepsCalls(l, scope, st, jobs[0].delivery, jobs[0].reply);
      RunKeepsCalls(l, scope, OnDelivered(l, scope, st, jobs[0].delivery, jobs[0].reply).st, jobs[1..]);
    }
  }

  /** Over every run that goes on, no action is resolved or started twice, and notices and their counter agree. */
  lemma CallAccounting(l: LoopLimits, scope: Scope, room: nat, jobs: seq<Job>)
    requires Run(l, scope, Start(room), jobs).Continue?
    ensures var st := Run(l, scope, Start(room), jobs).st;
            && Notices(st.out) == st.unavailable
            && forall key :: CallsOf(st.started, key) <= CallsOf(st.resolved, key) == DispatchesOf(st.out, key) <= 1
  {
    hide Run, Notices, CallsOf, DispatchesOf;
    StartAgrees(room);
    RunKeepsCalls(l, scope, Start(room), jobs);
    LoopAccounting(l, scope, room, jobs);
  }

  lemma StartAgrees(room: nat)
    ensures CallsAgree(Start(room))
  {
  }

  // What the records say.

  /** The state an action is recorded in after an event that goes on, by the way the event took. */
  lemma RecordedState(l: LoopLimits, st: LoopState, key: string, e: ToolEvent, reply: Reply)
    requires OnToolEvent(l, st, key, e, reply).Continue? && !IsHit(st, key, e)
    ensures var st', b := OnToolEvent(l, st, key, e, reply).st, BranchOf(l, st, key, e);
            var was := if key in st.actions then Some(st.actions[key].state) else None;
            && key in st'.actions
            && (b.Dispatches? ==> st'.actions[key].state == if reply.Unavailable? then NotAvailable else ReadySeen)
            && (b.IncompleteSeen? ==> st'.actions[key].state == SeenIncomplete)
            && (b.Tracked? ==> st'.actions[key].state ==
                               if key in st.actions && (was == Some(NotAvailable) || st.actions[key].dispatched)
                               then was.value else ObservedWaiting)
            && (b.AlreadyDispatched? || b.MissingName? || b.MissingPayload? ==>
                  st'.actions[key].state == if was.Some? then was.value else ReadySeen)
  {
    hide DedupKey, Dispatch;
    var st1 := st.(dedup := st.dedup[DedupKey(key, e.generation) := e.generation]);
    var rec := RecordOf(st, key, ReadySeen).(lastGeneration := e.generation, state := ReadySeen, dispatched := true);
    if Callable(e) {
      DispatchRecords(st1.(actions := st1.actions[key := rec]), key, e, reply);
    }
  }

  lemma DispatchRecords(st: LoopState, key: string, e: ToolEvent, reply: Reply)
    requires key in st.actions && Callable(e)
    ensures var s := Dispatch(st, key, e, reply);
            s.Continue? ==>
              && key in s.st.actions
              && s.st.actions[key].state == if reply.Unavailable? then NotAvailable else st.actions[key].state
  {
  }

  // Scope.

  /** Everything is in scope with the flag; otherwise each list that is not empty has to name the unit. */
  lemma ScopeAdmits(scope: Scope, u: Unit)
    ensures scope.acceptAll ==> InScope(scope, u)
    ensures scope.interpretations == [] && scope.connections == [] && scope.sessions == [] ==> InScope(scope, u)
    ensures InScope(scope, u) && !scope.acceptAll && scope.interpretations != [] ==>
              u.interpretation in scope.interpretations
    ensures InScope(scope, u) && !scope.acceptAll && scope.connections != [] ==> u.connection in scope.connections
    ensures InScope(scope, u) && !scope.acceptAll && scope.sessions != [] ==>
              u.session.Some? && u.session.value in scope.sessions
    ensures (&& u.interpretation in scope.interpretations && u.connection in scope.connections
             && u.session.Some? && u.session.value in scope.sessions) ==> InScope(scope, u)
  {
  }

  /** A unit out of scope, and one that is no tool, only counts as a delivery. */
  lemma OutOfScopeIsPassedOver(l: LoopLimits, scope: Scope, st: LoopState, d: Delivery, reply: Reply)
    requires st.lastSeq == 0 || d.sequence == st.lastSeq + 1
    requires d.event.UnitEvent? ==> !InScope(scope, d.event.unit) || d.event.unit.tool.None?
    ensures OnDelivered(l, scope, st, d, reply) == Continue(st.(lastSeq := d.sequence, deliveries := st.deliveries + 1))
  {
    hide InScope, OnToolEvent;
  }
}
