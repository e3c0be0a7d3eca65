/** The Loop's event handling (crates/monoloop-loop/src/runtime.rs, `LoopOwner`). */
module LoopOwner {
  import opened Common
  import opened LoopKeys
  import opened ToolActions

  datatype LoopLimits = LoopLimits(maxToolActions: nat, maxDedupEntries: nat)

  datatype Scope = Scope(acceptAll: bool, interpretations: seq<string>, connections: seq<string>, sessions: seq<string>)

  /** The envelope of a unit; only tool units drive the Loop. */
  datatype Unit = Unit(interpretation: string, connection: string, session: Option<string>, tool: Option<ToolEvent>)

  datatype Delivery = Delivery(sequence: nat, event: Event)

  datatype Event = UnitEvent(unit: Unit) | Ended

  /** What registry and tool runtime answer to one dispatch. */
  datatype Reply =
    | RegistryFails
    | Unavailable(reason: string)
    | StartFails(error: string)
    | Started(completion: Completion)

  /** How a started tool ends: with an outcome, with its completion lost, or with none to wait for. */
  datatype Completion = Finishes(outcome: ResultKind, payload: string) | CompletionLost | NoCompletion

  datatype EndKind = SubscriptionLost | InvariantFailed | OutputFailed

  datatype ActionState = ObservedWaiting | ReadySeen | NotAvailable | SeenIncomplete

  datatype Record = Record(lastGeneration: nat, state: ActionState, dispatched: bool)

  datatype ResultKind = Success | ToolUnavailable | DispatchRejected | ExecutionFailed | Cancelled | ExecutionLost

  /** What registry and tool runtime are asked: the tool by name, with its payload. */
  datatype Call = Call(key: string, action: string, generation: nat, name: string, payload: string)

  /** `key` records which action an output belongs to. */
  datatype Output =
    | DispatchRequested(key: string, action: string, generation: nat)
    | UnavailableNotice(key: string, action: string, reason: string)
    | OutboundResult(key: string, action: string, generation: nat, outcome: ResultKind, payload: string)

  /**
   `room` is how many more outputs the receiver takes before it is dropped; `resolved` and `started` are what the
   registry was asked to resolve and the runtime to start, in order.
   */
  datatype LoopState = LoopState(
    lastSeq: nat,
    actions: map<string, Record>,
    dedup: map<string, nat>,
    deliveries: nat,
    duplicates: nat,
    unavailable: nat,
    outbound: nat,
    out: seq<Output>,
    room: nat,
    resolved: seq<Call>,
    started: seq<Call>)

  function Start(room: nat): LoopState { LoopState(0, map[], map[], 0, 0, 0, 0, [], room, [], []) }

  datatype Step = Continue(st: LoopState) | End(st: LoopState, kind: EndKind)

  function InScope(scope: Scope, u: Unit): bool {
    || scope.acceptAll
    || (&& (scope.interpretations == [] || u.interpretation in scope.interpretations)
        && (scope.connections == [] || u.connection in scope.connections)
        && (scope.sessions == [] || (u.session.Some? && u.session.value in scope.sessions)))
  }

  /** Send an output, if the receiver still takes it. */
  function Sent(st: LoopState, o: Output): Step {
    if st.room == 0 then End(st, OutputFailed)
    else Continue(st.(out := st.out + [o], room := st.room - 1))
  }

  predicate Callable(e: ToolEvent) { e.name.Some? && e.requestPayload.Some? }

  function CallFor(key: string, e: ToolEvent): Call
    requires Callable(e)
  {
    Call(key, e.action, e.generation, e.name.value, e.requestPayload.value)
  }

  function OutcomeOf(c: Completion): (ResultKind, string) {
    match c
    case Finishes(outcome, payload) => (outcome, payload)
    case CompletionLost => (ExecutionLost, "completion lost")
    case NoCompletion => (ExecutionFailed, "runtime returned no completion")
  }

  /** The registry has no such tool: a notice, and a result that is counted before it is sent. */
  function SaidUnavailable(st: LoopState, key: string, e: ToolEvent, reason: string): Step
    requires key in st.actions
  {
    var st1 := st.(actions := st.actions[key := st.actions[key].(state := NotAvailable)],
                   unavailable := st.unavailable + 1);
    match Sent(st1, UnavailableNotice(key, e.action, reason))
    case End(st2, kind) => End(st2, kind)
    case Continue(st2) =>
      Sent(st2.(outbound := st2.outbound + 1), OutboundResult(key, e.action, e.generation, ToolUnavailable, reason))
  }

  /** The tool does not start: a result that is counted once it is sent. */
  function SaidFailed(st: LoopState, key: string, e: ToolEvent, error: string): Step {
    match Sent(st, OutboundResult(key, e.action, e.generation, ExecutionFailed, error))
    case End(st1, kind) => End(st1, kind)
    case Continue(st1) => Continue(st1.(outbound := st1.outbound + 1))
  }

  /** The tool has run: its outcome, counted before it is sent. */
  function SaidDone(st: LoopState, key: string, e: ToolEvent, completion: Completion): Step {
    var (outcome, payload) := OutcomeOf(completion);
    Sent(st.(outbound := st.outbound + 1), OutboundResult(key, e.action, e.generation, outcome, payload))
  }

  /** From the dispatch event on, for a record just marked dispatched. */
  function Dispatch(st: LoopState, key: string, e: ToolEvent, reply: Reply): Step
    requires key in st.actions && Callable(e)
  {
    match Sent(st, DispatchRequested(key, e.action, e.generation))
    case End(st1, kind) => End(st1, kind)
    case Continue(st1) =>
      var st2 := st1.(resolved := st1.resolved + [CallFor(key, e)]);
      var st3 := st2.(started := st2.started + [CallFor(key, e)]);
      match reply
      case RegistryFails => End(st2, InvariantFailed)
      case Unavailable(reason) => SaidUnavailable(st2, key, e, reason)
      case StartFails(error) => SaidFailed(st3, key, e, error)
      case Started(completion) => SaidDone(st3, key, e, completion)
  }

  /** Which way a tool event goes through the handler. */
  datatype Branch =
    | DedupHit | DedupFull
    | Tracked | TrackedStale
    | TooManyActions | ReadyStale | AlreadyDispatched | MissingName | MissingPayload | Dispatches
    | IncompleteSeen | IncompleteStale

  function RecordOf(st: LoopState, key: string, initial: ActionState): Record {
    if key in st.actions then st.actions[key] else Record(0, initial, false)
  }

  function BranchOf(l: LoopLimits, st: LoopState, key: string, e: ToolEvent): Branch {
    var dk := DedupKey(key, e.generation);
    if dk in st.dedup && st.dedup[dk] == e.generation then DedupHit
    else if |st.dedup| >= l.maxDedupEntries then DedupFull
    else
      match e.request
      case Assembling =>
        if e.generation < RecordOf(st, key, ObservedWaiting).lastGeneration then TrackedStale else Tracked
      case Ready =>
        if |st.actions| >= l.maxToolActions && key !in st.actions then TooManyActions
        else
          var rec := RecordOf(st, key, ReadySeen);
          if e.generation < rec.lastGeneration then ReadyStale
          else if rec.dispatched then AlreadyDispatched
          else if e.name.None? then MissingName
          else if e.requestPayload.None? then MissingPayload
          else Dispatches
      case _ =>
        if e.generation < RecordOf(st, key, SeenIncomplete).lastGeneration then IncompleteStale else IncompleteSeen
  }

  /** `track_waiting`. */
  function TrackedWaiting(st: LoopState, key: string, generation: nat): LoopState {
    var rec := RecordOf(st, key, ObservedWaiting);
    var rec :=
      if generation < rec.lastGeneration then rec
      else Record(generation,
                  if rec.state != NotAvailable && !rec.dispatched then ObservedWaiting else rec.state,
                  rec.dispatched);
    st.(actions := st.actions[key := rec])
  }

  function NotedIncomplete(st: LoopState, key: string, generation: nat): LoopState {
    var rec := RecordOf(st, key, SeenIncomplete);
    var rec := if generation < rec.lastGeneration then rec else Record(generation, SeenIncomplete, rec.dispatched);
    st.(actions := st.actions[key := rec])
  }

  /** `on_request_ready`. */
  function OnRequestReady(l: LoopLimits, st: LoopState, key: string, e: ToolEvent, reply: Reply): Step {
    var rec := RecordOf(st, key, ReadySeen);
    if |st.actions| >= l.maxToolActions && key !in st.actions then End(st, InvariantFailed)
    else if e.generation < rec.lastGeneration then Continue(st.(actions := st.actions[key := rec]))
    else
      var rec := rec.(lastGeneration := e.generation);
      if rec.dispatched then Continue(st.(actions := st.actions[key := rec], duplicates := st.duplicates + 1))
      else if e.name.None? || e.requestPayload.None? then Continue(st.(actions := st.actions[key := rec]))
      else Dispatch(st.(actions := st.actions[key := rec.(state := ReadySeen, dispatched := true)]), key, e, reply)
  }

  function OnToolEvent(l: LoopLimits, st: LoopState, key: string, e: ToolEvent, reply: Reply): Step {
    var dk := DedupKey(key, e.generation);
    if dk in st.dedup && st.dedup[dk] == e.generation then Continue(st.(duplicates := st.duplicates + 1))
    else if |st.dedup| >= l.maxDedupEntries then End(st, InvariantFailed)
    else
      var st := st.(dedup := st.dedup[dk := e.generation]);
      match e.request
      case Assembling => Continue(TrackedWaiting(st, key, e.generation))
      case Ready => OnRequestReady(l, st, key, e, reply)
      case _ => Continue(NotedIncomplete(st, key, e.generation))
  }

  function OnUnit(l: LoopLimits, scope: Scope, st: LoopState, u: Unit, reply: Reply): Step {
    if !InScope(scope, u) || u.tool.None? then Continue(st)
    else OnToolEvent(l, st, ActionKey(u.interpretation, u.tool.value.action), u.tool.value, reply)
  }

  function OnDelivered(l: LoopLimits, scope: Scope, st: LoopState, d: Delivery, reply: Reply): Step {
    if st.lastSeq > 0 && d.sequence != st.lastSeq + 1 then End(st, SubscriptionLost)
    else
      var st := st.(lastSeq := d.sequence, deliveries := st.deliveries + 1);
      match d.event
      case UnitEvent(u) => OnUnit(l, scope, st, u, reply)
      case Ended => Continue(st)
  }

  datatype Job = Job(delivery: Delivery, reply: Reply)

  /** Deliveries in turn, up to the first that ends the Loop. */
  function Run(l: LoopLimits, scope: Scope, st: LoopState, jobs: seq<Job>): Step
    decreases |jobs|
  {
    if jobs == [] then Continue(st)
    else
      match OnDelivered(l, scope, st, jobs[0].delivery, jobs[0].reply)
      case Continue(st') => Run(l, scope, st', jobs[1..])
      case ended => ended
  }

  class Loop {
    const limits: LoopLimits
    const scope: Scope
    var lastSeq: nat
    var actions: map<string, Record>
    var dedup: map<string, nat>
    var deliveries: nat
    var duplicates: nat
    var unavailable: nat
    var outbound: nat
    var out: seq<Output>
    var room: nat
    ghost var resolved: seq<Call>
    ghost var started: seq<Call>

    ghost function Abs(): LoopState
      reads this
    {
      LoopState(lastSeq, actions, dedup, deliveries, duplicates, unavailable, outbound, out, room, resolved, started)
    }

    constructor (limits: LoopLimits, scope: Scope, room: nat)
      ensures Abs() == Start(room) && this.limits == limits && this.scope == scope
    {
      this.limits, this.scope := limits, scope;
      lastSeq, deliveries, duplicates, unavailable, outbound := 0, 0, 0, 0, 0;
      actions, dedup, out := map[], map[], [];
      this.room := room;
      resolved, started := [], [];
    }

    /** The object ends up in the step's state and reports its end, if any. */
    ghost predicate Took(s: Step, end: Option<EndKind>)
      reads this
    {
      Abs() == s.st && end == if s.End? then Some(s.kind) else None
    }

    method Send(o: Output) returns (end: Option<EndKind>)
      modifies this`out, this`room
      ensures Took(Sent(old(Abs()), o), end)
    {
      if room == 0 {
        return Some(OutputFailed);
      }
      out := out + [o];
      room := room - 1;
      end := None;
    }

    method HandleDelivery(d: Delivery, reply: Reply) returns (end: Option<EndKind>)
      modifies this
      ensures Took(OnDelivered(limits, scope, old(Abs()), d, reply), end)
    {
      hide OnToolEvent, InScope;
      if lastSeq > 0 && d.sequence != lastSeq + 1 {
        return Some(SubscriptionLost);
      }
      lastSeq := d.sequence;
      deliveries := deliveries + 1;
      match d.event {
        case UnitEvent(u) =>
          if !InScope(scope, u) || u.tool.None? {
            return None;
          }
          end := HandleTool(ActionKey(u.interpretation, u.tool.value.action), u.tool.value, reply);
        case Ended => end := None;
      }
    }

    method HandleTool(key: string, e: ToolEvent, reply: Reply) returns (end: Option<EndKind>)
      modifies this
      ensures Took(OnToolEvent(limits, old(Abs()), key, e, reply), end)
    {
      hide OnRequestReady, TrackedWaiting, NotedIncomplete, DedupKey;
      var dk := DedupKey(key, e.generation);
      if dk in dedup && dedup[dk] == e.generation {
        duplicates := duplicates + 1;
        return None;
      }
      if |dedup| >= limits.maxDedupEntries {
        return Some(InvariantFailed);
      }
      dedup := dedup[dk := e.generation];
      end := None;
      match e.request {
        case Assembling => TrackWaiting(key, e.generation);
        case Ready => end := HandleReady(key, e, reply);
        case _ => NoteIncomplete(key, e.generation);
      }
    }

    method TrackWaiting(key: string, generation: nat)
      modifies this
      ensures Abs() == TrackedWaiting(old(Abs()), key, generation)
    {
      var rec := if key in actions then actions[key] else Record(0, ObservedWaiting, false);
      if generation < rec.lastGeneration {
        actions := actions[key := rec];
        return;
      }
      rec := rec.(lastGeneration := generation);
      if rec.state != NotAvailable && !rec.dispatched {
        rec := rec.(state := ObservedWaiting);
      }
      actions := actions[key := rec];
    }

    method NoteIncomplete(key: string, generation: nat)
      modifies this
      ensures Abs() == NotedIncomplete(old(Abs()), key, generation)
    {
      var rec := if key in actions then actions[key] else Record(0, SeenIncomplete, false);
      if generation >= rec.lastGeneration {
        rec := rec.(lastGeneration := generation, state := SeenIncomplete);
      }
      actions := actions[key := rec];
    }

    method HandleReady(key: string, e: ToolEvent, reply: Reply) returns (end: Option<EndKind>)
      modifies this
      ensures Took(OnRequestReady(limits, old(Abs()), key, e, reply), end)
    {
      hide Dispatch;
      if |actions| >= limits.maxToolActions && key !in actions {
        return Some(InvariantFailed);
      }
      var rec := if key in actions then actions[key] else Record(0, ReadySeen, false);
      if e.generation < rec.lastGeneration {
        actions := actions[key := rec];
        return None;
      }
      rec := rec.(lastGeneration := e.generation);
      actions := actions[key := rec];
      if rec.dispatched {
        duplicates := duplicates + 1;
        return None;
      }
      if e.name.None? {
        return None;
      }
      if e.requestPayload.None? {
        return None;
      }
      actions := actions[key := rec.(state := ReadySeen, dispatched := true)];
      assert actions == old(actions)[key := rec.(state := ReadySeen, dispatched := true)];
      end := Resolve(key, e, reply);
    }

    method Resolve(key: string, e: ToolEvent, reply: Reply) returns (end: Option<EndKind>)
      requires key in actions && Callable(e)
      modifies this
      ensures Took(Dispatch(old(Abs()), key, e, reply), end)
    {
      end := Send(DispatchRequested(key, e.action, e.generation));
      if end.Some? {
        return;
      }
      resolved := resolved + [CallFor(key, e)];
      hide SaidUnavailable, SaidFailed, SaidDone;
      match reply {
        case RegistryFails => end := Some(InvariantFailed);
        case Unavailable(reason) => end := SayUnavailable(key, e, reason);
        case StartFails(error) =>
          started := started + [CallFor(key, e)];
          end := SayFailed(key, e, error);
        case Started(completion) =>
          started := started + [CallFor(key, e)];
          end := SayDone(key, e, completion);
      }
    }

    method SayUnavailable(key: string, e: ToolEvent, reason: string) returns (end: Option<EndKind>)
      requires key in actions
      modifies this
      ensures Took(SaidUnavailable(old(Abs()), key, e, reason), end)
    {
      actions := actions[key := actions[key].(state := NotAvailable)];
      unavailable := unavailable + 1;
      end := Send(UnavailableNotice(key, e.action, reason));
      if end.Some? {
        return;
      }
      outbound := outbound + 1;
      end := Send(OutboundResult(key, e.action, e.generation, ToolUnavailable, reason));
    }

    method SayFailed(key: string, e: ToolEvent, error: string) returns (end: Option<EndKind>)
      modifies this
      ensures Took(SaidFailed(old(Abs()), key, e, error), end)
    {
      end := Send(OutboundResult(key, e.action, e.generation, ExecutionFailed, error));
      if end.Some? {
        return;
      }
      outbound := outbound + 1;
    }

    method SayDone(key: string, e: ToolEvent, completion: Completion) returns (end: Option<EndKind>)
      modifies this
      ensures Took(SaidDone(old(Abs()), key, e, completion), end)
    {
      var outcome, payload := ExecutionFailed, "runtime returned no completion";
      match completion {
        case Finishes(o, p) => outcome, payload := o, p;
        case CompletionLost => outcome, payload := ExecutionLost, "completion lost";
        case NoCompletion =>
      }
      outbound := outbound + 1;
      end := Send(OutboundResult(key, e.action, e.generation, outcome, payload));
    }

    method HandleAll(jobs: seq<Job>) returns (end: Option<EndKind>)
      modifies this
      ensures Took(Run(limits, scope, old(Abs()), jobs), end)
    {
      hide OnDelivered;
      var k := 0;
      ghost var whole := Run(limits, scope, Abs(), jobs);
      assert jobs[0..] == jobs;
      while k < |jobs|
        invariant k <= |jobs| && Run(limits, scope, Abs(), jobs[k..]) == whole
      {
        assert jobs[k..][1..] == jobs[k + 1..];
        end := HandleDelivery(jobs[k].delivery, jobs[k].reply);
        if end.Some? {
          return;
        }
        k := k + 1;
      }
      end := None;
    }
  }
}
