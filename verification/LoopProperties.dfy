/** What every run of the Loop keeps: accounting, at-most-once dispatch, memory bound, gap detection. */
module LoopProperties {
  import opened Common
  import opened LoopKeys
  import opened ToolActions
  import opened LoopOwner

  function Dispatches(out: seq<Output>): nat {
    if out == [] then 0 else Dispatches(out[..|out| - 1]) + if out[|out| - 1].DispatchRequested? then 1 else 0
  }

  function Results(out: seq<Output>): nat {
    if out == [] then 0 else Results(out[..|out| - 1]) + if out[|out| - 1].OutboundResult? then 1 else 0
  }

  function DispatchesOf(out: seq<Output>, key: string): nat {
    if out == [] then 0
    else
      var o := out[|out| - 1];
      DispatchesOf(out[..|out| - 1], key) + if o.DispatchRequested? && o.key == key then 1 else 0
  }

  lemma CountAppend(out: seq<Output>, o: Output, key: string)
    ensures Dispatches(out + [o]) == Dispatches(out) + if o.DispatchRequested? then 1 else 0
    ensures Results(out + [o]) == Results(out) + if o.OutboundResult? then 1 else 0
    ensures DispatchesOf(out + [o], key) ==
            DispatchesOf(out, key) + if o.DispatchRequested? && o.key == key then 1 else 0
  {
    assert (out + [o])[..|out|] == out;
  }

  predicate WasDispatched(st: LoopState, key: string) { key in st.actions && st.actions[key].dispatched }

  /** The three counters agree and no action key was dispatched more than once. */
  ghost predicate Accounted(st: LoopState) {
    && Dispatches(st.out) == Results(st.out) == st.outbound
    && forall key :: DispatchesOf(st.out, key) == if WasDispatched(st, key) then 1 else 0
  }

  /** Every tracked action is paid for by a dedup entry, and a dedup entry holds the generation in its key. */
  ghost predicate Bounded(l: LoopLimits, st: LoopState) {
    && |st.actions| <= |st.dedup| <= l.maxDedupEntries
    && forall dk :: dk in st.dedup ==> KeyedBy(dk, st.dedup[dk])
  }

  ghost predicate KeyedBy(dk: string, generation: nat) { exists key :: dk == DedupKey(key, generation) }

  // One dispatch.

  lemma DispatchOutcome(st: LoopState, key: string, e: ToolEvent, reply: Reply, k: string)
    requires key in st.actions && Callable(e) && Dispatch(st, key, e, reply).Continue?
    ensures var st' := Dispatch(st, key, e, reply).st;
            && Dispatches(st'.out) == Dispatches(st.out) + 1
            && Results(st'.out) == Results(st.out) + 1
            && st'.outbound == st.outbound + 1
            && DispatchesOf(st'.out, k) == DispatchesOf(st.out, k) + (if k == key then 1 else 0)
            && st'.actions.Keys == st.actions.Keys && st'.dedup == st.dedup
            && (WasDispatched(st', k) <==> WasDispatched(st, k))
  {
    hide Dispatches, Results, DispatchesOf;
    var o1 := DispatchRequested(key, e.action, e.generation);
    CountAppend(st.out, o1, k);
    var out1 := st.out + [o1];
    match reply {
      case RegistryFails =>
      case Unavailable(reason) =>
        var notice := UnavailableNotice(key, e.action, reason);
        CountAppend(out1, notice, k);
        CountAppend(out1 + [notice], OutboundResult(key, e.action, e.generation, ToolUnavailable, reason), k);
      case StartFails(error) =>
        CountAppend(out1, OutboundResult(key, e.action, e.generation, ExecutionFailed, error), k);
      case Started(c) =>
        CountAppend(out1, OutboundResult(key, e.action, e.generation, OutcomeOf(c).0, OutcomeOf(c).1), k);
    }
  }

  /**
   When a dispatch fails, the result counter is ahead of the results sent in exactly two cases: the receiver went
   away at the result itself, after it was counted.
   */
  lemma CounterOnFailure(st: LoopState, key: string, e: ToolEvent, reply: Reply)
    requires key in st.actions && Callable(e) && Results(st.out) == st.outbound && Dispatch(st, key, e, reply).End?
    ensures var st' := Dispatch(st, key, e, reply).st;
            st'.outbound == Results(st'.out)
            + if (reply.Unavailable? && st.room == 2) || (reply.Started? && st.room == 1) then 1 else 0
  {
    hide Results, Dispatches, DispatchesOf;
    var o1 := DispatchRequested(key, e.action, e.generation);
    CountAppend(st.out, o1, key);
    if reply.Unavailable? {
      CountAppend(st.out + [o1], UnavailableNotice(key, e.action, reply.reason), key);
    }
  }

  // One event.

  predicate IsHit(st: LoopState, key: string, e: ToolEvent) {
    var dk := DedupKey(key, e.generation);
    dk in st.dedup && st.dedup[dk] == e.generation
  }

  /** This event dispatches its action. */
  predicate DispatchesNow(l: LoopLimits, st: LoopState, key: string, e: ToolEvent) {
    BranchOf(l, st, key, e).Dispatches?
  }

  /** From `st` to `st'` the counts and the dispatch marks moved by one dispatch of `key`, or not at all. */
  predicate Moved(st: LoopState, st': LoopState, key: string, now: bool, k: string) {
    && Dispatches(st'.out) - Dispatches(st.out) == (if now then 1 else 0)
    && Results(st'.out) - Results(st.out) == (if now then 1 else 0)
    && st'.outbound - st.outbound == (if now then 1 else 0)
    && DispatchesOf(st'.out, k) - DispatchesOf(st.out, k) == (if now && k == key then 1 else 0)
    && (WasDispatched(st', k) <==> WasDispatched(st, k) || (now && k == key))
    && (now ==> !WasDispatched(st, key))
  }

  lemma ReadyOutcome(l: LoopLimits, st: LoopState, key: string, e: ToolEvent, reply: Reply, k: string)
    requires OnRequestReady(l, st, key, e, reply).Continue?
    ensures var st' := OnRequestReady(l, st, key, e, reply).st;
            var rec := RecordOf(st, key, ReadySeen);
            var now := e.generation >= rec.lastGeneration && !rec.dispatched && e.name.Some? && e.requestPayload.Some?;
            && st'.dedup == st.dedup && st'.actions.Keys == st.actions.Keys + {key}
            && !(|st.actions| >= l.maxToolActions && key !in st.actions)
            && Moved(st, st', key, now, k)
  {
    hide Dispatch, Dispatches, Results, DispatchesOf;
    var rec := RecordOf(st, key, ReadySeen);
    if e.generation >= rec.lastGeneration && !rec.dispatched && e.name.Some? && e.requestPayload.Some? {
      var done := rec.(lastGeneration := e.generation, state := ReadySeen, dispatched := true);
      DispatchOutcome(st.(actions := st.actions[key := done]), key, e, reply, k);
    }
  }

  /** What a handled event does to the tables. */
  predicate TablesMoved(l: LoopLimits, st: LoopState, st': LoopState, key: string, e: ToolEvent) {
    if IsHit(st, key, e) then st'.actions == st.actions && st'.dedup == st.dedup
    else
      && st'.dedup == st.dedup[DedupKey(key, e.generation) := e.generation]
      && |st.dedup| < l.maxDedupEntries && st'.actions.Keys == st.actions.Keys + {key}
  }

  lemma ReadyEvent(l: LoopLimits, st: LoopState, key: string, e: ToolEvent, reply: Reply, k: string)
    requires OnToolEvent(l, st, key, e, reply).Continue? && e.request == Ready && !IsHit(st, key, e)
    ensures var st' := OnToolEvent(l, st, key, e, reply).st;
            TablesMoved(l, st, st', key, e) && Moved(st, st', key, DispatchesNow(l, st, key, e), k)
  {
    hide OnRequestReady, DedupKey, Dispatches, Results, DispatchesOf;
    ReadyOutcome(l, st.(dedup := st.dedup[DedupKey(key, e.generation) := e.generation]), key, e, reply, k);
  }

  lemma NotNow(l: LoopLimits, st: LoopState, key: string, e: ToolEvent)
    requires e.request != Ready || IsHit(st, key, e)
    ensures !DispatchesNow(l, st, key, e)
  {
    hide DedupKey, RecordOf;
  }

  /** Rewriting one record without marking it dispatched moves nothing. */
  lemma RecordMoves(st: LoopState, st': LoopState, key: string, rec: Record, k: string)
    requires st'.out == st.out && st'.outbound == st.outbound
    requires st'.actions == st.actions[key := rec] && (rec.dispatched <==> WasDispatched(st, key))
    ensures Moved(st, st', key, false, k) && st'.actions.Keys == st.actions.Keys + {key}
  {
    hide Dispatches, Results, DispatchesOf;
  }

  lemma TrackingMoves(st: LoopState, key: string, generation: nat, k: string)
    ensures var st' := TrackedWaiting(st, key, generation);
            Moved(st, st', key, false, k) && st'.actions.Keys == st.actions.Keys + {key} && st'.dedup == st.dedup
  {
    hide Moved;
    var st' := TrackedWaiting(st, key, generation);
    RecordMoves(st, st', key, st'.actions[key], k);
  }

  lemma NotingMoves(st: LoopState, key: string, generation: nat, k: string)
    ensures var st' := NotedIncomplete(st, key, generation);
            Moved(st, st', key, false, k) && st'.actions.Keys == st.actions.Keys + {key} && st'.dedup == st.dedup
  {
    hide Moved;
    var st' := NotedIncomplete(st, key, generation);
    RecordMoves(st, st', key, st'.actions[key], k);
  }

  lemma QuietEvent(l: LoopLimits, st: LoopState, key: string, e: ToolEvent, reply: Reply, k: string)
    requires OnToolEvent(l, st, key, e, reply).Continue? && (e.request != Ready || IsHit(st, key, e))
    ensures var st' := OnToolEvent(l, st, key, e, reply).st;
            TablesMoved(l, st, st', key, e) && Moved(st, st', key, DispatchesNow(l, st, key, e), k)
  {
    hide OnRequestReady, DedupKey, Dispatches, Results, DispatchesOf, DispatchesNow, TrackedWaiting, NotedIncomplete;
    NotNow(l, st, key, e);
    if !IsHit(st, key, e) {
      var st1 := st.(dedup := st.dedup[DedupKey(key, e.generation) := e.generation]);
      TrackingMoves(st1, key, e.generation, k);
      NotingMoves(st1, key, e.generation, k);
    }
  }

  lemma EventOutcome(l: LoopLimits, st: LoopState, key: string, e: ToolEvent, reply: Reply, k: string)
    requires OnToolEvent(l, st, key, e, reply).Continue?
    ensures var st' := OnToolEvent(l, st, key, e, reply).st;
            TablesMoved(l, st, st', key, e) && Moved(st, st', key, DispatchesNow(l, st, key, e), k)
  {
    hide OnToolEvent, TablesMoved, Moved, DispatchesNow, IsHit;
    if e.request == Ready && !IsHit(st, key, e) {
      ReadyEvent(l, st, key, e, reply, k);
    } else {
      QuietEvent(l, st, key, e, reply, k);
    }
  }

  /** The event goes on silently, its record at its generation and otherwise as much dispatched as before. */
  predicate Moves(s: Step, st: LoopState, key: string, e: ToolEvent) {
    && s.Continue? && s.st.out == st.out
    && key in s.st.actions && s.st.actions[key].lastGeneration == e.generation
    && (WasDispatched(s.st, key) <==> WasDispatched(st, key))
  }

  predicate Passes(s: Step, st: LoopState) { s.Continue? && s.st.out == st.out && s.st.actions == st.actions }

  /** `o` is the next output, or the receiver is gone. */
  predicate Announces(s: Step, st: LoopState, o: Output) {
    if st.room == 0 then s.End? && s.kind == OutputFailed && s.st.out == st.out else st.out + [o] <= s.st.out
  }

  /** What a branch means for the event that takes it from `st` to `s`. */
  predicate Tells(b: Branch, s: Step, st: LoopState, key: string, e: ToolEvent) {
    match b
    case DedupHit => s == Continue(st.(duplicates := st.duplicates + 1))
    case DedupFull => s == End(st, InvariantFailed)
    case TooManyActions => s.End? && s.kind == InvariantFailed && s.st.out == st.out && s.st.actions == st.actions
    case Dispatches => !WasDispatched(st, key) && Announces(s, st, DispatchRequested(key, e.action, e.generation))
    case AlreadyDispatched => Moves(s, st, key, e) && WasDispatched(st, key) && s.st.duplicates == st.duplicates + 1
    case MissingName => Moves(s, st, key, e) && !WasDispatched(st, key)
    case MissingPayload => Moves(s, st, key, e) && !WasDispatched(st, key)
    case Tracked => Moves(s, st, key, e)
    case IncompleteSeen => Moves(s, st, key, e)
    case TrackedStale => Passes(s, st)
    case ReadyStale => Passes(s, st)
    case IncompleteStale => Passes(s, st)
  }

  /** The branch function and the handler tell the same story. */
  lemma BranchDecides(l: LoopLimits, st: LoopState, key: string, e: ToolEvent, reply: Reply)
    ensures Tells(BranchOf(l, st, key, e), OnToolEvent(l, st, key, e, reply), st, key, e)
  {
    hide DedupKey, OnRequestReady, TrackedWaiting, NotedIncomplete, Moves, Passes, Announces, WasDispatched;
    var st1 := st.(dedup := st.dedup[DedupKey(key, e.generation) := e.generation]);
    ReadyTells(l, st, st1, key, e, reply);
    WaitingTells(st, st1, key, e);
    IncompleteTells(st, st1, key, e);
  }

  lemma WaitingTells(st: LoopState, st1: LoopState, key: string, e: ToolEvent)
    requires st1.actions == st.actions && st1.out == st.out
    ensures var s := Continue(TrackedWaiting(st1, key, e.generation));
            if e.generation < RecordOf(st, key, ObservedWaiting).lastGeneration then Passes(s, st)
            else Moves(s, st, key, e)
  {
  }

  lemma IncompleteTells(st: LoopState, st1: LoopState, key: string, e: ToolEvent)
    requires st1.actions == st.actions && st1.out == st.out
    ensures var s := Continue(NotedIncomplete(st1, key, e.generation));
            if e.generation < RecordOf(st, key, SeenIncomplete).lastGeneration then Passes(s, st)
            else Moves(s, st, key, e)
  {
  }

  lemma ReadyTells(l: LoopLimits, st: LoopState, st1: LoopState, key: string, e: ToolEvent, reply: Reply)
    requires st1 == st.(dedup := st1.dedup)
    ensures var s, rec := OnRequestReady(l, st1, key, e, reply), RecordOf(st, key, ReadySeen);
            Tells(if |st.actions| >= l.maxToolActions && key !in st.actions then TooManyActions
                  else if e.generation < rec.lastGeneration then ReadyStale
                  else if rec.dispatched then AlreadyDispatched
                  else if e.name.None? then MissingName
                  else if e.requestPayload.None? then MissingPayload
                  else Branch.Dispatches, s, st, key, e)
  {
    hide Dispatch, Announces;
    var rec := RecordOf(st, key, ReadySeen).(lastGeneration := e.generation, state := ReadySeen, dispatched := true);
    if Callable(e) {
      DispatchAnnounces(st1.(actions := st1.actions[key := rec]), st, key, e, reply);
    }
  }

  lemma DispatchAnnounces(st1: LoopState, st: LoopState, key: string, e: ToolEvent, reply: Reply)
    requires key in st1.actions && Callable(e) && st1.out == st.out && st1.room == st.room
    ensures Announces(Dispatch(st1, key, e, reply), st, DispatchRequested(key, e.action, e.generation))
  {
  }

  lemma EventKeepsAccounts(l: LoopLimits, st: LoopState, key: string, e: ToolEvent, reply: Reply)
    requires Accounted(st) && OnToolEvent(l, st, key, e, reply).Continue?
    ensures Accounted(OnToolEvent(l, st, key, e, reply).st)
  {
    hide OnToolEvent, Dispatches, Results, DispatchesOf, DispatchesNow, WasDispatched, TablesMoved;
    var st' := OnToolEvent(l, st, key, e, reply).st;
    EventOutcome(l, st, key, e, reply, key);
    forall k
      ensures DispatchesOf(st'.out, k) == if WasDispatched(st', k) then 1 else 0
    {
      EventOutcome(l, st, key, e, reply, k);
    }
  }

  /** A dedup key that is present holds this very generation: the handler never overwrites an entry. */
  lemma PresentIsHit(st: LoopState, key: string, generation: nat)
    requires forall dk :: dk in st.dedup ==> KeyedBy(dk, st.dedup[dk])
    requires DedupKey(key, generation) in st.dedup
    ensures st.dedup[DedupKey(key, generation)] == generation
  {
    hide DedupKey;
    var dk := DedupKey(key, generation);
    assert KeyedBy(dk, st.dedup[dk]);
    var k :| dk == DedupKey(k, st.dedup[dk]);
    DedupKeyIsInjective(key, generation, k, st.dedup[dk]);
  }

  lemma KeysGrow<V>(m: map<string, V>, m': map<string, V>, key: string)
    requires m'.Keys == m.Keys + {key}
    ensures |m'| == |m| + if key in m then 0 else 1
  {
    assert |m'| == |m'.Keys| && |m| == |m.Keys|;
    if key in m {
      assert m'.Keys == m.Keys;
    }
  }

  lemma EventKeepsBounds(l: LoopLimits, st: LoopState, key: string, e: ToolEvent, reply: Reply)
    requires Bounded(l, st) && OnToolEvent(l, st, key, e, reply).Continue?
    ensures Bounded(l, OnToolEvent(l, st, key, e, reply).st)
  {
    hide OnToolEvent, DedupKey, KeyedBy, DispatchesNow, Moved, Bounded, IsHit;
    EventOutcome(l, st, key, e, reply, key);
    var st' := OnToolEvent(l, st, key, e, reply).st;
    if IsHit(st, key, e) {
      SameTables(l, st, st');
    } else {
      MissIsAbsent(l, st, key, e);
      TablesGrow(l, st, st', key, e.generation);
    }
  }

  lemma SameTables(l: LoopLimits, st: LoopState, st': LoopState)
    requires Bounded(l, st) && st'.actions == st.actions && st'.dedup == st.dedup
    ensures Bounded(l, st')
  {
    hide KeyedBy;
  }

  lemma MissIsAbsent(l: LoopLimits, st: LoopState, key: string, e: ToolEvent)
    requires Bounded(l, st) && !IsHit(st, key, e)
    ensures DedupKey(key, e.generation) !in st.dedup
  {
    hide DedupKey, KeyedBy;
    if DedupKey(key, e.generation) in st.dedup {
      PresentIsHit(st, key, e.generation);
    }
  }

  lemma TablesGrow(l: LoopLimits, st: LoopState, st': LoopState, key: string, generation: nat)
    requires Bounded(l, st) && |st.dedup| < l.maxDedupEntries && DedupKey(key, generation) !in st.dedup
    requires st'.dedup == st.dedup[DedupKey(key, generation) := generation]
    requires st'.actions.Keys == st.actions.Keys + {key}
    ensures Bounded(l, st')
  {
    hide DedupKey, KeyedBy;
    KeysGrow(st.dedup, st'.dedup, DedupKey(key, generation));
    KeysGrow(st.actions, st'.actions, key);
    StaysKeyed(st.dedup, key, generation);
  }

  lemma StaysKeyed(dedup: map<string, nat>, key: string, generation: nat)
    requires forall dk :: dk in dedup ==> KeyedBy(dk, dedup[dk])
    ensures var dedup' := dedup[DedupKey(key, generation) := generation];
            forall dk :: dk in dedup' ==> KeyedBy(dk, dedup'[dk])
  {
  }

  // Every run.

  lemma DeliveryKeepsAll(l: LoopLimits, scope: Scope, st: LoopState, d: Delivery, reply: Reply)
    requires Accounted(st) && Bounded(l, st) && OnDelivered(l, scope, st, d, reply).Continue?
    ensures Accounted(OnDelivered(l, scope, st, d, reply).st)
    ensures Bounded(l, OnDelivered(l, scope, st, d, reply).st)
  {
    hide OnToolEvent, KeyedBy, Dispatches, Results, DispatchesOf;
    var st1 := st.(lastSeq := d.sequence, deliveries := st.deliveries + 1);
    assert Accounted(st1) by {
      assert forall key :: WasDispatched(st1, key) <==> WasDispatched(st, key);
    }
    assert Bounded(l, st1);
    if d.event.UnitEvent? && InScope(scope, d.event.unit) && d.event.unit.tool.Some? {
      var u := d.event.unit;
      EventKeepsAccounts(l, st1, ActionKey(u.interpretation, u.tool.value.action), u.tool.value, reply);
      EventKeepsBounds(l, st1, ActionKey(u.interpretation, u.tool.value.action), u.tool.value, reply);
    }
  }

  /**
   After every run of successfully handled deliveries: as many results as dispatches, both equal to the counter,
   no action key dispatched twice, and tracked actions within dedup entries within their cap.
   */
  lemma {:induction false} RunKeepsAccounts(l: LoopLimits, scope: Scope, st: LoopState, jobs: seq<Job>)
    requires Accounted(st) && Bounded(l, st) && Run(l, scope, st, jobs).Continue?
    ensures Accounted(Run(l, scope, st, jobs).st) && Bounded(l, Run(l, scope, st, jobs).st)
    decreases |jobs|
  {
    hide OnDelivered, Accounted, Bounded;
    if jobs != [] {
      DeliveryKeepsAll(l, scope, st, jobs[0].delivery, jobs[0].reply);
      RunKeepsAccounts(l, scope, OnDelivered(l, scope, st, jobs[0].delivery, jobs[0].reply).st, jobs[1..]);
    }
  }

  lemma LoopAccounting(l: LoopLimits, scope: Scope, room: nat, jobs: seq<Job>)
    requires Run(l, scope, Start(room), jobs).Continue?
    ensures var st := Run(l, scope, Start(room), jobs).st;
            && Dispatches(st.out) == Results(st.out) == st.outbound
            && (forall key :: DispatchesOf(st.out, key) <= 1)
            && |st.actions| <= |st.dedup| <= l.maxDedupEntries
  {
    hide Run, Dispatches, Results, DispatchesOf, KeyedBy;
    StartIsGood(l, room);
    RunKeepsAccounts(l, scope, Start(room), jobs);
  }

  lemma StartIsGood(l: LoopLimits, room: nat)
    ensures Accounted(Start(room)) && Bounded(l, Start(room))
  {
  }

  // Delivery sequence.

  predicate Contiguous(last: nat, jobs: seq<Job>) {
    forall j :: 0 <= j < |jobs| ==> jobs[j].delivery.sequence == last + 1 + j
  }

  lemma DeliveryMovesSeq(l: LoopLimits, scope: Scope, st: LoopState, d: Delivery, reply: Reply)
    requires st.lastSeq == 0 || d.sequence == st.lastSeq + 1
    ensures OnDelivered(l, scope, st, d, reply).st.lastSeq == d.sequence
    ensures OnDelivered(l, scope, st, d, reply).st.deliveries == st.deliveries + 1
    ensures var s := OnDelivered(l, scope, st, d, reply); s.End? ==> s.kind != SubscriptionLost
  {
    hide OnToolEvent, ActionKey, InScope;
    if d.event.UnitEvent? && d.event.unit.tool.Some? {
      var u := d.event.unit;
      EventKeepsSeq(l, st.(lastSeq := d.sequence, deliveries := st.deliveries + 1),
                    ActionKey(u.interpretation, u.tool.value.action), u.tool.value, reply);
    }
  }

  lemma EventKeepsSeq(l: LoopLimits, st: LoopState, key: string, e: ToolEvent, reply: Reply)
    ensures var s := OnToolEvent(l, st, key, e, reply);
            s.st.lastSeq == st.lastSeq && s.st.deliveries == st.deliveries && (s.End? ==> s.kind != SubscriptionLost)
  {
    hide DedupKey;
  }

  /** After the first delivery, a run that goes through had no gap, and counted every delivery. */
  lemma {:induction false} AcceptedIsContiguous(l: LoopLimits, scope: Scope, st: LoopState, jobs: seq<Job>)
    requires st.lastSeq > 0 && Run(l, scope, st, jobs).Continue?
    ensures Contiguous(st.lastSeq, jobs)
    ensures Run(l, scope, st, jobs).st.lastSeq == st.lastSeq + |jobs|
    ensures Run(l, scope, st, jobs).st.deliveries == st.deliveries + |jobs|
    decreases |jobs|
  {
    if jobs != [] {
      SeqAccepted(l, scope, st, jobs[0]);
      hide OnDelivered;
      DeliveryMovesSeq(l, scope, st, jobs[0].delivery, jobs[0].reply);
      AcceptedIsContiguous(l, scope, OnDelivered(l, scope, st, jobs[0].delivery, jobs[0].reply).st, jobs[1..]);
      assert forall j :: 0 < j < |jobs| ==> jobs[j] == jobs[1..][j - 1];
    }
  }

  lemma SeqAccepted(l: LoopLimits, scope: Scope, st: LoopState, job: Job)
    requires st.lastSeq > 0 && OnDelivered(l, scope, st, job.delivery, job.reply).Continue?
    ensures job.delivery.sequence == st.lastSeq + 1
  {
    hide OnUnit;
  }

  /** Numbered 1, 2, 3, ... by one publisher, deliveries never look like a gap. */
  lemma {:induction false} OnePublisherNeverGaps(l: LoopLimits, scope: Scope, st: LoopState, jobs: seq<Job>)
    requires Contiguous(st.lastSeq, jobs)
    ensures var s := Run(l, scope, st, jobs); s.End? ==> s.kind != SubscriptionLost
    ensures var s := Run(l, scope, st, jobs); s.Continue? ==> s.st.lastSeq == st.lastSeq + |jobs|
    decreases |jobs|
  {
    hide OnDelivered;
    if jobs != [] {
      DeliveryMovesSeq(l, scope, st, jobs[0].delivery, jobs[0].reply);
      var s := OnDelivered(l, scope, st, jobs[0].delivery, jobs[0].reply);
      if s.Continue? {
        assert forall j :: 0 <= j < |jobs| - 1 ==> jobs[1..][j] == jobs[j + 1];
        OnePublisherNeverGaps(l, scope, s.st, jobs[1..]);
      }
    }
  }

  /** Any number of zeros, which the check passes over, and then consecutive numbers from some positive one. */
  predicate Numbered(jobs: seq<Job>, zeros: nat) {
    && zeros <= |jobs|
    && (forall j :: 0 <= j < zeros ==> jobs[j].delivery.sequence == 0)
    && (zeros < |jobs| ==> jobs[zeros].delivery.sequence > 0)
    && (forall j :: zeros <= j < |jobs| ==> jobs[j].delivery.sequence == jobs[zeros].delivery.sequence + (j - zeros))
  }

  /** A whole run from the start that goes through was numbered so, and counted every delivery. */
  lemma {:induction false} AcceptedFromStart(l: LoopLimits, scope: Scope, st: LoopState, jobs: seq<Job>)
    returns (zeros: nat)
    requires st.lastSeq == 0 && Run(l, scope, st, jobs).Continue?
    ensures Numbered(jobs, zeros) && Run(l, scope, st, jobs).st.deliveries == st.deliveries + |jobs|
    decreases |jobs|
  {
    hide OnDelivered;
    zeros := 0;
    if jobs != [] {
      var rest := jobs[1..];
      DeliveryMovesSeq(l, scope, st, jobs[0].delivery, jobs[0].reply);
      var st' := OnDelivered(l, scope, st, jobs[0].delivery, jobs[0].reply).st;
      assert forall j :: 0 < j < |jobs| ==> jobs[j] == rest[j - 1];
      if jobs[0].delivery.sequence == 0 {
        var z := AcceptedFromStart(l, scope, st', rest);
        zeros := z + 1;
      } else {
        AcceptedIsContiguous(l, scope, st', rest);
      }
    }
  }

  /** And a run so numbered never ends as lost. */
  lemma {:induction false} NumberedIsNeverLost(l: LoopLimits, scope: Scope, st: LoopState, jobs: seq<Job>, zeros: nat)
    requires st.lastSeq == 0 && Numbered(jobs, zeros)
    ensures var s := Run(l, scope, st, jobs); s.End? ==> s.kind != SubscriptionLost
    decreases |jobs|
  {
    hide OnDelivered;
    if jobs != [] {
      var rest := jobs[1..];
      DeliveryMovesSeq(l, scope, st, jobs[0].delivery, jobs[0].reply);
      var s := OnDelivered(l, scope, st, jobs[0].delivery, jobs[0].reply);
      assert forall j :: 0 < j < |jobs| ==> jobs[j] == rest[j - 1];
      if s.Continue? {
        if zeros > 0 {
          NumberedIsNeverLost(l, scope, s.st, rest, zeros - 1);
        } else {
          OnePublisherNeverGaps(l, scope, s.st, rest);
        }
      }
    }
  }

  /** The very first delivery is not checked: a Loop that starts at 5 goes on as if nothing were missing. */
  lemma FirstGapIsNotSeen(l: LoopLimits, scope: Scope, room: nat)
    ensures Run(l, scope, Start(room), [Job(Delivery(5, Ended), RegistryFails)]).Continue?
  {
    assert [Job(Delivery(5, Ended), RegistryFails)][1..] == [];
  }
}
