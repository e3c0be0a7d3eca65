/**
 The pending table of the cursor connector's JSON-RPC client (crates/monoloop-connector-cursor/src/process.rs) as
 the atomic steps of any number of request futures, inbound lines, drains and shutdowns.
 */
module RpcTable {
  import opened Common

  /** An inbound line: its `id` when that is an unsigned number, its `result` and its `error`. */
  datatype Inbound = Inbound(id: Option<nat>, result: Option<int>, error: Option<int>)

  datatype Outcome =
    | Refused                              // closed before the request got an id
    | Answered(reply: Result<int, int>)
    | Drained(reason: int)                 // `fail_all_pending`
    | WriteFailed
    | DeadlineExceeded
    | ChannelDropped

  /** Program points of `request`. */
  datatype Point =
    | Entering
    | Numbering
    | Registering
    | Writing
    | Waiting
    | Removing(failure: Outcome)           // failed, its entry not yet removed
    | Returned(outcome: Outcome)
    | Abandoned(registered: bool)          // the future was dropped at an await, before or after registering

  /** The one-shot channel of a request. */
  datatype Slot = Empty | Sent(outcome: Outcome) | SenderDropped

  datatype Req = Req(id: Option<nat>, point: Point, slot: Slot)

  /** `pending` takes an id to the request whose channel it holds; `heard` is every inbound line handled. */
  datatype State = State(
    nextId: nat,
    pending: map<nat, nat>,
    closed: bool,
    stdin: bool,
    reqs: seq<Req>,
    heard: seq<Inbound>)

  const INIT: State := State(1, map[], false, true, [], [])

  datatype Step =
    | Begin
    | CheckClosed(i: nat)
    | TakeId(i: nat)
    | Register(i: nat)
    | WriteOk(i: nat)
    | WriteFails(i: nat)
    | Resume(i: nat)
    | Timeout(i: nat)
    | Remove(i: nat)
    | Abandon(i: nat)
    | Hear(line: Inbound)
    | Drain(reason: int)
    | Close
    | CloseStdin

  predicate At(st: State, i: nat, p: Point) { i < |st.reqs| && st.reqs[i].point == p }

  predicate Enabled(st: State, step: Step) {
    match step
    case CheckClosed(i) => At(st, i, Entering)
    case TakeId(i) => At(st, i, Numbering)
    case Register(i) => At(st, i, Registering) && st.reqs[i].id.Some?
    case WriteOk(i) => At(st, i, Writing) && st.stdin
    case WriteFails(i) => At(st, i, Writing)
    case Resume(i) => At(st, i, Waiting) && !st.reqs[i].slot.Empty?
    case Timeout(i) => At(st, i, Waiting)
    case Remove(i) => i < |st.reqs| && st.reqs[i].point.Removing? && st.reqs[i].id.Some?
    case Abandon(i) =>
      && i < |st.reqs|
      && (At(st, i, Registering) || At(st, i, Writing) || At(st, i, Waiting) || st.reqs[i].point.Removing?)
    case _ => true
  }

  function Put(st: State, i: nat, r: Req): State
    requires i < |st.reqs|
  {
    st.(reqs := st.reqs[i := r])
  }

  function Move(st: State, i: nat, p: Point): State
    requires i < |st.reqs|
  {
    Put(st, i, st.reqs[i].(point := p))
  }

  /** Send on, or drop, the channel that `pending` holds under `id`. */
  function Signal(st: State, id: nat, slot: Slot): State {
    if id in st.pending && st.pending[id] < |st.reqs| then
      var k := st.pending[id];
      Put(st, k, st.reqs[k].(slot := slot))
    else st
  }

  function Take(st: State, id: nat): State { st.(pending := st.pending - {id}) }

  /** The reply in a line that has a result or an error; the error wins. */
  function ReplyIn(m: Inbound): Option<Result<int, int>> {
    if m.error.Some? then Some(Err(m.error.value))
    else if m.result.Some? then Some(Ok(m.result.value))
    else None
  }

  function Received(slot: Slot): Outcome { if slot.Sent? then slot.outcome else ChannelDropped }

  function DrainedReqs(st: State, reason: int): seq<Req> {
    seq(|st.reqs|, k requires 0 <= k < |st.reqs| =>
      if k in st.pending.Values then st.reqs[k].(slot := Sent(Drained(reason))) else st.reqs[k])
  }

  function Apply(st: State, step: Step): State
    requires Enabled(st, step)
  {
    match step
    case Begin => st.(reqs := st.reqs + [Req(None, Entering, Empty)])
    case CheckClosed(i) => Move(st, i, if st.closed then Returned(Refused) else Numbering)
    case TakeId(i) => Put(st, i, st.reqs[i].(id := Some(st.nextId), point := Registering)).(nextId := st.nextId + 1)
    case Register(i) => Registered(st, i, st.reqs[i].id.value)
    case WriteOk(i) => Move(st, i, Waiting)
    case WriteFails(i) => Move(st, i, Removing(WriteFailed))
    case Resume(i) => Move(st, i, Returned(Received(st.reqs[i].slot)))
    case Timeout(i) => Move(st, i, Removing(DeadlineExceeded))
    case Remove(i) => Removed(st, i, st.reqs[i].id.value)
    case Abandon(i) => Move(st, i, Abandoned(!st.reqs[i].point.Registering?))
    case Hear(m) => Heard(st, m).(heard := st.heard + [m])
    case Drain(reason) => st.(pending := map[], reqs := DrainedReqs(st, reason))
    case Close => st.(closed := true)
    case CloseStdin => st.(stdin := false)
  }

  /** Insert into the table; a channel already there under this id is dropped. */
  function Registered(st: State, i: nat, id: nat): State
    requires i < |st.reqs|
  {
    var st1 := Signal(st, id, SenderDropped);
    Move(st1, i, Writing).(pending := st.pending[id := i])
  }

  /** Remove from the table, dropping the channel if it is still there, and return. */
  function Removed(st: State, i: nat, id: nat): State
    requires i < |st.reqs| && st.reqs[i].point.Removing?
  {
    var st1 := Take(Signal(st, id, SenderDropped), id);
    Move(st1, i, Returned(st.reqs[i].point.failure))
  }

  /** A reply goes to the channel under its id, if there is one. */
  function Heard(st: State, m: Inbound): State {
    if m.id.Some? && ReplyIn(m).Some? then
      Take(Signal(st, m.id.value, Sent(Answered(ReplyIn(m).value))), m.id.value)
    else st
  }

  function Run(st: State, steps: seq<Step>): Option<State>
    decreases |steps|
  {
    if steps == [] then Some(st)
    else if Enabled(st, steps[0]) then Run(Apply(st, steps[0]), steps[1..])
    else None
  }

  ghost predicate Reachable(st: State) { exists steps :: Run(INIT, steps) == Some(st) }

  // The invariant.

  predicate InFlight(p: Point) { p.Writing? || p.Waiting? || p.Removing? }

  /** Registered, and not returned: in flight, or dropped after registering. */
  predicate HasRegistered(p: Point) { InFlight(p) || p == Abandoned(true) }

  /** The table entry for `id` is the unused channel of the request with that id. */
  predicate EntryOk(st: State, id: nat) {
    id in st.pending ==>
      var k := st.pending[id];
      && k < |st.reqs| && st.reqs[k].id == Some(id) && st.reqs[k].slot == Empty
      && HasRegistered(st.reqs[k].point)
  }

  predicate InTable(st: State, i: nat, id: nat) { id in st.pending && st.pending[id] == i }

  /** The line is an error with this value, or, without any error, a result with this value. */
  predicate Bears(m: Inbound, reply: Result<int, int>) {
    match reply
    case Err(e) => m.error == Some(e)
    case Ok(v) => m.error == None && m.result == Some(v)
  }

  /** Some line handled so far carried this id and this reply. */
  predicate WasHeard(st: State, id: nat, reply: Result<int, int>) {
    exists m :: m in st.heard && m.id == Some(id) && Bears(m, reply)
  }

  predicate OutcomeOk(st: State, id: Option<nat>, o: Outcome) {
    && !o.ChannelDropped?
    && (o.Answered? ==> id.Some? && WasHeard(st, id.value, o.reply))
  }

  predicate ReqOk(st: State, i: nat, r: Req) {
    && (r.id.Some? ==> r.id.value < st.nextId)
    && (r.id.None? <==> r.point.Entering? || r.point.Numbering? || r.point == Returned(Refused))
    && (r.id.None? || r.point.Registering? ==> r.slot.Empty?)
    && (HasRegistered(r.point) ==> !r.slot.SenderDropped? && (r.slot.Empty? <==> InTable(st, i, r.id.value)))
    && (r.slot.Sent? ==> OutcomeOk(st, r.id, r.slot.outcome) && !r.slot.outcome.Refused?)
    && (r.point.Removing? ==> OutcomeOk(st, r.id, r.point.failure) && !r.point.failure.Refused?)
    && (r.point.Returned? ==> OutcomeOk(st, r.id, r.point.outcome))
  }

  predicate IdsDiffer(st: State) {
    forall i, j :: 0 <= i < j < |st.reqs| && st.reqs[i].id.Some? ==> st.reqs[i].id != st.reqs[j].id
  }

  ghost predicate Inv(st: State) {
    && (forall id :: EntryOk(st, id))
    && (forall i :: 0 <= i < |st.reqs| ==> ReqOk(st, i, st.reqs[i]))
    && IdsDiffer(st)
  }

  lemma InitIsOk()
    ensures Inv(INIT)
  {
  }

  /** A step of one request that keeps its id and channel, and the table. */
  lemma MoveKeeps(st: State, i: nat, p: Point)
    requires Inv(st) && i < |st.reqs|
    requires ReqOk(st, i, st.reqs[i].(point := p))
    requires HasRegistered(st.reqs[i].point) && st.reqs[i].slot.Empty? ==> HasRegistered(p)
    ensures Inv(Move(st, i, p))
  {
    hide OutcomeOk;
    var st' := Move(st, i, p);
    forall id ensures EntryOk(st', id) {
      assert EntryOk(st, id);
    }
    forall j | 0 <= j < |st'.reqs| ensures ReqOk(st', j, st'.reqs[j]) {
      assert ReqOk(st, j, st.reqs[j]);
      SameOutcomes(st, st', st'.reqs[j].id);
    }
  }

  /** What was heard stays heard. */
  lemma SameOutcomes(st: State, st': State, id: Option<nat>)
    requires st.heard <= st'.heard
    ensures forall o :: OutcomeOk(st, id, o) ==> OutcomeOk(st', id, o)
  {
    forall o | OutcomeOk(st, id, o) ensures OutcomeOk(st', id, o) {
      if o.Answered? {
        var m :| m in st.heard && m.id == id && Bears(m, o.reply);
        assert m in st'.heard;
      }
    }
  }

  lemma BeginKeeps(st: State)
    requires Inv(st)
    ensures Inv(Apply(st, Begin))
  {
    hide OutcomeOk;
    var st' := Apply(st, Begin);
    forall id ensures EntryOk(st', id) {
      assert EntryOk(st, id);
    }
    forall j | 0 <= j < |st'.reqs| ensures ReqOk(st', j, st'.reqs[j]) {
      if j < |st.reqs| {
        assert ReqOk(st, j, st.reqs[j]);
        SameOutcomes(st, st', st'.reqs[j].id);
      }
    }
  }

  lemma TakeIdKeeps(st: State, i: nat)
    requires Inv(st) && Enabled(st, TakeId(i))
    ensures Inv(Apply(st, TakeId(i)))
  {
    hide OutcomeOk;
    var st' := Apply(st, TakeId(i));
    assert ReqOk(st, i, st.reqs[i]);
    forall id ensures EntryOk(st', id) {
      assert EntryOk(st, id);
    }
    forall j | 0 <= j < |st'.reqs| ensures ReqOk(st', j, st'.reqs[j]) {
      assert ReqOk(st, j, st.reqs[j]);
      SameOutcomes(st, st', st'.reqs[j].id);
    }
    forall j, k | 0 <= j < k < |st'.reqs| && st'.reqs[j].id.Some? ensures st'.reqs[j].id != st'.reqs[k].id {
      assert ReqOk(st, j, st.reqs[j]) && ReqOk(st, k, st.reqs[k]);
    }
  }

  /** A fresh registration finds nothing under its id. */
  lemma RegisterFindsNothing(st: State, i: nat)
    requires Inv(st) && Enabled(st, Register(i))
    ensures st.reqs[i].id.value !in st.pending
  {
    var id := st.reqs[i].id.value;
    assert EntryOk(st, id);
    if id in st.pending {
      OneOwner(st, i, st.pending[id]);
    }
  }

  lemma OneOwner(st: State, i: nat, k: nat)
    requires IdsDiffer(st) && i < |st.reqs| && k < |st.reqs| && st.reqs[i].id.Some? && st.reqs[i].id == st.reqs[k].id
    ensures i == k
  {
  }

  lemma RegisterKeeps(st: State, i: nat)
    requires Inv(st) && Enabled(st, Register(i))
    ensures Inv(Apply(st, Register(i)))
  {
    hide OutcomeOk;
    RegisterFindsNothing(st, i);
    var st' := Apply(st, Register(i));
    assert ReqOk(st, i, st.reqs[i]);
    forall id ensures EntryOk(st', id) {
      assert EntryOk(st, id);
    }
    forall j | 0 <= j < |st'.reqs| ensures ReqOk(st', j, st'.reqs[j]) {
      assert ReqOk(st, j, st.reqs[j]);
      SameOutcomes(st, st', st'.reqs[j].id);
    }
  }

  lemma RemoveKeeps(st: State, i: nat)
    requires Inv(st) && Enabled(st, Remove(i))
    ensures Inv(Apply(st, Remove(i)))
  {
    hide OutcomeOk;
    var id := st.reqs[i].id.value;
    var st' := Apply(st, Remove(i));
    assert EntryOk(st, id);
    if id in st.pending {
      OneOwner(st, i, st.pending[id]);
    }
    forall x ensures EntryOk(st', x) {
      assert EntryOk(st, x);
    }
    forall j | 0 <= j < |st'.reqs| ensures ReqOk(st', j, st'.reqs[j]) {
      assert ReqOk(st, j, st.reqs[j]);
      SameOutcomes(st, st', st.reqs[j].id);
    }
  }

  /** A line without a reply for the table only joins what was heard. */
  lemma HearKeepsOther(st: State, m: Inbound)
    requires Inv(st) && Heard(st, m) == st
    ensures Inv(st.(heard := st.heard + [m]))
  {
    hide OutcomeOk;
    var st' := st.(heard := st.heard + [m]);
    forall x ensures EntryOk(st', x) {
      assert EntryOk(st, x);
    }
    forall j | 0 <= j < |st'.reqs| ensures ReqOk(st', j, st'.reqs[j]) {
      assert ReqOk(st, j, st.reqs[j]);
      SameOutcomes(st, st', st.reqs[j].id);
    }
  }

  lemma ReplyIsHeard(st: State, m: Inbound)
    requires m.id.Some? && ReplyIn(m).Some?
    ensures OutcomeOk(st.(heard := st.heard + [m]), m.id, Answered(ReplyIn(m).value))
  {
    assert m in st.heard + [m];
  }

  lemma SameHeard(st: State, st': State, id: Option<nat>, o: Outcome)
    requires st.heard == st'.heard
    ensures OutcomeOk(st, id, o) == OutcomeOk(st', id, o)
  {
  }

  lemma HearKeepsReply(st: State, m: Inbound)
    requires Inv(st) && m.id.Some? && ReplyIn(m).Some? && m.id.value in st.pending
    ensures Inv(Apply(st, Hear(m)))
  {
    hide OutcomeOk, ReplyIn;
    var id := m.id.value;
    var st' := Apply(st, Hear(m));
    assert EntryOk(st, id);
    var k := st.pending[id];
    assert st'.reqs == st.reqs[k := st.reqs[k].(slot := Sent(Answered(ReplyIn(m).value)))];
    forall x ensures EntryOk(st', x) {
      assert EntryOk(st, x);
    }
    ReplyIsHeard(st, m);
    SameHeard(st.(heard := st.heard + [m]), st', m.id, Answered(ReplyIn(m).value));
    forall j | 0 <= j < |st'.reqs| ensures ReqOk(st', j, st'.reqs[j]) {
      assert ReqOk(st, j, st.reqs[j]);
      SameOutcomes(st, st', st.reqs[j].id);
      if j != k {
        assert st.reqs[j].id != Some(id);
      }
    }
  }

  lemma HearKeeps(st: State, m: Inbound)
    requires Inv(st)
    ensures Inv(Apply(st, Hear(m)))
  {
    hide Inv, ReplyIn;
    if m.id.Some? && ReplyIn(m).Some? && m.id.value in st.pending {
      HearKeepsReply(st, m);
    } else {
      assert Heard(st, m) == st by {
        if m.id.Some? {
          assert st.pending - {m.id.value} == st.pending || ReplyIn(m).None?;
        }
      }
      HearKeepsOther(st, m);
    }
  }

  lemma DrainedOne(st: State, j: nat)
    requires Inv(st) && j < |st.reqs|
    ensures j in st.pending.Values ==> st.reqs[j].id.Some? && HasRegistered(st.reqs[j].point)
    ensures HasRegistered(st.reqs[j].point) && st.reqs[j].slot.Empty? ==> j in st.pending.Values
  {
    hide OutcomeOk;
    assert ReqOk(st, j, st.reqs[j]);
    if j in st.pending.Values {
      var id :| id in st.pending && st.pending[id] == j;
      assert EntryOk(st, id);
    }
  }

  lemma DrainKeeps(st: State, reason: int)
    requires Inv(st)
    ensures Inv(Apply(st, Drain(reason)))
  {
    var st' := Apply(st, Drain(reason));
    forall j | 0 <= j < |st'.reqs| ensures ReqOk(st', j, st'.reqs[j]) {
      assert ReqOk(st, j, st.reqs[j]);
      DrainedOne(st, j);
      SameOutcomes(st, st', st.reqs[j].id);
    }
  }

  /** The step moves one request and nothing else. */
  predicate IsMove(step: Step) {
    step.CheckClosed? || step.WriteOk? || step.WriteFails? || step.Resume? || step.Timeout? || step.Abandon?
  }

  lemma MoveStepKeeps(st: State, step: Step)
    requires Inv(st) && Enabled(st, step) && IsMove(step)
    ensures Inv(Apply(st, step))
  {
    hide Inv, WasHeard;
    var i := step.i;
    assert ReqOk(st, i, st.reqs[i]) by {
      ReqIsOk(st, i);
    }
    MoveKeeps(st, i, Apply(st, step).reqs[i].point);
  }

  lemma ReqIsOk(st: State, i: nat)
    requires Inv(st) && i < |st.reqs|
    ensures ReqOk(st, i, st.reqs[i])
  {
  }

  lemma CloseKeeps(st: State, step: Step)
    requires Inv(st) && (step.Close? || step.CloseStdin?)
    ensures Inv(Apply(st, step))
  {
    hide OutcomeOk;
    var st' := Apply(st, step);
    forall x ensures EntryOk(st', x) {
      assert EntryOk(st, x);
    }
    forall j | 0 <= j < |st'.reqs| ensures ReqOk(st', j, st'.reqs[j]) {
      assert ReqOk(st, j, st.reqs[j]);
      SameOutcomes(st, st', st.reqs[j].id);
    }
  }

  lemma StepKeeps(st: State, step: Step)
    requires Inv(st) && Enabled(st, step)
    ensures Inv(Apply(st, step))
  {
    hide Inv, Apply, Enabled;
    match step
    case Begin => BeginKeeps(st);
    case TakeId(i) => TakeIdKeeps(st, i);
    case Register(i) => RegisterKeeps(st, i);
    case Remove(i) => RemoveKeeps(st, i);
    case Hear(m) => HearKeeps(st, m);
    case Drain(reason) => DrainKeeps(st, reason);
    case Close => CloseKeeps(st, step);
    case CloseStdin => CloseKeeps(st, step);
    case _ => MoveStepKeeps(st, step);
  }

  // What never changes again.

  /** A request keeps its id, its outcome, and what was sent to it. */
  predicate ReqLater(r: Req, r': Req) {
    && (r.id.Some? ==> r'.id == r.id)
    && (r.point.Returned? ==> r'.point == r.point)
    && (r.slot.Sent? ==> r'.slot == r.slot)
  }

  predicate Later(st: State, st': State) {
    && st.nextId <= st'.nextId
    && st.heard <= st'.heard
    && |st.reqs| <= |st'.reqs|
    && forall i :: 0 <= i < |st.reqs| ==> ReqLater(st.reqs[i], st'.reqs[i])
  }

  lemma LaterIsReflexive(st: State)
    ensures Later(st, st)
  {
  }

  lemma LaterIsTransitive(a: State, b: State, c: State)
    requires Later(a, b) && Later(b, c)
    ensures Later(a, c)
  {
    forall i | 0 <= i < |a.reqs| ensures ReqLater(a.reqs[i], c.reqs[i]) {
      assert ReqLater(a.reqs[i], b.reqs[i]) && ReqLater(b.reqs[i], c.reqs[i]);
    }
  }

  /** Signalling an entry of the table overwrites nothing. */
  lemma SignalIsLater(st: State, id: nat, slot: Slot)
    requires EntryOk(st, id)
    ensures Later(st, Signal(st, id, slot))
  {
  }

  lemma SignalKeepsPoints(st: State, id: nat, slot: Slot)
    ensures var st' := Signal(st, id, slot);
            |st'.reqs| == |st.reqs| && st'.heard == st.heard && st'.nextId == st.nextId
            && forall i :: 0 <= i < |st.reqs| ==>
                 st'.reqs[i].point == st.reqs[i].point && st'.reqs[i].id == st.reqs[i].id
  {
  }

  lemma SignalThenMove(st: State, i: nat, id: nat, p: Point)
    requires EntryOk(st, id) && i < |st.reqs| && !st.reqs[i].point.Returned?
    ensures |Signal(st, id, SenderDropped).reqs| == |st.reqs|
    ensures Later(st, Move(Signal(st, id, SenderDropped), i, p))
  {
    hide Signal, EntryOk, Later, ReqLater;
    var st1 := Signal(st, id, SenderDropped);
    SignalKeepsPoints(st, id, SenderDropped);
    SignalIsLater(st, id, SenderDropped);
    MoveIsLater(st1, i, p);
    LaterIsTransitive(st, st1, Move(st1, i, p));
  }

  lemma MoveIsLater(st: State, i: nat, p: Point)
    requires i < |st.reqs| && !st.reqs[i].point.Returned?
    ensures Later(st, Move(st, i, p))
  {
  }

  /** The table plays no part in what is later. */
  lemma LaterIgnoresTable(st: State, a: State, b: State)
    requires Later(st, a) && b.reqs == a.reqs && b.nextId == a.nextId && a.heard <= b.heard
    ensures Later(st, b)
  {
  }

  lemma DrainIsLater(st: State, reason: int)
    requires Inv(st)
    ensures Later(st, Apply(st, Drain(reason)))
  {
    hide OutcomeOk;
    var st' := Apply(st, Drain(reason));
    forall i | 0 <= i < |st.reqs| ensures ReqLater(st.reqs[i], st'.reqs[i]) {
      if i in st.pending.Values {
        var id :| id in st.pending && st.pending[id] == i;
        assert EntryOk(st, id);
      }
    }
  }

  lemma TableStepIsLater(st: State, step: Step)
    requires Inv(st) && Enabled(st, step) && (step.Register? || step.Remove? || step.Hear?)
    ensures Later(st, Apply(st, step))
  {
    hide Signal, Later, EntryOk, IdsDiffer, ReqOk, ReplyIn;
    var st' := Apply(st, step);
    match step
    case Register(i) =>
      var id := st.reqs[i].id.value;
      SignalThenMove(st, i, id, Writing);
      LaterIgnoresTable(st, Move(Signal(st, id, SenderDropped), i, Writing), st');
    case Remove(i) =>
      var id := st.reqs[i].id.value;
      SignalThenMove(st, i, id, Returned(st.reqs[i].point.failure));
      LaterIgnoresTable(st, Move(Signal(st, id, SenderDropped), i, Returned(st.reqs[i].point.failure)), st');
    case Hear(m) =>
      if m.id.Some? && ReplyIn(m).Some? {
        SignalIsLater(st, m.id.value, Sent(Answered(ReplyIn(m).value)));
        SignalKeepsPoints(st, m.id.value, Sent(Answered(ReplyIn(m).value)));
        LaterIgnoresTable(st, Signal(st, m.id.value, Sent(Answered(ReplyIn(m).value))), st');
      } else {
        LaterIsReflexive(st);
        LaterIgnoresTable(st, st, st');
      }
  }

  lemma OtherStepIsLater(st: State, step: Step)
    requires Inv(st) && Enabled(st, step) && !(step.Register? || step.Remove? || step.Hear? || step.Drain?)
    ensures Later(st, Apply(st, step))
  {
    hide OutcomeOk, EntryOk, IdsDiffer, Registered, Removed, Heard, DrainedReqs;
    if step.TakeId? {
      ReqIsOk(st, step.i);
    }
  }

  lemma StepIsLater(st: State, step: Step)
    requires Inv(st) && Enabled(st, step)
    ensures Later(st, Apply(st, step))
  {
    hide Inv, Apply, Enabled, Later;
    if step.Drain? {
      DrainIsLater(st, step.reason);
    } else if step.Register? || step.Remove? || step.Hear? {
      TableStepIsLater(st, step);
    } else {
      OtherStepIsLater(st, step);
    }
  }

  lemma {:induction false} RunKeeps(st: State, steps: seq<Step>)
    requires Inv(st) && Run(st, steps).Some?
    ensures Inv(Run(st, steps).value) && Later(st, Run(st, steps).value)
    decreases |steps|
  {
    hide Inv, Later, Apply, Enabled;
    if steps == [] {
      LaterIsReflexive(st);
    } else {
      var next := Apply(st, steps[0]);
      StepKeeps(st, steps[0]);
      StepIsLater(st, steps[0]);
      RunKeeps(next, steps[1..]);
      LaterIsTransitive(st, next, Run(st, steps).value);
    }
  }

  lemma ReachableIsOk(st: State)
    requires Reachable(st)
    ensures Inv(st)
  {
    hide Inv, Later, Run;
    var steps :| Run(INIT, steps) == Some(st);
    InitIsOk();
    RunKeeps(INIT, steps);
  }

  // The promises.

  /** No two requests ever get the same id, and none changes its own. */
  lemma IdsAreNeverReused(st: State, steps: seq<Step>, i: nat, j: nat)
    requires Reachable(st) && Run(st, steps).Some?
    requires i < |st.reqs| && st.reqs[i].id.Some? && j < |Run(st, steps).value.reqs| && j != i
    ensures var st' := Run(st, steps).value;
            i < |st'.reqs| && st'.reqs[i].id == st.reqs[i].id && st'.reqs[j].id != st.reqs[i].id
  {
    hide EntryOk, ReqOk, Run;
    ReachableIsOk(st);
    RunKeeps(st, steps);
    assert ReqLater(st.reqs[i], Run(st, steps).value.reqs[i]);
  }

  /** A request that returned with a reply returned one that the agent sent under the request's own id. */
  lemma OnlyOwnReplies(st: State, i: nat)
    requires Reachable(st) && i < |st.reqs| && st.reqs[i].point.Returned? && st.reqs[i].point.outcome.Answered?
    ensures st.reqs[i].id.Some?
    ensures match st.reqs[i].point.outcome.reply
            case Err(e) => exists m :: m in st.heard && m.id == st.reqs[i].id && m.error == Some(e)
            case Ok(v) => exists m :: m in st.heard && m.id == st.reqs[i].id && m.error == None && m.result == Some(v)
  {
    hide EntryOk, IdsDiffer;
    ReachableIsOk(st);
    ReqIsOk(st, i);
    var m :| m in st.heard && m.id == st.reqs[i].id && Bears(m, st.reqs[i].point.outcome.reply);
  }

  /** The outcome of a request is final. */
  lemma AtMostOneOutcome(st: State, steps: seq<Step>, i: nat)
    requires Reachable(st) && Run(st, steps).Some? && i < |st.reqs| && st.reqs[i].point.Returned?
    ensures i < |Run(st, steps).value.reqs| && Run(st, steps).value.reqs[i].point == st.reqs[i].point
  {
    hide Inv, Run;
    ReachableIsOk(st);
    RunKeeps(st, steps);
    assert ReqLater(st.reqs[i], Run(st, steps).value.reqs[i]);
  }

  /** A request that has returned has no entry left, and never saw its channel dropped. */
  lemma ReturnedIsForgotten(st: State, i: nat)
    requires Reachable(st) && i < |st.reqs| && st.reqs[i].point.Returned?
    ensures st.reqs[i].id.Some? ==> st.reqs[i].id.value !in st.pending
    ensures !st.reqs[i].point.outcome.ChannelDropped?
  {
    hide WasHeard;
    ReachableIsOk(st);
    ReqIsOk(st, i);
    if st.reqs[i].id.Some? {
      assert EntryOk(st, st.reqs[i].id.value);
    }
  }

  /**
   A line for a request in flight reaches it, unless something was sent to it already: an error as that error, else a
   result as that result, and a line with neither not at all.  A drain reaches every request in flight.
   */
  lemma SignalsArrive(st: State, i: nat, m: Inbound, reason: int)
    requires Reachable(st) && i < |st.reqs| && InFlight(st.reqs[i].point) && m.id == st.reqs[i].id
    ensures var after, slot := Apply(st, Hear(m)), st.reqs[i].slot;
            && |after.reqs| == |st.reqs|
            && after.reqs[i].slot ==
               if !slot.Empty? then slot
               else if m.error.Some? then Sent(Answered(Err(m.error.value)))
               else if m.result.Some? then Sent(Answered(Ok(m.result.value)))
               else slot
    ensures var after := Apply(st, Drain(reason));
            && |after.reqs| == |st.reqs| && after.pending == map[]
            && after.reqs[i].slot == if st.reqs[i].slot.Empty? then Sent(Drained(reason)) else st.reqs[i].slot
  {
    hide WasHeard, IdsDiffer;
    ReachableIsOk(st);
    ReqIsOk(st, i);
    DrainedOne(st, i);
    assert EntryOk(st, st.reqs[i].id.value);
    if i in st.pending.Values {
      var id :| id in st.pending && st.pending[id] == i;
      assert EntryOk(st, id);
    }
  }

  /**
   Something was sent to a request that waits, or (`writing`) may still be writing: it returns that, unless its write
   fails or its deadline passes first, or its future is dropped.
   */
  predicate Settling(st: State, i: nat, o: Outcome, writing: bool) {
    && i < |st.reqs| && st.reqs[i].slot == Sent(o)
    && var p := st.reqs[i].point;
       || p.Waiting? || p.Abandoned? || p == Returned(o)
       || p == Removing(DeadlineExceeded) || p == Returned(DeadlineExceeded)
       || (writing && (p.Writing? || p == Removing(WriteFailed) || p == Returned(WriteFailed)))
  }

  lemma SettlingStep(st: State, step: Step, i: nat, o: Outcome, writing: bool)
    requires Inv(st) && Enabled(st, step) && Settling(st, i, o, writing)
    ensures Settling(Apply(st, step), i, o, writing)
  {
    hide Inv;
    assert ReqLater(st.reqs[i], Apply(st, step).reqs[i]) by {
      StepIsLater(st, step);
    }
    if !OwnStep(step, i) {
      PointMoves(st, step, i);
    }
  }

  predicate OwnStep(step: Step, i: nat) {
    (IsMove(step) || step.TakeId? || step.Register? || step.Remove?) && step.i == i
  }

  /** Only its own steps move a request. */
  lemma PointMoves(st: State, step: Step, i: nat)
    requires Enabled(st, step) && i < |st.reqs| && i < |Apply(st, step).reqs|
    requires !OwnStep(step, i)
    ensures Apply(st, step).reqs[i].point == st.reqs[i].point
  {
    if step.Register? || step.Remove? {
      SignalKeepsPoints(st, st.reqs[step.i].id.value, SenderDropped);
    } else if step.Hear? && step.line.id.Some? && ReplyIn(step.line).Some? {
      SignalKeepsPoints(st, step.line.id.value, Sent(Answered(ReplyIn(step.line).value)));
    }
  }

  lemma {:induction false} ReplyIsReturned(st: State, steps: seq<Step>, i: nat, o: Outcome, writing: bool)
    requires Inv(st) && Settling(st, i, o, writing) && Run(st, steps).Some?
    ensures Settling(Run(st, steps).value, i, o, writing)
    decreases |steps|
  {
    hide Inv, Settling, Apply, Enabled;
    if steps != [] {
      StepKeeps(st, steps[0]);
      SettlingStep(st, steps[0], i, o, writing);
      ReplyIsReturned(Apply(st, steps[0]), steps[1..], i, o, writing);
    }
  }

  /**
   A reply heard while its request waits, or is still writing, is what the request returns in every continuation,
   unless its deadline passes or its write fails.
   */
  lemma HeardReplyWins(st: State, i: nat, m: Inbound, reply: Result<int, int>, steps: seq<Step>)
    requires Reachable(st) && i < |st.reqs| && (st.reqs[i].point.Waiting? || st.reqs[i].point.Writing?)
    requires st.reqs[i].slot.Empty?
    requires m.id == st.reqs[i].id && Bears(m, reply) && Run(Apply(st, Hear(m)), steps).Some?
    ensures var st' := Run(Apply(st, Hear(m)), steps).value;
            && i < |st'.reqs|
            && (st'.reqs[i].point.Returned? ==>
                  var o := st'.reqs[i].point.outcome;
                  || o == Answered(reply) || o == DeadlineExceeded
                  || (o == WriteFailed && st.reqs[i].point.Writing?))
  {
    hide Inv, Run;
    ReachableIsOk(st);
    StepKeeps(st, Hear(m));
    SignalsArrive(st, i, m, 0);
    PointMoves(st, Hear(m), i);
    ReplyIsReturned(Apply(st, Hear(m)), steps, i, Answered(reply), st.reqs[i].point.Writing?);
  }

  predicate AllReturned(st: State) { forall i :: 0 <= i < |st.reqs| ==> st.reqs[i].point.Returned? }

  predicate NoneRunning(st: State) {
    forall i :: 0 <= i < |st.reqs| ==> st.reqs[i].point.Returned? || st.reqs[i].point.Abandoned?
  }

  /** Request `i` left its entry: its future was dropped after registering, and nothing was ever sent to it. */
  predicate Left(st: State, i: int, id: nat) {
    0 <= i < |st.reqs| && st.reqs[i] == Req(Some(id), Abandoned(true), Empty)
  }

  /**
   When every request has returned, the table is empty.  When none is running, its entries are exactly those of the
   futures dropped after registering that were neither answered nor drained.
   */
  lemma QuiescentTable(st: State)
    requires Reachable(st)
    ensures AllReturned(st) ==> st.pending == map[]
    ensures NoneRunning(st) ==> forall id :: id in st.pending <==> exists i :: Left(st, i, id)
  {
    hide OutcomeOk, IdsDiffer;
    ReachableIsOk(st);
    assert forall id :: id in st.pending ==> EntryOk(st, id);
    if NoneRunning(st) {
      forall id
        ensures id in st.pending <==> exists i :: Left(st, i, id)
      {
        assert EntryOk(st, id);
        if id in st.pending {
          assert Left(st, st.pending[id], id);
        }
        if i :| Left(st, i, id) {
          assert ReqOk(st, i, st.reqs[i]);
        }
      }
    }
  }

  lemma Chain(st: State, step: Step, rest: seq<Step>)
    requires Enabled(st, step)
    ensures Run(st, [step] + rest) == Run(Apply(st, step), rest)
  {
    hide Apply, Enabled;
    assert ([step] + rest)[1..] == rest;
  }

  /** A future dropped while waiting leaves its entry. */
  lemma DroppedFutureLeaksItsEntry() returns (steps: seq<Step>)
    ensures Run(INIT, steps).Some?
    ensures NoneRunning(Run(INIT, steps).value) && Run(INIT, steps).value.pending == map[1 := 0]
  {
    hide Run;
    var s1 := Apply(INIT, Begin);
    var s2 := Apply(s1, CheckClosed(0));
    var s3 := Apply(s2, TakeId(0));
    var s4 := Apply(s3, Register(0));
    var s5 := Apply(s4, Abandon(0));
    steps := [Begin] + ([CheckClosed(0)] + ([TakeId(0)] + ([Register(0)] + ([Abandon(0)] + []))));
    Chain(INIT, Begin, [CheckClosed(0)] + ([TakeId(0)] + ([Register(0)] + ([Abandon(0)] + []))));
    Chain(s1, CheckClosed(0), [TakeId(0)] + ([Register(0)] + ([Abandon(0)] + [])));
    Chain(s2, TakeId(0), [Register(0)] + ([Abandon(0)] + []));
    Chain(s3, Register(0), [Abandon(0)] + []);
    Chain(s4, Abandon(0), []);
    RunNothing(s5);
  }

  lemma RunNothing(st: State)
    ensures Run(st, []) == Some(st)
  {
  }

  // A call from its start to its end.

  /** A new request, registered and writing, under the next id. */
  lemma RequestStarts(st: State) returns (st': State, steps: seq<Step>)
    requires Reachable(st) && !st.closed
    ensures Run(st, steps) == Some(st')
    ensures st' == st.(nextId := st.nextId + 1, pending := st.pending[st.nextId := |st.reqs|],
                       reqs := st.reqs + [Req(Some(st.nextId), Writing, Empty)])
  {
    hide Run, Inv;
    var i := |st.reqs|;
    var s1 := Apply(st, Begin);
    var s2 := Apply(s1, CheckClosed(i));
    var s3 := Apply(s2, TakeId(i));
    assert s3.reqs == st.reqs + [Req(Some(st.nextId), Registering, Empty)];
    NextIsFree(st);
    st' := Apply(s3, Register(i));
    assert st'.reqs == st.reqs + [Req(Some(st.nextId), Writing, Empty)];
    steps := [Begin] + ([CheckClosed(i)] + ([TakeId(i)] + ([Register(i)] + [])));
    RunNothing(st');
    Chain(s3, Register(i), []);
    Chain(s2, TakeId(i), [Register(i)] + []);
    Chain(s1, CheckClosed(i), [TakeId(i)] + ([Register(i)] + []));
    Chain(st, Begin, [CheckClosed(i)] + ([TakeId(i)] + ([Register(i)] + [])));
  }

  lemma NextIsFree(st: State)
    requires Reachable(st)
    ensures st.nextId !in st.pending
  {
    hide OutcomeOk, IdsDiffer;
    ReachableIsOk(st);
    assert EntryOk(st, st.nextId);
    if st.nextId in st.pending {
      ReqIsOk(st, st.pending[st.nextId]);
    }
  }

  /** The last request has returned with `o`, and the table is as it was. */
  predicate Finished(st: State, st': State, o: Outcome) {
    && |st'.reqs| == |st.reqs| + 1 && st'.reqs[|st.reqs|].point == Returned(o)
    && st'.pending == st.pending && st'.reqs[..|st.reqs|] == st.reqs
  }

  /** An answer to a request that was written: the request returns that result, or that error. */
  lemma RequestIsAnswered(st: State, m: Inbound, reply: Result<int, int>) returns (st': State, steps: seq<Step>)
    requires Reachable(st) && !st.closed && st.stdin && m.id == Some(st.nextId) && Bears(m, reply)
    ensures Run(st, steps) == Some(st') && Finished(st, st', Answered(reply))
  {
    hide Run, Inv;
    var i := |st.reqs|;
    NextIsFree(st);
    var s4, start := RequestStarts(st);
    var s5 := Apply(s4, WriteOk(i));
    assert s5.reqs == st.reqs + [Req(Some(st.nextId), Waiting, Empty)];
    var s6 := Apply(s5, Hear(m));
    assert s6.reqs == st.reqs + [Req(Some(st.nextId), Waiting, Sent(Answered(reply)))];
    st' := Apply(s6, Resume(i));
    assert st'.reqs == st.reqs + [Req(Some(st.nextId), Returned(Answered(reply)), Sent(Answered(reply)))];
    assert st'.pending == st.pending;
    var tail := [WriteOk(i)] + ([Hear(m)] + ([Resume(i)] + []));
    RunNothing(st');
    Chain(s6, Resume(i), []);
    Chain(s5, Hear(m), [Resume(i)] + []);
    Chain(s4, WriteOk(i), [Hear(m)] + ([Resume(i)] + []));
    RunConcat(st, start, tail);
    steps := start + tail;
  }

  /** A request whose write fails says so, and one that waits too long says that; neither leaves an entry. */
  lemma FailuresAreReported(st: State, late: bool) returns (st': State, steps: seq<Step>)
    requires Reachable(st) && !st.closed && st.stdin
    ensures Run(st, steps) == Some(st') && Finished(st, st', if late then DeadlineExceeded else WriteFailed)
  {
    hide Run, Inv;
    var i := |st.reqs|;
    NextIsFree(st);
    var s4, start := RequestStarts(st);
    var tail: seq<Step>;
    if late {
      var s5 := Apply(s4, WriteOk(i));
      var s6 := Apply(s5, Timeout(i));
      assert s6.reqs == st.reqs + [Req(Some(st.nextId), Removing(DeadlineExceeded), Empty)];
      st' := RemoveLast(st, s6, DeadlineExceeded);
      tail := [WriteOk(i)] + ([Timeout(i)] + ([Remove(i)] + []));
      RunNothing(st');
      Chain(s6, Remove(i), []);
      Chain(s5, Timeout(i), [Remove(i)] + []);
      Chain(s4, WriteOk(i), [Timeout(i)] + ([Remove(i)] + []));
    } else {
      var s5 := Apply(s4, WriteFails(i));
      assert s5.reqs == st.reqs + [Req(Some(st.nextId), Removing(WriteFailed), Empty)];
      st' := RemoveLast(st, s5, WriteFailed);
      tail := [WriteFails(i)] + ([Remove(i)] + []);
      RunNothing(st');
      Chain(s5, Remove(i), []);
      Chain(s4, WriteFails(i), [Remove(i)] + []);
    }
    RunConcat(st, start, tail);
    steps := start + tail;
  }

  lemma RemoveLast(st: State, s: State, o: Outcome) returns (st': State)
    requires s.reqs == st.reqs + [Req(Some(st.nextId), Removing(o), Empty)] && st.nextId !in st.pending
    requires s.pending == st.pending[st.nextId := |st.reqs|]
    ensures Enabled(s, Remove(|st.reqs|)) && st' == Apply(s, Remove(|st.reqs|)) && Finished(st, st', o)
  {
    st' := Apply(s, Remove(|st.reqs|));
    assert st'.reqs == st.reqs + [Req(Some(st.nextId), Returned(o), SenderDropped)];
  }

  /** A request to a closed agent is refused before it takes an id. */
  lemma ClosedRefuses(st: State) returns (st': State, steps: seq<Step>)
    requires st.closed
    ensures Run(st, steps) == Some(st') && Finished(st, st', Refused) && st'.nextId == st.nextId
  {
    hide Run;
    var i := |st.reqs|;
    var s1 := Apply(st, Begin);
    st' := Apply(s1, CheckClosed(i));
    assert st'.reqs == st.reqs + [Req(None, Returned(Refused), Empty)];
    steps := [Begin] + ([CheckClosed(i)] + []);
    RunNothing(st');
    Chain(s1, CheckClosed(i), []);
    Chain(st, Begin, [CheckClosed(i)] + []);
  }

  /** Closing closes: no later request gets past the check, and none can write once the input is gone. */
  lemma ShutdownSticks(st: State, step: Step)
    requires Enabled(st, step)
    ensures Apply(st, Close).closed && !Apply(st, CloseStdin).stdin
    ensures st.closed ==> Apply(st, step).closed
    ensures !st.stdin ==> !Apply(st, step).stdin && !step.WriteOk?
  {
    hide ReplyIn, DrainedReqs;
  }

  lemma {:induction false} RunConcat(st: State, a: seq<Step>, b: seq<Step>)
    requires Run(st, a).Some?
    ensures Run(st, a + b) == Run(Run(st, a).value, b)
    decreases |a|
  {
    hide Apply, Enabled;
    if a == [] {
      assert a + b == b;
    } else {
      assert (a + b)[1..] == a[1..] + b;
      RunConcat(Apply(st, a[0]), a[1..], b);
    }
  }
}
