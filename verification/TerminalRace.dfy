/**
 The race for a connection's terminal outcome (crates/monoloop-connector/src/control.rs and handles.rs) as the
 atomic steps of any number of cancel and terminate calls and of the one owner's `finish` calls.
 */
module TerminalRace {
  import opened Common

  datatype EndKind = RemoteEof | Cancelled | Terminated | TransportFailure | LocalShutdown

  datatype Initiator = LocalControl | Remote | LocalTransport

  datatype Disposition = Accepted | AlreadyRequested | AlreadyTerminal

  datatype ControlKind = Cancel | Terminate

  /** Program points of `request_cancel` and `request_terminate`. */
  datatype Point =
    | Checking
    | Swapping
    | Preferring
    | Done(disposition: Disposition)

  /** A control call; `late` records that the connection was terminal when it began. */
  datatype Caller = Caller(kind: ControlKind, point: Point, late: bool)

  /** The arguments of a `finish` call. */
  datatype FinishCall = FinishCall(observed: EndKind, reporter: Initiator)

  /** Program points of `finish`. */
  datatype Owner =
    | Resting
    | Looking(call: FinishCall)
    | Reading(call: FinishCall)
    | Marking(call: FinishCall, seen: nat)
    | Sending(call: FinishCall, seen: nat)

  datatype End = End(kind: EndKind, initiatedBy: Initiator)

  datatype State = State(
    terminal: bool,
    cancelRequested: bool,
    terminateRequested: bool,
    preferred: nat,
    callers: seq<Caller>,
    owner: Owner,
    endSender: bool,
    ends: seq<End>)

  const INIT: State := State(false, false, false, 0, [], Resting, true, [])

  datatype Step =
    | Call(kind: ControlKind)
    | Advance(i: nat)
    | BeginFinish(call: FinishCall)
    | Finish

  predicate Enabled(st: State, step: Step) {
    match step
    case Call(_) => true
    case Advance(i) => i < |st.callers| && !st.callers[i].point.Done?
    case BeginFinish(_) => st.owner.Resting?
    case Finish => !st.owner.Resting?
  }

  predicate Requested(st: State, kind: ControlKind) {
    if kind.Cancel? then st.cancelRequested else st.terminateRequested
  }

  function Request(st: State, kind: ControlKind): State {
    if kind.Cancel? then st.(cancelRequested := true) else st.(terminateRequested := true)
  }

  /** Cancel prefers itself only over nothing; terminate always. */
  function Prefer(st: State, kind: ControlKind): State {
    if kind.Terminate? then st.(preferred := 2) else if st.preferred == 0 then st.(preferred := 1) else st
  }

  /** What a caller's next step does to the shared fields: `swap` sets its flag whatever it finds. */
  function Effect(st: State, c: Caller): State {
    match c.point
    case Swapping => Request(st, c.kind)
    case Preferring => Prefer(st, c.kind)
    case _ => st
  }

  function NextPoint(st: State, c: Caller): Point {
    match c.point
    case Checking => if st.terminal then Done(AlreadyTerminal) else Swapping
    case Swapping => if Requested(st, c.kind) then Done(AlreadyRequested) else Preferring
    case _ => Done(Accepted)
  }

  function AdvanceCaller(st: State, i: nat): State
    requires Enabled(st, Advance(i))
  {
    var c := st.callers[i];
    Effect(st, c).(callers := st.callers[i := c.(point := NextPoint(st, c))])
  }

  function EndFor(call: FinishCall, seen: nat): End {
    var kind := if seen == 2 then Terminated else if seen == 1 then Cancelled else call.observed;
    End(kind, if kind.Cancelled? || kind.Terminated? then LocalControl else call.reporter)
  }

  function AdvanceOwner(st: State): State
    requires !st.owner.Resting?
  {
    match st.owner
    case Looking(call) => st.(owner := if st.terminal then Resting else Reading(call))
    case Reading(call) => st.(owner := Marking(call, st.preferred))
    case Marking(call, seen) => st.(terminal := true, owner := Sending(call, seen))
    case Sending(call, seen) =>
      if st.endSender then st.(endSender := false, ends := st.ends + [EndFor(call, seen)], owner := Resting)
      else st.(owner := Resting)
  }

  function Apply(st: State, step: Step): State
    requires Enabled(st, step)
  {
    match step
    case Call(kind) => st.(callers := st.callers + [Caller(kind, Checking, st.terminal)])
    case Advance(i) => AdvanceCaller(st, i)
    case BeginFinish(call) => st.(owner := Looking(call))
    case Finish => AdvanceOwner(st)
  }

  /** The state after a schedule, if each step was enabled when its turn came. */
  function Run(st: State, steps: seq<Step>): Option<State>
    decreases |steps|
  {
    if steps == [] then Some(st)
    else if Enabled(st, steps[0]) then Run(Apply(st, steps[0]), steps[1..])
    else None
  }

  // The invariant.

  /** The call that set its flag: on its way to be accepted, or accepted. */
  predicate Won(c: Caller, kind: ControlKind) { c.kind == kind && (c.point.Preferring? || c.point == Done(Accepted)) }

  function Winners(cs: seq<Caller>, kind: ControlKind): nat {
    if cs == [] then 0 else Winners(cs[..|cs| - 1], kind) + if Won(cs[|cs| - 1], kind) then 1 else 0
  }

  function Rank(kind: ControlKind): nat { if kind.Cancel? then 1 else 2 }

  predicate CallerOk(st: State, c: Caller) {
    && (c.point == Done(Accepted) ==> st.preferred >= Rank(c.kind))
    && (c.point == Done(AlreadyTerminal) ==> st.terminal)
    && (c.point == Done(AlreadyRequested) ==> Requested(st, c.kind))
    && (c.late ==> st.terminal && (c.point.Checking? || c.point == Done(AlreadyTerminal)))
  }

  predicate CallersOk(st: State) { forall i :: 0 <= i < |st.callers| ==> CallerOk(st, st.callers[i]) }

  predicate FlagsOk(st: State) {
    && Winners(st.callers, Cancel) == (if st.cancelRequested then 1 else 0)
    && Winners(st.callers, Terminate) == (if st.terminateRequested then 1 else 0)
    && st.preferred <= 2
    && (st.preferred == 1 ==> st.cancelRequested)
    && (st.preferred == 2 ==> st.terminateRequested)
  }

  predicate OwnerOk(st: State) {
    && (st.owner.Reading? || st.owner.Marking? ==> !st.terminal)
    && (st.owner.Marking? || st.owner.Sending? ==> st.owner.seen <= st.preferred)
    && st.endSender == (st.ends == [])
    && |st.ends| <= 1
    && (st.terminal <==> st.owner.Sending? || st.ends != [])
    && (st.owner.Sending? ==> st.ends == [])
  }

  predicate Inv(st: State) { CallersOk(st) && FlagsOk(st) && OwnerOk(st) }

  lemma {:induction false} WinnersUpdate(cs: seq<Caller>, i: nat, c: Caller, kind: ControlKind)
    requires i < |cs|
    ensures Winners(cs[i := c], kind) + (if Won(cs[i], kind) then 1 else 0)
            == Winners(cs, kind) + (if Won(c, kind) then 1 else 0)
    ensures Won(cs[i], kind) ==> Winners(cs, kind) >= 1
  {
    hide Won;
    var n := |cs| - 1;
    if i == n {
      assert cs[i := c][..n] == cs[..n];
    } else {
      assert cs[i := c][..n] == cs[..n][i := c];
      WinnersUpdate(cs[..n], i, c, kind);
    }
  }

  lemma WinnersCall(cs: seq<Caller>, c: Caller, kind: ControlKind)
    requires c.point.Checking?
    ensures Winners(cs + [c], kind) == Winners(cs, kind)
  {
    assert (cs + [c])[..|cs|] == cs;
  }

  lemma {:induction false} TwoWinners(cs: seq<Caller>, i: nat, j: nat, kind: ControlKind)
    requires i < j < |cs| && Won(cs[i], kind) && Won(cs[j], kind)
    ensures Winners(cs, kind) >= 2
  {
    WinnersUpdate(cs, i, cs[i].(point := Checking), kind);
    WinnersUpdate(cs[i := cs[i].(point := Checking)], j, cs[j], kind);
  }

  /** A step of a call moves that call only, and touches the flags and the preference at most. */
  lemma AdvanceMoves(st: State, i: nat)
    requires st.preferred <= 2 && Enabled(st, Advance(i))
    ensures var st' := AdvanceCaller(st, i);
            && |st'.callers| == |st.callers| && st'.callers == st.callers[i := st'.callers[i]]
            && st'.callers[i].kind == st.callers[i].kind && st'.callers[i].late == st.callers[i].late
            && st'.terminal == st.terminal && st'.owner == st.owner
            && st'.endSender == st.endSender && st'.ends == st.ends
            && st.preferred <= st'.preferred <= 2
            && (st.terminateRequested ==> st'.terminateRequested) && (st.cancelRequested ==> st'.cancelRequested)
  {
  }

  lemma AdvanceKeepsCaller(st: State, i: nat)
    requires st.preferred <= 2 && Enabled(st, Advance(i)) && CallerOk(st, st.callers[i])
    ensures var st' := AdvanceCaller(st, i); |st'.callers| == |st.callers| && CallerOk(st', st'.callers[i])
  {
  }

  lemma AdvanceKeepsFlags(st: State, i: nat)
    requires FlagsOk(st) && Enabled(st, Advance(i))
    ensures FlagsOk(AdvanceCaller(st, i))
  {
    hide Winners;
    var st' := AdvanceCaller(st, i);
    assert st'.callers == st.callers[i := st'.callers[i]];
    WinnersUpdate(st.callers, i, st'.callers[i], Cancel);
    WinnersUpdate(st.callers, i, st'.callers[i], Terminate);
  }

  lemma AdvanceKeepsCallers(st: State, i: nat)
    requires CallersOk(st) && st.preferred <= 2 && Enabled(st, Advance(i))
    ensures CallersOk(AdvanceCaller(st, i))
  {
    hide AdvanceCaller;
    AdvanceMoves(st, i);
    AdvanceKeepsCaller(st, i);
    var st' := AdvanceCaller(st, i);
    forall j | 0 <= j < |st'.callers|
      ensures CallerOk(st', st'.callers[j])
    {
      assert CallerOk(st, st.callers[j]);
    }
  }

  lemma AdvanceKeepsOwner(st: State, i: nat)
    requires OwnerOk(st) && st.preferred <= 2 && Enabled(st, Advance(i))
    ensures OwnerOk(AdvanceCaller(st, i))
  {
    hide AdvanceCaller;
    AdvanceMoves(st, i);
  }

  lemma AdvanceCallerKeeps(st: State, i: nat)
    requires Inv(st) && Enabled(st, Advance(i))
    ensures Inv(AdvanceCaller(st, i))
  {
    hide Winners, AdvanceCaller, CallersOk, OwnerOk;
    AdvanceKeepsFlags(st, i);
    AdvanceKeepsCallers(st, i);
    AdvanceKeepsOwner(st, i);
  }

  lemma CallKeeps(st: State, kind: ControlKind)
    requires Inv(st)
    ensures Inv(Apply(st, Call(kind)))
  {
    hide Winners;
    var c := Caller(kind, Checking, st.terminal);
    WinnersCall(st.callers, c, Cancel);
    WinnersCall(st.callers, c, Terminate);
    var st' := Apply(st, Call(kind));
    forall j | 0 <= j < |st'.callers|
      ensures CallerOk(st', st'.callers[j])
    {
      assert j < |st.callers| ==> CallerOk(st, st.callers[j]);
    }
  }

  lemma FinishKeeps(st: State)
    requires Inv(st) && Enabled(st, Finish)
    ensures Inv(Apply(st, Finish))
  {
    hide Winners;
    var st' := Apply(st, Finish);
    forall j | 0 <= j < |st'.callers|
      ensures CallerOk(st', st'.callers[j])
    {
      assert CallerOk(st, st.callers[j]);
    }
  }

  lemma BeginFinishKeeps(st: State, call: FinishCall)
    requires Inv(st) && Enabled(st, BeginFinish(call))
    ensures Inv(Apply(st, BeginFinish(call)))
  {
    hide Winners;
    var st' := Apply(st, BeginFinish(call));
    forall j | 0 <= j < |st'.callers|
      ensures CallerOk(st', st'.callers[j])
    {
      assert CallerOk(st, st.callers[j]);
    }
  }

  lemma StepKeeps(st: State, step: Step)
    requires Inv(st) && Enabled(st, step)
    ensures Inv(Apply(st, step))
  {
    match step
    case Call(kind) => CallKeeps(st, kind);
    case Advance(i) => AdvanceCallerKeeps(st, i);
    case BeginFinish(call) => BeginFinishKeeps(st, call);
    case Finish => FinishKeeps(st);
  }

  // What only moves one way.

  predicate Later(st: State, st': State) {
    && st.preferred <= st'.preferred
    && (st.terminal ==> st'.terminal)
    && (st.terminateRequested ==> st'.terminateRequested)
    && st.ends <= st'.ends
    && |st.callers| <= |st'.callers|
    && forall i :: 0 <= i < |st.callers| ==> CallerLater(st.callers[i], st'.callers[i])
  }

  /** A call keeps its kind and start, and its disposition once it has returned. */
  predicate CallerLater(c: Caller, c': Caller) {
    c'.kind == c.kind && c'.late == c.late && (c.point.Done? ==> c' == c)
  }

  lemma AdvanceIsLater(st: State, i: nat)
    requires st.preferred <= 2 && Enabled(st, Advance(i))
    ensures Later(st, AdvanceCaller(st, i))
  {
    hide AdvanceCaller;
    AdvanceMoves(st, i);
  }

  lemma StepIsLater(st: State, step: Step)
    requires st.preferred <= 2 && Enabled(st, step)
    ensures Later(st, Apply(st, step))
  {
    hide AdvanceCaller;
    if step.Advance? {
      AdvanceIsLater(st, step.i);
    }
  }

  lemma LaterIsTransitive(a: State, b: State, c: State)
    requires Later(a, b) && Later(b, c)
    ensures Later(a, c)
  {
    forall i | 0 <= i < |a.callers|
      ensures CallerLater(a.callers[i], c.callers[i])
    {
      assert CallerLater(a.callers[i], b.callers[i]) && CallerLater(b.callers[i], c.callers[i]);
    }
  }

  lemma {:induction false} RunKeeps(st: State, steps: seq<Step>)
    requires Inv(st) && Run(st, steps).Some?
    ensures Inv(Run(st, steps).value) && Later(st, Run(st, steps).value)
    decreases |steps|
  {
    hide CallersOk, OwnerOk, Winners, Later, Apply, Enabled;
    if steps == [] {
      LaterIsReflexive(st);
    } else {
      var next := Apply(st, steps[0]);
      StepKeeps(st, steps[0]);
      StepIsLater(st, steps[0]);
      RunKeeps(next, steps[1..]);
      LaterIsTransitive(st, next, Run(st, steps).value);
    }
  }

  lemma LaterIsReflexive(st: State)
    ensures Later(st, st)
  {
  }

  ghost predicate Reachable(st: State) { exists steps :: Run(INIT, steps) == Some(st) }

  lemma ReachableIsOk(st: State)
    requires Reachable(st)
    ensures Inv(st)
  {
    hide Inv, Later, Run;
    var steps :| Run(INIT, steps) == Some(st);
    InitIsOk();
    RunKeeps(INIT, steps);
  }

  lemma InitIsOk()
    ensures Inv(INIT)
  {
  }

  // The promises.

  /** The preference goes 0, 1, 2 or 0, 2, and never back. */
  lemma PreferenceOnlyRises(st: State, steps: seq<Step>)
    requires Reachable(st) && Run(st, steps).Some?
    ensures st.preferred <= Run(st, steps).value.preferred <= 2
  {
    hide Winners, CallersOk, Run;
    ReachableIsOk(st);
    RunKeeps(st, steps);
  }

  /** Of all cancel calls at most one is accepted, and of all terminate calls at most one. */
  lemma AcceptedAtMostOnce(st: State, i: nat, j: nat)
    requires Reachable(st) && i < |st.callers| && j < |st.callers| && i != j
    requires st.callers[i].point == Done(Accepted) && st.callers[j].point == Done(Accepted)
    ensures st.callers[i].kind != st.callers[j].kind
  {
    hide Winners, CallersOk;
    ReachableIsOk(st);
    var kind := st.callers[i].kind;
    if st.callers[j].kind == kind {
      TwoWinners(st.callers, if i < j then i else j, if i < j then j else i, kind);
    }
  }

  /** A call is told that the connection is terminal only if it is, and that its kind was requested only if it was. */
  lemma DispositionsAreTrue(st: State, i: nat)
    requires Reachable(st) && i < |st.callers| && st.callers[i].point.Done?
    ensures match st.callers[i].point.disposition
            case Accepted => st.preferred >= (if st.callers[i].kind == Cancel then 1 else 2)
            case AlreadyRequested =>
              exists j :: 0 <= j < |st.callers| && j != i && st.callers[j].kind == st.callers[i].kind
                          && (st.callers[j].point.Preferring? || st.callers[j].point == Done(Accepted))
            case AlreadyTerminal => st.terminal
  {
    hide Winners, OwnerOk;
    ReachableIsOk(st);
    assert CallerOk(st, st.callers[i]);
    if st.callers[i].point == Done(AlreadyRequested) {
      assert st.callers[i].kind == Cancel || st.callers[i].kind == Terminate;
      var j := SomeWinner(st.callers, st.callers[i].kind);
    }
  }

  lemma {:induction false} SomeWinner(cs: seq<Caller>, kind: ControlKind) returns (j: nat)
    requires Winners(cs, kind) > 0
    ensures j < |cs| && Won(cs[j], kind)
  {
    var n := |cs| - 1;
    if Won(cs[n], kind) {
      j := n;
    } else {
      j := SomeWinner(cs[..n], kind);
    }
  }

  /** Exactly one end is published once a `finish` has gone through, and never a second. */
  lemma ExactlyOneEnd(st: State)
    requires Reachable(st)
    ensures |st.ends| <= 1
    ensures st.owner.Resting? ==> (st.terminal <==> |st.ends| == 1)
  {
    hide Winners, CallersOk;
    ReachableIsOk(st);
  }

  /** A call that begins on a terminal connection is told so, whatever else happens. */
  lemma LateCallsAreRefused(st: State, kind: ControlKind, steps: seq<Step>)
    requires Reachable(st) && st.terminal && Run(Apply(st, Call(kind)), steps).Some?
    ensures var i, st' := |st.callers|, Run(Apply(st, Call(kind)), steps).value;
            && i < |st'.callers| && st'.callers[i].kind == kind
            && (st'.callers[i].point.Done? ==> st'.callers[i].point == Done(AlreadyTerminal))
  {
    hide Winners, FlagsOk, OwnerOk, Run;
    ReachableIsOk(st);
    CallKeeps(st, kind);
    var st1 := Apply(st, Call(kind));
    RunKeeps(st1, steps);
    var st2 := Run(st1, steps).value;
    assert CallerLater(st1.callers[|st.callers|], st2.callers[|st.callers|]);
    assert CallerOk(st2, st2.callers[|st.callers|]);
  }

  // Which end.

  /** From the read on, the end is settled. */
  predicate Settled(st: State, e: End) {
    || st.ends == [e]
    || (st.ends == [] && (st.owner.Marking? || st.owner.Sending?) && EndFor(st.owner.call, st.owner.seen) == e)
  }

  lemma {:induction false} SettledStays(st: State, steps: seq<Step>, e: End)
    requires Inv(st) && Settled(st, e) && Run(st, steps).Some?
    ensures Settled(Run(st, steps).value, e)
    decreases |steps|
  {
    hide Inv, Apply, Enabled, Settled;
    if steps != [] {
      StepKeeps(st, steps[0]);
      SettledStep(st, steps[0], e);
      SettledStays(Apply(st, steps[0]), steps[1..], e);
    }
  }

  lemma SettledStep(st: State, step: Step, e: End)
    requires Inv(st) && Settled(st, e) && Enabled(st, step)
    ensures Settled(Apply(st, step), e)
  {
    hide FlagsOk, CallersOk, EndFor;
  }

  /** The preference at the owner's read decides the end of every run that goes on from there. */
  lemma ReadDecides(st: State, steps: seq<Step>)
    requires Reachable(st) && st.owner.Reading? && Run(Apply(st, Finish), steps).Some?
    ensures var st' := Run(Apply(st, Finish), steps).value;
            st'.ends != [] ==>
              var e := st'.ends[0];
              var call := st.owner.call;
              && (e.kind == Terminated <==> st.preferred == 2 || (st.preferred == 0 && call.observed == Terminated))
              && (e.kind == Cancelled <==> st.preferred == 1 || (st.preferred == 0 && call.observed == Cancelled))
              && (st.preferred == 0 ==> e.kind == call.observed)
              && e.initiatedBy == if e.kind == Terminated || e.kind == Cancelled then LocalControl else call.reporter
  {
    hide Winners, CallersOk, Run;
    ReachableIsOk(st);
    StepKeeps(st, Finish);
    SettledStays(Apply(st, Finish), steps, EndFor(st.owner.call, st.preferred));
  }

  /** The end, if any, is no lower than `rank`: not published or read with less. */
  predicate AtLeast(st: State, rank: nat) {
    && st.preferred >= rank
    && (st.owner.Marking? || st.owner.Sending? ==> st.owner.seen >= rank)
    && (st.ends != [] ==> Outranks(st.ends[0].kind, rank))
  }

  predicate Outranks(kind: EndKind, rank: nat) {
    kind == Terminated || (kind == Cancelled && rank < 2)
  }

  lemma {:induction false} AtLeastStays(st: State, steps: seq<Step>, rank: nat)
    requires Inv(st) && 1 <= rank <= 2 && AtLeast(st, rank) && Run(st, steps).Some?
    ensures AtLeast(Run(st, steps).value, rank)
    decreases |steps|
  {
    hide Inv, Apply, Enabled, AtLeast;
    if steps != [] {
      StepKeeps(st, steps[0]);
      AtLeastStep(st, steps[0], rank);
      AtLeastStays(Apply(st, steps[0]), steps[1..], rank);
    }
  }

  lemma AtLeastStep(st: State, step: Step, rank: nat)
    requires Inv(st) && 1 <= rank <= 2 && AtLeast(st, rank) && Enabled(st, step)
    ensures AtLeast(Apply(st, step), rank)
  {
    hide CallersOk, Winners;
  }

  /** A control call accepted before the owner reads the preference is honoured by every end that follows. */
  lemma EarlyAcceptanceWins(st: State, i: nat, steps: seq<Step>)
    requires Reachable(st) && i < |st.callers| && st.callers[i].point == Done(Accepted)
    requires !st.terminal && !st.owner.Marking? && Run(st, steps).Some?
    ensures var st' := Run(st, steps).value;
            st'.ends != [] ==>
              && (st.callers[i].kind == Terminate ==> st'.ends[0].kind == Terminated)
              && (st.callers[i].kind == Cancel ==> st'.ends[0].kind == Terminated || st'.ends[0].kind == Cancelled)
  {
    hide FlagsOk, Run;
    ReachableIsOk(st);
    assert CallerOk(st, st.callers[i]);
    AtLeastStays(st, steps, Rank(st.callers[i].kind));
  }

  lemma Chain(st: State, step: Step, rest: seq<Step>)
    requires Enabled(st, step)
    ensures Run(st, [step] + rest) == Run(Apply(st, step), rest)
  {
    hide Apply, Enabled;
    assert ([step] + rest)[1..] == rest;
  }

  /** Accepted after the read, a terminate call is not honoured: the peer's close is what is published. */
  lemma LateAcceptanceLoses() returns (steps: seq<Step>)
    ensures Run(INIT, steps).Some?
    ensures var st := Run(INIT, steps).value;
            && st.callers == [Caller(Terminate, Done(Accepted), false)]
            && st.ends == [End(RemoteEof, Remote)]
  {
    hide Run;
    var begin := BeginFinish(FinishCall(RemoteEof, Remote));
    var s3 := Apply(Apply(Apply(INIT, begin), Finish), Finish);
    var s7, t7 := CallThrough(s3);
    var s9 := Apply(Apply(s7, Finish), Finish);
    var last := [Finish] + ([Finish] + []);
    Chain(s7, Finish, [Finish] + []);
    Chain(Apply(s7, Finish), Finish, []);
    RunNothing(s9);
    RunConcat(s3, t7, last);
    steps := [begin] + ([Finish] + ([Finish] + (t7 + last)));
    Chain(INIT, begin, [Finish] + ([Finish] + (t7 + last)));
    Chain(Apply(INIT, begin), Finish, [Finish] + (t7 + last));
    Chain(Apply(Apply(INIT, begin), Finish), Finish, t7 + last);
  }

  lemma RunNothing(st: State)
    ensures Run(st, []) == Some(st)
  {
  }

  lemma {:induction false} RunConcat(st: State, a: seq<Step>, b: seq<Step>)
    requires Run(st, a).Some?
    ensures Run(st, a + b) == Run(Run(st, a).value, b)
    decreases |a|
  {
    hide Apply, Enabled;
    if a == [] {
      assert a + b == b;
    } else {
      assert (a + b)[1..] == a[1..] + b;
      RunConcat(Apply(st, a[0]), a[1..], b);
    }
  }

  /** A first terminate call runs from its start to its acceptance. */
  lemma CallThrough(st: State) returns (st': State, steps: seq<Step>)
    requires st.callers == [] && !st.terminal && !st.terminateRequested
    ensures Run(st, steps) == Some(st')
    ensures st' == st.(callers := [Caller(Terminate, Done(Accepted), false)],
                       terminateRequested := true, preferred := 2)
  {
    hide Run;
    var adv := Advance(0);
    var s1 := Apply(st, Call(Terminate));
    var s2 := Apply(s1, adv);
    var s3 := Apply(s2, adv);
    st' := Apply(s3, adv);
    steps := [Call(Terminate)] + ([adv] + ([adv] + ([adv] + [])));
    Chain(st, Call(Terminate), [adv] + ([adv] + ([adv] + [])));
    Chain(s1, adv, [adv] + ([adv] + []));
    Chain(s2, adv, [adv] + []);
    Chain(s3, adv, []);
    RunNothing(st');
  }
}
