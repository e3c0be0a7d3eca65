/**
 Sequence numbering by subscription publishers (crates/monoloop-loop/src/subscription.rs): taking a number and
 sending the event are two steps, and publishers can be cloned.
 */
module Subscription {
  import opened Common
  import L = LoopOwner
  import LoopProperties

  /** `held` is each publisher's number between its `fetch_add` and its send; `sent` is what the channel took. */
  datatype State = State(nextSeq: nat, held: seq<Option<nat>>, sent: seq<nat>)

  const INIT: State := State(1, [None], [])

  datatype Step =
    | Clone
    | TakeNumber(i: nat)
    | Send(i: nat)
    | Abandon(i: nat)        // the publish future is dropped while it waits for room, or the channel is closed

  predicate Enabled(st: State, step: Step) {
    match step
    case Clone => true
    case TakeNumber(i) => i < |st.held| && st.held[i].None?
    case Send(i) => i < |st.held| && st.held[i].Some?
    case Abandon(i) => i < |st.held| && st.held[i].Some?
  }

  function Apply(st: State, step: Step): State
    requires Enabled(st, step)
  {
    match step
    case Clone => st.(held := st.held + [None])
    case TakeNumber(i) => st.(nextSeq := st.nextSeq + 1, held := st.held[i := Some(st.nextSeq)])
    case Send(i) => st.(held := st.held[i := None], sent := st.sent + [st.held[i].value])
    case Abandon(i) => st.(held := st.held[i := None])
  }

  function Run(steps: seq<Step>): Option<State> {
    if steps == [] then Some(INIT)
    else
      match Run(steps[..|steps| - 1])
      case None => None
      case Some(st) =>
        var step := steps[|steps| - 1];
        if Enabled(st, step) then Some(Apply(st, step)) else None
  }

  // No number is sent twice.

  predicate Fresh(st: State, n: nat) {
    && n < st.nextSeq
    && n !in st.sent
  }

  predicate Inv(st: State) {
    && (forall i :: 0 <= i < |st.held| && st.held[i].Some? ==> Fresh(st, st.held[i].value))
    && (forall i, j :: 0 <= i < j < |st.held| && st.held[i].Some? ==> st.held[i] != st.held[j])
    && (forall k :: 0 <= k < |st.sent| ==> st.sent[k] < st.nextSeq)
    && (forall j, k :: 0 <= j < k < |st.sent| ==> st.sent[j] != st.sent[k])
  }

  lemma StepKeeps(st: State, step: Step)
    requires Inv(st) && Enabled(st, step)
    ensures Inv(Apply(st, step))
  {
    assert st.nextSeq !in st.sent;
    if step.Send? {
      assert Fresh(st, st.held[step.i].value);
    }
  }

  /** In every schedule the numbers sent and held are distinct, and below the next one. */
  lemma {:induction false} NumbersAreUnique(steps: seq<Step>)
    requires Run(steps).Some?
    ensures Inv(Run(steps).value)
    decreases |steps|
  {
    hide Inv, Apply, Enabled;
    if steps == [] {
      InitIsOk();
    } else {
      NumbersAreUnique(steps[..|steps| - 1]);
      StepKeeps(Run(steps[..|steps| - 1]).value, steps[|steps| - 1]);
    }
  }

  lemma InitIsOk()
    ensures Inv(INIT)
  {
  }

  // One publisher.

  /** A single publisher that is never cloned and finishes every publish it starts. */
  predicate Sole(steps: seq<Step>) {
    forall k :: 0 <= k < |steps| ==> !steps[k].Clone? && !steps[k].Abandon?
  }

  predicate Counted(st: State) {
    && |st.held| == 1
    && (forall k :: 0 <= k < |st.sent| ==> st.sent[k] == k + 1)
    && st.nextSeq == |st.sent| + 1 + (if st.held[0].Some? then 1 else 0)
    && (st.held[0].Some? ==> st.held[0].value == |st.sent| + 1)
  }

  /** What a sole publisher has sent is 1, 2, 3, ... */
  lemma {:induction false} SolePublisherCounts(steps: seq<Step>)
    requires Run(steps).Some? && Sole(steps)
    ensures Counted(Run(steps).value)
    decreases |steps|
  {
    if steps != [] {
      SolePublisherCounts(steps[..|steps| - 1]);
    }
  }

  predicate Carries(jobs: seq<L.Job>, sent: seq<nat>) {
    |jobs| == |sent| && forall k :: 0 <= k < |jobs| ==> jobs[k].delivery.sequence == sent[k]
  }

  /** A Loop fed by a sole publisher never takes its stream for a broken one. */
  lemma SolePublisherIsNeverLost(l: L.LoopLimits, scope: L.Scope, room: nat, steps: seq<Step>, jobs: seq<L.Job>)
    requires Run(steps).Some? && Sole(steps) && Carries(jobs, Run(steps).value.sent)
    ensures var s := L.Run(l, scope, L.Start(room), jobs);
            && (s.End? ==> s.kind != L.SubscriptionLost)
            && (s.Continue? ==> s.st.lastSeq == |jobs|)
  {
    hide Run, L.Run;
    SolePublisherCounts(steps);
    LoopProperties.OnePublisherNeverGaps(l, scope, L.Start(room), jobs);
  }

  lemma RunOn(steps: seq<Step>, step: Step)
    requires Run(steps).Some? && Enabled(Run(steps).value, step)
    ensures Run(steps + [step]) == Some(Apply(Run(steps).value, step))
  {
    hide Apply, Enabled;
    assert (steps + [step])[..|steps|] == steps;
  }

  /** Two clones can send out of order, and then the Loop gives the stream up though nothing was lost. */
  lemma ClonesCanReorder(l: L.LoopLimits, scope: L.Scope, room: nat, jobs: seq<L.Job>) returns (steps: seq<Step>)
    ensures Run(steps).Some? && Run(steps).value.sent == [2, 1]
    ensures Carries(jobs, [2, 1]) && jobs[0].delivery.event.Ended? ==>
              L.Run(l, scope, L.Start(room), jobs).End?
              && L.Run(l, scope, L.Start(room), jobs).kind == L.SubscriptionLost
  {
    hide Run, L.Run;
    steps := [];
    RunNothing();
    RunOn(steps, Clone);
    steps := steps + [Clone];
    RunOn(steps, TakeNumber(0));
    steps := steps + [TakeNumber(0)];
    RunOn(steps, TakeNumber(1));
    steps := steps + [TakeNumber(1)];
    RunOn(steps, Send(1));
    steps := steps + [Send(1)];
    RunOn(steps, Send(0));
    steps := steps + [Send(0)];
    JumpIsLost(l, scope, room, jobs, 2, 1);
  }

  /** A sole publisher that drops a publish after taking its number leaves a gap, and the Loop gives the stream up. */
  lemma AbandonedPublishGaps(l: L.LoopLimits, scope: L.Scope, room: nat, jobs: seq<L.Job>) returns (steps: seq<Step>)
    ensures Run(steps).Some? && Run(steps).value.sent == [1, 3] && forall k :: 0 <= k < |steps| ==> !steps[k].Clone?
    ensures Carries(jobs, [1, 3]) && jobs[0].delivery.event.Ended? ==>
              L.Run(l, scope, L.Start(room), jobs).End?
              && L.Run(l, scope, L.Start(room), jobs).kind == L.SubscriptionLost
  {
    hide Run, L.Run;
    steps := [];
    RunNothing();
    RunOn(steps, TakeNumber(0));
    steps := steps + [TakeNumber(0)];
    RunOn(steps, Send(0));
    steps := steps + [Send(0)];
    RunOn(steps, TakeNumber(0));
    steps := steps + [TakeNumber(0)];
    RunOn(steps, Abandon(0));
    steps := steps + [Abandon(0)];
    RunOn(steps, TakeNumber(0));
    steps := steps + [TakeNumber(0)];
    RunOn(steps, Send(0));
    steps := steps + [Send(0)];
    JumpIsLost(l, scope, room, jobs, 1, 3);
  }

  lemma RunNothing()
    ensures Run([]) == Some(INIT)
  {
  }

  lemma JumpIsLost(l: L.LoopLimits, scope: L.Scope, room: nat, jobs: seq<L.Job>, m: nat, n: nat)
    requires m > 0 && n != m + 1
    ensures Carries(jobs, [m, n]) && jobs[0].delivery.event.Ended? ==>
              L.Run(l, scope, L.Start(room), jobs).End?
              && L.Run(l, scope, L.Start(room), jobs).kind == L.SubscriptionLost
  {
    hide L.OnUnit;
    if Carries(jobs, [m, n]) {
      assert jobs[1..][0] == jobs[1];
    }
  }
}
