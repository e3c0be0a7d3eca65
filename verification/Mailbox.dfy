/**
 The bounded delivery mailbox (crates/monoloop-contracts/src/delivery.rs) as the atomic steps of many senders
 and one receiver.  Assumed of Tokio: a FIFO bounded channel whose operations are atomic, and a `Notify` whose
 `Notified`, once created, is woken by every later `notify_waiters` (an epoch counter).
 */
module Mailbox {
  import opened Common

  const U64_MAX: nat := 0xFFFF_FFFF_FFFF_FFFF

  datatype Limits = Limits(maxItems: nat, maxBytes: nat)

  /** What `DeliveryLimits::try_new` accepts: anything but zero. */
  predicate ValidLimits(l: Limits) { 0 < l.maxItems && 0 < l.maxBytes <= U64_MAX }

  /** An event and its byte estimate. */
  datatype Item = Item(event: int, bytes: nat)

  /** What a handle's last call came to. */
  datatype Answer = Unused | Accepted | TooLarge | OverBytes | OverItems | ReceiverGone | Cancelled

  /** Program points of one sender handle. */
  datatype Sender =
    | Idle(answer: Answer)
    | SendLoop(item: Item)                          // top of the reserve loop in `send`
    | Registered(item: Item, epoch: nat)            // `notified()` created
    | Loaded(item: Item, epoch: nat, cur: nat)      // `queued_bytes` read
    | Parked(item: Item, epoch: nat)                // awaiting the notification
    | TryLoop(item: Item)                           // top of the loop in `try_send`
    | TryLoaded(item: Item, cur: nat)
    | Reserved(item: Item)                          // permit held, awaiting channel room
    | TryReserved(item: Item)                       // permit held, about to `try_send` on the channel
    | Releasing(bytes: nat, answer: Answer)         // permit drop, before `fetch_sub`
    | Notifying(answer: Answer)                     // permit drop, between `fetch_sub` and `notify_waiters`

  datatype Receiver =
    | Listening
    | Dropping(bytes: nat, closing: bool)           // permit of a received item, before `fetch_sub`
    | Waking(closing: bool)                         // between `fetch_sub` and `notify_waiters`
    | Closing                                       // receiver dropped, discarding what is queued
    | Gone

  datatype State = State(
    limits: Limits,
    queued: nat,
    epoch: nat,
    open: bool,
    queue: seq<Item>,
    senders: seq<Sender>,
    rx: Receiver,
    accepted: seq<int>,
    delivered: seq<int>,
    discarded: seq<int>)

  function Init(l: Limits): State {
    State(l, 0, 0, true, [], [], Listening, [], [], [])
  }

  datatype Step =
    | Clone
    | BeginSend(i: nat, item: Item)
    | BeginTrySend(i: nat, item: Item)
    | Register(i: nat)
    | Load(i: nat)
    | Decide(i: nat)         // compare with the cap: park or give up, or compare-exchange
    | Wake(i: nat)
    | Offer(i: nat)          // hand the reserved item to the channel
    | Abandon(i: nat)        // the send future is dropped at an await
    | Subtract(i: nat)
    | Notify(i: nat)
    | Receive
    | DropReceiver
    | DiscardOne
    | DiscardEnd
    | RxSubtract
    | RxNotify

  function SaturatingAdd(a: nat, b: nat): nat { if a + b > U64_MAX then U64_MAX else a + b }

  predicate Fits(st: State, cur: nat, bytes: nat) { SaturatingAdd(cur, bytes) <= st.limits.maxBytes }

  predicate Enabled(st: State, step: Step) {
    match step
    case Clone => true
    case BeginSend(i, _) => i < |st.senders| && st.senders[i].Idle?
    case BeginTrySend(i, _) => i < |st.senders| && st.senders[i].Idle?
    case Register(i) => i < |st.senders| && st.senders[i].SendLoop?
    case Load(i) => i < |st.senders| && (st.senders[i].Registered? || st.senders[i].TryLoop?)
    case Decide(i) => i < |st.senders| && (st.senders[i].Loaded? || st.senders[i].TryLoaded?)
    case Wake(i) => i < |st.senders| && st.senders[i].Parked? && st.senders[i].epoch < st.epoch
    case Offer(i) =>
      && i < |st.senders|
      && (|| st.senders[i].TryReserved?
          || (st.senders[i].Reserved? && (!st.open || |st.queue| < st.limits.maxItems)))
    case Abandon(i) => i < |st.senders| && (st.senders[i].Parked? || st.senders[i].Reserved?)
    case Subtract(i) => i < |st.senders| && st.senders[i].Releasing?
    case Notify(i) => i < |st.senders| && st.senders[i].Notifying?
    case Receive => st.rx.Listening? && st.queue != []
    case DropReceiver => st.rx.Listening?
    case DiscardOne => st.rx.Closing? && st.queue != []
    case DiscardEnd => st.rx.Closing? && st.queue == []
    case RxSubtract => st.rx.Dropping?
    case RxNotify => st.rx.Waking?
  }

  predicate IsRxStep(step: Step) {
    step.Receive? || step.DropReceiver? || step.DiscardOne? || step.DiscardEnd? || step.RxSubtract? || step.RxNotify?
  }

  predicate IsSenderStep(step: Step) { !step.Clone? && !IsRxStep(step) }

  function Move(st: State, i: nat, s: Sender): State
    requires i < |st.senders|
  {
    st.(senders := st.senders[i := s])
  }

  /** `fetch_sub` on the unsigned counter; `NeverUnderflows` shows the floor is not reached. */
  function Less(a: nat, b: nat): nat { if a < b then 0 else a - b }

  function Reserve(st: State, i: nat, cur: nat, item: Item, won: Sender, lost: Sender): State
    requires i < |st.senders|
  {
    if st.queued == cur then Move(st.(queued := SaturatingAdd(cur, item.bytes)), i, won) else Move(st, i, lost)
  }

  function Apply(st: State, step: Step): State
    requires Enabled(st, step)
  {
    match step
    case Clone => st.(senders := st.senders + [Idle(Unused)])
    case BeginSend(i, item) =>
      Move(st, i, if item.bytes > st.limits.maxBytes then Idle(TooLarge) else SendLoop(item))
    case BeginTrySend(i, item) =>
      Move(st, i, if item.bytes > st.limits.maxBytes then Idle(TooLarge) else TryLoop(item))
    case Register(i) => Move(st, i, Registered(st.senders[i].item, st.epoch))
    case Load(i) =>
      (match st.senders[i]
       case Registered(item, epoch) => Move(st, i, Loaded(item, epoch, st.queued))
       case s => Move(st, i, TryLoaded(s.item, st.queued)))
    case Decide(i) =>
      (match st.senders[i]
       case Loaded(item, epoch, cur) =>
         if !Fits(st, cur, item.bytes) then Move(st, i, Parked(item, epoch))
         else Reserve(st, i, cur, item, Reserved(item), SendLoop(item))
       case s =>
         if !Fits(st, s.cur, s.item.bytes) then Move(st, i, Idle(OverBytes))
         else Reserve(st, i, s.cur, s.item, TryReserved(s.item), TryLoop(s.item)))
    case Wake(i) => Move(st, i, SendLoop(st.senders[i].item))
    case Offer(i) =>
      var item := st.senders[i].item;
      if st.open && |st.queue| < st.limits.maxItems then
        Move(st.(queue := st.queue + [item], accepted := st.accepted + [item.event]), i, Idle(Accepted))
      else Move(st, i, Releasing(item.bytes, if st.open then OverItems else ReceiverGone))
    case Abandon(i) =>
      if st.senders[i].Parked? then Move(st, i, Idle(Cancelled))
      else Move(st, i, Releasing(st.senders[i].item.bytes, Cancelled))
    case Subtract(i) => Move(st.(queued := Less(st.queued, st.senders[i].bytes)), i, Notifying(st.senders[i].answer))
    case Notify(i) => Move(st.(epoch := st.epoch + 1), i, Idle(st.senders[i].answer))
    case Receive =>
      st.(queue := st.queue[1..], delivered := st.delivered + [st.queue[0].event],
          rx := Dropping(st.queue[0].bytes, false))
    case DropReceiver => st.(open := false, rx := Closing)
    case DiscardOne =>
      st.(queue := st.queue[1..], discarded := st.discarded + [st.queue[0].event],
          rx := Dropping(st.queue[0].bytes, true))
    case DiscardEnd => st.(rx := Gone)
    case RxSubtract => st.(queued := Less(st.queued, st.rx.bytes), rx := Waking(st.rx.closing))
    case RxNotify => st.(epoch := st.epoch + 1, rx := if st.rx.closing then Closing else Listening)
  }

  /** The state after a schedule of steps, if each was enabled when its turn came. */
  function Exec(l: Limits, steps: seq<Step>): Option<State> {
    if steps == [] then Some(Init(l))
    else
      match Exec(l, steps[..|steps| - 1])
      case None => None
      case Some(st) =>
        var step := steps[|steps| - 1];
        if Enabled(st, step) then Some(Apply(st, step)) else None
  }

  // Saturation.

  /**
   A reservation that goes through although the true sum exceeds 64 bits.  The saturated sum is within the cap only
   when the cap is the largest 64-bit value.
   */
  predicate Saturates(st: State, step: Step) {
    && step.Decide? && Enabled(st, step)
    && var s := st.senders[step.i];
       st.queued == s.cur && s.cur + s.item.bytes > U64_MAX && Fits(st, s.cur, s.item.bytes)
  }

  predicate NeverSaturates(l: Limits, steps: seq<Step>) {
    steps == []
    || (&& NeverSaturates(l, steps[..|steps| - 1])
        && var before := Exec(l, steps[..|steps| - 1]);
           before.Some? ==> !Saturates(before.value, steps[|steps| - 1]))
  }

  /** Any schedule under a cap below the largest 64-bit value, and under that one those that never saturate. */
  predicate Exact(l: Limits, steps: seq<Step>) { l.maxBytes < U64_MAX || NeverSaturates(l, steps) }

  // Permits.

  function Held(s: Sender): nat {
    match s
    case Reserved(item) => item.bytes
    case TryReserved(item) => item.bytes
    case Releasing(bytes, _) => bytes
    case _ => 0
  }

  function RxHeld(rx: Receiver): nat { if rx.Dropping? then rx.bytes else 0 }

  function QueueBytes(q: seq<Item>): nat { if q == [] then 0 else q[0].bytes + QueueBytes(q[1..]) }

  function SendersHold(ss: seq<Sender>): nat { if ss == [] then 0 else Held(ss[0]) + SendersHold(ss[1..]) }

  /** Bytes of every permit that exists: queued, with a sender, or with the receiver. */
  function Outstanding(st: State): nat { QueueBytes(st.queue) + SendersHold(st.senders) + RxHeld(st.rx) }

  lemma {:induction false} QueueBytesAppend(q: seq<Item>, item: Item)
    ensures QueueBytes(q + [item]) == QueueBytes(q) + item.bytes
  {
    if q == [] {
      assert (q + [item])[1..] == [];
    } else {
      assert (q + [item])[1..] == q[1..] + [item];
      QueueBytesAppend(q[1..], item);
    }
  }

  lemma {:induction false} SendersHoldUpdate(ss: seq<Sender>, i: nat, s: Sender)
    requires i < |ss|
    ensures SendersHold(ss[i := s]) == SendersHold(ss) - Held(ss[i]) + Held(s)
    ensures Held(ss[i]) <= SendersHold(ss)
  {
    if i == 0 {
      assert ss[i := s][1..] == ss[1..];
    } else {
      assert ss[i := s][1..] == ss[1..][i - 1 := s];
      SendersHoldUpdate(ss[1..], i - 1, s);
    }
  }

  lemma {:induction false} SendersHoldClone(ss: seq<Sender>)
    ensures SendersHold(ss + [Idle(Unused)]) == SendersHold(ss)
  {
    if ss == [] {
      assert (ss + [Idle(Unused)])[1..] == [];
    } else {
      assert (ss + [Idle(Unused)])[1..] == ss[1..] + [Idle(Unused)];
      SendersHoldClone(ss[1..]);
    }
  }

  // Conservation.

  predicate Sized(st: State, s: Sender) {
    (s.SendLoop? || s.Registered? || s.Loaded? || s.Parked? || s.TryLoop? || s.TryLoaded?) ==>
      s.item.bytes <= st.limits.maxBytes
  }

  predicate Accounted(st: State) {
    && st.queued == Outstanding(st)
    && st.queued <= st.limits.maxBytes
    && |st.queue| <= st.limits.maxItems
  }

  predicate Conserved(st: State) {
    && ValidLimits(st.limits)
    && Accounted(st)
    && forall i :: 0 <= i < |st.senders| ==> Sized(st, st.senders[i])
  }

  lemma RxAccounted(st: State, step: Step)
    requires Accounted(st) && Enabled(st, step) && IsRxStep(step)
    ensures Accounted(Apply(st, step))
  {
  }

  /** What a sender step does to the books, by what it does to the sender's own permit. */
  lemma SenderAccounted(st: State, step: Step)
    requires Accounted(st) && Enabled(st, step) && IsSenderStep(step) && !Saturates(st, step)
    ensures Accounted(Apply(st, step))
  {
    hide SendersHold, QueueBytes;
    var st' := Apply(st, step);
    var i := step.i;
    SendersHoldUpdate(st.senders, i, st'.senders[i]);
    assert st.senders[i := st'.senders[i]] == st'.senders;
    if step.Offer? {
      QueueBytesAppend(st.queue, st.senders[i].item);
    }
  }

  lemma SizedStep(st: State, step: Step)
    requires Conserved(st) && Enabled(st, step)
    ensures forall i :: 0 <= i < |Apply(st, step).senders| ==> Sized(st, Apply(st, step).senders[i])
  {
    hide Accounted;
    var st' := Apply(st, step);
    forall i | 0 <= i < |st'.senders|
      ensures Sized(st, st'.senders[i])
    {
      assert i < |st.senders| ==> Sized(st, st.senders[i]);
    }
  }

  lemma ConservedStep(st: State, step: Step)
    requires Conserved(st) && Enabled(st, step) && !Saturates(st, step)
    ensures Conserved(Apply(st, step))
  {
    hide Apply, Enabled, Accounted, Saturates;
    LimitsStay(st, step);
    SizedStep(st, step);
    if step.Clone? {
      CloneAccounted(st);
    } else if IsRxStep(step) {
      RxAccounted(st, step);
    } else {
      SenderAccounted(st, step);
    }
  }

  lemma SaturationLosesBytes(st: State, step: Step)
    requires Conserved(st) && Saturates(st, step)
    ensures !Accounted(Apply(st, step)) && st.limits.maxBytes == U64_MAX
  {
    hide SendersHold, QueueBytes;
    var st' := Apply(st, step);
    SendersHoldUpdate(st.senders, step.i, st'.senders[step.i]);
  }

  /** A step keeps the books exactly when it does not saturate. */
  lemma ConservedExactly(st: State, step: Step)
    requires Conserved(st) && Enabled(st, step)
    ensures Conserved(Apply(st, step)) <==> !Saturates(st, step)
    ensures st.limits.maxBytes < U64_MAX ==> !Saturates(st, step)
  {
    hide Apply, Enabled, Accounted, Saturates;
    if Saturates(st, step) {
      SaturationLosesBytes(st, step);
    } else {
      ConservedStep(st, step);
    }
  }

  lemma CloneAccounted(st: State)
    requires Accounted(st)
    ensures Accounted(Apply(st, Clone))
  {
    SendersHoldClone(st.senders);
  }

  lemma LimitsStay(st: State, step: Step)
    requires Enabled(st, step)
    ensures Apply(st, step).limits == st.limits
  {
  }

  /** `fetch_sub` never takes more than is there. */
  lemma NeverUnderflows(st: State, step: Step)
    requires Conserved(st) && Enabled(st, step)
    ensures step.Subtract? ==> st.senders[step.i].bytes <= st.queued
    ensures step.RxSubtract? ==> st.rx.bytes <= st.queued
  {
    if step.Subtract? {
      SendersHoldUpdate(st.senders, step.i, Idle(Unused));
    }
  }

  // Delivery.

  function Events(q: seq<Item>): seq<int> { if q == [] then [] else [q[0].event] + Events(q[1..]) }

  lemma {:induction false} EventsAppend(q: seq<Item>, item: Item)
    ensures Events(q + [item]) == Events(q) + [item.event]
  {
    if q == [] {
      assert (q + [item])[1..] == [];
    } else {
      assert (q + [item])[1..] == q[1..] + [item];
      EventsAppend(q[1..], item);
    }
  }

  predicate RxClosed(rx: Receiver) {
    rx.Closing? || rx.Gone? || (rx.Dropping? && rx.closing) || (rx.Waking? && rx.closing)
  }

  /** Accepted events, in order: delivered, then discarded with the receiver, then still queued. */
  predicate Delivered(st: State) {
    && st.accepted == st.delivered + st.discarded + Events(st.queue)
    && (st.open <==> !RxClosed(st.rx))
    && (st.open ==> st.discarded == [])
    && (st.rx.Gone? ==> st.queue == [])
  }

  lemma DeliveredStep(st: State, step: Step)
    requires Delivered(st) && Enabled(st, step)
    ensures Delivered(Apply(st, step))
  {
    if step.Offer? {
      OfferDelivered(st, step.i);
    } else if step.Receive? || step.DiscardOne? {
      PopDelivered(st, step);
    } else {
      QuietDelivered(st, step);
    }
  }

  lemma OfferDelivered(st: State, i: nat)
    requires Delivered(st) && Enabled(st, Offer(i))
    ensures Delivered(Apply(st, Offer(i)))
  {
    hide Events;
    EventsAppend(st.queue, st.senders[i].item);
  }

  lemma PopDelivered(st: State, step: Step)
    requires Delivered(st) && Enabled(st, step) && (step.Receive? || step.DiscardOne?)
    ensures Delivered(Apply(st, step))
  {
    assert Events(st.queue) == [st.queue[0].event] + Events(st.queue[1..]);
  }

  lemma QuietDelivered(st: State, step: Step)
    requires Delivered(st) && Enabled(st, step) && !step.Offer? && !step.Receive? && !step.DiscardOne?
    ensures Delivered(Apply(st, step))
  {
    hide Events;
  }

  // Wake-ups.

  /** Some permit is between its `fetch_sub` and its `notify_waiters`. */
  predicate NotifyPending(st: State) {
    st.rx.Waking? || exists j :: 0 <= j < |st.senders| && st.senders[j].Notifying?
  }

  /** A registered sender that nothing has released past still knows a lower bound of what is queued. */
  predicate Informed(st: State, s: Sender) {
    match s
    case Registered(_, epoch) => epoch <= st.epoch
    case Loaded(item, epoch, cur) =>
      epoch <= st.epoch && (epoch == st.epoch && !NotifyPending(st) ==> cur <= st.queued)
    case Parked(item, epoch) =>
      epoch <= st.epoch && (epoch == st.epoch && !NotifyPending(st) ==> st.queued + item.bytes > st.limits.maxBytes)
    case _ => true
  }

  predicate AllInformed(st: State) {
    forall i :: 0 <= i < |st.senders| ==> Informed(st, st.senders[i])
  }

  /** A step of someone else: it raises the queued bytes, or leaves a notification due, or has just given it. */
  predicate KeepsInformed(st: State, st': State) {
    && st'.limits == st.limits
    && st.epoch <= st'.epoch
    && (st'.epoch == st.epoch && !NotifyPending(st') ==> !NotifyPending(st) && st.queued <= st'.queued)
  }

  lemma OthersStayInformed(st: State, st': State, s: Sender)
    requires Informed(st, s) && KeepsInformed(st, st')
    ensures Informed(st', s)
  {
    hide NotifyPending;
  }

  lemma PendingAfterMove(st: State, st': State, i: nat)
    requires i < |st.senders| == |st'.senders| && st'.senders == st.senders[i := st'.senders[i]]
    requires st.senders[i].Notifying? ==> st'.senders[i].Notifying?
    requires st.rx.Waking? ==> st'.rx.Waking?
    ensures NotifyPending(st) ==> NotifyPending(st')
  {
    if NotifyPending(st) && !st.rx.Waking? {
      var j :| 0 <= j < |st.senders| && st.senders[j].Notifying?;
      assert st'.senders[j].Notifying?;
    }
  }

  lemma SenderStepKeepsInformed(st: State, step: Step, i: nat)
    requires Conserved(st) && Enabled(st, step)
    requires IsSenderStep(step) && i == step.i
    ensures KeepsInformed(st, Apply(st, step))
  {
    var st' := Apply(st, step);
    if step.Notify? {
    } else {
      PendingAfterMove(st, st', i);
      if step.Subtract? {
        assert st'.senders[i].Notifying?;
      }
    }
  }

  lemma RxStepKeepsInformed(st: State, step: Step)
    requires Enabled(st, step) && IsRxStep(step)
    ensures KeepsInformed(st, Apply(st, step))
  {
  }

  lemma CloneKeepsInformed(st: State)
    ensures KeepsInformed(st, Apply(st, Clone))
  {
    var st' := Apply(st, Clone);
    if NotifyPending(st) && !st.rx.Waking? {
      var j :| 0 <= j < |st.senders| && st.senders[j].Notifying?;
      assert st'.senders[j].Notifying?;
    }
  }

  /** The sender that moves: what it parks on is what it has just learnt. */
  lemma MoverIsInformed(st: State, step: Step, i: nat)
    requires Conserved(st) && AllInformed(st) && Enabled(st, step)
    requires IsSenderStep(step) && i == step.i
    ensures Informed(Apply(st, step), Apply(st, step).senders[i])
  {
    hide NotifyPending, Outstanding;
    var st' := Apply(st, step);
    assert Informed(st, st.senders[i]) && Sized(st, st.senders[i]);
    if step.Decide? && st'.senders[i].Parked? {
      PendingAfterMove(st, st', i);
      PendingAfterMove(st', st, i);
    }
  }

  lemma InformedStep(st: State, step: Step)
    requires Conserved(st) && AllInformed(st) && Enabled(st, step)
    ensures AllInformed(Apply(st, step))
  {
    hide Informed, KeepsInformed, Conserved;
    var st' := Apply(st, step);
    if step.Clone? {
      CloneKeepsInformed(st);
    } else if IsRxStep(step) {
      RxStepKeepsInformed(st, step);
    } else {
      SenderStepKeepsInformed(st, step, step.i);
      MoverIsInformed(st, step, step.i);
    }
    forall j | 0 <= j < |st'.senders|
      ensures Informed(st', st'.senders[j])
    {
      if j < |st.senders| && st'.senders[j] == st.senders[j] {
        OthersStayInformed(st, st', st.senders[j]);
      } else if step.Clone? {
        IdleIsInformed(st');
      }
    }
  }

  lemma IdleIsInformed(st: State)
    ensures Informed(st, Idle(Unused))
  {
  }

  // Every schedule.

  lemma {:induction false} Reachable(l: Limits, steps: seq<Step>)
    requires ValidLimits(l) && Exec(l, steps).Some? && Exact(l, steps)
    ensures var st := Exec(l, steps).value;
            st.limits == l && Conserved(st) && Delivered(st) && AllInformed(st)
  {
    hide Conserved, Delivered, AllInformed, Enabled, Saturates;
    if steps == [] {
      InitIsGood(l);
    } else {
      var init, step := steps[..|steps| - 1], steps[|steps| - 1];
      Reachable(l, init);
      var st := Exec(l, init).value;
      ConservedExactly(st, step);
      DeliveredStep(st, step);
      InformedStep(st, step);
    }
  }

  lemma InitIsGood(l: Limits)
    requires ValidLimits(l)
    ensures Conserved(Init(l)) && Delivered(Init(l)) && AllInformed(Init(l))
  {
  }

  /** In every reachable state the counter is the permits, within both caps, and the events are accounted for. */
  lemma MailboxConserves(l: Limits, steps: seq<Step>)
    requires ValidLimits(l) && Exec(l, steps).Some? && Exact(l, steps)
    ensures var st := Exec(l, steps).value;
            && st.queued == Outstanding(st) && st.queued <= l.maxBytes && |st.queue| <= l.maxItems
            && st.accepted == st.delivered + st.discarded + Events(st.queue)
  {
    hide Exec, NeverSaturates;
    Reachable(l, steps);
  }

  lemma {:induction false} IdleHoldNothing(ss: seq<Sender>)
    requires forall i :: 0 <= i < |ss| ==> Held(ss[i]) == 0
    ensures SendersHold(ss) == 0
  {
    if ss != [] {
      IdleHoldNothing(ss[1..]);
    }
  }

  /** Dropping the receiver gives every byte back: once it is gone, only senders in the act hold any. */
  lemma ReceiverDropReturnsAllBytes(l: Limits, steps: seq<Step>)
    requires ValidLimits(l) && Exec(l, steps).Some? && Exact(l, steps)
    requires Exec(l, steps).value.rx.Gone?
    requires forall i :: 0 <= i < |Exec(l, steps).value.senders| ==> Held(Exec(l, steps).value.senders[i]) == 0
    ensures Exec(l, steps).value.queued == 0
  {
    hide Exec, NeverSaturates;
    Reachable(l, steps);
    IdleHoldNothing(Exec(l, steps).value.senders);
  }

  predicate Waiting(st: State, i: nat) {
    && i < |st.senders| && st.senders[i].Parked?
    && st.senders[i].epoch == st.epoch && !NotifyPending(st)
  }

  /**
   No lost wake-up: a parked sender with no notification since it registered, and none due, really lacks room,
   and somebody else holds a permit whose release will notify it.
   */
  lemma NoLostWakeup(l: Limits, steps: seq<Step>, i: nat)
    requires ValidLimits(l) && Exec(l, steps).Some? && Exact(l, steps) && Waiting(Exec(l, steps).value, i)
    ensures var st := Exec(l, steps).value;
            && st.queued + st.senders[i].item.bytes > l.maxBytes
            && (|| st.queue != [] || st.rx.Dropping?
                || exists j :: 0 <= j < |st.senders| && j != i && Held(st.senders[j]) > 0)
  {
    hide Exec, NotifyPending, NeverSaturates;
    Reachable(l, steps);
    var st := Exec(l, steps).value;
    assert Informed(st, st.senders[i]) && Sized(st, st.senders[i]);
    if st.queue == [] && !st.rx.Dropping? && forall j :: 0 <= j < |st.senders| && j != i ==> Held(st.senders[j]) == 0 {
      IdleHoldNothing(st.senders);
    }
  }

  /** A step that moves some permit towards its release. */
  predicate Progress(step: Step) {
    step.Offer? || step.Subtract? || step.Receive? || step.DiscardOne? || step.RxSubtract? || step.RxNotify?
  }

  /** No deadlock: while a sender waits for bytes, some step towards a release can be taken. */
  lemma WaitingMeansProgress(l: Limits, steps: seq<Step>, i: nat) returns (step: Step)
    requires ValidLimits(l) && Exec(l, steps).Some? && Exact(l, steps) && Waiting(Exec(l, steps).value, i)
    ensures Progress(step) && Enabled(Exec(l, steps).value, step)
  {
    hide Exec, NotifyPending, Informed, NeverSaturates;
    Reachable(l, steps);
    NoLostWakeup(l, steps, i);
    var st := Exec(l, steps).value;
    assert !st.rx.Waking? by { PendingIfWaking(st); }
    if st.rx.Dropping? {
      step := RxSubtract;
    } else if st.queue != [] {
      step := if st.rx.Listening? then Receive else DiscardOne;
    } else {
      var j :| 0 <= j < |st.senders| && j != i && Held(st.senders[j]) > 0;
      step := if st.senders[j].Releasing? then Subtract(j) else Offer(j);
    }
  }

  lemma PendingIfWaking(st: State)
    ensures st.rx.Waking? ==> NotifyPending(st)
  {
  }

  // At the largest cap.

  lemma ExecOn(l: Limits, steps: seq<Step>, step: Step)
    requires Exec(l, steps).Some? && Enabled(Exec(l, steps).value, step)
    ensures Exec(l, steps + [step]) == Some(Apply(Exec(l, steps).value, step))
  {
    hide Apply, Enabled;
    assert (steps + [step])[..|steps|] == steps;
  }

  /** A schedule in which two senders reserve through `try_send`, the second one byte too many. */
  const OVERFLOWING: seq<Step> :=
    [ Clone, Clone,
      BeginTrySend(0, Item(1, U64_MAX)), Load(0), Decide(0),
      BeginTrySend(1, Item(2, 1)), Load(1), Decide(1) ]

  /** The state after its first `n` steps. */
  function Overflowing(l: Limits, n: nat): State {
    var full, more := Item(1, U64_MAX), Item(2, 1);
    var senders: seq<Sender> :=
      match n
      case 0 => []
      case 1 => [Idle(Unused)]
      case 2 => [Idle(Unused), Idle(Unused)]
      case 3 => [TryLoop(full), Idle(Unused)]
      case 4 => [TryLoaded(full, 0), Idle(Unused)]
      case 5 => [TryReserved(full), Idle(Unused)]
      case 6 => [TryReserved(full), TryLoop(more)]
      case 7 => [TryReserved(full), TryLoaded(more, U64_MAX)]
      case _ => [TryReserved(full), TryReserved(more)];
    Init(l).(senders := senders, queued := if n < 5 then 0 else U64_MAX)
  }

  lemma OverflowStep(l: Limits, n: nat)
    requires l.maxBytes == U64_MAX && n < 8
    ensures Enabled(Overflowing(l, n), OVERFLOWING[n])
    ensures Apply(Overflowing(l, n), OVERFLOWING[n]) == Overflowing(l, n + 1)
  {
    var st, st' := Overflowing(l, n), Overflowing(l, n + 1);
    assert Enabled(st, OVERFLOWING[n]);
    assert Apply(st, OVERFLOWING[n]).senders == st'.senders;
  }

  lemma {:induction false} OverflowRuns(l: Limits, n: nat)
    requires l.maxBytes == U64_MAX && n <= 8
    ensures Exec(l, OVERFLOWING[..n]) == Some(Overflowing(l, n))
  {
    hide Overflowing, Apply, Enabled;
    if n == 0 {
      ExecNothing(l);
    } else {
      OverflowRuns(l, n - 1);
      OverflowStep(l, n - 1);
      ExecOn(l, OVERFLOWING[..n - 1], OVERFLOWING[n - 1]);
      assert OVERFLOWING[..n] == OVERFLOWING[..n - 1] + [OVERFLOWING[n - 1]];
    }
  }

  /** A cap of the largest 64-bit value saturates: two permits are out for more bytes than the counter shows. */
  lemma LargestCapCanSaturate(l: Limits)
    requires ValidLimits(l) && l.maxBytes == U64_MAX
    ensures Exec(l, OVERFLOWING).Some?
    ensures var st := Exec(l, OVERFLOWING).value; st.queued == U64_MAX && Outstanding(st) == U64_MAX + 1
  {
    hide Exec;
    OverflowRuns(l, 8);
    assert OVERFLOWING[..8] == OVERFLOWING;
    var ss := Overflowing(l, 8).senders;
    assert ss[1..] == [TryReserved(Item(2, 1))] && ss[1..][1..] == [];
    assert SendersHold(ss[1..][1..]) == 0 && SendersHold(ss[1..]) == 1;
  }

  lemma ExecNothing(l: Limits)
    ensures Exec(l, OVERFLOWING[..0]) == Some(Overflowing(l, 0))
  {
  }
}
