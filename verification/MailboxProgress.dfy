/** What a send comes to: the steps of one call, taken to its end. */
module MailboxProgress {
  import opened Common
  import opened Mailbox

  /** The state after some steps from `st`, if each was enabled when its turn came. */
  function RunFrom(st: State, steps: seq<Step>): Option<State>
    decreases |steps|
  {
    if steps == [] then Some(st)
    else if Enabled(st, steps[0]) then RunFrom(Apply(st, steps[0]), steps[1..])
    else None
  }

  lemma Chain(st: State, step: Step, rest: seq<Step>)
    requires Enabled(st, step)
    ensures RunFrom(st, [step] + rest) == RunFrom(Apply(st, step), rest)
  {
    hide Apply, Enabled;
    assert ([step] + rest)[1..] == rest;
  }

  lemma RunNothing(st: State)
    ensures RunFrom(st, []) == Some(st)
  {
  }

  lemma {:induction false} RunConcat(st: State, a: seq<Step>, b: seq<Step>)
    requires RunFrom(st, a).Some?
    ensures RunFrom(st, a + b) == RunFrom(RunFrom(st, a).value, b)
    decreases |a|
  {
    hide Apply, Enabled;
    if a == [] {
      assert a + b == b;
    } else {
      assert (a + b)[1..] == a[1..] + b;
      RunConcat(Apply(st, a[0]), a[1..], b);
    }
  }

  /** `item` went into the queue behind the others, its bytes are reserved, and handle `i` was told so. */
  predicate WentThrough(st: State, st': State, i: nat, item: Item) {
    && i < |st.senders|
    && st' == st.(queued := st.queued + item.bytes, queue := st.queue + [item],
                  accepted := st.accepted + [item.event], senders := st.senders[i := Idle(Mailbox.Accepted)])
  }

  /** Nothing went in, and handle `i` was told why. */
  predicate WasRefused(st: State, st': State, i: nat, why: Answer) {
    i < |st.senders| && st' == st.(epoch := st'.epoch, senders := st.senders[i := Idle(why)]) && st.epoch <= st'.epoch
  }

  predicate RoomFor(st: State, item: Item) {
    st.open && st.queued + item.bytes <= st.limits.maxBytes <= U64_MAX && |st.queue| < st.limits.maxItems
  }

  function SendSteps(i: nat, item: Item): seq<Step> {
    [BeginSend(i, item)] + ([Register(i)] + ([Load(i)] + ([Decide(i)] + ([Offer(i)] + []))))
  }

  /** With room for its bytes and for one more item, a send reserves, enqueues and returns. */
  lemma SendGoesThrough(st: State, i: nat, item: Item)
    requires i < |st.senders| && st.senders[i].Idle? && RoomFor(st, item)
    ensures RunFrom(st, SendSteps(i, item)).Some?
    ensures WentThrough(st, RunFrom(st, SendSteps(i, item)).value, i, item)
  {
    hide RunFrom;
    var s1 := Apply(st, BeginSend(i, item));
    var s2, s3, s4 := SendReserves(s1, i, item);
    var s5 := Apply(s4, Offer(i));
    RunNothing(s5);
    Chain(s4, Offer(i), []);
    Chain(s3, Decide(i), [Offer(i)] + []);
    Chain(s2, Load(i), [Decide(i)] + ([Offer(i)] + []));
    Chain(s1, Register(i), [Load(i)] + ([Decide(i)] + ([Offer(i)] + [])));
    Chain(st, BeginSend(i, item), [Register(i)] + ([Load(i)] + ([Decide(i)] + ([Offer(i)] + []))));
    assert s5.senders == st.senders[i := Idle(Mailbox.Accepted)];
  }

  /** From the top of its loop, with room for its bytes, a send reserves in three steps. */
  lemma SendReserves(st: State, i: nat, item: Item) returns (s2: State, s3: State, s4: State)
    requires i < |st.senders| && st.senders[i] == SendLoop(item)
    requires st.queued + item.bytes <= st.limits.maxBytes <= U64_MAX
    ensures Enabled(st, Register(i)) && s2 == Apply(st, Register(i))
    ensures Enabled(s2, Load(i)) && s3 == Apply(s2, Load(i))
    ensures Enabled(s3, Decide(i)) && s4 == Apply(s3, Decide(i))
    ensures s4 == st.(queued := st.queued + item.bytes, senders := st.senders[i := Reserved(item)])
  {
    s2 := Apply(st, Register(i));
    s3 := Apply(s2, Load(i));
    s4 := Apply(s3, Decide(i));
    assert s4.senders == st.senders[i := Reserved(item)];
  }

  /** A send that is too large is refused at once, and one to a receiver that is gone as soon as it holds its permit. */
  lemma SendIsRefused(st: State, i: nat, item: Item) returns (steps: seq<Step>)
    requires i < |st.senders| && st.senders[i].Idle? && st.limits.maxBytes <= U64_MAX
    requires item.bytes > st.limits.maxBytes || (!st.open && st.queued + item.bytes <= st.limits.maxBytes)
    ensures RunFrom(st, steps).Some? && steps != [] && steps[0] == BeginSend(i, item)
    ensures WasRefused(st, RunFrom(st, steps).value, i,
                       if item.bytes > st.limits.maxBytes then TooLarge else ReceiverGone)
  {
    hide RunFrom;
    var s1 := Apply(st, BeginSend(i, item));
    if item.bytes > st.limits.maxBytes {
      steps := [BeginSend(i, item)] + [];
      RunNothing(s1);
      Chain(st, BeginSend(i, item), []);
    } else {
      var s2, s3, s4 := SendReserves(s1, i, item);
      var s5 := Apply(s4, Offer(i));
      var s6 := Apply(s5, Subtract(i));
      var s7 := Apply(s6, Notify(i));
      var tail := [Offer(i)] + ([Subtract(i)] + ([Notify(i)] + []));
      RunNothing(s7);
      Chain(s6, Notify(i), []);
      Chain(s5, Subtract(i), [Notify(i)] + []);
      Chain(s4, Offer(i), [Subtract(i)] + ([Notify(i)] + []));
      Chain(s3, Decide(i), tail);
      Chain(s2, Load(i), [Decide(i)] + tail);
      Chain(s1, Register(i), [Load(i)] + ([Decide(i)] + tail));
      Chain(st, BeginSend(i, item), [Register(i)] + ([Load(i)] + ([Decide(i)] + tail)));
      steps := [BeginSend(i, item)] + ([Register(i)] + ([Load(i)] + ([Decide(i)] + tail)));
      assert s7.senders == st.senders[i := Idle(ReceiverGone)];
    }
  }

  /**
   An attempt on its own goes through with room; otherwise nothing goes in, and the answer is the first of too large,
   no room for the bytes, receiver gone and no room for the item that applies.
   */
  lemma TrySendExactly(st: State, i: nat, item: Item) returns (steps: seq<Step>)
    requires i < |st.senders| && st.senders[i].Idle? && st.limits.maxBytes <= U64_MAX
    requires st.queued + item.bytes <= U64_MAX
    ensures RunFrom(st, steps).Some? && steps != [] && steps[0] == BeginTrySend(i, item)
    ensures var st' := RunFrom(st, steps).value;
            if item.bytes > st.limits.maxBytes then WasRefused(st, st', i, TooLarge)
            else if st.queued + item.bytes > st.limits.maxBytes then WasRefused(st, st', i, OverBytes)
            else if !st.open then WasRefused(st, st', i, ReceiverGone)
            else if |st.queue| >= st.limits.maxItems then WasRefused(st, st', i, OverItems)
            else WentThrough(st, st', i, item)
  {
    if item.bytes > st.limits.maxBytes {
      steps := [BeginTrySend(i, item)] + [];
      RunNothing(Apply(st, BeginTrySend(i, item)));
      Chain(st, BeginTrySend(i, item), []);
    } else if st.queued + item.bytes > st.limits.maxBytes {
      steps := TryOverBytes(st, i, item);
    } else {
      steps := TryReserves(st, i, item);
    }
  }

  lemma TryOverBytes(st: State, i: nat, item: Item) returns (steps: seq<Step>)
    requires i < |st.senders| && st.senders[i].Idle? && item.bytes <= st.limits.maxBytes <= U64_MAX
    requires st.limits.maxBytes < st.queued + item.bytes <= U64_MAX
    ensures RunFrom(st, steps).Some? && steps != [] && steps[0] == BeginTrySend(i, item)
    ensures WasRefused(st, RunFrom(st, steps).value, i, OverBytes)
  {
    hide RunFrom;
    var s1 := Apply(st, BeginTrySend(i, item));
    var s2 := Apply(s1, Load(i));
    var s3 := Apply(s2, Decide(i));
    steps := [BeginTrySend(i, item)] + ([Load(i)] + ([Decide(i)] + []));
    RunNothing(s3);
    Chain(s2, Decide(i), []);
    Chain(s1, Load(i), [Decide(i)] + []);
    Chain(st, BeginTrySend(i, item), [Load(i)] + ([Decide(i)] + []));
    assert s3.senders == st.senders[i := Idle(OverBytes)];
  }

  lemma TryReserves(st: State, i: nat, item: Item) returns (steps: seq<Step>)
    requires i < |st.senders| && st.senders[i].Idle?
    requires st.queued + item.bytes <= st.limits.maxBytes <= U64_MAX
    ensures RunFrom(st, steps).Some? && steps != [] && steps[0] == BeginTrySend(i, item)
    ensures var st' := RunFrom(st, steps).value;
            if !st.open then WasRefused(st, st', i, ReceiverGone)
            else if |st.queue| >= st.limits.maxItems then WasRefused(st, st', i, OverItems)
            else WentThrough(st, st', i, item)
  {
    hide RunFrom;
    var s1 := Apply(st, BeginTrySend(i, item));
    var s2 := Apply(s1, Load(i));
    var s3 := Apply(s2, Decide(i));
    assert s3 == st.(queued := st.queued + item.bytes, senders := st.senders[i := TryReserved(item)]);
    var s4, tail := TryOffers(st, s3, i, item);
    steps := [BeginTrySend(i, item)] + ([Load(i)] + ([Decide(i)] + tail));
    Chain(s2, Decide(i), tail);
    Chain(s1, Load(i), [Decide(i)] + tail);
    Chain(st, BeginTrySend(i, item), [Load(i)] + ([Decide(i)] + tail));
  }

  lemma TryOffers(st: State, s3: State, i: nat, item: Item) returns (st': State, tail: seq<Step>)
    requires i < |st.senders|
    requires s3 == st.(queued := st.queued + item.bytes, senders := st.senders[i := TryReserved(item)])
    ensures RunFrom(s3, tail) == Some(st')
    ensures if !st.open then WasRefused(st, st', i, ReceiverGone)
            else if |st.queue| >= st.limits.maxItems then WasRefused(st, st', i, OverItems)
            else WentThrough(st, st', i, item)
  {
    hide RunFrom;
    var s4 := Apply(s3, Offer(i));
    if RoomToOffer(st) {
      st', tail := s4, [Offer(i)] + [];
      RunNothing(s4);
      Chain(s3, Offer(i), []);
      assert s4.senders == st.senders[i := Idle(Mailbox.Accepted)];
    } else {
      var s5 := Apply(s4, Subtract(i));
      st' := Apply(s5, Notify(i));
      tail := [Offer(i)] + ([Subtract(i)] + ([Notify(i)] + []));
      RunNothing(st');
      Chain(s5, Notify(i), []);
      Chain(s4, Subtract(i), [Notify(i)] + []);
      Chain(s3, Offer(i), [Subtract(i)] + ([Notify(i)] + []));
      assert st'.senders == st.senders[i := Idle(if st.open then OverItems else ReceiverGone)];
    }
  }

  predicate RoomToOffer(st: State) { st.open && |st.queue| < st.limits.maxItems }

  // Waiting and waking.

  /** Without room for its bytes a send parks, and waits if no release is about to notify. */
  lemma FullMailboxParks(st: State, i: nat, item: Item)
    requires i < |st.senders| && st.senders[i].Idle? && item.bytes <= st.limits.maxBytes <= U64_MAX
    requires st.limits.maxBytes < st.queued + item.bytes <= U64_MAX && !NotifyPending(st)
    ensures var steps := [BeginSend(i, item)] + ([Register(i)] + ([Load(i)] + ([Decide(i)] + [])));
            && RunFrom(st, steps) == Some(st.(senders := st.senders[i := Parked(item, st.epoch)]))
            && Waiting(RunFrom(st, steps).value, i)
  {
    hide RunFrom;
    var s1 := Apply(st, BeginSend(i, item));
    var s2 := Apply(s1, Register(i));
    var s3 := Apply(s2, Load(i));
    var s4 := Apply(s3, Decide(i));
    RunNothing(s4);
    Chain(s3, Decide(i), []);
    Chain(s2, Load(i), [Decide(i)] + []);
    Chain(s1, Register(i), [Load(i)] + ([Decide(i)] + []));
    Chain(st, BeginSend(i, item), [Register(i)] + ([Load(i)] + ([Decide(i)] + [])));
    assert s4.senders == st.senders[i := Parked(item, st.epoch)];
    StillQuiet(st, i, Parked(item, st.epoch));
  }

  lemma StillQuiet(st: State, i: nat, s: Sender)
    requires i < |st.senders| && !NotifyPending(st) && !s.Notifying?
    ensures !NotifyPending(st.(senders := st.senders[i := s]))
  {
  }

  /**
   A waiting sender, and a receive that makes room: it is woken, reserves, and its event is accepted, behind what was
   queued and in front of anything later.
   */
  lemma ReceiveWakesSender(st: State, i: nat) returns (steps: seq<Step>, st': State)
    requires Conserved(st) && Waiting(st, i) && st.open && st.rx.Listening? && st.queue != []
    requires st.queued - st.queue[0].bytes + st.senders[i].item.bytes <= st.limits.maxBytes
    ensures RunFrom(st, steps) == Some(st')
    ensures var item := st.senders[i].item;
            && st'.delivered == st.delivered + [st.queue[0].event] && st'.accepted == st.accepted + [item.event]
            && st'.queue == st.queue[1..] + [item]
            && |st'.senders| == |st.senders| && st'.senders[i] == Idle(Mailbox.Accepted)
            && st'.queued == st.queued - st.queue[0].bytes + item.bytes
  {
    hide RunFrom, Conserved, NotifyPending;
    var item, freed := st.senders[i].item, st.queue[0].bytes;
    QueuedCoversFirst(st);
    var woken := ReceiveNotifies(st);
    var s5 := Apply(woken, Wake(i));
    var s6, s7, s8 := SendReserves(s5, i, item);
    st' := Apply(s8, Offer(i));
    var tail := [Wake(i)] + ([Register(i)] + ([Load(i)] + ([Decide(i)] + ([Offer(i)] + []))));
    RunNothing(st');
    Chain(s8, Offer(i), []);
    Chain(s7, Decide(i), [Offer(i)] + []);
    Chain(s6, Load(i), [Decide(i)] + ([Offer(i)] + []));
    Chain(s5, Register(i), [Load(i)] + ([Decide(i)] + ([Offer(i)] + [])));
    Chain(woken, Wake(i), [Register(i)] + ([Load(i)] + ([Decide(i)] + ([Offer(i)] + []))));
    steps := RECEIVING + tail;
    RunConcat(st, RECEIVING, tail);
  }

  const RECEIVING: seq<Step> := [Receive] + ([RxSubtract] + ([RxNotify] + []))

  lemma ReceiveNotifies(st: State) returns (st': State)
    requires st.rx.Listening? && st.queue != [] && st.queue[0].bytes <= st.queued
    ensures RunFrom(st, RECEIVING) == Some(st')
    ensures st' == st.(queue := st.queue[1..], delivered := st.delivered + [st.queue[0].event],
                       queued := st.queued - st.queue[0].bytes, epoch := st.epoch + 1)
  {
    hide RunFrom;
    var s1 := Apply(st, Receive);
    var s2 := Apply(s1, RxSubtract);
    st' := Apply(s2, RxNotify);
    RunNothing(st');
    Chain(s2, RxNotify, []);
    Chain(s1, RxSubtract, [RxNotify] + []);
    Chain(st, Receive, [RxSubtract] + ([RxNotify] + []));
  }

  lemma QueuedCoversFirst(st: State)
    requires Conserved(st) && st.queue != []
    ensures st.queue[0].bytes <= st.queued && |st.queue| <= st.limits.maxItems && st.limits.maxBytes <= U64_MAX
  {
    hide SendersHold;
  }

  // From the start.

  lemma {:induction false} ExecIsRun(l: Limits, steps: seq<Step>)
    ensures Exec(l, steps) == RunFrom(Init(l), steps)
    decreases |steps|
  {
    hide Apply, Enabled, Init;
    if steps != [] {
      var n := |steps| - 1;
      var init, step := steps[..n], steps[n];
      assert steps == init + [step];
      ExecIsRun(l, init);
      RunLast(Init(l), init, step);
    }
  }

  lemma {:induction false} RunLast(st: State, steps: seq<Step>, step: Step)
    ensures RunFrom(st, steps + [step]) ==
            match RunFrom(st, steps)
            case None => None
            case Some(s) => if Enabled(s, step) then Some(Apply(s, step)) else None
    decreases |steps|
  {
    hide Apply, Enabled;
    if steps == [] {
      assert ([] + [step])[1..] == [];
    } else {
      assert (steps + [step])[1..] == steps[1..] + [step];
      if Enabled(st, steps[0]) {
        RunLast(Apply(st, steps[0]), steps[1..], step);
      }
    }
  }

  /** Under any limits a sender can come to wait: one event takes all the bytes, and the next has to. */
  lemma WaitingIsReachable(l: Limits) returns (steps: seq<Step>)
    requires ValidLimits(l) && l.maxBytes < U64_MAX
    ensures Exec(l, steps).Some? && Waiting(Exec(l, steps).value, 1)
  {
    hide RunFrom, Exec;
    var full, more := Item(1, l.maxBytes), Item(2, 1);
    var s2 := Apply(Apply(Init(l), Clone), Clone);
    var clones := [Clone] + ([Clone] + []);
    RunNothing(s2);
    Chain(Apply(Init(l), Clone), Clone, []);
    Chain(Init(l), Clone, [Clone] + []);
    SendGoesThrough(s2, 0, full);
    var s3 := RunFrom(s2, SendSteps(0, full)).value;
    assert s3.senders == [Idle(Mailbox.Accepted), Idle(Unused)];
    FullMailboxParks(s3, 1, more);
    var parking := [BeginSend(1, more)] + ([Register(1)] + ([Load(1)] + ([Decide(1)] + [])));
    RunConcat(s2, SendSteps(0, full), parking);
    RunConcat(Init(l), clones, SendSteps(0, full) + parking);
    steps := clones + (SendSteps(0, full) + parking);
    ExecIsRun(l, steps);
  }
}
