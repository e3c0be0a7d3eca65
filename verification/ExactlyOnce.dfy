/**
 The tool events of any number of interpretations, interleaved, fed to one Loop: every action that ever becomes ready
 is dispatched exactly once, on its first ready generation.
 */
module ExactlyOnce {
  import opened Common
  import opened LoopKeys
  import opened ToolActions
  import opened LoopOwner
  import opened LoopProperties
  import opened LoopCalls
  import opened ToolSignals

  /** A tool event and the interpretation it comes from. */
  datatype Tagged = Tagged(id: string, event: ToolEvent)

  function KeyOf(t: Tagged): string { ActionKey(t.id, t.event.action) }

  // What a mixed trace says about an action.

  predicate Concerns(t: Tagged, id: string, a: string) { t.id == id && t.event.action == a }

  predicate Mentioned(evs: seq<Tagged>, id: string, a: string) {
    exists j :: 0 <= j < |evs| && Concerns(evs[j], id, a)
  }

  predicate ReadyAt(t: Tagged, id: string, a: string) { Concerns(t, id, a) && t.event.request == Ready }

  predicate EverReady(evs: seq<Tagged>, id: string, a: string) {
    exists j :: 0 <= j < |evs| && ReadyAt(evs[j], id, a)
  }

  function LastGeneration(evs: seq<Tagged>, id: string, a: string): nat {
    if evs == [] then 0
    else if Concerns(evs[|evs| - 1], id, a) then evs[|evs| - 1].event.generation
    else LastGeneration(evs[..|evs| - 1], id, a)
  }

  /** `g` is the generation of the first ready event of the action. */
  predicate IsFirstReady(evs: seq<Tagged>, id: string, a: string, g: nat) {
    exists j :: 0 <= j < |evs| && ReadyAt(evs[j], id, a) && evs[j].event.generation == g && !EverReady(evs[..j], id, a)
  }

  /** `e` is the first ready event of the action. */
  predicate FirstReady(evs: seq<Tagged>, id: string, a: string, e: ToolEvent) {
    exists j :: 0 <= j < |evs| && ReadyAt(evs[j], id, a) && evs[j].event == e && !EverReady(evs[..j], id, a)
  }

  function Actions(evs: seq<Tagged>): set<(string, string)> { set t | t in evs :: (t.id, t.event.action) }

  /** The events of one interpretation, in order. */
  function Of(evs: seq<Tagged>, id: string): seq<ToolEvent> {
    if evs == [] then []
    else
      var last := evs[|evs| - 1];
      Of(evs[..|evs| - 1], id) + if last.id == id then [last.event] else []
  }

  /** Generations of one action only grow, and a ready event carries a name and a payload. */
  predicate GoodMix(evs: seq<Tagged>) {
    && (forall j :: 0 <= j < |evs| ==> GoodEvent(evs[j].event))
    && (forall i, j :: 0 <= i < j < |evs| && Concerns(evs[i], evs[j].id, evs[j].event.action) ==>
                         evs[i].event.generation < evs[j].event.generation)
  }

  lemma {:induction false} InItsTrace(evs: seq<Tagged>, j: nat)
    requires j < |evs|
    ensures evs[j].event in Of(evs, evs[j].id)
  {
    if j < |evs| - 1 {
      assert evs[..|evs| - 1][j] == evs[j];
      InItsTrace(evs[..|evs| - 1], j);
    }
  }

  lemma GoodPrefix(s: seq<ToolEvent>, t: seq<ToolEvent>)
    requires GoodTrace(s + t)
    ensures GoodTrace(s)
  {
    assert forall j :: 0 <= j < |s| ==> (s + t)[j] == s[j];
  }

  lemma NewerThanAll(s: seq<ToolEvent>, e: ToolEvent, x: ToolEvent)
    requires GoodTrace(s + [e]) && x in s && x.action == e.action
    ensures x.generation < e.generation
  {
    var i :| 0 <= i < |s| && s[i] == x;
    assert (s + [e])[i] == x && (s + [e])[|s|] == e;
  }

  /** A mix of good traces is good. */
  lemma {:induction false} MixIsGood(evs: seq<Tagged>)
    requires forall id :: GoodTrace(Of(evs, id))
    ensures GoodMix(evs)
    decreases |evs|
  {
    hide GoodTrace, Of;
    if evs != [] {
      var n := |evs| - 1;
      var init, last := evs[..n], evs[n];
      assert evs == init + [last];
      forall id ensures GoodTrace(Of(init, id)) {
        OfGrows(init, last, id);
        GoodPrefix(Of(init, id), if last.id == id then [last.event] else []);
      }
      MixIsGood(init);
      OfGrows(init, last, last.id);
      LastIsGood(Of(init, last.id), last.event);
      forall i | 0 <= i < n && Concerns(evs[i], last.id, last.event.action)
        ensures evs[i].event.generation < last.event.generation
      {
        InItsTrace(init, i);
        NewerThanAll(Of(init, last.id), last.event, evs[i].event);
      }
    }
  }

  lemma LastIsGood(s: seq<ToolEvent>, e: ToolEvent)
    requires GoodTrace(s + [e])
    ensures GoodEvent(e)
  {
    assert (s + [e])[|s|] == e;
  }

  lemma OfGrows(evs: seq<Tagged>, t: Tagged, id: string)
    ensures Of(evs + [t], id) == Of(evs, id) + if t.id == id then [t.event] else []
  {
    assert (evs + [t])[..|evs|] == evs;
  }

  lemma {:induction false} LastIsSome(evs: seq<Tagged>, id: string, a: string)
    requires Mentioned(evs, id, a)
    ensures exists j ::
              0 <= j < |evs| && Concerns(evs[j], id, a) && evs[j].event.generation == LastGeneration(evs, id, a)
    decreases |evs|
  {
    var n := |evs| - 1;
    if !Concerns(evs[n], id, a) {
      var i :| 0 <= i < |evs| && Concerns(evs[i], id, a);
      var init := evs[..n];
      assert Concerns(init[i], id, a);
      LastIsSome(init, id, a);
      var j :| 0 <= j < n && Concerns(init[j], id, a) && init[j].event.generation == LastGeneration(init, id, a);
      assert Concerns(evs[j], id, a);
    }
  }

  lemma NewerThanLast(evs: seq<Tagged>, t: Tagged)
    requires GoodMix(evs + [t])
    ensures Mentioned(evs, t.id, t.event.action) ==> LastGeneration(evs, t.id, t.event.action) < t.event.generation
  {
    hide LastGeneration;
    var id, a := t.id, t.event.action;
    if Mentioned(evs, id, a) {
      LastIsSome(evs, id, a);
      var j :| 0 <= j < |evs| && Concerns(evs[j], id, a) && evs[j].event.generation == LastGeneration(evs, id, a);
      var all := evs + [t];
      assert all[j] == evs[j] && all[|evs|] == t;
    }
  }

  lemma TraceGrows(evs: seq<Tagged>, t: Tagged, id: string, a: string)
    ensures Mentioned(evs + [t], id, a) <==> Mentioned(evs, id, a) || Concerns(t, id, a)
    ensures EverReady(evs + [t], id, a) <==> EverReady(evs, id, a) || ReadyAt(t, id, a)
    ensures LastGeneration(evs + [t], id, a) ==
            if Concerns(t, id, a) then t.event.generation else LastGeneration(evs, id, a)
    ensures Actions(evs + [t]) == Actions(evs) + {(t.id, t.event.action)}
  {
    var all := evs + [t];
    assert all[..|evs|] == evs && all[|evs|] == t;
    assert forall j :: 0 <= j < |evs| ==> all[j] == evs[j];
    assert forall x :: x in all <==> x in evs || x == t;
  }

  lemma FirstReadyStays(evs: seq<Tagged>, t: Tagged, id: string, a: string, g: nat)
    requires IsFirstReady(evs, id, a, g)
    ensures IsFirstReady(evs + [t], id, a, g)
  {
    var j :| 0 <= j < |evs| && ReadyAt(evs[j], id, a) && evs[j].event.generation == g && !EverReady(evs[..j], id, a);
    assert (evs + [t])[j] == evs[j] && (evs + [t])[..j] == evs[..j];
  }

  lemma FirstReadyEventStays(evs: seq<Tagged>, t: Tagged, id: string, a: string, e: ToolEvent)
    requires FirstReady(evs, id, a, e)
    ensures FirstReady(evs + [t], id, a, e)
  {
    var j :| 0 <= j < |evs| && ReadyAt(evs[j], id, a) && evs[j].event == e && !EverReady(evs[..j], id, a);
    assert (evs + [t])[j] == evs[j] && (evs + [t])[..j] == evs[..j];
  }

  lemma FirstReadyNow(evs: seq<Tagged>, t: Tagged)
    requires t.event.request == Ready && !EverReady(evs, t.id, t.event.action)
    ensures IsFirstReady(evs + [t], t.id, t.event.action, t.event.generation)
    ensures FirstReady(evs + [t], t.id, t.event.action, t.event)
  {
    assert (evs + [t])[|evs|] == t && (evs + [t])[..|evs|] == evs;
  }

  lemma MentionedIfReady(evs: seq<Tagged>, id: string, a: string)
    ensures EverReady(evs, id, a) ==> Mentioned(evs, id, a)
  {
  }

  // Interpretations whose keys never meet.

  /** No id of the set, with a colon after it, opens another: then no two actions share a key. */
  predicate Apart(ids: set<string>) { forall i, j :: i in ids && j in ids && i != j ==> !(i + ":" <= j) }

  lemma ApartKeys(ids: set<string>, i: string, a: string, j: string, b: string)
    requires Apart(ids) && i in ids && j in ids && ActionKey(i, a) == ActionKey(j, b)
    ensures i == j && a == b
  {
    hide ActionKey;
    IdsCollideExactly(i, j);
    ActionKeyIsInjective(i, a, b);
  }

  predicate FromIds(ids: set<string>, evs: seq<Tagged>) { forall j :: 0 <= j < |evs| ==> evs[j].id in ids }

  // The Loop's tables after a mixed trace.

  ghost predicate ActionFollows(st: LoopState, evs: seq<Tagged>, id: string, a: string) {
    var key := ActionKey(id, a);
    && (key in st.actions <==> Mentioned(evs, id, a))
    && (key in st.actions ==>
          && st.actions[key].lastGeneration == LastGeneration(evs, id, a)
          && (st.actions[key].dispatched <==> EverReady(evs, id, a)))
    && DispatchesOf(st.out, key) == (if EverReady(evs, id, a) then 1 else 0)
  }

  predicate DedupFollows(st: LoopState, evs: seq<Tagged>) {
    && |st.dedup| == |evs|
    && forall dk :: dk in st.dedup ==> Recorded(evs, dk)
  }

  predicate Recorded(evs: seq<Tagged>, dk: string) {
    exists j :: 0 <= j < |evs| && dk == DedupKey(KeyOf(evs[j]), evs[j].event.generation)
  }

  /** A dispatch in the output is for its action's first ready generation. */
  ghost predicate TimelyDispatch(ids: set<string>, evs: seq<Tagged>, o: Output) {
    o.DispatchRequested? ==>
      exists id :: id in ids && o.key == ActionKey(id, o.action) && IsFirstReady(evs, id, o.action, o.generation)
  }

  /** A call carries name and payload of its action's first ready event. */
  ghost predicate TimelyCall(ids: set<string>, evs: seq<Tagged>, c: Call) {
    exists id, e ::
      && id in ids && c.key == ActionKey(id, c.action) && FirstReady(evs, id, c.action, e)
      && e.generation == c.generation && e.name == Some(c.name) && e.requestPayload == Some(c.payload)
  }

  ghost predicate LoopFollows(ids: set<string>, st: LoopState, evs: seq<Tagged>) {
    && (forall id, a :: id in ids ==> ActionFollows(st, evs, id, a))
    && DedupFollows(st, evs)
    && |st.actions| == |Actions(evs)|
    && (forall j :: 0 <= j < |st.out| ==> TimelyDispatch(ids, evs, st.out[j]))
    && (forall j :: 0 <= j < |st.resolved| ==> TimelyCall(ids, evs, st.resolved[j]))
  }

  /** The branches an event of a good trace can take. */
  predicate Expected(b: Branch) { b.Tracked? || b.Dispatches? || b.AlreadyDispatched? || b.IncompleteSeen? }

  lemma NeverSeenBefore(ids: set<string>, st: LoopState, evs: seq<Tagged>, t: Tagged)
    requires Apart(ids) && FromIds(ids, evs + [t]) && DedupFollows(st, evs) && GoodMix(evs + [t])
    ensures DedupKey(KeyOf(t), t.event.generation) !in st.dedup
  {
    hide DedupKey, KeyOf, GoodMix, Apart, FromIds;
    var dk := DedupKey(KeyOf(t), t.event.generation);
    if dk in st.dedup {
      assert Recorded(evs, dk);
      var j :| 0 <= j < |evs| && dk == DedupKey(KeyOf(evs[j]), evs[j].event.generation);
      NotTheSame(ids, evs, t, j);
    }
  }

  lemma NotTheSame(ids: set<string>, evs: seq<Tagged>, t: Tagged, j: nat)
    requires Apart(ids) && FromIds(ids, evs + [t]) && GoodMix(evs + [t]) && j < |evs|
    ensures DedupKey(KeyOf(t), t.event.generation) != DedupKey(KeyOf(evs[j]), evs[j].event.generation)
  {
    hide DedupKey, ActionKey, Apart;
    var k1, k2 := KeyOf(t), KeyOf(evs[j]);
    assert (evs + [t])[j] == evs[j] && (evs + [t])[|evs|] == t;
    if k1 == k2 {
      ApartKeys(ids, t.id, t.event.action, evs[j].id, evs[j].event.action);
    }
    if DedupKey(k1, t.event.generation) == DedupKey(k2, evs[j].event.generation) {
      DedupKeyIsInjective(k1, t.event.generation, k2, evs[j].event.generation);
    }
  }

  /** The limits leave room for the event. */
  predicate Room(l: LoopLimits, evs: seq<Tagged>, t: Tagged) {
    |evs| < l.maxDedupEntries && |Actions(evs + [t])| <= l.maxToolActions
  }

  /** The next event of a good mix, from one of the interpretations. */
  ghost predicate Next(ids: set<string>, l: LoopLimits, st: LoopState, evs: seq<Tagged>, t: Tagged) {
    && Apart(ids) && FromIds(ids, evs + [t]) && LoopFollows(ids, st, evs) && GoodMix(evs + [t]) && Room(l, evs, t)
  }

  lemma NextFacts(ids: set<string>, l: LoopLimits, st: LoopState, evs: seq<Tagged>, t: Tagged)
    requires Next(ids, l, st, evs, t)
    ensures t.id in ids && GoodEvent(t.event) && ActionFollows(st, evs, t.id, t.event.action)
    ensures DedupKey(KeyOf(t), t.event.generation) !in st.dedup
    ensures |st.dedup| < l.maxDedupEntries
    ensures Mentioned(evs, t.id, t.event.action) || |st.actions| < l.maxToolActions
  {
    hide DedupKey, ActionKey, ActionFollows, Apart, TimelyDispatch, TimelyCall, Mentioned;
    assert (evs + [t])[|evs|] == t;
    NeverSeenBefore(ids, st, evs, t);
    RoomForAction(st, evs, t);
  }

  /** Within limits, an event of a good mix is tracked, dispatched, already dispatched or incomplete: nothing else. */
  lemma BranchIsExpected(ids: set<string>, l: LoopLimits, st: LoopState, evs: seq<Tagged>, t: Tagged)
    requires Next(ids, l, st, evs, t)
    ensures Expected(BranchOf(l, st, KeyOf(t), t.event))
    ensures DispatchesNow(l, st, KeyOf(t), t.event) <==>
            t.event.request == Ready && !EverReady(evs, t.id, t.event.action)
  {
    hide DedupKey, ActionKey, Mentioned, EverReady, LastGeneration, DispatchesOf, Next;
    NextFacts(ids, l, st, evs, t);
    NewerInMix(ids, l, st, evs, t);
    MentionedIfReady(evs, t.id, t.event.action);
  }

  lemma NewerInMix(ids: set<string>, l: LoopLimits, st: LoopState, evs: seq<Tagged>, t: Tagged)
    requires Next(ids, l, st, evs, t)
    ensures Mentioned(evs, t.id, t.event.action) ==> LastGeneration(evs, t.id, t.event.action) < t.event.generation
  {
    hide Mentioned, LastGeneration, LoopFollows, Apart, GoodMix;
    NewerThanLast(evs, t);
  }

  lemma RoomForAction(st: LoopState, evs: seq<Tagged>, t: Tagged)
    requires |st.actions| == |Actions(evs)|
    ensures !Mentioned(evs, t.id, t.event.action) ==> |st.actions| < |Actions(evs + [t])|
  {
    hide Mentioned, Actions;
    ActionsGrow(evs, t);
  }

  // One event.

  /** How many outputs a dispatch needs. */
  const NEEDS: nat := 3

  lemma EventGoesOn(l: LoopLimits, st: LoopState, key: string, e: ToolEvent, reply: Reply)
    requires Expected(BranchOf(l, st, key, e)) && st.room >= NEEDS && !reply.RegistryFails?
    ensures OnToolEvent(l, st, key, e, reply).Continue?
    ensures OnToolEvent(l, st, key, e, reply).st.room >= st.room - NEEDS
  {
    hide DedupKey;
  }

  /** What an expected event writes: its own record at its generation. */
  lemma EventWrites(l: LoopLimits, st: LoopState, key: string, e: ToolEvent, reply: Reply, k: string)
    requires Expected(BranchOf(l, st, key, e)) && OnToolEvent(l, st, key, e, reply).Continue?
    ensures var st' := OnToolEvent(l, st, key, e, reply).st;
            && (k != key && k in st.actions ==> k in st'.actions && st'.actions[k] == st.actions[k])
            && key in st'.actions && st'.actions[key].lastGeneration == e.generation
  {
    hide DedupKey, Dispatch;
    var st1 := st.(dedup := st.dedup[DedupKey(key, e.generation) := e.generation]);
    var rec := RecordOf(st, key, ReadySeen).(lastGeneration := e.generation, state := ReadySeen, dispatched := true);
    if Callable(e) {
      DispatchWrites(st1.(actions := st1.actions[key := rec]), key, e, reply, k);
    }
  }

  lemma DispatchWrites(st: LoopState, key: string, e: ToolEvent, reply: Reply, k: string)
    requires key in st.actions && Callable(e)
    ensures var st' := Dispatch(st, key, e, reply).st;
            && (k != key && k in st.actions ==> k in st'.actions && st'.actions[k] == st.actions[k])
            && key in st'.actions && st'.actions[key].lastGeneration == st.actions[key].lastGeneration
  {
  }

  /** What it says: a dispatch of itself at most. */
  lemma EventSays(l: LoopLimits, st: LoopState, key: string, e: ToolEvent, reply: Reply)
    requires Expected(BranchOf(l, st, key, e)) && OnToolEvent(l, st, key, e, reply).Continue?
    ensures var st' := OnToolEvent(l, st, key, e, reply).st;
            && st.out <= st'.out
            && forall j :: |st.out| <= j < |st'.out| && st'.out[j].DispatchRequested? ==>
                 DispatchesNow(l, st, key, e) && st'.out[j] == DispatchRequested(key, e.action, e.generation)
  {
    hide DedupKey, Dispatch;
    var st1 := st.(dedup := st.dedup[DedupKey(key, e.generation) := e.generation]);
    var rec := RecordOf(st, key, ReadySeen).(lastGeneration := e.generation, state := ReadySeen, dispatched := true);
    if Callable(e) {
      DispatchUtters(st1.(actions := st1.actions[key := rec]), key, e, reply);
    }
  }

  lemma DispatchUtters(st: LoopState, key: string, e: ToolEvent, reply: Reply)
    requires key in st.actions && Callable(e)
    ensures var st' := Dispatch(st, key, e, reply).st;
            && st.out <= st'.out
            && forall j :: |st.out| <= j < |st'.out| && st'.out[j].DispatchRequested? ==>
                 st'.out[j] == DispatchRequested(key, e.action, e.generation)
  {
  }

  lemma MissIsNoHit(st: LoopState, key: string, e: ToolEvent)
    requires DedupKey(key, e.generation) !in st.dedup
    ensures !IsHit(st, key, e)
  {
  }

  lemma ActionStep(
    ids: set<string>, l: LoopLimits, st: LoopState, evs: seq<Tagged>, t: Tagged, reply: Reply, id: string, a: string)
    requires Next(ids, l, st, evs, t) && id in ids && ActionFollows(st, evs, id, a)
    requires OnToolEvent(l, st, KeyOf(t), t.event, reply).Continue?
    ensures ActionFollows(OnToolEvent(l, st, KeyOf(t), t.event, reply).st, evs + [t], id, a)
  {
    hide ActionKey, DedupKey, OnToolEvent, BranchOf, Mentioned, EverReady, LastGeneration, DispatchesOf, Actions, IsHit,
         Results, DispatchesNow, Next, Apart;
    var key, k := KeyOf(t), ActionKey(id, a);
    BranchIsExpected(ids, l, st, evs, t);
    NextFacts(ids, l, st, evs, t);
    MissIsNoHit(st, key, t.event);
    EventOutcome(l, st, key, t.event, reply, k);
    EventWrites(l, st, key, t.event, reply, k);
    TraceGrows(evs, t, id, a);
    MentionedIfReady(evs, id, a);
    if k == key {
      NextIsApart(ids, l, st, evs, t);
      ApartKeys(ids, id, a, t.id, t.event.action);
    }
  }

  lemma NextIsApart(ids: set<string>, l: LoopLimits, st: LoopState, evs: seq<Tagged>, t: Tagged)
    requires Next(ids, l, st, evs, t)
    ensures Apart(ids)
  {
    hide Apart, LoopFollows, GoodMix, Room, FromIds;
  }

  lemma DedupStep(st: LoopState, evs: seq<Tagged>, t: Tagged, st': LoopState)
    requires DedupFollows(st, evs) && DedupKey(KeyOf(t), t.event.generation) !in st.dedup
    requires st'.dedup == st.dedup[DedupKey(KeyOf(t), t.event.generation) := t.event.generation]
    ensures DedupFollows(st', evs + [t])
  {
    hide DedupKey, KeyOf;
    var all := evs + [t];
    forall dk | dk in st'.dedup
      ensures Recorded(all, dk)
    {
      if dk in st.dedup {
        assert Recorded(evs, dk);
        var j :| 0 <= j < |evs| && dk == DedupKey(KeyOf(evs[j]), evs[j].event.generation);
        assert all[j] == evs[j];
      } else {
        assert all[|evs|] == t;
      }
    }
  }

  lemma CountStep(st: LoopState, evs: seq<Tagged>, t: Tagged, st': LoopState)
    requires ActionFollows(st, evs, t.id, t.event.action) && |st.actions| == |Actions(evs)|
    requires st'.actions.Keys == st.actions.Keys + {KeyOf(t)}
    ensures |st'.actions| == |Actions(evs + [t])|
  {
    hide ActionKey, LastGeneration, EverReady, DispatchesOf, Mentioned, Actions;
    KeysGrow(st.actions, st'.actions, KeyOf(t));
    ActionsGrow(evs, t);
  }

  lemma ActionsGrow(evs: seq<Tagged>, t: Tagged)
    ensures |Actions(evs + [t])| == |Actions(evs)| + if Mentioned(evs, t.id, t.event.action) then 0 else 1
  {
    hide LastGeneration, EverReady;
    TraceGrows(evs, t, t.id, t.event.action);
    var pair := (t.id, t.event.action);
    if Mentioned(evs, t.id, t.event.action) {
      var j :| 0 <= j < |evs| && Concerns(evs[j], t.id, t.event.action);
      assert evs[j] in evs;
      assert Actions(evs) + {pair} == Actions(evs);
    } else {
      assert pair !in Actions(evs);
    }
  }

  lemma SayingStep(
    ids: set<string>, l: LoopLimits, st: LoopState, evs: seq<Tagged>, t: Tagged, reply: Reply, j: nat)
    requires Next(ids, l, st, evs, t)
    requires OnToolEvent(l, st, KeyOf(t), t.event, reply).Continue?
    requires j < |OnToolEvent(l, st, KeyOf(t), t.event, reply).st.out|
    ensures TimelyDispatch(ids, evs + [t], OnToolEvent(l, st, KeyOf(t), t.event, reply).st.out[j])
  {
    hide ActionKey, DedupKey, OnToolEvent, BranchOf, DispatchesNow, IsFirstReady, EverReady, ActionFollows, Next;
    BranchIsExpected(ids, l, st, evs, t);
    NextFacts(ids, l, st, evs, t);
    EventSays(l, st, KeyOf(t), t.event, reply);
    var o := OnToolEvent(l, st, KeyOf(t), t.event, reply).st.out[j];
    if o.DispatchRequested? {
      if j < |st.out| {
        assert o == st.out[j];
        WasTimely(ids, l, st, evs, t, j);
        var id :| id in ids && o.key == ActionKey(id, o.action) && IsFirstReady(evs, id, o.action, o.generation);
        FirstReadyStays(evs, t, id, o.action, o.generation);
      } else {
        FirstReadyNow(evs, t);
      }
    }
  }

  lemma WasTimely(ids: set<string>, l: LoopLimits, st: LoopState, evs: seq<Tagged>, t: Tagged, j: nat)
    requires Next(ids, l, st, evs, t) && j < |st.out|
    ensures TimelyDispatch(ids, evs, st.out[j])
  {
    hide TimelyDispatch, TimelyCall, ActionFollows, DedupFollows, Actions, Apart, GoodMix, FromIds;
  }

  lemma CallingStep(
    ids: set<string>, l: LoopLimits, st: LoopState, evs: seq<Tagged>, t: Tagged, reply: Reply, j: nat)
    requires Next(ids, l, st, evs, t)
    requires OnToolEvent(l, st, KeyOf(t), t.event, reply).Continue?
    requires j < |OnToolEvent(l, st, KeyOf(t), t.event, reply).st.resolved|
    ensures TimelyCall(ids, evs + [t], OnToolEvent(l, st, KeyOf(t), t.event, reply).st.resolved[j])
  {
    hide ActionKey, DedupKey, OnToolEvent, BranchOf, DispatchesNow, FirstReady, EverReady, ActionFollows, Next;
    BranchIsExpected(ids, l, st, evs, t);
    NextFacts(ids, l, st, evs, t);
    EventAsks(l, st, KeyOf(t), t.event, reply);
    var c := OnToolEvent(l, st, KeyOf(t), t.event, reply).st.resolved[j];
    if j < |st.resolved| {
      assert c == st.resolved[j];
      WasTimelyCall(ids, l, st, evs, t, j);
      var id, e :| id in ids && c.key == ActionKey(id, c.action) && FirstReady(evs, id, c.action, e)
                   && e.generation == c.generation && e.name == Some(c.name) && e.requestPayload == Some(c.payload);
      FirstReadyEventStays(evs, t, id, c.action, e);
    } else {
      FirstReadyNow(evs, t);
    }
  }

  lemma WasTimelyCall(ids: set<string>, l: LoopLimits, st: LoopState, evs: seq<Tagged>, t: Tagged, j: nat)
    requires Next(ids, l, st, evs, t) && j < |st.resolved|
    ensures TimelyCall(ids, evs, st.resolved[j])
  {
    hide TimelyDispatch, TimelyCall, ActionFollows, DedupFollows, Actions, Apart, GoodMix, FromIds;
  }

  lemma FollowsStep(ids: set<string>, l: LoopLimits, st: LoopState, evs: seq<Tagged>, t: Tagged, reply: Reply)
    requires Next(ids, l, st, evs, t) && OnToolEvent(l, st, KeyOf(t), t.event, reply).Continue?
    ensures LoopFollows(ids, OnToolEvent(l, st, KeyOf(t), t.event, reply).st, evs + [t])
  {
    hide OnToolEvent, KeyOf, DedupKey, ActionFollows, TimelyDispatch, TimelyCall, Actions, DispatchesNow, IsHit,
         Moved, Apart, GoodMix, FromIds, Room, DedupFollows;
    var st' := OnToolEvent(l, st, KeyOf(t), t.event, reply).st;
    NextFacts(ids, l, st, evs, t);
    MissIsNoHit(st, KeyOf(t), t.event);
    EventOutcome(l, st, KeyOf(t), t.event, reply, KeyOf(t));
    forall id, a | id in ids ensures ActionFollows(st', evs + [t], id, a) {
      ActionStep(ids, l, st, evs, t, reply, id, a);
    }
    DedupStep(st, evs, t, st');
    CountStep(st, evs, t, st');
    forall j | 0 <= j < |st'.out| ensures TimelyDispatch(ids, evs + [t], st'.out[j]) {
      SayingStep(ids, l, st, evs, t, reply, j);
    }
    forall j | 0 <= j < |st'.resolved| ensures TimelyCall(ids, evs + [t], st'.resolved[j]) {
      CallingStep(ids, l, st, evs, t, reply, j);
    }
  }

  // A whole stream.

  function ToolEvents(jobs: seq<Job>): seq<Tagged> {
    if jobs == [] then [] else ToolEvents(jobs[..|jobs| - 1]) + ToolEventOf(jobs[|jobs| - 1])
  }

  function ToolEventOf(job: Job): seq<Tagged> {
    var e := job.delivery.event;
    if e.UnitEvent? && e.unit.tool.Some? then [Tagged(e.unit.interpretation, e.unit.tool.value)] else []
  }

  /** Deliveries of the interpretations, in scope, numbered from one, with a registry that answers. */
  predicate InOrder(ids: set<string>, scope: Scope, jobs: seq<Job>) {
    forall j :: 0 <= j < |jobs| ==>
      && jobs[j].delivery.sequence == j + 1 && !jobs[j].reply.RegistryFails?
      && (jobs[j].delivery.event.UnitEvent? ==>
            jobs[j].delivery.event.unit.interpretation in ids && InScope(scope, jobs[j].delivery.event.unit))
  }

  predicate WithinLimits(l: LoopLimits, evs: seq<Tagged>) {
    |evs| <= l.maxDedupEntries && |Actions(evs)| <= l.maxToolActions
  }

  /** Events that the Loop can follow to their end. */
  predicate Followable(ids: set<string>, l: LoopLimits, evs: seq<Tagged>) {
    Apart(ids) && FromIds(ids, evs) && GoodMix(evs) && WithinLimits(l, evs)
  }

  lemma PrefixIsFollowable(ids: set<string>, l: LoopLimits, evs: seq<Tagged>, n: nat)
    requires Followable(ids, l, evs) && n <= |evs|
    ensures Followable(ids, l, evs[..n])
  {
    hide Apart;
    assert Actions(evs[..n]) <= Actions(evs);
    SubsetSize(Actions(evs[..n]), Actions(evs));
  }

  lemma {:induction false} SubsetSize<T>(s: set<T>, t: set<T>)
    requires s <= t
    ensures |s| <= |t|
    decreases |s|
  {
    if s != {} {
      var x :| x in s;
      SubsetSize(s - {x}, t - {x});
    }
  }

  lemma {:induction false} RunAppend(l: LoopLimits, scope: Scope, st: LoopState, jobs: seq<Job>, job: Job)
    ensures Run(l, scope, st, jobs + [job]) ==
            match Run(l, scope, st, jobs)
            case Continue(st') => OnDelivered(l, scope, st', job.delivery, job.reply)
            case ended => ended
    decreases |jobs|
  {
    hide OnDelivered;
    if jobs == [] {
      assert (jobs + [job])[1..] == [];
    } else {
      assert (jobs + [job])[1..] == jobs[1..] + [job];
      var s := OnDelivered(l, scope, st, jobs[0].delivery, jobs[0].reply);
      if s.Continue? {
        RunAppend(l, scope, s.st, jobs[1..], job);
      }
    }
  }

  lemma SeqMoves(ids: set<string>, st: LoopState, evs: seq<Tagged>, d: Delivery)
    requires LoopFollows(ids, st, evs)
    ensures LoopFollows(ids, st.(lastSeq := d.sequence, deliveries := st.deliveries + 1), evs)
  {
    hide Mentioned, EverReady, LastGeneration, DispatchesOf, Recorded, TimelyDispatch, TimelyCall, Actions, ActionKey;
    var st' := st.(lastSeq := d.sequence, deliveries := st.deliveries + 1);
    forall id, a | id in ids ensures ActionFollows(st', evs, id, a) {
      assert ActionFollows(st, evs, id, a);
    }
  }

  /** One delivery of the stream. */
  lemma DeliveryFollows(ids: set<string>, l: LoopLimits, scope: Scope, st: LoopState, evs: seq<Tagged>, job: Job)
    requires LoopFollows(ids, st, evs) && st.room >= NEEDS && !job.reply.RegistryFails?
    requires st.lastSeq == 0 || job.delivery.sequence == st.lastSeq + 1
    requires job.delivery.event.UnitEvent? ==> InScope(scope, job.delivery.event.unit)
    requires Followable(ids, l, evs + ToolEventOf(job))
    ensures var s := OnDelivered(l, scope, st, job.delivery, job.reply);
            && s.Continue? && LoopFollows(ids, s.st, evs + ToolEventOf(job))
            && s.st.room >= st.room - NEEDS && s.st.lastSeq == job.delivery.sequence
  {
    hide LoopFollows, OnToolEvent, Followable, ActionKey, InScope, BranchOf, Next;
    var d := job.delivery;
    var st1 := st.(lastSeq := d.sequence, deliveries := st.deliveries + 1);
    SeqMoves(ids, st, evs, d);
    if d.event.UnitEvent? && d.event.unit.tool.Some? {
      var t := Tagged(d.event.unit.interpretation, d.event.unit.tool.value);
      assert ToolEventOf(job) == [t];
      FollowableIsNext(ids, l, st1, evs, t);
      BranchIsExpected(ids, l, st1, evs, t);
      EventGoesOn(l, st1, KeyOf(t), t.event, job.reply);
      FollowsStep(ids, l, st1, evs, t, job.reply);
      EventKeepsSeq(l, st1, KeyOf(t), t.event, job.reply);
    } else {
      assert evs + ToolEventOf(job) == evs;
    }
  }

  lemma FollowableIsNext(ids: set<string>, l: LoopLimits, st: LoopState, evs: seq<Tagged>, t: Tagged)
    requires LoopFollows(ids, st, evs) && Followable(ids, l, evs + [t])
    ensures Next(ids, l, st, evs, t)
  {
    hide LoopFollows, Apart, FromIds, GoodMix, Actions;
  }

  lemma ToolEventsAppend(jobs: seq<Job>, job: Job)
    ensures ToolEvents(jobs + [job]) == ToolEvents(jobs) + ToolEventOf(job)
  {
    assert (jobs + [job])[..|jobs|] == jobs;
  }

  /** After any number of deliveries the Loop is still running and its tables follow the trace. */
  lemma {:induction false} StreamFollows(ids: set<string>, l: LoopLimits, scope: Scope, room: nat, jobs: seq<Job>)
    requires InOrder(ids, scope, jobs) && room >= NEEDS * |jobs| && Followable(ids, l, ToolEvents(jobs))
    ensures var s := Run(l, scope, Start(room), jobs);
            && s.Continue? && LoopFollows(ids, s.st, ToolEvents(jobs))
            && s.st.room >= room - NEEDS * |jobs| && s.st.lastSeq == |jobs|
    decreases |jobs|
  {
    hide LoopFollows, OnDelivered, Followable, InScope, ToolEvents, ToolEventOf;
    if jobs == [] {
      StartFollows(ids, room);
    } else {
      var n := |jobs| - 1;
      var init, job := jobs[..n], jobs[n];
      assert jobs == init + [job];
      ToolEventsAppend(init, job);
      var evs := ToolEvents(init);
      assert (evs + ToolEventOf(job))[..|evs|] == evs;
      PrefixIsFollowable(ids, l, ToolEvents(jobs), |evs|);
      StreamFollows(ids, l, scope, room, init);
      RunAppend(l, scope, Start(room), init, job);
      DeliveryFollows(ids, l, scope, Run(l, scope, Start(room), init).st, evs, job);
    }
  }

  lemma StartFollows(ids: set<string>, room: nat)
    ensures LoopFollows(ids, Start(room), ToolEvents([]))
  {
    assert Actions([]) == {};
  }

  // The interpreter's side.

  /** What one interpretation is given. */
  datatype Source = Source(limits: ToolActions.Limits, inputs: seq<Input>)

  /** Each interpretation's events are those its owner publishes for its signals; others have none. */
  ghost predicate Published(sources: map<string, Source>, evs: seq<Tagged>) {
    forall id :: Of(evs, id) == if id in sources then Trace(sources[id].limits, map[], sources[id].inputs) else []
  }

  lemma PublishedIsGood(sources: map<string, Source>, evs: seq<Tagged>)
    requires Published(sources, evs)
    ensures GoodMix(evs) && FromIds(sources.Keys, evs)
  {
    hide Of, Trace, GoodMix, GoodTrace;
    forall id ensures GoodTrace(Of(evs, id)) {
      if id in sources {
        TraceIsGood(sources[id].limits, map[], sources[id].inputs);
      } else {
        NothingIsGood(map[]);
      }
    }
    MixIsGood(evs);
    forall j | 0 <= j < |evs| ensures evs[j].id in sources.Keys {
      InItsTrace(evs, j);
    }
  }

  /** A stream of deliveries from interpretations whose ids are apart, within the Loop's limits, its output open. */
  ghost predicate Composed(
    sources: map<string, Source>, l: LoopLimits, scope: Scope, room: nat, jobs: seq<Job>) {
    && Published(sources, ToolEvents(jobs)) && Apart(sources.Keys) && InOrder(sources.Keys, scope, jobs)
    && room >= NEEDS * |jobs| && WithinLimits(l, ToolEvents(jobs))
  }

  lemma ComposedIsFollowable(sources: map<string, Source>, l: LoopLimits, scope: Scope, room: nat, jobs: seq<Job>)
    requires Composed(sources, l, scope, room, jobs)
    ensures Followable(sources.Keys, l, ToolEvents(jobs))
  {
    hide ToolEvents, Apart, WithinLimits, InOrder, Published, GoodMix, FromIds;
    PublishedIsGood(sources, ToolEvents(jobs));
  }

  /** The call is for the first request its action was given, with that request's name and arguments. */
  ghost predicate Requested(sources: map<string, Source>, c: Call) {
    exists id, n :: id in sources && c.key == ActionKey(id, c.action) && IsFirstRequest(sources[id].inputs, n, c)
  }

  predicate IsFirstRequest(inputs: seq<Input>, n: int, c: Call) {
    && 0 <= n < |inputs| && inputs[n] == Tooling(c.action, RequestReady(c.name, c.payload))
    && forall k :: 0 <= k < n ==> !IsRequest(inputs[k], c.action)
  }

  /** The first ready event of an action in the mix is the first in its interpretation's own trace. */
  lemma {:induction false} FirstReadyInTrace(evs: seq<Tagged>, id: string, a: string, e: ToolEvent) returns (m: nat)
    requires FirstReady(evs, id, a, e)
    ensures m < |Of(evs, id)| && Of(evs, id)[m] == e && IsReady(e, a)
    ensures forall k :: 0 <= k < m ==> !IsReady(Of(evs, id)[k], a)
    decreases |evs|
  {
    var n := |evs| - 1;
    var init, last := evs[..n], evs[n];
    assert evs == init + [last];
    OfGrows(init, last, id);
    var j :| 0 <= j < |evs| && ReadyAt(evs[j], id, a) && evs[j].event == e && !EverReady(evs[..j], id, a);
    if j < n {
      assert init[j] == evs[j] && init[..j] == evs[..j];
      m := FirstReadyInTrace(init, id, a, e);
    } else {
      m := |Of(init, id)|;
      NeverReadyInTrace(init, id, a);
    }
  }

  lemma {:induction false} NeverReadyInTrace(evs: seq<Tagged>, id: string, a: string)
    requires !EverReady(evs, id, a)
    ensures forall k :: 0 <= k < |Of(evs, id)| ==> !IsReady(Of(evs, id)[k], a)
    decreases |evs|
  {
    if evs != [] {
      var n := |evs| - 1;
      assert forall j :: 0 <= j < n ==> evs[..n][j] == evs[j];
      NeverReadyInTrace(evs[..n], id, a);
      assert !ReadyAt(evs[n], id, a);
    }
  }

  lemma TimelyIsRequested(sources: map<string, Source>, evs: seq<Tagged>, c: Call)
    requires Published(sources, evs) && TimelyCall(sources.Keys, evs, c)
    ensures Requested(sources, c)
  {
    hide Of, Trace, ActionKey, FirstReady;
    var id, e :| id in sources.Keys && c.key == ActionKey(id, c.action) && FirstReady(evs, id, c.action, e)
                 && e.generation == c.generation && e.name == Some(c.name) && e.requestPayload == Some(c.payload);
    var m := FirstReadyInTrace(evs, id, c.action, e);
    var inputs := sources[id].inputs;
    assert Of(evs, id) == Trace(sources[id].limits, map[], inputs);
    FirstReadyIsFirstRequest(sources[id].limits, inputs, c.action, m);
    assert inputs[m] == Tooling(c.action, RequestReady(c.name, c.payload));
    assert IsFirstRequest(inputs, m, c);
  }

  /**
   The composition: whatever the tool signals of any number of interpretations, their events, delivered in order in
   any interleaving and among any other events to a Loop in scope, within limits, with its output open and a registry
   that answers, get every action that is ever ready dispatched exactly once, on its first ready generation, and its
   tool resolved exactly once, under the name and with the arguments of its first request.
   */
  lemma ExactlyOnceDispatch(sources: map<string, Source>, l: LoopLimits, scope: Scope, room: nat, jobs: seq<Job>)
    requires Composed(sources, l, scope, room, jobs)
    ensures var s := Run(l, scope, Start(room), jobs);
            && s.Continue?
            && (forall id, a :: id in sources ==>
                  DispatchesOf(s.st.out, ActionKey(id, a)) == CallsOf(s.st.resolved, ActionKey(id, a)) ==
                  if EverReady(ToolEvents(jobs), id, a) then 1 else 0)
            && (forall j :: 0 <= j < |s.st.out| ==> TimelyDispatch(sources.Keys, ToolEvents(jobs), s.st.out[j]))
            && (forall j :: 0 <= j < |s.st.resolved| ==> Requested(sources, s.st.resolved[j]))
  {
    hide Run, ToolEvents, WithinLimits, InOrder, EverReady, DispatchesOf, CallsOf, TimelyDispatch, TimelyCall,
         DedupFollows, Actions, Mentioned, LastGeneration, ActionKey, Followable, Published, Apart, Requested, Notices;
    ComposedIsFollowable(sources, l, scope, room, jobs);
    StreamFollows(sources.Keys, l, scope, room, jobs);
    CallAccounting(l, scope, room, jobs);
    var st := Run(l, scope, Start(room), jobs).st;
    forall id, a | id in sources
      ensures DispatchesOf(st.out, ActionKey(id, a)) == CallsOf(st.resolved, ActionKey(id, a)) ==
              if EverReady(ToolEvents(jobs), id, a) then 1 else 0
    {
      assert ActionFollows(st, ToolEvents(jobs), id, a);
    }
    forall j | 0 <= j < |st.resolved| ensures Requested(sources, st.resolved[j]) {
      TimelyIsRequested(sources, ToolEvents(jobs), st.resolved[j]);
    }
  }

  /** On the way, no event is a duplicate, stale, over a limit, or ready without name and payload. */
  lemma BadBranchesAreDead(
    sources: map<string, Source>, l: LoopLimits, scope: Scope, room: nat, jobs: seq<Job>, n: nat, t: Tagged)
    requires Composed(sources, l, scope, room, jobs) && n < |jobs| && ToolEventOf(jobs[n]) == [t]
    ensures var s := Run(l, scope, Start(room), jobs[..n]);
            s.Continue? && Expected(BranchOf(l, s.st, KeyOf(t), t.event))
  {
    hide Run, WithinLimits, LoopFollows, Followable, BranchOf, KeyOf, InOrder, Published, Apart, ToolEvents,
         Next, ToolEventOf;
    ComposedIsFollowable(sources, l, scope, room, jobs);
    var before := jobs[..n];
    assert jobs[..n + 1] == before + [jobs[n]];
    ToolEventsAppend(before, jobs[n]);
    ToolEventsPrefix(jobs, n + 1);
    var evs := ToolEvents(before);
    PrefixIsFollowable(sources.Keys, l, ToolEvents(jobs), |evs + [t]|);
    assert ToolEvents(jobs)[..|evs + [t]|] == evs + [t];
    PrefixIsFollowable(sources.Keys, l, evs + [t], |evs|);
    assert (evs + [t])[..|evs|] == evs;
    InOrderPrefix(sources.Keys, scope, jobs, n);
    StreamFollows(sources.Keys, l, scope, room, before);
    FollowableIsNext(sources.Keys, l, Run(l, scope, Start(room), before).st, evs, t);
    BranchIsExpected(sources.Keys, l, Run(l, scope, Start(room), before).st, evs, t);
  }

  lemma InOrderPrefix(ids: set<string>, scope: Scope, jobs: seq<Job>, n: nat)
    requires InOrder(ids, scope, jobs) && n <= |jobs|
    ensures InOrder(ids, scope, jobs[..n])
  {
    hide InScope;
  }

  lemma {:induction false} ToolEventsPrefix(jobs: seq<Job>, n: nat)
    requires n <= |jobs|
    ensures ToolEvents(jobs[..n]) <= ToolEvents(jobs)
    decreases |jobs|
  {
    hide ToolEventOf;
    if n < |jobs| {
      assert jobs[..|jobs| - 1][..n] == jobs[..n];
      ToolEventsPrefix(jobs[..|jobs| - 1], n);
    } else {
      assert jobs[..n] == jobs;
    }
  }

  // Ids that are not apart.

  /** Two actions that share a key, both ready at once: the second is taken for a duplicate and never dispatched. */
  lemma SharedKeyLosesADispatch(l: LoopLimits, st: LoopState, key: string, e1: ToolEvent, e2: ToolEvent, reply: Reply)
    requires e2.generation == e1.generation
    requires DedupKey(key, e1.generation) !in st.dedup && OnToolEvent(l, st, key, e1, reply).Continue?
    ensures var st1 := OnToolEvent(l, st, key, e1, reply).st;
            BranchOf(l, st1, key, e2) == DedupHit
            && OnToolEvent(l, st1, key, e2, reply) == Continue(st1.(duplicates := st1.duplicates + 1))
  {
    hide OnToolEvent, BranchOf, DedupKey, Moved, Tells;
    MissIsNoHit(st, key, e1);
    EventOutcome(l, st, key, e1, reply, key);
    var st1 := OnToolEvent(l, st, key, e1, reply).st;
    HitIsHit(l, st1, key, e2);
    BranchDecides(l, st1, key, e2, reply);
    HitTells(OnToolEvent(l, st1, key, e2, reply), st1, key, e2);
  }

  lemma HitIsHit(l: LoopLimits, st: LoopState, key: string, e: ToolEvent)
    requires DedupKey(key, e.generation) in st.dedup && st.dedup[DedupKey(key, e.generation)] == e.generation
    ensures BranchOf(l, st, key, e) == DedupHit
  {
    hide DedupKey;
  }

  lemma HitTells(s: Step, st: LoopState, key: string, e: ToolEvent)
    requires Tells(DedupHit, s, st, key, e)
    ensures s == Continue(st.(duplicates := st.duplicates + 1))
  {
  }

  /** Ids of which one opens the other always have two such actions. */
  lemma OpeningIdsShareAKey(i: string, j: string) returns (a: string, b: string)
    requires i + ":" <= j
    ensures i != j && ActionKey(i, a) == ActionKey(j, b)
  {
    hide ActionKey;
    IdsCollideExactly(i, j);
    a, b :| ActionKey(i, a) == ActionKey(j, b);
  }
}
