/** What a chat stream yields, in terms of the parsed choices of its events and of the bytes that carry them. */
module ChatStreamMeaning {
  import opened Common
  import opened Text
  import opened Utf8
  import opened ChatStream
  import opened ChatStreamProperties

  /** The one choice that is read: index 0, or none, in 32 bits. */
  predicate Relevant(c: Choice) { c.index.None? || c.index.value % 0x1_0000_0000 == 0 }

  /** The delta is for tool index `k`. */
  predicate For(d: ToolDelta, k: nat) { (if d.index.None? then 0 else d.index.value % 0x1_0000_0000) == k }

  // One event.

  /** Go on with `f` unless already refused. */
  function AndThen(a: Assembled, f: map<nat, Partial> -> Assembled): Assembled {
    if a.Refused? then a else Prefixed(a.out, f(a.tools))
  }

  /** The calls in order. */
  function CallsEffect(cfg: Config, tools: map<nat, Partial>, calls: seq<ToolDelta>): Assembled
    decreases |calls|
  {
    if calls == [] then Assembled(tools, [])
    else
      var d := calls[0];
      var index := if d.index.None? then 0 else d.index.value % 0x1_0000_0000;
      AndThen(IngestDelta(cfg, tools, Delta(index, d.id, d.name, d.args)),
              (t: map<nat, Partial>) => CallsEffect(cfg, t, calls[1..]))
  }

  /** Its text, then its calls, then its finish. */
  function ChoiceEffect(cfg: Config, tools: map<nat, Partial>, c: Choice): Assembled {
    if !Relevant(c) then Assembled(tools, [])
    else
      var text := if c.content.Some? && c.content.value != "" then [TextDelta(c.content.value)] else [];
      AndThen(AndThen(Assembled(tools, text), (t: map<nat, Partial>) => CallsEffect(cfg, t, c.calls)),
              (t: map<nat, Partial>) =>
                if c.finish.Some? then FinishReason(cfg, t, c.finish.value) else Assembled(t, []))
  }

  function EventEffect(cfg: Config, tools: map<nat, Partial>, choices: seq<Choice>): Assembled
    decreases |choices|
  {
    if choices == [] then Assembled(tools, [])
    else AndThen(ChoiceEffect(cfg, tools, choices[0]), (t: map<nat, Partial>) => EventEffect(cfg, t, choices[1..]))
  }

  lemma {:induction false} CallsArePerformed(cfg: Config, tools: map<nat, Partial>, calls: seq<ToolDelta>)
    ensures PerformAll(cfg, tools, DeltaOps(calls)) == CallsEffect(cfg, tools, calls)
    decreases |calls|
  {
    hide IngestDelta;
    if calls != [] {
      var d := calls[0];
      var op := Delta(Index(d.index), d.id, d.name, d.args);
      assert DeltaOps(calls) == [op] + DeltaOps(calls[1..]);
      PerformConcat(cfg, tools, [op], DeltaOps(calls[1..]));
      PerformOne(cfg, tools, op);
      var a := IngestDelta(cfg, tools, op);
      if a.Assembled? {
        CallsArePerformed(cfg, a.tools, calls[1..]);
      }
    }
  }

  lemma ChoiceIsPerformed(cfg: Config, tools: map<nat, Partial>, c: Choice)
    ensures PerformAll(cfg, tools, ChoiceOps(c)) == ChoiceEffect(cfg, tools, c)
  {
    hide IngestDelta, FinishReason, PerformAll, CallsEffect;
    NothingPerformed(cfg, tools);
    if Relevant(c) {
      var text := if c.content.Some? && c.content.value != "" then [Say(c.content.value)] else [];
      var calls := DeltaOps(c.calls);
      var finish := if c.finish.Some? then [Finish(c.finish.value)] else [];
      assert ChoiceOps(c) == text + calls + finish;
      PerformConcat(cfg, tools, text + calls, finish);
      PerformConcat(cfg, tools, text, calls);
      TextIsPerformed(cfg, tools, c);
      CallsArePerformed(cfg, tools, c.calls);
      var a := PerformAll(cfg, tools, text + calls);
      if a.Assembled? {
        NothingPerformed(cfg, a.tools);
        if c.finish.Some? {
          PerformOne(cfg, a.tools, Finish(c.finish.value));
        }
      }
    }
  }

  lemma NothingPerformed(cfg: Config, tools: map<nat, Partial>)
    ensures PerformAll(cfg, tools, []) == Assembled(tools, [])
  {
  }

  lemma TextIsPerformed(cfg: Config, tools: map<nat, Partial>, c: Choice)
    ensures PerformAll(cfg, tools, if c.content.Some? && c.content.value != "" then [Say(c.content.value)] else []) ==
            Assembled(tools, if c.content.Some? && c.content.value != "" then [TextDelta(c.content.value)] else [])
  {
    if c.content.Some? && c.content.value != "" {
      PerformOne(cfg, tools, Say(c.content.value));
    }
  }

  lemma {:induction false} EventIsPerformed(cfg: Config, tools: map<nat, Partial>, choices: seq<Choice>)
    ensures PerformAll(cfg, tools, EventOps(choices)) == EventEffect(cfg, tools, choices)
    decreases |choices|
  {
    hide PerformAll, ChoiceOps, ChoiceEffect;
    NothingPerformed(cfg, tools);
    if choices != [] {
      PerformConcat(cfg, tools, ChoiceOps(choices[0]), EventOps(choices[1..]));
      ChoiceIsPerformed(cfg, tools, choices[0]);
      var a := ChoiceEffect(cfg, tools, choices[0]);
      if a.Assembled? {
        EventIsPerformed(cfg, a.tools, choices[1..]);
      }
    }
  }

  /**
   An event within the bound that parses yields, choice by choice and for the one choice that is read, its text, then
   the effect of its calls in order, then that of its finish; the first refusal refuses the event.
   */
  lemma EventYields(cfg: Config, st: Sse, data: string, choices: seq<Choice>)
    requires st.lines != [] && data == Join(st.lines) && ByteLen(data) <= cfg.maxEvent
    requires Trim(data) != "[DONE]" && cfg.parse(data) == Some(choices)
    ensures var a, o := EventEffect(cfg, st.tools, choices), Dispatch(cfg, st);
            && o.st.tools == a.tools && o.st.lines == [] && o.st.done == st.done
            && (if a.Assembled? then o.Handled? && o.out == a.out && o.st.heard == st.heard + choices
                else o.Rejected? && o.error == a.error)
  {
    hide PerformAll, EventOps, EventEffect, Join, ByteLen, Trim;
    EventIsPerformed(cfg, st.tools, choices);
  }

  /** An event over the bound, and one that does not parse, is refused for that. */
  lemma BadEventsAreRefused(cfg: Config, st: Sse, data: string)
    requires st.lines != [] && data == Join(st.lines)
    ensures ByteLen(data) > cfg.maxEvent ==> Dispatch(cfg, st) == Rejected(st.(lines := []), FrameLimitExceeded)
    ensures ByteLen(data) <= cfg.maxEvent && Trim(data) != "[DONE]" && cfg.parse(data) == None ==>
              Dispatch(cfg, st) == Rejected(st.(lines := []), MalformedPayload)
    ensures ByteLen(data) <= cfg.maxEvent && Trim(data) == "[DONE]" ==>
              Dispatch(cfg, st) == Handled(st.(lines := [], done := true), [])
  {
    hide PerformAll, EventOps, Join, ByteLen, Trim;
  }

  /** A whole call in one event that finishes with `tool_calls` is announced and ready in that very event. */
  lemma CompleteCallIsReady(cfg: Config, st: Sse, data: string, k: nat, id: string, name: string, args: string)
    requires st.lines != [] && data == Join(st.lines) && ByteLen(data) <= cfg.maxEvent && Trim(data) != "[DONE]"
    requires cfg.parse(data) ==
             Some([Choice(None, None, [ToolDelta(Some(k), Some(id), Some(name), Some(args))], Some("tool_calls"))])
    requires st.tools == map[] && GoodOrder(cfg) && k < 0x1_0000_0000 && id != "" && name != ""
    requires cfg.complete(args) && ByteLen(args) <= cfg.maxArgs
    ensures Dispatch(cfg, st).Handled?
    ensures ReadyCount(Dispatch(cfg, st).out, k) == 1 && Ready(k, id, name, args) in Dispatch(cfg, st).out
    ensures Dispatch(cfg, st).out[0] == Waiting(k, id, Some(name))
  {
    hide Join, ByteLen, Trim, Dispatch, Promote;
    var d := ToolDelta(Some(k), Some(id), Some(name), Some(args));
    var c := Choice(None, None, [d], Some("tool_calls"));
    EventYields(cfg, st, data, [c]);
    var e := Partial(id, name, args, true, false);
    OneDelta(cfg, k, id, name, args);
    var tools := map[k := e];
    var p := Promote(cfg, tools, cfg.order(tools));
    OnlyEntryIsPromoted(cfg, tools, k, e);
    assert [d][1..] == [] && [c][1..] == [];
    assert CallsEffect(cfg, map[], [d]) == Assembled(tools, [Waiting(k, id, Some(name))]) by {
      assert CallsEffect(cfg, tools, []) == Assembled(tools, []);
    }
    var out := [Waiting(k, id, Some(name))];
    assert ChoiceEffect(cfg, map[], c) == Assembled(p.tools, out + p.out) by {
      assert [] + out == out;
    }
    assert EventEffect(cfg, map[], [c]) == Assembled(p.tools, out + p.out) by {
      assert EventEffect(cfg, p.tools, []) == Assembled(p.tools, []);
      assert (out + p.out) + [] == out + p.out;
    }
    ReadyCountConcat(out, p.out, k);
    assert out[1..] == [];
  }

  lemma OneDelta(cfg: Config, k: nat, id: string, name: string, args: string)
    requires id != "" && name != "" && ByteLen(args) <= cfg.maxArgs
    ensures IngestDelta(cfg, map[], Delta(k, Some(id), Some(name), Some(args))) ==
            Assembled(map[k := Partial(id, name, args, true, false)], [Waiting(k, id, Some(name))])
  {
    hide ByteLen;
    EmptyText();
    assert "" + name == name && "" + args == args;
  }

  lemma OnlyEntryIsPromoted(cfg: Config, tools: map<nat, Partial>, k: nat, e: Partial)
    requires GoodOrder(cfg) && tools == map[k := e] && !e.ready && Promotable(cfg, e)
    ensures var p := Promote(cfg, tools, cfg.order(tools));
            p.Assembled? && ReadyCount(p.out, k) == 1 && Ready(k, e.id, e.name, e.arguments) in p.out
  {
    hide Promote;
    var keys := cfg.order(tools);
    assert forall x :: x in keys <==> x in (set y | y in keys);
    PromoteSucceeds(cfg, tools, keys);
    PromoteEffect(cfg, tools, keys, k);
    var p := Promote(cfg, tools, keys);
    var j := ReadyIsThere(p.out, k);
    PromoteFragments(cfg, tools, keys, j);
  }

  lemma {:induction false} PromoteSucceeds(cfg: Config, tools: map<nat, Partial>, keys: seq<nat>)
    requires forall k :: k in tools && !tools[k].ready ==> Promotable(cfg, tools[k])
    ensures Promote(cfg, tools, keys).Assembled?
    decreases |keys|
  {
    if keys != [] {
      var h := keys[0];
      if h in tools && !tools[h].ready {
        PromoteSucceeds(cfg, tools[h := tools[h].(ready := true)], keys[1..]);
      } else {
        PromoteSucceeds(cfg, tools, keys[1..]);
      }
    }
  }

  lemma {:induction false} ReadyIsThere(out: seq<Fragment>, k: nat) returns (j: nat)
    requires ReadyCount(out, k) > 0
    ensures j < |out| && out[j].Ready? && out[j].index == k
  {
    if out[0].Ready? && out[0].index == k {
      j := 0;
    } else {
      var i := ReadyIsThere(out[1..], k);
      j := i + 1;
    }
  }

  /** What each reason for finishing does: one promotes, four do nothing, and any other is refused. */
  lemma FinishMeans(cfg: Config, tools: map<nat, Partial>, reason: string)
    requires GoodOrder(cfg)
    ensures reason == "stop" || reason == "length" || reason == "content_filter" || reason == "null" ==>
              FinishReason(cfg, tools, reason) == Assembled(tools, [])
    ensures reason !in ["tool_calls", "stop", "length", "content_filter", "null"] ==>
              FinishReason(cfg, tools, reason) == Refused(tools, MalformedPayload)
    ensures FinishReason(cfg, tools, "tool_calls").Assembled? <==>
              forall k :: k in tools && !tools[k].ready ==>
                tools[k].id != "" && tools[k].name != "" && cfg.complete(tools[k].arguments)
    ensures FinishReason(cfg, tools, "tool_calls").Refused? ==>
              FinishReason(cfg, tools, "tool_calls").error == MalformedPayload
  {
    hide Promote;
    var keys := cfg.order(tools);
    assert forall x :: x in keys <==> x in (set y | y in keys);
    PromoteExactly(cfg, tools, keys);
  }

  lemma {:induction false} PromoteExactly(cfg: Config, tools: map<nat, Partial>, keys: seq<nat>)
    ensures Promote(cfg, tools, keys).Assembled? <==>
              forall k :: k in keys && k in tools && !tools[k].ready ==> Promotable(cfg, tools[k])
    ensures Promote(cfg, tools, keys).Refused? ==> Promote(cfg, tools, keys).error == MalformedPayload
    decreases |keys|
  {
    if keys != [] {
      var h := keys[0];
      assert forall k :: k in keys <==> k == h || k in keys[1..];
      if h !in tools || tools[h].ready {
        PromoteExactly(cfg, tools, keys[1..]);
      } else if Promotable(cfg, tools[h]) {
        var tools' := tools[h := tools[h].(ready := true)];
        PromoteExactly(cfg, tools', keys[1..]);
        assert forall k :: k in tools' && !tools'[k].ready ==> tools'[k] == tools[k];
        assert forall k :: k in tools && !tools[k].ready && k != h ==> k in tools' && tools'[k] == tools[k];
      }
    }
  }

  /** A delta is refused exactly when its arguments take those of its index over the bound. */
  lemma DeltaRefusedExactly(cfg: Config, tools: map<nat, Partial>, op: Op)
    requires op.Delta?
    ensures var had := if op.index in tools then ByteLen(tools[op.index].arguments) else 0;
            && (IngestDelta(cfg, tools, op).Refused? <==>
                op.args.Some? && had + ByteLen(op.args.value) > cfg.maxArgs)
            && (IngestDelta(cfg, tools, op).Refused? ==> IngestDelta(cfg, tools, op).error == ToolLimitExceeded)
  {
    hide ByteLen;
    EmptyText();
  }

  // Whole streams, in terms of the choices heard.

  function Picked(calls: seq<ToolDelta>, k: nat): seq<ToolDelta> {
    if calls == [] then []
    else Picked(calls[..|calls| - 1], k) + if For(calls[|calls| - 1], k) then [calls[|calls| - 1]] else []
  }

  /** The deltas for tool index `k`, in order, of the choices that are read. */
  function DeltasOf(choices: seq<Choice>, k: nat): seq<ToolDelta> {
    if choices == [] then []
    else
      var c := choices[|choices| - 1];
      DeltasOf(choices[..|choices| - 1], k) + if Relevant(c) then Picked(c.calls, k) else []
  }

  /** Their arguments, one after the other. */
  function ArgsSaid(ds: seq<ToolDelta>): string {
    if ds == [] then ""
    else ArgsSaid(ds[..|ds| - 1]) + if ds[|ds| - 1].args.Some? then ds[|ds| - 1].args.value else ""
  }

  /** Their names, one after the other. */
  function NameSaid(ds: seq<ToolDelta>): string {
    if ds == [] then ""
    else NameSaid(ds[..|ds| - 1]) + if ds[|ds| - 1].name.Some? then ds[|ds| - 1].name.value else ""
  }

  /** The last id that is not empty. */
  function IdSaid(ds: seq<ToolDelta>): string {
    if ds == [] then ""
    else if ds[|ds| - 1].id.Some? && ds[|ds| - 1].id.value != "" then ds[|ds| - 1].id.value
    else IdSaid(ds[..|ds| - 1])
  }

  predicate Finishes(c: Choice) { Relevant(c) && c.finish == Some("tool_calls") }

  /** A choice finished with `tool_calls` when `k` was known, by an earlier delta or one of its own. */
  predicate FinishedIn(choices: seq<Choice>, k: nat) {
    exists n :: 0 <= n < |choices| && Finishes(choices[n]) && DeltasOf(choices[..n + 1], k) != []
  }

  /** A ready fragment is what was said for its index up to and with the first choice that finishes it. */
  predicate ReadyFrom(cfg: Config, choices: seq<Choice>, f: Fragment) {
    f.Ready? ==> exists n :: 0 <= n < |choices| && Finishes(choices[n]) && ReadyAfter(cfg, choices, n, f)
  }

  predicate ReadyAfter(cfg: Config, choices: seq<Choice>, n: nat, f: Fragment)
    requires f.Ready? && n < |choices|
  {
    var ds := DeltasOf(choices[..n + 1], f.index);
    && ds != [] && !FinishedIn(choices[..n], f.index)
    && f.id == IdSaid(ds) != "" && f.name == NameSaid(ds) != "" && f.arguments == ArgsSaid(ds)
    && cfg.complete(f.arguments) && ByteLen(f.arguments) <= cfg.maxArgs
  }

  // From choices to operations.

  /** The operations say of `k` what these deltas say. */
  predicate SaysOf(ops: seq<Op>, k: nat, ds: seq<ToolDelta>) {
    && (Seen(ops, k) <==> ds != [])
    && ArgsOf(ops, k) == ArgsSaid(ds) && NameOf(ops, k) == NameSaid(ds) && IdOf(ops, k) == IdSaid(ds)
  }

  lemma SaidGrows(ds: seq<ToolDelta>, d: ToolDelta)
    ensures ArgsSaid(ds + [d]) == ArgsSaid(ds) + if d.args.Some? then d.args.value else ""
    ensures NameSaid(ds + [d]) == NameSaid(ds) + if d.name.Some? then d.name.value else ""
    ensures IdSaid(ds + [d]) == if d.id.Some? && d.id.value != "" then d.id.value else IdSaid(ds)
  {
    assert (ds + [d])[..|ds|] == ds;
  }

  lemma OperationSays(ops: seq<Op>, op: Op, k: nat, ds: seq<ToolDelta>)
    requires SaysOf(ops, k, ds) && !Touches(op, k)
    ensures SaysOf(ops + [op], k, ds)
  {
    hide Seen, ArgsOf, NameOf, IdOf;
    SeenGrows(ops, op, k);
    TextsGrow(ops, op, k);
    assert ArgsOf(ops, k) + "" == ArgsOf(ops, k) && NameOf(ops, k) + "" == NameOf(ops, k);
  }

  lemma DeltaSays(ops: seq<Op>, d: ToolDelta, k: nat, ds: seq<ToolDelta>)
    requires SaysOf(ops, k, ds)
    ensures SaysOf(ops + [Delta(Index(d.index), d.id, d.name, d.args)], k, ds + if For(d, k) then [d] else [])
  {
    hide Seen, ArgsOf, NameOf, IdOf, ArgsSaid, NameSaid, IdSaid;
    var op := Delta(Index(d.index), d.id, d.name, d.args);
    if For(d, k) {
      SeenGrows(ops, op, k);
      TextsGrow(ops, op, k);
      SaidGrows(ds, d);
    } else {
      OperationSays(ops, op, k, ds);
      assert ds + [] == ds;
    }
  }

  lemma {:induction false} DeltasSay(ops: seq<Op>, calls: seq<ToolDelta>, k: nat, ds: seq<ToolDelta>)
    requires SaysOf(ops, k, ds)
    ensures SaysOf(ops + DeltaOps(calls), k, ds + Picked(calls, k))
    decreases |calls|
  {
    hide SaysOf, For;
    if calls == [] {
      assert ops + [] == ops && ds + [] == ds;
    } else {
      var n := |calls| - 1;
      var init, d := calls[..n], calls[n];
      assert calls == init + [d];
      DeltasSay(ops, init, k, ds);
      DeltaOpsAppend(init, d);
      DeltaSays(ops + DeltaOps(init), d, k, ds + Picked(init, k));
      var op := Delta(Index(d.index), d.id, d.name, d.args);
      assert ops + DeltaOps(calls) == (ops + DeltaOps(init)) + [op];
      var last := if For(d, k) then [d] else [];
      assert ds + Picked(calls, k) == (ds + Picked(init, k)) + last;
    }
  }

  lemma {:induction false} DeltaOpsAppend(calls: seq<ToolDelta>, d: ToolDelta)
    ensures DeltaOps(calls + [d]) == DeltaOps(calls) + [Delta(Index(d.index), d.id, d.name, d.args)]
    decreases |calls|
  {
    if calls == [] {
      assert ([] + [d])[1..] == [];
    } else {
      assert (calls + [d])[1..] == calls[1..] + [d];
      DeltaOpsAppend(calls[1..], d);
    }
  }

  /** The operations of a choice in front of its finish. */
  function Body(c: Choice): seq<Op> {
    (if c.content.Some? && c.content.value != "" then [Say(c.content.value)] else []) + DeltaOps(c.calls)
  }

  lemma BodySays(ops: seq<Op>, c: Choice, k: nat, ds: seq<ToolDelta>)
    requires SaysOf(ops, k, ds)
    ensures SaysOf(ops + Body(c), k, ds + Picked(c.calls, k))
  {
    hide SaysOf, DeltaOps, Picked;
    if c.content.Some? && c.content.value != "" {
      var say := Say(c.content.value);
      OperationSays(ops, say, k, ds);
      DeltasSay(ops + [say], c.calls, k, ds);
      assert ops + Body(c) == (ops + [say]) + DeltaOps(c.calls);
    } else {
      DeltasSay(ops, c.calls, k, ds);
      assert Body(c) == DeltaOps(c.calls);
    }
  }

  lemma {:induction false} BodyNeverFinishes(c: Choice, j: nat)
    requires j < |Body(c)|
    ensures !Body(c)[j].Finish?
  {
    var text := if c.content.Some? && c.content.value != "" then [Say(c.content.value)] else [];
    if j >= |text| {
      DeltaOpsAreDeltas(c.calls, j - |text|);
    }
  }

  lemma {:induction false} DeltaOpsAreDeltas(calls: seq<ToolDelta>, j: nat)
    requires j < |DeltaOps(calls)|
    ensures DeltaOps(calls)[j].Delta?
  {
    if j > 0 {
      DeltaOpsAreDeltas(calls[1..], j - 1);
    }
  }

  lemma ChoiceInParts(c: Choice)
    ensures ChoiceOps(c) ==
            if !Relevant(c) then [] else Body(c) + if c.finish.Some? then [Finish(c.finish.value)] else []
  {
  }

  lemma EventOpsAppend(choices: seq<Choice>, c: Choice)
    ensures EventOps(choices + [c]) == EventOps(choices) + ChoiceOps(c)
  {
    hide ChoiceOps;
    EventOpsConcat(choices, [c]);
    assert [c][1..] == [] && EventOps([c]) == ChoiceOps(c) + [];
    assert ChoiceOps(c) + [] == ChoiceOps(c);
  }

  /** What the operations of some choices say of `k` is what its deltas say, and they finish it when the choices do. */
  lemma {:induction false} OperationsSay(choices: seq<Choice>, k: nat)
    ensures SaysOf(EventOps(choices), k, DeltasOf(choices, k))
    ensures Finished(EventOps(choices), k) <==> FinishedIn(choices, k)
    decreases |choices|
  {
    hide SaysOf, Finished, EventOps, ChoiceOps, Body, Picked, Relevant;
    if choices == [] {
      NothingSaid(k);
    } else {
      var n := |choices| - 1;
      var init, c := choices[..n], choices[n];
      assert choices == init + [c];
      OperationsSay(init, k);
      EventOpsAppend(init, c);
      ChoiceInParts(c);
      var ops, ds := EventOps(init), DeltasOf(init, k);
      FinishedInGrows(init, c, k);
      if Relevant(c) {
        BodySays(ops, c, k, ds);
        BodyKeepsFinished(ops, c, k);
        if c.finish.Some? {
          var f := Finish(c.finish.value);
          OperationSays(ops + Body(c), f, k, ds + Picked(c.calls, k));
          FinishedGrows(ops + Body(c), f, k);
          SeenIsSaid(ops + Body(c), k, ds + Picked(c.calls, k));
          assert EventOps(choices) == (ops + Body(c)) + [f];
        } else {
          assert EventOps(choices) == ops + Body(c);
        }
      } else {
        assert EventOps(choices) == ops && ds + [] == ds;
      }
    }
  }

  lemma SeenIsSaid(ops: seq<Op>, k: nat, ds: seq<ToolDelta>)
    requires SaysOf(ops, k, ds)
    ensures Seen(ops, k) <==> ds != []
  {
    hide Seen;
  }

  lemma NothingSaid(k: nat)
    ensures SaysOf(EventOps([]), k, []) && !Finished(EventOps([]), k)
  {
  }

  lemma {:induction false} OpsKeepFinished(ops: seq<Op>, more: seq<Op>, k: nat)
    requires forall j :: 0 <= j < |more| ==> !more[j].Finish?
    ensures Finished(ops + more, k) <==> Finished(ops, k)
    decreases |more|
  {
    hide Finished;
    if more == [] {
      assert ops + more == ops;
    } else {
      var n := |more| - 1;
      OpsKeepFinished(ops, more[..n], k);
      FinishedGrows(ops + more[..n], more[n], k);
      assert ops + more == (ops + more[..n]) + [more[n]];
    }
  }

  lemma BodyKeepsFinished(ops: seq<Op>, c: Choice, k: nat)
    ensures Finished(ops + Body(c), k) <==> Finished(ops, k)
  {
    hide Finished, Body;
    forall j | 0 <= j < |Body(c)| ensures !Body(c)[j].Finish? {
      BodyNeverFinishes(c, j);
    }
    OpsKeepFinished(ops, Body(c), k);
  }

  lemma FinishedInGrows(choices: seq<Choice>, c: Choice, k: nat)
    ensures FinishedIn(choices + [c], k) <==>
            FinishedIn(choices, k) || (Finishes(c) && DeltasOf(choices + [c], k) != [])
  {
    hide DeltasOf, Finishes;
    var all := choices + [c];
    assert all[..|choices| + 1] == all && all[|choices|] == c;
    assert forall n :: 0 <= n < |choices| ==> all[n] == choices[n] && all[..n + 1] == choices[..n + 1];
    if FinishedIn(choices, k) {
      var n :| 0 <= n < |choices| && Finishes(choices[n]) && DeltasOf(choices[..n + 1], k) != [];
      assert Finishes(all[n]) && DeltasOf(all[..n + 1], k) != [];
    }
    if FinishedIn(all, k) {
      var n :| 0 <= n < |all| && Finishes(all[n]) && DeltasOf(all[..n + 1], k) != [];
      if n < |choices| {
        assert Finishes(choices[n]) && DeltasOf(choices[..n + 1], k) != [];
      }
    }
  }

  /** A fragment justified by the operations is justified by the choices. */
  lemma {:induction false} JustifiedByChoices(cfg: Config, choices: seq<Choice>, f: Fragment)
    requires Justified(cfg, EventOps(choices), f)
    ensures ReadyFrom(cfg, choices, f)
    decreases |choices|
  {
    hide JustifiedBy, EventOps, ChoiceOps, Body, ReadyAfter;
    if f.Ready? {
      var ops := EventOps(choices);
      var m :| 0 <= m < |ops| && ops[m] == Finish("tool_calls") && JustifiedBy(cfg, ops[..m], f);
      SomethingHeard(choices);
      var n := |choices| - 1;
      var init, c := choices[..n], choices[n];
      assert choices == init + [c];
      EventOpsAppend(init, c);
      ChoiceInParts(c);
      var before := EventOps(init);
      if m < |before| {
        assert before[m] == ops[m] && before[..m] == ops[..m];
        JustifiedByChoices(cfg, init, f);
        ReadyFromGrows(cfg, init, c, f);
      } else {
        FinishIsLast(c, m - |before|);
        assert ops[m] == ChoiceOps(c)[m - |before|];
        assert ops[..m] == before + Body(c);
        LastChoiceReady(cfg, init, c, f);
      }
    }
  }

  lemma SomethingHeard(choices: seq<Choice>)
    ensures EventOps(choices) != [] ==> choices != []
  {
  }

  lemma FinishIsLast(c: Choice, j: nat)
    requires j < |ChoiceOps(c)|
    ensures ChoiceOps(c)[j].Finish? ==> Relevant(c) && j == |Body(c)| && c.finish == Some(ChoiceOps(c)[j].reason)
  {
    hide Body;
    ChoiceInParts(c);
    if j < |Body(c)| {
      BodyNeverFinishes(c, j);
    }
  }

  lemma ReadyFromGrows(cfg: Config, choices: seq<Choice>, c: Choice, f: Fragment)
    requires ReadyFrom(cfg, choices, f)
    ensures ReadyFrom(cfg, choices + [c], f)
  {
    hide DeltasOf, FinishedIn, IdSaid, NameSaid, ArgsSaid, ByteLen, Finishes;
    if f.Ready? {
      var n :| 0 <= n < |choices| && Finishes(choices[n]) && ReadyAfter(cfg, choices, n, f);
      var all := choices + [c];
      assert all[n] == choices[n] && all[..n + 1] == choices[..n + 1] && all[..n] == choices[..n];
      assert Finishes(all[n]) && ReadyAfter(cfg, all, n, f);
    }
  }

  lemma LastChoiceReady(cfg: Config, init: seq<Choice>, c: Choice, f: Fragment)
    requires f.Ready? && Finishes(c) && JustifiedBy(cfg, EventOps(init) + Body(c), f)
    ensures ReadyFrom(cfg, init + [c], f)
  {
    hide EventOps, Body, Seen, Finished, ArgsOf, NameOf, IdOf, ByteLen, FinishedIn, Picked, IdSaid, NameSaid, ArgsSaid;
    var k, all := f.index, init + [c];
    OperationsSay(init, k);
    BodySays(EventOps(init), c, k, DeltasOf(init, k));
    BodyKeepsFinished(EventOps(init), c, k);
    assert all[..|init|] == init && all[..|init| + 1] == all && all[|init|] == c;
    assert DeltasOf(all, k) == DeltasOf(init, k) + Picked(c.calls, k);
    assert ReadyAfter(cfg, all, |init|, f);
  }

  /**
   Tool-call readiness over every stream, accepted or not, in terms of the choices of its accepted events: each index
   is delivered ready at most once, exactly when a choice finished with `tool_calls` after or with a delta for it, with
   the last id, the name and the in-order arguments said for it up to then, complete and within the bound.
   */
  lemma ReadinessOverEveryStream(cfg: Config, chunks: seq<seq<byte>>)
    requires GoodOrder(cfg)
    ensures var out, choices := PushAll(cfg, START, chunks).delivered, Accepted(cfg, START, chunks).heard;
            && (forall k :: ReadyCount(out, k) <= 1)
            && (forall k :: ReadyCount(out, k) == 1 <==> FinishedIn(choices, k))
            && (forall j :: 0 <= j < |out| ==> ReadyFrom(cfg, choices, out[j]))
  {
    hide PushAll, Accepted, Finished, FinishedIn, Justified, ReadyFrom, ReadyCount, GoodOrder, SaysOf, EventOps,
         ArgsOf, NameOf, IdOf, ByteLen, Seen;
    var out, choices := PushAll(cfg, START, chunks).delivered, Accepted(cfg, START, chunks).heard;
    ReadinessOfOperations(cfg, chunks);
    var tools := Accepted(cfg, START, chunks).tools;
    forall k
      ensures ReadyCount(out, k) <= 1 && (ReadyCount(out, k) == 1 <==> FinishedIn(choices, k))
    {
      assert EntryFollows(cfg, EventOps(choices), tools, k);
      SeenIfFinished(EventOps(choices), k);
      OperationsSay(choices, k);
    }
    forall j | 0 <= j < |out| ensures ReadyFrom(cfg, choices, out[j]) {
      JustifiedByChoices(cfg, choices, out[j]);
    }
  }

  // From bytes to choices.

  /** A line of `data:` and a payload, and the blank line after it, for each payload. */
  function StreamOf(payloads: seq<string>): seq<byte> {
    if payloads == [] then [] else EventOf("data: " + payloads[0]) + StreamOf(payloads[1..])
  }

  /** A payload that fits, parses and is not the end marker. */
  predicate GoodPayload(cfg: Config, p: string) {
    && '\n' !in p && (p == "" || p[|p| - 1] != '\r')
    && ByteLen("data: " + p) <= cfg.maxLine && ByteLen(p) <= cfg.maxEvent
    && Trim(p) != "[DONE]" && cfg.parse(p).Some?
  }

  predicate GoodPayloads(cfg: Config, ps: seq<string>) { forall k :: 0 <= k < |ps| ==> GoodPayload(cfg, ps[k]) }

  function ChoicesOf(cfg: Config, ps: seq<string>): seq<Choice>
    requires GoodPayloads(cfg, ps)
  {
    if ps == [] then [] else cfg.parse(ps[0]).value + ChoicesOf(cfg, ps[1..])
  }

  lemma PayloadOfLine(p: string)
    ensures Payload("data: " + p) == Some(p)
  {
    var line := "data: " + p;
    assert line[..5] == "data:" && line[5..] == " " + p && (" " + p)[1..] == p;
  }

  lemma {:induction false} EffectConcat(cfg: Config, tools: map<nat, Partial>, s: seq<Choice>, t: seq<Choice>)
    ensures EventEffect(cfg, tools, s + t) ==
            match EventEffect(cfg, tools, s)
            case Assembled(tools', out) => Prefixed(out, EventEffect(cfg, tools', t))
            case refused => refused
    decreases |s|
  {
    hide EventEffect, EventOps, PerformAll;
    EventIsPerformed(cfg, tools, s + t);
    EventIsPerformed(cfg, tools, s);
    EventOpsConcat(s, t);
    PerformConcat(cfg, tools, EventOps(s), EventOps(t));
    var a := PerformAll(cfg, tools, EventOps(s));
    if a.Assembled? {
      EventIsPerformed(cfg, a.tools, t);
    }
  }

  lemma PayloadIsHeard(cfg: Config, st: Sse, p: string)
    requires GoodPayload(cfg, p) && st.carry == [] && st.lines == []
    requires EventEffect(cfg, st.tools, cfg.parse(p).value).Assembled?
    ensures var a, cs := EventEffect(cfg, st.tools, cfg.parse(p).value), cfg.parse(p).value;
            Feed(cfg, st, EventOf("data: " + p)) == Handled(st.(tools := a.tools, heard := st.heard + cs), a.out)
  {
    hide Feed, Dispatch, EventEffect, Payload, ByteLen, Trim, EventOf;
    var line := "data: " + p;
    PayloadOfLine(p);
    assert line[|line| - 1] == if p == "" then ' ' else p[|p| - 1];
    EventIsDispatched(cfg, st, line);
    var st1 := st.(lines := [p]);
    assert Join([p]) == p;
    EventYields(cfg, st1, p, cfg.parse(p).value);
    DispatchKeepsCarry(cfg, st1);
  }

  lemma DispatchKeepsCarry(cfg: Config, st: Sse)
    ensures Dispatch(cfg, st).st.carry == st.carry
  {
    hide PerformAll, EventOps, Join, ByteLen, Trim;
  }

  lemma {:induction false} StreamIsHeard(cfg: Config, st: Sse, ps: seq<string>)
    requires GoodPayloads(cfg, ps) && st.carry == [] && st.lines == []
    requires EventEffect(cfg, st.tools, ChoicesOf(cfg, ps)).Assembled?
    ensures var a := EventEffect(cfg, st.tools, ChoicesOf(cfg, ps));
            Feed(cfg, st, StreamOf(ps)) == Handled(st.(tools := a.tools, heard := st.heard + ChoicesOf(cfg, ps)), a.out)
    decreases |ps|
  {
    hide Feed, GoodPayload, EventOf;
    if ps == [] {
      FeedNothing(cfg, st, []);
      assert st.heard + [] == st.heard;
    } else {
      assert GoodPayload(cfg, ps[0]);
      GoodParses(cfg, ps[0]);
      var first, later := cfg.parse(ps[0]).value, ChoicesOf(cfg, ps[1..]);
      EffectConcat(cfg, st.tools, first, later);
      hide EventEffect;
      PayloadIsHeard(cfg, st, ps[0]);
      var a := EventEffect(cfg, st.tools, first);
      var st1 := st.(tools := a.tools, heard := st.heard + first);
      StreamIsHeard(cfg, st1, ps[1..]);
      FeedConcat(cfg, st, EventOf("data: " + ps[0]), StreamOf(ps[1..]));
      assert (st.heard + first) + later == st.heard + (first + later);
    }
  }

  lemma GoodParses(cfg: Config, p: string)
    requires GoodPayload(cfg, p)
    ensures cfg.parse(p).Some?
  {
  }

  lemma OpenStreamHasNoMarker(cfg: Config, st: Sse, stream: seq<byte>)
    requires Feed(cfg, st, stream).Handled? && !Feed(cfg, st, stream).st.done
    ensures NothingAfterDone(cfg, st, stream)
  {
    hide Feed;
    forall p | p < stream ensures !Feed(cfg, st, p).st.done {
      var rest := stream[|p|..];
      assert stream == p + rest;
      FeedConcat(cfg, st, p, rest);
      var f := Feed(cfg, st, p);
      if f.Handled? && f.st.done {
        FeedKeepsDone(cfg, f.st, rest);
      }
    }
  }

  /**
   Round trip: payloads sent as server-sent events, cut into any chunks, are parsed one by one, and what is delivered
   is the effect of all their choices in order.
   */
  lemma SseRoundTrip(cfg: Config, ps: seq<string>, chunks: seq<seq<byte>>)
    requires GoodPayloads(cfg, ps) && Flatten(chunks) == StreamOf(ps)
    requires EventEffect(cfg, map[], ChoicesOf(cfg, ps)).Assembled?
    ensures var a := EventEffect(cfg, map[], ChoicesOf(cfg, ps));
            PushAll(cfg, START, chunks) == Observed(a.out, START.(tools := a.tools, heard := ChoicesOf(cfg, ps)), None)
  {
    hide Feed, PushAll, EventEffect, GoodPayloads, StreamOf, NothingAfterDone, ChoicesOf, Flatten;
    StreamIsHeard(cfg, START, ps);
    assert [] + ChoicesOf(cfg, ps) == ChoicesOf(cfg, ps);
    OpenStreamHasNoMarker(cfg, START, StreamOf(ps));
    PushAllIsFeed(cfg, START, chunks);
  }

  /** A carriage return in front of a line feed belongs to the line break. */
  lemma CrlfIsLf(cfg: Config, st: Sse)
    requires |st.carry| < cfg.maxLine && (st.carry == [] || st.carry[|st.carry| - 1] != 0x0D)
    ensures Feed(cfg, st, [0x0D, 0x0A]) == Feed(cfg, st, [0x0A])
  {
    hide HandleLine, Feed;
    var st1 := st.(carry := st.carry + [CR]);
    assert [0x0D, 0x0A] == [CR] + [LF];
    FeedConcat(cfg, st, [CR], [LF]);
    FeedOne(cfg, st, CR);
    FeedOne(cfg, st1, LF);
    FeedOne(cfg, st, LF);
    assert (st.carry + [CR])[..|st.carry|] == st.carry;
    AfterNothing(Feed(cfg, st1, [LF]));
  }

  /** A line that is not a data line is passed over: comments, event names, ids. */
  lemma OtherLinesAreIgnored(cfg: Config, st: Sse, line: string)
    requires line != "" && !("data:" <= line)
    ensures HandleLine(cfg, st, EncodeAll(line)) == Handled(st, [])
  {
    hide SplitValid, EncodeAll, Dispatch;
    EncodedDecodes(line);
    EncodedLength(line);
    NotEmptyHasBytes(line);
  }

  /** Several data lines make one event, joined by line breaks. */
  lemma DataLinesAreJoined(cfg: Config, st: Sse, p: string, q: string)
    requires st.lines == []
    ensures var o := HandleLine(cfg, st, EncodeAll("data: " + p));
            o.Handled? && HandleLine(cfg, o.st, EncodeAll("data: " + q)) == Handled(st.(lines := [p, q]), [])
            && Join([p, q]) == p + "\n" + q
  {
    hide SplitValid, EncodeAll, Dispatch, Payload;
    EncodedDecodes("data: " + p);
    EncodedDecodes("data: " + q);
    PayloadOfLine(p);
    PayloadOfLine(q);
    EncodedLength("data: " + p);
    EncodedLength("data: " + q);
    NotEmptyHasBytes("data: " + p);
    NotEmptyHasBytes("data: " + q);
    assert [] + [p] == [p] && [p] + [q] == [p, q] && [p, q][1..] == [q];
  }

  // Waiting notices.

  function WaitingCount(out: seq<Fragment>, k: nat): nat {
    if out == [] then 0
    else (if out[0].Waiting? && out[0].index == k then 1 else 0) + WaitingCount(out[1..], k)
  }

  lemma {:induction false} WaitingCountConcat(s: seq<Fragment>, t: seq<Fragment>, k: nat)
    ensures WaitingCount(s + t, k) == WaitingCount(s, k) + WaitingCount(t, k)
  {
    if s == [] {
      assert s + t == t;
    } else {
      assert (s + t)[1..] == s[1..] + t;
      WaitingCountConcat(s[1..], t, k);
    }
  }

  /** An index is announced exactly once it has an id, and an entry that is ready has one. */
  predicate Announced(tools: map<nat, Partial>, out: seq<Fragment>, k: nat) {
    && WaitingCount(out, k) == (if k in tools && tools[k].id != "" then 1 else 0)
    && (k in tools ==> (tools[k].emittedWaiting <==> tools[k].id != "") && (tools[k].ready ==> tools[k].id != ""))
  }

  lemma DeltaAnnounces(cfg: Config, tools: map<nat, Partial>, out: seq<Fragment>, op: Op, k: nat)
    requires op.Delta? && IngestDelta(cfg, tools, op).Assembled? && Announced(tools, out, k)
    ensures var a := IngestDelta(cfg, tools, op); Announced(a.tools, out + a.out, k)
  {
    hide ByteLen;
    var a := IngestDelta(cfg, tools, op);
    WaitingCountConcat(out, a.out, k);
    if |a.out| == 1 {
      assert a.out[1..] == [];
    }
  }

  lemma {:induction false} PromoteAnnounces(cfg: Config, tools: map<nat, Partial>, keys: seq<nat>, k: nat)
    requires Promote(cfg, tools, keys).Assembled?
    ensures var a := Promote(cfg, tools, keys);
            && WaitingCount(a.out, k) == 0 && (k in a.tools <==> k in tools)
            && (k in tools ==> a.tools[k].id == tools[k].id && a.tools[k].emittedWaiting == tools[k].emittedWaiting
                               && (a.tools[k].ready ==> tools[k].ready || tools[k].id != ""))
    decreases |keys|
  {
    if keys != [] {
      var h := keys[0];
      if h !in tools || tools[h].ready {
        PromoteAnnounces(cfg, tools, keys[1..], k);
      } else {
        var e := tools[h];
        var tools' := tools[h := e.(ready := true)];
        PromoteAnnounces(cfg, tools', keys[1..], k);
        var first := [Ready(h, e.id, e.name, e.arguments)];
        assert first[1..] == [];
        WaitingCountConcat(first, Promote(cfg, tools', keys[1..]).out, k);
      }
    }
  }

  lemma PerformAnnounces(cfg: Config, tools: map<nat, Partial>, out: seq<Fragment>, op: Op, k: nat)
    requires Perform(cfg, tools, op).Assembled? && Announced(tools, out, k)
    ensures var a := Perform(cfg, tools, op); Announced(a.tools, out + a.out, k)
  {
    hide IngestDelta, Promote, WaitingCount;
    var a := Perform(cfg, tools, op);
    if op.Delta? {
      DeltaAnnounces(cfg, tools, out, op, k);
    } else {
      WaitingCountConcat(out, a.out, k);
      if op == Finish("tool_calls") {
        PromoteAnnounces(cfg, tools, cfg.order(tools), k);
      } else {
        QuietWaits(a.out, k);
      }
    }
  }

  lemma QuietWaits(out: seq<Fragment>, k: nat)
    requires out == [] || (|out| == 1 && !out[0].Waiting?)
    ensures WaitingCount(out, k) == 0
  {
    if out != [] {
      assert out[1..] == [];
    }
  }

  lemma {:induction false} LogAnnounces(cfg: Config, log: seq<Op>, k: nat)
    requires PerformAll(cfg, map[], log).Assembled?
    ensures var a := PerformAll(cfg, map[], log); Announced(a.tools, a.out, k)
    decreases |log|
  {
    hide Perform, Announced;
    if log == [] {
      NothingAnnounced(k);
    } else {
      var init, op := log[..|log| - 1], log[|log| - 1];
      assert log == init + [op];
      PerformConcat(cfg, map[], init, [op]);
      LogAnnounces(cfg, init, k);
      var a := PerformAll(cfg, map[], init);
      PerformOne(cfg, a.tools, op);
      PerformAnnounces(cfg, a.tools, a.out, op, k);
    }
  }

  lemma NothingAnnounced(k: nat)
    ensures Announced(map[], [], k)
  {
  }

  /** Over every stream each tool index is announced at most once, and exactly when an id was given for it. */
  lemma AnnouncedOverEveryStream(cfg: Config, chunks: seq<seq<byte>>, k: nat)
    requires GoodOrder(cfg)
    ensures var out, choices := PushAll(cfg, START, chunks).delivered, Accepted(cfg, START, chunks).heard;
            WaitingCount(out, k) == if IdSaid(DeltasOf(choices, k)) != "" then 1 else 0
  {
    hide PushAll, Accepted, EventOps, PerformAll, WaitingCount, GoodOrder, ArgsOf, NameOf, IdOf, Seen, Finished,
         ByteLen, DeltasOf, IdSaid, NameSaid, ArgsSaid, ReadyCount;
    var out, choices := PushAll(cfg, START, chunks).delivered, Accepted(cfg, START, chunks).heard;
    StartIsFaithful(cfg);
    PushAllIsFaithful(cfg, START, [], chunks);
    assert [] + out == out;
    LogAnnounces(cfg, EventOps(choices), k);
    ReadinessOfOperations(cfg, chunks);
    assert EntryFollows(cfg, EventOps(choices), Accepted(cfg, START, chunks).tools, k);
    OperationsSay(choices, k);
    NothingHasNoId();
  }

  lemma NothingHasNoId()
    ensures IdSaid([]) == ""
  {
  }
}
