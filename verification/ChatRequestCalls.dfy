/** What becomes of the calls, the reasoning and the system texts of a Chat request, told field by field and
    without the conversion's own helpers. */
module ChatRequestCalls {
  import opened Collections
  import opened Wire
  import opened ChatRequest
  import opened ChatRequestFifo
  import opened ChatRequestBack
  import opened ChatRequestRoundTrip
  import opened Conversation
  import Responses
  import ModelIndex

  // ---- calls ----

  /** All calls as the messages make them, a message's legacy call last. */
  function CallsMade(ms: seq<ChatRequest.Message>): seq<ToolCall> {
    if ms == [] then []
    else
      var m := ms[|ms| - 1];
      CallsMade(ms[..|ms| - 1])
      + (if m.role == "assistant" then m.calls else [])
      + (if m.role == "assistant" && m.legacy.Some? then [m.legacy.value] else [])
  }

  function CallsHeld(items: seq<ChatRequest.Item>): seq<ToolCall> {
    if items == [] then []
    else
      var last := items[|items| - 1];
      CallsHeld(items[..|items| - 1]) + (if last.CallItem? then [ToolCall(last.callId, last.name, last.args)] else [])
  }

  function CallsGot(ms: seq<ChatRequest.Message>): seq<ToolCall> {
    if ms == [] then [] else CallsGot(ms[..|ms| - 1]) + ms[|ms| - 1].calls
  }

  /** Arguments that are a JSON object stay as they are, all others become an empty one. */
  predicate ArgsKept(isObject: string -> bool, args: string, got: string) {
    if args != "" && isObject(args) then got == args else got == "{}"
  }

  /** The same calls in the same order, each under its id, name and arguments kept. */
  ghost predicate CallsKept(isObject: string -> bool, made: seq<ToolCall>, ids: seq<string>, got: seq<ToolCall>) {
    && |made| == |ids| == |got|
    && forall k :: 0 <= k < |got| ==> got[k].id == ids[k] && got[k].name == made[k].name && ArgsKept(isObject, made[k].args, got[k].args)
  }

  lemma KeptConcat(isObject: string -> bool, made: seq<ToolCall>, ids: seq<string>, got: seq<ToolCall>,
                   made': seq<ToolCall>, ids': seq<string>, got': seq<ToolCall>)
    requires CallsKept(isObject, made, ids, got) && CallsKept(isObject, made', ids', got')
    ensures CallsKept(isObject, made + made', ids + ids', got + got')
  {
  }

  lemma HeldSnoc(items: seq<ChatRequest.Item>, item: ChatRequest.Item)
    ensures CallsHeld(items + [item]) == CallsHeld(items) + if item.CallItem? then [ToolCall(item.callId, item.name, item.args)] else []
  {
    assert (items + [item])[..|items|] == items;
  }

  lemma OneKept(isObject: string -> bool, tc: ToolCall, id: string)
    ensures CallsKept(isObject, [tc], [id], [ToolCall(id, tc.name, NormalArgs(isObject, tc.args))])
  {
  }

  lemma NoneKept(isObject: string -> bool)
    ensures CallsKept(isObject, [], [], [])
  {
  }

  /** The id and the item of one more call. */
  lemma OneStep(isObject: string -> bool, s: State, tc: ToolCall)
    ensures var id := if tc.id == "" then GeneratedId(s.generatedSeq + 1) else tc.id;
            CallsHeld(CallStep(isObject, s, tc).items) == CallsHeld(s.items) + [ToolCall(id, tc.name, NormalArgs(isObject, tc.args))]
  {
    hide GeneratedId, CallsHeld, NormalArgs;
    var id := if tc.id == "" then GeneratedId(s.generatedSeq + 1) else tc.id;
    HeldSnoc(s.items, CallItem(id, tc.name, NormalArgs(isObject, tc.args)));
  }

  lemma NoStep(isObject: string -> bool, s: State)
    ensures CallsStep(isObject, s, []) == s
  {
  }

  lemma LastStep(isObject: string -> bool, s: State, tcs: seq<ToolCall>)
    requires tcs != []
    ensures CallsStep(isObject, s, tcs) == CallStep(isObject, CallsStep(isObject, s, tcs[..|tcs| - 1]), tcs[|tcs| - 1])
  {
    hide CallStep;
  }

  lemma {:induction false} StepCalls(isObject: string -> bool, s: State, tcs: seq<ToolCall>) returns (more: seq<ToolCall>)
    ensures CallsHeld(CallsStep(isObject, s, tcs).items) == CallsHeld(s.items) + more
    ensures CallsKept(isObject, tcs, NewIds(s.generatedSeq, tcs), more)
    decreases |tcs|
  {
    hide *;
    if tcs == [] {
      NoStep(isObject, s);
      NoNewIds(s.generatedSeq);
      more := [];
      NoneKept(isObject);
    } else {
      var p, last := tcs[..|tcs| - 1], tcs[|tcs| - 1];
      assert tcs == p + [last];
      var t := CallsStep(isObject, s, p);
      var before := StepCalls(isObject, s, p);
      CallsFollow(isObject, s, p);
      NewIdsSnoc(s.generatedSeq, p, last);
      LastStep(isObject, s, tcs);
      OneStep(isObject, t, last);
      var id := if last.id == "" then GeneratedId(t.generatedSeq + 1) else last.id;
      var one := [ToolCall(id, last.name, NormalArgs(isObject, last.args))];
      more := before + one;
      OneKept(isObject, last, id);
      KeptConcat(isObject, p, NewIds(s.generatedSeq, p), before, [last], [id], one);
    }
  }

  lemma NoMoreCalls(role: string, replay: bool, m: ChatRequest.Message, items: seq<ChatRequest.Item>)
    ensures CallsHeld(items + ThoughtOf(replay, m) + TextOf(m)) == CallsHeld(items)
  {
    hide CallsHeld;
    assert items + [] == items;
    if replay && m.reasoning != "" { HeldSnoc(items, ReasoningItem(m.reasoning)); }
    var more := items + ThoughtOf(replay, m);
    assert more + [] == more;
    if m.content != "" { HeldSnoc(more, TextItem("assistant", m.content)); }
  }

  /** The calls of one message and their ids. */
  function CallsOf(m: ChatRequest.Message): seq<ToolCall> {
    m.calls + (if m.legacy.Some? then [m.legacy.value] else [])
  }

  function IdsOf(p: seq<ChatRequest.Message>, m: ChatRequest.Message): seq<string> {
    NewIds(Generated(p), m.calls) + (if m.legacy.Some? then [LegacyId(Legacies(p) + 1)] else [])
  }

  lemma MessageCalls(isObject: string -> bool, replay: bool, s: State, p: seq<ChatRequest.Message>, m: ChatRequest.Message)
    returns (more: seq<ToolCall>)
    requires Follows(s, p) && m.role == "assistant"
    ensures CallsHeld(AssistantStep(isObject, replay, s, m).items) == CallsHeld(s.items) + more
    ensures CallsKept(isObject, CallsOf(m), IdsOf(p, m), more)
  {
    hide LegacyId, NewIds, CallsHeld, CallsStep, ThoughtOf, TextOf, Generated, Legacies, Waiting, OpenLegacy;
    var s1 := s.(items := s.items + ThoughtOf(replay, m) + TextOf(m));
    NoMoreCalls(m.role, replay, m, s.items);
    var plain := StepCalls(isObject, s1, m.calls);
    CallsFollow(isObject, s1, m.calls);
    var t := CallsStep(isObject, s1, m.calls);
    if m.legacy.Some? {
      var id := LegacyId(Legacies(p) + 1);
      HeldSnoc(t.items, CallItem(id, m.legacy.value.name, NormalArgs(isObject, m.legacy.value.args)));
      var one := [ToolCall(id, m.legacy.value.name, NormalArgs(isObject, m.legacy.value.args))];
      OneKept(isObject, m.legacy.value, id);
      KeptConcat(isObject, m.calls, NewIds(Generated(p), m.calls), plain, [m.legacy.value], [id], one);
      more := plain + one;
      assert CallsHeld(s.items) + plain + one == CallsHeld(s.items) + more;
    } else {
      assert m.calls + [] == m.calls && NewIds(Generated(p), m.calls) + [] == NewIds(Generated(p), m.calls);
      more := plain;
    }
  }

  lemma MadeSnoc(p: seq<ChatRequest.Message>, m: ChatRequest.Message)
    ensures CallsMade(p + [m]) == CallsMade(p) + if m.role == "assistant" then CallsOf(m) else []
    ensures MadeIds(p + [m]) == MadeIds(p) + if m.role == "assistant" then IdsOf(p, m) else []
  {
    hide NewIds, LegacyId, Generated, Legacies;
    assert (p + [m])[..|p|] == p;
    assert CallsMade(p) + [] + [] == CallsMade(p) && MadeIds(p) + [] + [] == MadeIds(p);
    if m.role == "assistant" {
      var a, b := m.calls, if m.legacy.Some? then [m.legacy.value] else [];
      assert CallsMade(p) + a + b == CallsMade(p) + (a + b);
      var x, y := NewIds(Generated(p), m.calls), if m.legacy.Some? then [LegacyId(Legacies(p) + 1)] else [];
      assert MadeIds(p) + x + y == MadeIds(p) + (x + y);
    }
  }

  /** What one more message adds. */
  lemma MoreCalls(isObject: string -> bool, replay: bool, s: State, p: seq<ChatRequest.Message>, m: ChatRequest.Message)
    requires Follows(s, p) && MessageStep(isObject, replay, s, m).Some?
    requires CallsKept(isObject, CallsMade(p), MadeIds(p), CallsHeld(s.items))
    ensures CallsKept(isObject, CallsMade(p + [m]), MadeIds(p + [m]), CallsHeld(MessageStep(isObject, replay, s, m).value.items))
  {
    hide AssistantStep, CallsHeld, Follows, CallsKept, CallsMade, MadeIds, CallsOf, IdsOf;
    MadeSnoc(p, m);
    if m.role == "assistant" {
      var more := MessageCalls(isObject, replay, s, p, m);
      KeptConcat(isObject, CallsMade(p), MadeIds(p), CallsHeld(s.items), CallsOf(m), IdsOf(p, m), more);
    } else {
      OtherMessage(isObject, replay, s, m);
      assert CallsMade(p) + [] == CallsMade(p) && MadeIds(p) + [] == MadeIds(p);
    }
  }

  /** The items hold every call of the conversation, in order, under its id, with its name and arguments. */
  lemma {:induction false} ItemsHoldCalls(isObject: string -> bool, replay: bool, ms: seq<ChatRequest.Message>)
    requires LegacyOk(ms)
    ensures Filled(isObject, replay, ms).Some?
    ensures CallsKept(isObject, CallsMade(ms), MadeIds(ms), CallsHeld(Filled(isObject, replay, ms).value.items))
  {
    hide MessageStep, CallsHeld, CallsMade, MadeIds, Follows, LegacyOk, CallsKept;
    FilledFollows(isObject, replay, ms);
    if ms == [] {
      NoCalls(isObject);
    } else {
      var p, m := ms[..|ms| - 1], ms[|ms| - 1];
      FilledFollows(isObject, replay, p);
      ItemsHoldCalls(isObject, replay, p);
      MoreCalls(isObject, replay, Filled(isObject, replay, p).value, p, m);
      assert p + [m] == ms;
    }
  }

  lemma NoCalls(isObject: string -> bool)
    ensures CallsKept(isObject, CallsMade([]), MadeIds([]), CallsHeld([]))
  {
  }

  lemma OtherMessage(isObject: string -> bool, replay: bool, s: State, m: ChatRequest.Message)
    requires m.role != "assistant" && MessageStep(isObject, replay, s, m).Some?
    ensures CallsHeld(MessageStep(isObject, replay, s, m).value.items) == CallsHeld(s.items)
  {
    hide CallsHeld, RemoveFirst;
    var t := MessageStep(isObject, replay, s, m).value;
    if |t.items| > |s.items| {
      HeldSnoc(s.items, t.items[|s.items|]);
    }
  }

  // ---- and back ----

  /** Normalising twice is normalising once. */
  lemma KeptTwice(isObject: string -> bool, args: string, got: string)
    requires ArgsKept(isObject, args, got)
    ensures ArgsKept(isObject, args, NormalArgs(isObject, got))
  {
  }

  function Again(isObject: string -> bool, tcs: seq<ToolCall>): (r: seq<ToolCall>)
    ensures |r| == |tcs| && forall k :: 0 <= k < |r| ==> r[k] == tcs[k].(args := NormalArgs(isObject, tcs[k].args))
  {
    seq(|tcs|, k requires 0 <= k < |tcs| => tcs[k].(args := NormalArgs(isObject, tcs[k].args)))
  }

  lemma GotSnoc(ms: seq<ChatRequest.Message>, m: ChatRequest.Message)
    ensures CallsGot(ms + [m]) == CallsGot(ms) + m.calls
  {
    assert (ms + [m])[..|ms|] == ms;
  }

  lemma {:induction false} WovenCalls(isObject: string -> bool, outs: map<string, string>, items: seq<ChatRequest.Item>)
    requires Woven(isObject, outs, items).Some?
    ensures CallsGot(Woven(isObject, outs, items).value.messages) == Again(isObject, CallsHeld(items))
  {
    hide CallsGot, NormalArgs;
    if items == [] {
      NoneGot();
    } else {
      var p, last := items[..|items| - 1], items[|items| - 1];
      var w := Woven(isObject, outs, p).value;
      WovenCalls(isObject, outs, p);
      if !last.ResultItem? && ConvertItem(isObject, last).Said? {
        var m := ConvertItem(isObject, last).m;
        GotSnoc(w.messages, m);
        if last.CallItem? && last.callId != "" && last.callId in w.rest {
          GotSnoc(w.messages + [m], ResultMessage(last.callId, w.rest[last.callId]));
        }
        assert CallsGot(w.messages) + m.calls + [] == CallsGot(w.messages) + m.calls;
        assert CallsGot(w.messages) + [] == CallsGot(w.messages);
      }
    }
  }

  lemma NoneGot()
    ensures CallsGot([]) == []
  {
  }

  lemma {:induction false} GotConcat(a: seq<ChatRequest.Message>, b: seq<ChatRequest.Message>)
    ensures CallsGot(a + b) == CallsGot(a) + CallsGot(b)
    decreases |b|
  {
    if b == [] {
      assert a + b == a;
    } else {
      var p := b[..|b| - 1];
      assert (a + b)[..|a + b| - 1] == a + p;
      GotConcat(a, p);
    }
  }

  lemma {:induction false} GotNone(ms: seq<ChatRequest.Message>)
    requires forall i :: 0 <= i < |ms| ==> ms[i].calls == []
    ensures CallsGot(ms) == []
  {
    if ms != [] {
      GotNone(ms[..|ms| - 1]);
    }
  }

  /** There and back, for every conversation that goes both ways: the calls come back in order, each under its id,
      with its name, and with its arguments if these are a JSON object; so all of them do if all are. */
  lemma CallsSurvive(isObject: string -> bool, replay: bool, ms: seq<ChatRequest.Message>, order: seq<string>)
    requires LegacyOk(ms) && RolesOk(ms)
    ensures Filled(isObject, replay, ms).Some?
    ensures var req := RequestOf(Filled(isObject, replay, ms).value);
            var w := Woven(isObject, Outputs(req.input), req.input);
            && w.Some?
            && (Enumerates(order, w.value.rest) ==>
                  var got := CallsGot(Back(isObject, req, order));
                  && CallsKept(isObject, CallsMade(ms), MadeIds(ms), got)
                  && ((forall k :: 0 <= k < |CallsMade(ms)| ==> CallsMade(ms)[k].args != "" && isObject(CallsMade(ms)[k].args)) ==>
                        forall k :: 0 <= k < |got| ==> got[k].args == CallsMade(ms)[k].args))
  {
    hide Filled, Woven, Outputs, CallsMade, MadeIds, CallsHeld, CallsGot, NormalArgs, LegacyOk, RolesOk, Says, Answers;
    ConversationSurvives(isObject, replay, ms, order);
    ItemsHoldCalls(isObject, replay, ms);
    var req := RequestOf(Filled(isObject, replay, ms).value);
    var w := Woven(isObject, Outputs(req.input), req.input).value;
    if Enumerates(order, w.rest) {
      WovenCalls(isObject, Outputs(req.input), req.input);
      GotNone(LeftOver(w.rest, order));
      GotNone(SystemMessage(req));
      GotConcat(w.messages, LeftOver(w.rest, order));
      GotConcat(SystemMessage(req), w.messages + LeftOver(w.rest, order));
      var held, got := CallsHeld(req.input), CallsGot(Back(isObject, req, order));
      assert got == Again(isObject, held);
      forall k | 0 <= k < |held| ensures ArgsKept(isObject, CallsMade(ms)[k].args, got[k].args) {
        KeptTwice(isObject, CallsMade(ms)[k].args, held[k].args);
      }
    }
  }

  // ---- reasoning and system texts ----

  /** The reasoning of the assistant's messages, where there is any. */
  function Thoughts(ms: seq<ChatRequest.Message>): seq<string> {
    if ms == [] then []
    else
      var m := ms[|ms| - 1];
      Thoughts(ms[..|ms| - 1]) + (if m.role == "assistant" && m.reasoning != "" then [m.reasoning] else [])
  }

  function ThoughtsHeld(items: seq<ChatRequest.Item>): seq<string> {
    if items == [] then []
    else
      var last := items[|items| - 1];
      ThoughtsHeld(items[..|items| - 1]) + (if last.ReasoningItem? then [last.text] else [])
  }

  lemma ThoughtsSnoc(items: seq<ChatRequest.Item>, item: ChatRequest.Item)
    ensures ThoughtsHeld(items + [item]) == ThoughtsHeld(items) + if item.ReasoningItem? then [item.text] else []
  {
    assert (items + [item])[..|items|] == items;
  }

  lemma {:induction false} CallsThinkNothing(isObject: string -> bool, s: State, tcs: seq<ToolCall>)
    ensures ThoughtsHeld(CallsStep(isObject, s, tcs).items) == ThoughtsHeld(s.items)
    decreases |tcs|
  {
    hide ThoughtsHeld, NormalArgs, GeneratedId;
    if tcs != [] {
      var p := tcs[..|tcs| - 1];
      CallsThinkNothing(isObject, s, p);
      var t := CallsStep(isObject, s, p);
      var u := CallsStep(isObject, s, tcs);
      ThoughtsSnoc(t.items, u.items[|t.items|]);
    }
  }

  lemma MessageThinks(isObject: string -> bool, replay: bool, s: State, m: ChatRequest.Message)
    requires MessageStep(isObject, replay, s, m).Some?
    ensures ThoughtsHeld(MessageStep(isObject, replay, s, m).value.items) ==
            ThoughtsHeld(s.items) + if replay && m.role == "assistant" && m.reasoning != "" then [m.reasoning] else []
  {
    hide ThoughtsHeld, CallsStep, NormalArgs, LegacyId, RemoveFirst;
    var t := MessageStep(isObject, replay, s, m).value;
    assert ThoughtsHeld(s.items) + [] == ThoughtsHeld(s.items);
    if m.role == "assistant" {
      var a := s.items + ThoughtOf(replay, m);
      var b := a + TextOf(m);
      assert s.items + [] == s.items && a + [] == a;
      if replay && m.reasoning != "" { ThoughtsSnoc(s.items, ReasoningItem(m.reasoning)); }
      if m.content != "" { ThoughtsSnoc(a, TextItem("assistant", m.content)); }
      var c := CallsStep(isObject, s.(items := b), m.calls);
      CallsThinkNothing(isObject, s.(items := b), m.calls);
      if m.legacy.Some? { ThoughtsSnoc(c.items, t.items[|c.items|]); }
    } else if |t.items| > |s.items| {
      ThoughtsSnoc(s.items, t.items[|s.items|]);
    }
  }

  /** When reasoning is replayed, every reasoning text is an item, in order; else there is none. */
  lemma {:induction false} ReasoningReplayed(isObject: string -> bool, replay: bool, ms: seq<ChatRequest.Message>)
    requires Filled(isObject, replay, ms).Some?
    ensures ThoughtsHeld(Filled(isObject, replay, ms).value.items) == if replay then Thoughts(ms) else []
  {
    hide MessageStep;
    if ms != [] {
      var p, m := ms[..|ms| - 1], ms[|ms| - 1];
      ReasoningReplayed(isObject, replay, p);
      MessageThinks(isObject, replay, Filled(isObject, replay, p).value, m);
    }
  }

  /** System texts are joined in order, by one newline each. */
  lemma {:induction false} JoinedInOrder(a: seq<string>, b: seq<string>)
    ensures Joined([]) == ""
    ensures a != [] && b != [] ==> Joined(a + b) == Joined(a) + "\n" + Joined(b)
    ensures |a| == 1 ==> Joined(a) == a[0]
    decreases |b|
  {
    if a != [] && |b| == 1 {
      assert (a + b)[..|a|] == a;
    } else if a != [] && b != [] {
      var p, last := b[..|b| - 1], b[|b| - 1];
      assert (a + b)[..|a + b| - 1] == a + p;
      JoinedInOrder(a, p);
      assert Joined(a) + "\n" + Joined(p) + "\n" + last == Joined(a) + "\n" + (Joined(p) + "\n" + last);
    }
  }

  // ---- which items have a message, and of what shape ----

  /** An item that the way back to Chat knows. */
  predicate Known(item: ChatRequest.Item) {
    && (item.TextItem? ==> item.role in {"system", "user", "assistant", "tool", "developer"})
    && (item.OtherItem? ==> item.kind == "additional_tools")
  }

  lemma KnownConverts(isObject: string -> bool, item: ChatRequest.Item)
    ensures ConvertItem(isObject, item).Bad? <==> !Known(item)
  {
    hide NormalArgs;
  }

  /** A request is refused on the way back exactly if it has an item that is not known. */
  lemma BackIff(isObject: string -> bool, outs: map<string, string>, items: seq<ChatRequest.Item>)
    ensures Woven(isObject, outs, items).Some? <==> forall i :: 0 <= i < |items| ==> Known(items[i])
  {
    hide Woven, Known, ConvertItem;
    WovenIff(isObject, outs, items);
    forall i | 0 <= i < |items| ensures Known(items[i]) <==> !ConvertItem(isObject, items[i]).Bad? {
      KnownConverts(isObject, items[i]);
    }
  }

  /** Calls are the assistant's, one to a message that says nothing else; an answer to a call is the tool's. */
  predicate Shaped(m: ChatRequest.Message) {
    && m.role in {"system", "user", "assistant", "tool"} && m.name == "" && m.legacy.None? && m.reasoning == ""
    && (m.calls != [] ==> m.role == "assistant" && m.content == "" && |m.calls| == 1 && m.callId == "")
    && (m.callId != "" ==> m.role == "tool")
  }

  lemma ConvertsShaped(isObject: string -> bool, item: ChatRequest.Item)
    ensures ConvertItem(isObject, item).Said? ==> Shaped(ConvertItem(isObject, item).m)
  {
    hide NormalArgs;
  }

  lemma ResultShaped(id: string, output: string)
    ensures Shaped(ResultMessage(id, output))
  {
  }

  /** Every message that comes back is of that shape. */
  lemma {:induction false} AllShaped(isObject: string -> bool, outs: map<string, string>, items: seq<ChatRequest.Item>)
    requires Woven(isObject, outs, items).Some?
    ensures forall m :: m in Woven(isObject, outs, items).value.messages ==> Shaped(m)
  {
    hide Shaped, ConvertItem, ResultMessage;
    if items != [] {
      var p, last := items[..|items| - 1], items[|items| - 1];
      AllShaped(isObject, outs, p);
      ConvertsShaped(isObject, last);
      var w := Woven(isObject, outs, p).value;
      if last.CallItem? && last.callId in w.rest {
        ResultShaped(last.callId, w.rest[last.callId]);
      }
    }
  }

  // ---- ids made for calls without one ----

  /** The ids that are made never meet: not among each other, nor those of legacy calls. */
  lemma FreshIds(i: nat, j: nat)
    ensures GeneratedId(i) == GeneratedId(j) ==> i == j
    ensures LegacyId(i) == LegacyId(j) ==> i == j
    ensures GeneratedId(i) != LegacyId(j)
  {
    hide Responses.Decimal;
    var g, l := "generated_tool_call_", "legacy_function_call_";
    ModelIndex.DecimalReads(i);
    ModelIndex.DecimalReads(j);
    assert (g + Responses.Decimal(i))[|g|..] == Responses.Decimal(i) && (g + Responses.Decimal(j))[|g|..] == Responses.Decimal(j);
    assert (l + Responses.Decimal(i))[|l|..] == Responses.Decimal(i) && (l + Responses.Decimal(j))[|l|..] == Responses.Decimal(j);
    assert GeneratedId(i)[0] == 'g' && LegacyId(j)[0] == 'l';
  }
}
