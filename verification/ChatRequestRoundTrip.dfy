/** A Chat request to the Responses protocol and back: what its messages said, and what comes back. */
module ChatRequestRoundTrip {
  import opened Collections
  import opened Wire
  import opened ChatRequest
  import opened ChatRequestBack
  import opened ChatRequestFifo
  import opened Conversation
  import opened ConversationAnswers

  // ---- the items say the same ----

  lemma ItemsSnoc(isObject: string -> bool, items: seq<ChatRequest.Item>, item: ChatRequest.Item)
    ensures ItemOthers(isObject, items + [item]) == ItemOthers(isObject, items) + if item.ResultItem? then [] else ItemPart(isObject, item)
    ensures ItemResults(items + [item]) == ItemResults(items) + if item.ResultItem? then [ResultPart(item.callId, item.output)] else []
  {
    hide ItemPart;
    assert (items + [item])[..|items|] == items && (items + [item])[|items|] == item;
  }

  lemma CallOnce(isObject: string -> bool, id: string, name: string, args: string)
    ensures ItemPart(isObject, CallItem(id, name, NormalArgs(isObject, args))) == [CallPart(id, name, NormalArgs(isObject, args))]
  {
  }

  lemma {:induction false} CallsSay(isObject: string -> bool, s: State, tcs: seq<ToolCall>)
    ensures var t := CallsStep(isObject, s, tcs);
            && ItemOthers(isObject, t.items) == ItemOthers(isObject, s.items) + CallParts(isObject, s.generatedSeq, tcs)
            && ItemResults(t.items) == ItemResults(s.items)
            && t.generatedSeq == s.generatedSeq + Unnamed(tcs) && t.legacySeq == s.legacySeq && t.systems == s.systems && t.legacy == s.legacy
    decreases |tcs|
  {
    hide GeneratedId, NormalArgs, ItemOthers, ItemResults, ItemPart;
    if tcs == [] {
      assert ItemOthers(isObject, s.items) + [] == ItemOthers(isObject, s.items);
    } else {
      var p, last := tcs[..|tcs| - 1], tcs[|tcs| - 1];
      var t := CallsStep(isObject, s, p);
      CallsSay(isObject, s, p);
      var id := if last.id == "" then GeneratedId(t.generatedSeq + 1) else last.id;
      ItemsSnoc(isObject, t.items, CallItem(id, last.name, NormalArgs(isObject, last.args)));
      CallOnce(isObject, id, last.name, last.args);
      assert ItemResults(t.items) + [] == ItemResults(t.items);
    }
  }

  lemma ThoughtsSayNothing(isObject: string -> bool, replay: bool, items: seq<ChatRequest.Item>, m: ChatRequest.Message)
    ensures ItemOthers(isObject, items + ThoughtOf(replay, m) + TextOf(m)) == ItemOthers(isObject, items) + TextOnly("assistant", m.content)
    ensures ItemResults(items + ThoughtOf(replay, m) + TextOf(m)) == ItemResults(items)
  {
    hide ItemOthers, ItemResults;
    var a := items + ThoughtOf(replay, m);
    ItemsSnoc(isObject, items, ReasoningItem(m.reasoning));
    ItemsSnoc(isObject, a, TextItem("assistant", m.content));
    assert items + [] == items && a + [] == a;
    assert ItemOthers(isObject, items) + [] == ItemOthers(isObject, items) && ItemResults(items) + [] == ItemResults(items);
  }

  lemma AssistantSays(isObject: string -> bool, replay: bool, s: State, p: seq<ChatRequest.Message>, m: ChatRequest.Message)
    requires m.role == "assistant" && Follows(s, p)
    ensures var t := AssistantStep(isObject, replay, s, m);
            && ItemOthers(isObject, t.items) == ItemOthers(isObject, s.items) + MessageSays(isObject, p, m)
            && ItemResults(t.items) == ItemResults(s.items) && t.systems == s.systems
  {
    hide GeneratedId, LegacyId, NormalArgs, ItemOthers, ItemResults, ItemPart, CallsStep, CallParts, TextOf, ThoughtOf, TextOnly;
    var s1 := s.(items := s.items + ThoughtOf(replay, m) + TextOf(m));
    ThoughtsSayNothing(isObject, replay, s.items, m);
    CallsSay(isObject, s1, m.calls);
    var s2 := CallsStep(isObject, s1, m.calls);
    var o, a, b := ItemOthers(isObject, s.items), TextOnly("assistant", m.content), CallParts(isObject, s.generatedSeq, m.calls);
    var c := LegacyPart(isObject, s.legacySeq, m.legacy);
    if m.legacy.Some? {
      var fc := m.legacy.value;
      ItemsSnoc(isObject, s2.items, CallItem(LegacyId(s.legacySeq + 1), fc.name, NormalArgs(isObject, fc.args)));
      CallOnce(isObject, LegacyId(s.legacySeq + 1), fc.name, fc.args);
    }
    assert ItemResults(s2.items) + [] == ItemResults(s2.items);
    assert o + a + b + c == o + (a + b + c) && o + a + b + [] == o + a + b;
  }

  function MessageAnswer(p: seq<ChatRequest.Message>, m: ChatRequest.Message): seq<Part> {
    if Target(p, m) != "" then [ResultPart(Target(p, m), m.content)] else []
  }

  lemma StepSaysMessage(isObject: string -> bool, replay: bool, s: State, p: seq<ChatRequest.Message>, m: ChatRequest.Message)
    requires Follows(s, p) && MessageStep(isObject, replay, s, m).Some?
    ensures var t := MessageStep(isObject, replay, s, m).value;
            && ItemOthers(isObject, t.items) == ItemOthers(isObject, s.items) + MessageSays(isObject, p, m)
            && ItemResults(t.items) == ItemResults(s.items) + MessageAnswer(p, m)
            && t.systems == s.systems + if m.role in {"system", "developer"} then [m.content] else []
  {
    hide AssistantStep, ItemOthers, ItemResults, RemoveFirst, CallParts, LegacyPart, LegacyId;
    hide Waiting, OpenLegacy, Generated, Legacies;
    assert ItemOthers(isObject, s.items) + [] == ItemOthers(isObject, s.items) && ItemResults(s.items) + [] == ItemResults(s.items);
    assert s.systems + [] == s.systems;
    if m.role == "assistant" {
      AssistantSays(isObject, replay, s, p, m);
    } else if m.role == "tool" {
      var id := ResultId(s, m);
      ItemsSnoc(isObject, s.items, if id == "" then TextItem("user", MISSING_ID + m.content) else ResultItem(id, m.content));
    } else if m.role == "function" {
      OpenNotEmpty(p, m.name);
      assert Legacy(s.legacy, m.name) == OpenLegacy(p, m.name) && OpenLegacy(p, m.name)[0] in OpenLegacy(p, m.name);
      ItemsSnoc(isObject, s.items, ResultItem(Legacy(s.legacy, m.name)[0], m.content));
    } else if m.role !in {"system", "developer"} {
      ItemsSnoc(isObject, s.items, TextItem(m.role, m.content));
    }
  }

  lemma OpenNotEmpty(p: seq<ChatRequest.Message>, name: string)
    ensures forall x :: x in OpenLegacy(p, name) ==> x != ""
  {
    OpenIsMade(p);
    LegacyNotEmpty(p);
  }

  /** The conversion succeeds exactly if every legacy result has its call; the input items then hold every
      text and call of the conversation, in order, and every result. */
  lemma {:induction false} ItemsSayAll(isObject: string -> bool, replay: bool, ms: seq<ChatRequest.Message>)
    ensures Filled(isObject, replay, ms).Some? <==> LegacyOk(ms)
    ensures LegacyOk(ms) ==>
              var s := Filled(isObject, replay, ms).value;
              && ItemOthers(isObject, s.items) == Says(isObject, ms)
              && ItemResults(s.items) == Answers(ms)
              && s.systems == Systems(ms)
  {
    hide MessageStep, MessageSays, Target, Follows;
    FilledFollows(isObject, replay, ms);
    if ms != [] && LegacyOk(ms) {
      var p, m := ms[..|ms| - 1], ms[|ms| - 1];
      FilledFollows(isObject, replay, p);
      ItemsSayAll(isObject, replay, p);
      StepSaysMessage(isObject, replay, Filled(isObject, replay, p).value, p, m);
    }
  }

  // ---- coming back ----

  lemma {:induction false} WovenIff(isObject: string -> bool, outs: map<string, string>, items: seq<ChatRequest.Item>)
    ensures Woven(isObject, outs, items).Some? <==> forall i :: 0 <= i < |items| ==> !ConvertItem(isObject, items[i]).Bad?
  {
    hide ConvertItem;
    if items != [] {
      var p := items[..|items| - 1];
      WovenIff(isObject, outs, p);
      assert forall i :: 0 <= i < |p| ==> p[i] == items[i];
      assert items[|items| - 1].ResultItem? ==> !ConvertItem(isObject, items[|items| - 1]).Bad? by {
        ResultsConvert(isObject, items[|items| - 1]);
      }
    }
  }

  lemma ResultsConvert(isObject: string -> bool, item: ChatRequest.Item)
    ensures item.ResultItem? || item.CallItem? || item.ReasoningItem? ==> !ConvertItem(isObject, item).Bad?
    ensures item.TextItem? ==> (ConvertItem(isObject, item).Bad? <==> item.role !in {"system", "user", "assistant", "tool", "developer"})
  {
  }

  predicate AllConvert(isObject: string -> bool, items: seq<ChatRequest.Item>) {
    forall i :: 0 <= i < |items| ==> !ConvertItem(isObject, items[i]).Bad?
  }

  lemma ConvertSnoc(isObject: string -> bool, items: seq<ChatRequest.Item>, item: ChatRequest.Item)
    ensures AllConvert(isObject, items + [item]) <==> AllConvert(isObject, items) && !ConvertItem(isObject, item).Bad?
  {
    hide ConvertItem;
    var all := items + [item];
    assert forall i :: 0 <= i < |items| ==> all[i] == items[i];
    assert all[|items|] == item;
  }

  lemma {:induction false} CallsConvert(isObject: string -> bool, s: State, tcs: seq<ToolCall>)
    ensures AllConvert(isObject, CallsStep(isObject, s, tcs).items) <==> AllConvert(isObject, s.items)
    decreases |tcs|
  {
    hide AllConvert, ConvertItem, GeneratedId, NormalArgs;
    if tcs != [] {
      var p, last := tcs[..|tcs| - 1], tcs[|tcs| - 1];
      var t := CallsStep(isObject, s, p);
      CallsConvert(isObject, s, p);
      var item := CallItem(if last.id == "" then GeneratedId(t.generatedSeq + 1) else last.id, last.name, NormalArgs(isObject, last.args));
      ConvertSnoc(isObject, t.items, item);
      ResultsConvert(isObject, item);
    }
  }

  lemma AssistantConverts(isObject: string -> bool, replay: bool, s: State, m: ChatRequest.Message)
    ensures AllConvert(isObject, AssistantStep(isObject, replay, s, m).items) <==> AllConvert(isObject, s.items)
  {
    hide AllConvert, ConvertItem, GeneratedId, NormalArgs, CallsStep, LegacyId;
    var a := s.items + ThoughtOf(replay, m);
    ConvertSnoc(isObject, s.items, ReasoningItem(m.reasoning));
    ResultsConvert(isObject, ReasoningItem(m.reasoning));
    ConvertSnoc(isObject, a, TextItem("assistant", m.content));
    ResultsConvert(isObject, TextItem("assistant", m.content));
    assert s.items + [] == s.items && a + [] == a;
    var s1 := s.(items := a + TextOf(m));
    CallsConvert(isObject, s1, m.calls);
    var s2 := CallsStep(isObject, s1, m.calls);
    if m.legacy.Some? {
      var item := CallItem(LegacyId(s2.legacySeq + 1), m.legacy.value.name, NormalArgs(isObject, m.legacy.value.args));
      ConvertSnoc(isObject, s2.items, item);
      ResultsConvert(isObject, item);
    }
  }

  lemma {:induction false} RolesDecide(isObject: string -> bool, replay: bool, ms: seq<ChatRequest.Message>)
    requires Filled(isObject, replay, ms).Some?
    ensures AllConvert(isObject, Filled(isObject, replay, ms).value.items) <==> RolesOk(ms)
  {
    hide AllConvert, ConvertItem, AssistantStep, RemoveFirst;
    if ms == [] {
      NothingToConvert(isObject);
    } else {
      var p, m := ms[..|ms| - 1], ms[|ms| - 1];
      var s := Filled(isObject, replay, p).value;
      RolesDecide(isObject, replay, p);
      assert forall i :: 0 <= i < |p| ==> p[i] == ms[i];
      AssistantConverts(isObject, replay, s, m);
      var id := ResultId(s, m);
      ConvertSnoc(isObject, s.items, TextItem("user", MISSING_ID + m.content));
      ResultsConvert(isObject, TextItem("user", MISSING_ID + m.content));
      ConvertSnoc(isObject, s.items, ResultItem(id, m.content));
      ResultsConvert(isObject, ResultItem(id, m.content));
      if m.role == "function" {
        ConvertSnoc(isObject, s.items, ResultItem(Legacy(s.legacy, m.name)[0], m.content));
        ResultsConvert(isObject, ResultItem(Legacy(s.legacy, m.name)[0], m.content));
      }
      ConvertSnoc(isObject, s.items, TextItem(m.role, m.content));
      ResultsConvert(isObject, TextItem(m.role, m.content));
    }
  }

  lemma NothingToConvert(isObject: string -> bool)
    ensures AllConvert(isObject, [])
  {
  }

  lemma {:induction false} OthersConcat(a: seq<ChatRequest.Message>, b: seq<ChatRequest.Message>)
    ensures Others(a + b) == Others(a) + Others(b) && Results(a + b) == Results(a) + Results(b)
    decreases |b|
  {
    hide PartOf, Others, Results;
    if b == [] {
      assert a + b == a;
      OthersNone();
      assert Others(a) + [] == Others(a) && Results(a) + [] == Results(a);
    } else {
      var p, m := b[..|b| - 1], b[|b| - 1];
      OthersConcat(a, p);
      OthersSnoc(a + p, m);
      OthersSnoc(p, m);
      assert p + [m] == b && a + p + [m] == a + b;
    }
  }

  lemma OthersNone()
    ensures Others([]) == [] && Results([]) == []
  {
  }

  lemma SystemSays(r: Request, ms: seq<ChatRequest.Message>)
    ensures Others(SystemMessage(r) + ms) == (if r.instructions.Some? then [TextPart("system", r.instructions.value)] else []) + Others(ms)
    ensures Results(SystemMessage(r) + ms) == Results(ms)
  {
    hide PartOf, Others, Results;
    OthersConcat(SystemMessage(r), ms);
    OthersNone();
    assert [] + Results(ms) == Results(ms);
    if r.instructions.Some? {
      SystemPart(r.instructions.value);
      OthersSnoc([], Plain("system", r.instructions.value));
      assert [] + [Plain("system", r.instructions.value)] == SystemMessage(r);
    }
  }

  lemma SystemPart(text: string)
    ensures PartOf(Plain("system", text)) == TextPart("system", text)
  {
  }

  // ---- answered calls and their results ----

  function ResultIds(items: seq<ChatRequest.Item>): seq<string> {
    if items == [] then []
    else ResultIds(items[..|items| - 1]) + (if items[|items| - 1].ResultItem? then [items[|items| - 1].callId] else [])
  }

  lemma {:induction false} AnswersAreTargets(ms: seq<ChatRequest.Message>)
    ensures |Answers(ms)| == |Targets(ms)|
    ensures forall i :: 0 <= i < |Answers(ms)| ==> Answers(ms)[i].ResultPart? && Answers(ms)[i].callId == Targets(ms)[i] != ""
  {
    hide Target;
    if ms != [] {
      AnswersAreTargets(ms[..|ms| - 1]);
    }
  }

  lemma {:induction false} ResultIdsOf(items: seq<ChatRequest.Item>)
    ensures |ItemResults(items)| == |ResultIds(items)|
    ensures forall i :: 0 <= i < |ItemResults(items)| ==> ItemResults(items)[i].ResultPart? && ItemResults(items)[i].callId == ResultIds(items)[i]
    ensures forall i :: 0 <= i < |items| && items[i].ResultItem? ==> items[i].callId in ResultIds(items)
  {
    if items != [] {
      var p := items[..|items| - 1];
      ResultIdsOf(p);
      assert forall i :: 0 <= i < |p| ==> items[i] == p[i];
    }
  }

  lemma {:induction false} HasResult(items: seq<ChatRequest.Item>, id: string)
    requires id in ResultIds(items)
    ensures exists i :: 0 <= i < |items| && items[i].ResultItem? && items[i].callId == id
  {
    var p, last := items[..|items| - 1], items[|items| - 1];
    if id in ResultIds(p) {
      HasResult(p, id);
      var i :| 0 <= i < |p| && p[i].ResultItem? && p[i].callId == id;
      assert items[i] == p[i];
    }
  }

  lemma {:induction false} DistinctResults(items: seq<ChatRequest.Item>)
    ensures ResultsDistinct(items) <==> Distinct(ResultIds(items)) && "" !in ResultIds(items)
  {
    hide ResultsDistinct, Distinct;
    if items == [] {
      NoResults();
    } else {
      var p, last := items[..|items| - 1], items[|items| - 1];
      assert items == p + [last];
      DistinctResults(p);
      ResultsSnoc(p, last);
      ResultIdsOf(p);
      if last.ResultItem? {
        DistinctSnoc(ResultIds(p), last.callId);
        if last.callId in ResultIds(p) {
          HasResult(p, last.callId);
        }
      } else {
        assert ResultIds(p) + [] == ResultIds(p);
      }
    }
  }

  lemma NoResults()
    ensures ResultsDistinct([]) && Distinct(ResultIds([])) && "" !in ResultIds([])
  {
  }

  /** The results of the conversation are distinct as items exactly if they are for different calls. */
  lemma DistinctTargets(items: seq<ChatRequest.Item>, ms: seq<ChatRequest.Message>)
    requires ItemResults(items) == Answers(ms)
    ensures ResultsDistinct(items) <==> Distinct(Targets(ms))
  {
    hide ResultsDistinct, Distinct, Answers, Targets, ResultIds, ItemResults;
    AnswersAreTargets(ms);
    ResultIdsOf(items);
    DistinctResults(items);
    assert ResultIds(items) == Targets(ms);
    assert "" !in Targets(ms);
  }

  function CallIdsIn(ps: seq<Part>): seq<string> {
    if ps == [] then []
    else CallIdsIn(ps[..|ps| - 1]) + (if ps[|ps| - 1].CallPart? then [ps[|ps| - 1].callId] else [])
  }

  lemma {:induction false} CallIdsConcat(a: seq<Part>, b: seq<Part>)
    ensures CallIdsIn(a + b) == CallIdsIn(a) + CallIdsIn(b)
    decreases |b|
  {
    if b == [] {
      assert a + b == a && CallIdsIn(a) + [] == CallIdsIn(a);
    } else {
      var p, last := b[..|b| - 1], b[|b| - 1];
      CallIdsConcat(a, p);
      assert (a + b)[..|a + b| - 1] == a + p;
    }
  }

  lemma {:induction false} PartsHaveIds(isObject: string -> bool, n: nat, tcs: seq<ToolCall>)
    ensures CallIdsIn(CallParts(isObject, n, tcs)) == NewIds(n, tcs)
    decreases |tcs|
  {
    hide GeneratedId, NormalArgs;
    if tcs != [] {
      var p, last := tcs[..|tcs| - 1], tcs[|tcs| - 1];
      PartsHaveIds(isObject, n, p);
      NewIdsSnoc(n, p, last);
      assert p + [last] == tcs;
      var ps := CallParts(isObject, n, tcs);
      assert ps[..|ps| - 1] == CallParts(isObject, n, p);
    }
  }

  lemma MessageMakes(isObject: string -> bool, p: seq<ChatRequest.Message>, m: ChatRequest.Message)
    ensures CallIdsIn(MessageSays(isObject, p, m)) ==
            if m.role != "assistant" then []
            else NewIds(Generated(p), m.calls) + if m.legacy.Some? then [LegacyId(Legacies(p) + 1)] else []
  {
    hide CallParts, NewIds, LegacyId, NormalArgs, Target, CallIdsIn, Generated, Legacies;
    NoCallIds("assistant", m.content);
    if m.role == "assistant" {
      var a, b, c := TextOnly("assistant", m.content), CallParts(isObject, Generated(p), m.calls), LegacyPart(isObject, Legacies(p), m.legacy);
      CallIdsConcat(a + b, c);
      CallIdsConcat(a, b);
      PartsHaveIds(isObject, Generated(p), m.calls);
      if m.legacy.Some? {
        OneCallId(LegacyId(Legacies(p) + 1), m.legacy.value.name, NormalArgs(isObject, m.legacy.value.args));
      }
      assert [] + NewIds(Generated(p), m.calls) == NewIds(Generated(p), m.calls);
    } else {
      NoCallIds("user", MISSING_ID + m.content);
      NoCallIds(m.role, m.content);
    }
  }

  lemma {:induction false} CallsAreMade(isObject: string -> bool, ms: seq<ChatRequest.Message>)
    ensures CallIdsIn(Says(isObject, ms)) == MadeIds(ms)
  {
    hide MessageSays, NewIds, LegacyId, CallIdsIn, Generated, Legacies;
    if ms == [] {
      NoCallIds("", "");
    } else {
      var p, m := ms[..|ms| - 1], ms[|ms| - 1];
      CallsAreMade(isObject, p);
      CallIdsConcat(Says(isObject, p), MessageSays(isObject, p, m));
      MessageMakes(isObject, p, m);
      assert MadeIds(p) + [] + [] == MadeIds(p) + [];
    }
  }

  lemma NoCallIds(role: string, text: string)
    ensures CallIdsIn([]) == [] && CallIdsIn([TextPart(role, text)]) == []
  {
    assert [TextPart(role, text)][..0] == [];
  }

  lemma OneCallId(id: string, name: string, args: string)
    ensures CallIdsIn([CallPart(id, name, args)]) == [id]
  {
    assert [CallPart(id, name, args)][..0] == [];
  }

  lemma {:induction false} FindCall(isObject: string -> bool, items: seq<ChatRequest.Item>, c: Part) returns (i: nat)
    requires c.CallPart? && c in ItemOthers(isObject, items)
    ensures i < |items| && items[i].CallItem? && ItemPart(isObject, items[i]) == [c]
  {
    hide NormalArgs;
    var p, last := items[..|items| - 1], items[|items| - 1];
    if c in ItemOthers(isObject, p) {
      i := FindCall(isObject, p, c);
    } else {
      i := |p|;
    }
  }

  lemma {:induction false} CallsApart(isObject: string -> bool, items: seq<ChatRequest.Item>)
    requires Distinct(CallIdsIn(ItemOthers(isObject, items)))
    ensures forall i :: 0 <= i < |items| && items[i].CallItem? ==> items[i].callId in CallIdsIn(ItemOthers(isObject, items))
    ensures forall i, j :: 0 <= i < j < |items| && items[i].CallItem? && items[j].CallItem? ==> items[i].callId != items[j].callId
  {
    hide NormalArgs, CallIdsIn, Distinct;
    if items != [] {
      var p, last := items[..|items| - 1], items[|items| - 1];
      var more := if last.ResultItem? then [] else ItemPart(isObject, last);
      CallIdsConcat(ItemOthers(isObject, p), more);
      DistinctParts(CallIdsIn(ItemOthers(isObject, p)), CallIdsIn(more));
      CallsApart(isObject, p);
      if last.CallItem? {
        OneCallId(last.callId, last.name, NormalArgs(isObject, last.args));
      }
      assert forall i :: 0 <= i < |p| ==> items[i] == p[i];
    }
  }

  /** Somewhere `c` is immediately followed by `r`. */
  ghost predicate FollowedBy(ms: seq<ChatRequest.Message>, c: Part, r: Part) {
    exists k :: 0 <= k < |ms| - 1 && PartOf(ms[k]) == c && PartOf(ms[k + 1]) == r
  }

  lemma FollowedWithin(a: seq<ChatRequest.Message>, ms: seq<ChatRequest.Message>, b: seq<ChatRequest.Message>, c: Part, r: Part)
    requires FollowedBy(ms, c, r)
    ensures FollowedBy(a + (ms + b), c, r)
  {
    hide PartOf;
    var k :| 0 <= k < |ms| - 1 && PartOf(ms[k]) == c && PartOf(ms[k + 1]) == r;
    var all := a + (ms + b);
    assert all[|a| + k] == ms[k] && all[|a| + k + 1] == ms[k + 1];
  }

  lemma ResultFollows(isObject: string -> bool, items: seq<ChatRequest.Item>, c: Part, r: Part)
    requires Woven(isObject, Outputs(items), items).Some?
    requires Distinct(CallIdsIn(ItemOthers(isObject, items))) && ResultsDistinct(items)
    requires c.CallPart? && c in ItemOthers(isObject, items) && r in ItemResults(items) && r.ResultPart? && r.callId == c.callId != ""
    ensures FollowedBy(Woven(isObject, Outputs(items), items).value.messages, c, r)
  {
    hide Woven, Outputs, ItemOthers, ItemResults, ResultsDistinct, Distinct, NormalArgs, ConvertItem, PartOf;
    var outs := Outputs(items);
    var i := FindCall(isObject, items, c);
    CallsApart(isObject, items);
    assert FirstCall(items, i);
    ItemCounts(items);
    assert multiset(ItemResults(items))[r] > 0;
    assert Matched(outs, map[], r);
    AnswerFollows(isObject, outs, items, i);
    var ms := Woven(isObject, outs, items).value.messages;
    var k :| 0 <= k < |ms| - 1 && ConvertItem(isObject, items[i]) == Said(ms[k]) && ms[k + 1] == ResultMessage(items[i].callId, r.output);
    ConvertedPart(isObject, items[i]);
    ResultIsResult(items[i].callId, r.output);
    assert [PartOf(ms[k])] == [c];
  }

  // ---- the result ----

  /** The messages that come back, in whatever order results without a call are taken. */
  function Back(isObject: string -> bool, req: Request, order: seq<string>): seq<ChatRequest.Message>
    requires Woven(isObject, Outputs(req.input), req.input).Some?
    requires forall i :: 0 <= i < |order| ==> order[i] in Woven(isObject, Outputs(req.input), req.input).value.rest
  {
    var w := Woven(isObject, Outputs(req.input), req.input).value;
    SystemMessage(req) + (w.messages + LeftOver(w.rest, order))
  }

  /** What of a conversation is there in the messages that came back: the system texts joined and first, every
      other text and call in its place. */
  predicate TextsAndCallsIn(isObject: string -> bool, ms: seq<ChatRequest.Message>, back: seq<ChatRequest.Message>) {
    Others(back) == (if Systems(ms) == [] then [] else [TextPart("system", Joined(Systems(ms)))]) + Says(isObject, ms)
  }

  /** Every call that has a result is immediately followed by it. */
  ghost predicate AnswersFollowIn(isObject: string -> bool, ms: seq<ChatRequest.Message>, back: seq<ChatRequest.Message>) {
    forall c, r :: c in Says(isObject, ms) && c.CallPart? && r in Answers(ms) && r.ResultPart? && r.callId == c.callId ==> FollowedBy(back, c, r)
  }

  /** There and back, for every conversation: the way there succeeds exactly if every legacy result has its call,
      and the way back exactly if every role is one Chat knows. Texts and calls come back in their places. The
      results come back, each exactly once, exactly if they are for different calls; and then, with distinct
      call ids, each immediately follows its call. */
  lemma ConversationSurvives(isObject: string -> bool, replay: bool, ms: seq<ChatRequest.Message>, order: seq<string>)
    ensures Filled(isObject, replay, ms).Some? <==> LegacyOk(ms)
    ensures LegacyOk(ms) ==>
              var req := RequestOf(Filled(isObject, replay, ms).value);
              var w := Woven(isObject, Outputs(req.input), req.input);
              && (w.Some? <==> RolesOk(ms))
              && (w.Some? && Enumerates(order, w.value.rest) ==>
                    var back := Back(isObject, req, order);
                    && TextsAndCallsIn(isObject, ms, back)
                    && (multiset(Results(back)) == multiset(Answers(ms)) <==> Distinct(Targets(ms)))
                    && (Distinct(MadeIds(ms)) && Distinct(Targets(ms)) ==> AnswersFollowIn(isObject, ms, back)))
  {
    hide Woven, Filled, Others, Results, Outputs, Says, Answers, Systems, ResultsDistinct, Enumerates, Joined, RolesOk;
    hide ItemOthers, ItemResults, AnswersFollowIn, Distinct, LegacyOk, Targets;
    ItemsSayAll(isObject, replay, ms);
    if LegacyOk(ms) {
      var s := Filled(isObject, replay, ms).value;
      var req := RequestOf(s);
      var w := Woven(isObject, Outputs(req.input), req.input);
      RolesDecide(isObject, replay, ms);
      WovenIff(isObject, Outputs(req.input), req.input);
      if w.Some? && Enumerates(order, w.value.rest) {
        EachIn(order, w.value.rest);
        MessagesSayItems(isObject, req.input, order);
        SystemSays(req, w.value.messages + LeftOver(w.value.rest, order));
        DistinctTargets(req.input, ms);
        if Distinct(MadeIds(ms)) && Distinct(Targets(ms)) {
          AllFollow(isObject, ms, req, order);
        }
      }
    }
  }

  lemma AllFollow(isObject: string -> bool, ms: seq<ChatRequest.Message>, req: Request, order: seq<string>)
    requires ItemOthers(isObject, req.input) == Says(isObject, ms) && ItemResults(req.input) == Answers(ms)
    requires Distinct(MadeIds(ms)) && ResultsDistinct(req.input)
    requires Woven(isObject, Outputs(req.input), req.input).Some?
    requires forall i :: 0 <= i < |order| ==> order[i] in Woven(isObject, Outputs(req.input), req.input).value.rest
    ensures AnswersFollowIn(isObject, ms, Back(isObject, req, order))
  {
    hide Woven, Outputs, Says, Answers, ItemOthers, ItemResults, ResultsDistinct, Distinct, FollowedBy, CallIdsIn, MadeIds, Targets;
    var w := Woven(isObject, Outputs(req.input), req.input).value;
    CallsAreMade(isObject, ms);
    AnswersAreTargets(ms);
    forall c, r | c in Says(isObject, ms) && c.CallPart? && r in Answers(ms) && r.ResultPart? && r.callId == c.callId
      ensures FollowedBy(Back(isObject, req, order), c, r) {
      ResultFollows(isObject, req.input, c, r);
      FollowedWithin(SystemMessage(req), w.messages, LeftOver(w.rest, order), c, r);
    }
  }

  /** In an orderly conversation, where calls have ids of their own and no result comes before its call,
      everything comes back: every text and call once and in its place, every result once and right after its
      call, if and only if no result names a call that has been answered. */
  lemma OrderlySurvives(isObject: string -> bool, replay: bool, ms: seq<ChatRequest.Message>, order: seq<string>)
    requires LegacyOk(ms) && RolesOk(ms) && OwnIds(ms) && NoEarlyResult(ms)
    ensures Filled(isObject, replay, ms).Some?
    ensures var req := RequestOf(Filled(isObject, replay, ms).value);
            var w := Woven(isObject, Outputs(req.input), req.input);
            && w.Some?
            && (Enumerates(order, w.value.rest) ==>
                  var back := Back(isObject, req, order);
                  && TextsAndCallsIn(isObject, ms, back)
                  && (multiset(Results(back)) == multiset(Answers(ms)) <==> NamedOnce(ms))
                  && (NamedOnce(ms) ==> AnswersFollowIn(isObject, ms, back)))
  {
    hide Woven, Filled, Results, Outputs, Answers, Enumerates, RolesOk, TextsAndCallsIn, AnswersFollowIn;
    hide Distinct, LegacyOk, Targets, NamedOnce, NoEarlyResult, NamesNone;
    ConversationSurvives(isObject, replay, ms, order);
    AnsweredOnceIff(ms);
  }

  lemma EachIn(order: seq<string>, rest: map<string, string>)
    requires Enumerates(order, rest)
    ensures forall i :: 0 <= i < |order| ==> order[i] in rest
  {
  }
}
