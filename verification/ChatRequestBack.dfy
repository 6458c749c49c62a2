/** Responses input items as Chat messages: each result right after its call, and what that keeps of a
    request that came from Chat. */
module ChatRequestBack {
  import opened Collections
  import opened Wire
  import opened ChatRequest
  import opened Conversation

  datatype Converted = Bad | Ignored | Said(m: ChatRequest.Message)

  function Plain(role: string, content: string): ChatRequest.Message {
    ChatRequest.Message(role, content, "", None, [], "", "")
  }

  function ConvertItem(isObject: string -> bool, item: ChatRequest.Item): Converted {
    match item
    case TextItem(role, text) =>
      if role in {"system", "user", "assistant", "tool"} then Said(Plain(role, text))
      else if role == "developer" then Said(Plain("system", text))
      else Bad
    case CallItem(id, name, args) => Said(Plain("assistant", "").(calls := [ToolCall(id, name, NormalArgs(isObject, args))]))
    case ResultItem(id, output) => Said(Plain("tool", output).(callId := id))
    case ReasoningItem(_) => Ignored
    case OtherItem(kind) => if kind == "additional_tools" then Ignored else Bad
  }

  /** The results by call id; of two for one call the later counts. */
  function Outputs(items: seq<ChatRequest.Item>): map<string, string> {
    if items == [] then map[]
    else
      var last := items[|items| - 1];
      var p := Outputs(items[..|items| - 1]);
      if last.ResultItem? && last.callId != "" then p[last.callId := last.output] else p
  }

  function ResultMessage(id: string, output: string): ChatRequest.Message {
    Plain("tool", output).(callId := id)
  }

  /** Messages so far, and the results that still wait for their call. */
  datatype Weave = Weave(messages: seq<ChatRequest.Message>, rest: map<string, string>)

  function WeaveStep(isObject: string -> bool, w: Weave, item: ChatRequest.Item): Option<Weave> {
    if item.ResultItem? then Some(w)
    else
      var c := ConvertItem(isObject, item);
      if c.Bad? then None
      else if c.Ignored? then Some(w)
      else if item.CallItem? && item.callId != "" && item.callId in w.rest then
        Some(Weave(w.messages + [c.m] + [ResultMessage(item.callId, w.rest[item.callId])], w.rest - {item.callId}))
      else Some(w.(messages := w.messages + [c.m]))
  }

  function Woven(isObject: string -> bool, outs: map<string, string>, items: seq<ChatRequest.Item>): Option<Weave> {
    if items == [] then Some(Weave([], outs))
    else
      var p := Woven(isObject, outs, items[..|items| - 1]);
      if p.None? then None else WeaveStep(isObject, p.value, items[|items| - 1])
  }

  function LeftOver(rest: map<string, string>, order: seq<string>): (r: seq<ChatRequest.Message>)
    requires forall i :: 0 <= i < |order| ==> order[i] in rest
    ensures |r| == |order| && forall i :: 0 <= i < |r| ==> r[i] == ResultMessage(order[i], rest[order[i]])
  {
    seq(|order|, i requires 0 <= i < |order| => ResultMessage(order[i], rest[order[i]]))
  }

  function SystemMessage(r: Request): seq<ChatRequest.Message> {
    if r.instructions.Some? then [Plain("system", r.instructions.value)] else []
  }

  // ---- the conversion itself ----

  method CollectOutputs(items: seq<ChatRequest.Item>) returns (outs: map<string, string>)
    ensures outs == Outputs(items)
  {
    outs := map[];
    for i := 0 to |items|
      invariant outs == Outputs(items[..i])
    {
      assert items[..i + 1][..i] == items[..i];
      if items[i].ResultItem? && items[i].callId != "" {
        outs := outs[items[i].callId := items[i].output];
      }
    }
    assert items[..|items|] == items;
  }

  /** Results without a call come last, in any order, which is reported. */
  method AppendLeftOver(rest: map<string, string>) returns (r: seq<ChatRequest.Message>, ghost order: seq<string>)
    ensures Enumerates(order, rest) && r == LeftOver(rest, order)
  {
    r, order := [], [];
    var keys := rest.Keys;
    while keys != {}
      invariant keys <= rest.Keys
      invariant forall i :: 0 <= i < |order| ==> order[i] in rest && order[i] !in keys
      invariant forall k :: k in rest ==> k in keys || k in order
      invariant forall i, j :: 0 <= i < j < |order| ==> order[i] != order[j]
      invariant r == LeftOver(rest, order)
      decreases keys
    {
      var _ := Inhabited(keys);
      var k :| k in keys;
      r := r + [ResultMessage(k, rest[k])];
      order := order + [k];
      keys := keys - {k};
    }
  }

  method ConvertRequest(isObject: string -> bool, req: Request) returns (r: Option<seq<ChatRequest.Message>>, ghost order: seq<string>)
    ensures var w := Woven(isObject, Outputs(req.input), req.input);
            if w.None? then r == None
            else Enumerates(order, w.value.rest) && r == Some(SystemMessage(req) + w.value.messages + LeftOver(w.value.rest, order))
  {
    hide Enumerates, NormalArgs;
    order := [];
    var messages := SystemMessage(req);
    var outs := CollectOutputs(req.input);
    ghost var all := outs;
    var woven: seq<ChatRequest.Message> := [];
    var items := req.input;
    for i := 0 to |items|
      invariant Woven(isObject, all, items[..i]) == Some(Weave(woven, outs))
    {
      assert items[..i + 1][..i] == items[..i] && items[..i + 1][i] == items[i];
      if items[i].ResultItem? {
        continue;
      }
      var c := ConvertItem(isObject, items[i]);
      if c.Bad? {
        StaysBad(isObject, all, items, i + 1);
        return None, [];
      }
      if c.Said? {
        woven := woven + [c.m];
        if items[i].CallItem? && items[i].callId != "" && items[i].callId in outs {
          woven := woven + [ResultMessage(items[i].callId, outs[items[i].callId])];
          outs := outs - {items[i].callId};
        }
      }
    }
    assert items[..|items|] == items;
    var left;
    left, order := AppendLeftOver(outs);
    r := Some(messages + woven + left);
  }

  lemma {:induction false} StaysBad(isObject: string -> bool, outs: map<string, string>, items: seq<ChatRequest.Item>, n: nat)
    requires n <= |items| && Woven(isObject, outs, items[..n]).None?
    ensures Woven(isObject, outs, items).None?
    decreases |items|
  {
    hide WeaveStep;
    if n < |items| {
      assert items[..|items| - 1][..n] == items[..n];
      StaysBad(isObject, outs, items[..|items| - 1], n);
    } else {
      assert items[..n] == items;
    }
  }

  // ---- what is said ----

  function PartOf(m: ChatRequest.Message): Part {
    if m.role == "tool" && m.callId != "" then ResultPart(m.callId, m.content)
    else if m.calls != [] then CallPart(m.calls[0].id, m.calls[0].name, m.calls[0].args)
    else TextPart(m.role, m.content)
  }

  function ItemPart(isObject: string -> bool, item: ChatRequest.Item): seq<Part> {
    match item
    case TextItem(role, text) => [TextPart(if role == "developer" then "system" else role, text)]
    case CallItem(id, name, args) => [CallPart(id, name, NormalArgs(isObject, args))]
    case ResultItem(id, output) => [ResultPart(id, output)]
    case _ => []
  }

  /** Texts and calls, in order. */
  function Others(ms: seq<ChatRequest.Message>): seq<Part> {
    if ms == [] then []
    else
      var p := PartOf(ms[|ms| - 1]);
      Others(ms[..|ms| - 1]) + (if p.ResultPart? then [] else [p])
  }

  function Results(ms: seq<ChatRequest.Message>): seq<Part> {
    if ms == [] then []
    else
      var p := PartOf(ms[|ms| - 1]);
      Results(ms[..|ms| - 1]) + (if p.ResultPart? then [p] else [])
  }

  function ItemOthers(isObject: string -> bool, items: seq<ChatRequest.Item>): seq<Part> {
    if items == [] then []
    else
      var last := items[|items| - 1];
      ItemOthers(isObject, items[..|items| - 1]) + (if last.ResultItem? then [] else ItemPart(isObject, last))
  }

  function ItemResults(items: seq<ChatRequest.Item>): seq<Part> {
    if items == [] then []
    else
      var last := items[|items| - 1];
      ItemResults(items[..|items| - 1]) + (if last.ResultItem? then [ResultPart(last.callId, last.output)] else [])
  }

  lemma OthersSnoc(ms: seq<ChatRequest.Message>, m: ChatRequest.Message)
    ensures Others(ms + [m]) == Others(ms) + if PartOf(m).ResultPart? then [] else [PartOf(m)]
    ensures Results(ms + [m]) == Results(ms) + if PartOf(m).ResultPart? then [PartOf(m)] else []
  {
    hide PartOf;
    assert (ms + [m])[..|ms|] == ms && (ms + [m])[|ms|] == m;
  }

  /** Which results have found their call. */
  ghost predicate Counted(outs: map<string, string>, w: Weave) {
    && w.rest.Keys <= outs.Keys && (forall id :: id in w.rest ==> w.rest[id] == outs[id])
    && (forall p :: multiset(Results(w.messages))[p] == if Matched(outs, w.rest, p) then 1 else 0)
    && |Results(w.messages)| + |w.rest| == |outs|
    && "" !in outs
  }

  predicate Matched(outs: map<string, string>, rest: map<string, string>, p: Part) {
    p.ResultPart? && p.callId in outs && p.callId !in rest && outs[p.callId] == p.output
  }

  lemma {:induction false} NoEmptyKey(items: seq<ChatRequest.Item>)
    ensures "" !in Outputs(items)
  {
    if items != [] {
      NoEmptyKey(items[..|items| - 1]);
    }
  }

  lemma CountResult(outs: map<string, string>, w: Weave, id: string)
    requires Counted(outs, w) && id in w.rest
    ensures Counted(outs, Weave(w.messages + [ResultMessage(id, w.rest[id])], w.rest - {id}))
  {
    hide Results;
    var m := ResultMessage(id, w.rest[id]);
    OthersSnoc(w.messages, m);
    var v := Weave(w.messages + [m], w.rest - {id});
    assert id != "" && PartOf(m) == ResultPart(id, w.rest[id]);
    assert v.rest.Keys == w.rest.Keys - {id};
    assert |v.rest| == |v.rest.Keys| && |w.rest| == |w.rest.Keys|;
  }

  lemma CountOther(outs: map<string, string>, w: Weave, m: ChatRequest.Message)
    requires Counted(outs, w) && !PartOf(m).ResultPart?
    ensures Counted(outs, w.(messages := w.messages + [m]))
  {
    hide Results, PartOf;
    OthersSnoc(w.messages, m);
    assert Results(w.messages) + [] == Results(w.messages);
  }

  lemma ConvertedPart(isObject: string -> bool, item: ChatRequest.Item)
    requires ConvertItem(isObject, item).Said? && !item.ResultItem?
    ensures ItemPart(isObject, item) == [PartOf(ConvertItem(isObject, item).m)] && !PartOf(ConvertItem(isObject, item).m).ResultPart?
  {
  }

  lemma {:induction false} WeaveSays(isObject: string -> bool, outs: map<string, string>, items: seq<ChatRequest.Item>)
    requires Woven(isObject, outs, items).Some? && "" !in outs
    ensures var w := Woven(isObject, outs, items).value;
            Counted(outs, w) && Others(w.messages) == ItemOthers(isObject, items)
  {
    hide Others, Counted, WeaveStep, ItemPart;
    if items == [] {
      NothingCounted(outs);
    } else {
      var p, last := items[..|items| - 1], items[|items| - 1];
      WeaveSays(isObject, outs, p);
      StepSays(isObject, outs, Woven(isObject, outs, p).value, last);
    }
  }

  lemma StepSays(isObject: string -> bool, outs: map<string, string>, w: Weave, item: ChatRequest.Item)
    requires Counted(outs, w) && WeaveStep(isObject, w, item).Some?
    ensures var v := WeaveStep(isObject, w, item).value;
            Counted(outs, v) && Others(v.messages) == Others(w.messages) + if item.ResultItem? then [] else ItemPart(isObject, item)
  {
    hide Others, Counted, ConvertItem, PartOf, ItemPart;
    assert Others(w.messages) + [] == Others(w.messages);
    if !item.ResultItem? {
      var c := ConvertItem(isObject, item);
      if c.Said? {
        ConvertedPart(isObject, item);
        OthersSnoc(w.messages, c.m);
        CountOther(outs, w, c.m);
        if item.CallItem? && item.callId != "" && item.callId in w.rest {
          var v := w.(messages := w.messages + [c.m]);
          CountResult(outs, v, item.callId);
          OthersSnoc(v.messages, ResultMessage(item.callId, w.rest[item.callId]));
          ResultIsResult(item.callId, w.rest[item.callId]);
          assert Others(v.messages) + [] == Others(v.messages);
        }
      } else {
        IgnoredSaysNothing(isObject, item);
      }
    }
  }

  lemma NothingCounted(outs: map<string, string>)
    requires "" !in outs
    ensures Counted(outs, Weave([], outs)) && Others([]) == []
  {
  }

  lemma ResultIsResult(id: string, output: string)
    requires id != ""
    ensures PartOf(ResultMessage(id, output)) == ResultPart(id, output)
  {
  }

  lemma IgnoredSaysNothing(isObject: string -> bool, item: ChatRequest.Item)
    requires ConvertItem(isObject, item).Ignored?
    ensures ItemPart(isObject, item) == []
  {
  }

  /** The results left over are added one by one. */
  lemma {:induction false} LeftOverCounts(outs: map<string, string>, w: Weave, order: seq<string>)
    requires Counted(outs, w) && (forall i :: 0 <= i < |order| ==> order[i] in w.rest)
    requires forall i, j :: 0 <= i < j < |order| ==> order[i] != order[j]
    ensures Counted(outs, Weave(w.messages + LeftOver(w.rest, order), w.rest - Members(order)))
    ensures Others(w.messages + LeftOver(w.rest, order)) == Others(w.messages)
    decreases |order|
  {
    hide Counted, Others, Results;
    if order == [] {
      assert w.messages + LeftOver(w.rest, []) == w.messages;
      assert w.rest - Members(order) == w.rest;
    } else {
      var p, id := order[..|order| - 1], order[|order| - 1];
      LeftOverCounts(outs, w, p);
      var gone := Members(p);
      var v := Weave(w.messages + LeftOver(w.rest, p), w.rest - gone);
      assert id !in gone;
      CountResult(outs, v, id);
      NotEmpty(outs, w, id);
      ResultIsResult(id, w.rest[id]);
      OthersSnoc(v.messages, ResultMessage(id, w.rest[id]));
      assert w.messages + LeftOver(w.rest, order) == v.messages + [ResultMessage(id, w.rest[id])];
      assert Members(order) == gone + {id} by {
        assert order == p + [id];
      }
      assert w.rest - (gone + {id}) == w.rest - gone - {id};
      assert Others(v.messages) + [] == Others(v.messages);
    }
  }

  lemma NotEmpty(outs: map<string, string>, w: Weave, id: string)
    requires Counted(outs, w) && id in w.rest
    ensures id != ""
  {
  }

  /** Every result has an id, and no two have the same. */
  predicate ResultsDistinct(items: seq<ChatRequest.Item>) {
    && (forall i :: 0 <= i < |items| && items[i].ResultItem? ==> items[i].callId != "")
    && (forall i, j :: 0 <= i < j < |items| && items[i].ResultItem? && items[j].ResultItem? ==> items[i].callId != items[j].callId)
  }

  lemma {:induction false} OutputKeys(items: seq<ChatRequest.Item>)
    ensures forall id :: id in Outputs(items) <==> id != "" && exists i :: 0 <= i < |items| && items[i].ResultItem? && items[i].callId == id
  {
    if items != [] {
      var p, last := items[..|items| - 1], items[|items| - 1];
      OutputKeys(p);
      forall id ensures id in Outputs(items) <==> id != "" && exists i :: 0 <= i < |items| && items[i].ResultItem? && items[i].callId == id {
        if id in Outputs(p) {
          var i :| 0 <= i < |p| && p[i].ResultItem? && p[i].callId == id;
          assert items[i] == p[i];
        }
        if id != "" && last.ResultItem? && last.callId == id {
          assert items[|items| - 1].callId == id;
        }
        assert forall i :: 0 <= i < |p| ==> p[i] == items[i];
      }
    }
  }

  /** As many results as ids exactly when the results are distinct, and then each counts once. */
  lemma {:induction false} ItemCounts(items: seq<ChatRequest.Item>)
    ensures |ItemResults(items)| >= |Outputs(items)|
    ensures |ItemResults(items)| == |Outputs(items)| <==> ResultsDistinct(items)
    ensures ResultsDistinct(items) ==>
              forall p :: multiset(ItemResults(items))[p] == if Matched(Outputs(items), map[], p) then 1 else 0
  {
    if items != [] {
      var p, last := items[..|items| - 1], items[|items| - 1];
      ItemCounts(p);
      OutputKeys(p);
      ResultsSnoc(p, last);
      assert items == p + [last];
      if last.ResultItem? && last.callId != "" {
        OneMoreKey(Outputs(p), last.callId, last.output);
      }
    }
  }

  lemma OneMoreKey(m: map<string, string>, k: string, v: string)
    ensures |m[k := v]| == if k in m then |m| else |m| + 1
  {
    assert m[k := v].Keys == m.Keys + {k};
    assert |m[k := v]| == |m[k := v].Keys| && |m| == |m.Keys|;
  }

  lemma ResultsSnoc(p: seq<ChatRequest.Item>, last: ChatRequest.Item)
    ensures ResultsDistinct(p + [last]) <==>
            ResultsDistinct(p)
            && (last.ResultItem? ==> last.callId != "" && forall i :: 0 <= i < |p| && p[i].ResultItem? ==> p[i].callId != last.callId)
  {
    var q := p + [last];
    assert forall i :: 0 <= i < |p| ==> q[i] == p[i];
    assert q[|p|] == last;
    if ResultsDistinct(q) && last.ResultItem? {
      forall i | 0 <= i < |p| && p[i].ResultItem? ensures p[i].callId != last.callId {
        assert q[i].callId != q[|p|].callId;
      }
    }
  }

  /** Converting the items of a request to messages: texts and calls all arrive, in their order; the
      results all arrive, each exactly once, exactly when no call has two of them. */
  lemma MessagesSayItems(isObject: string -> bool, items: seq<ChatRequest.Item>, order: seq<string>)
    requires Woven(isObject, Outputs(items), items).Some?
    requires Enumerates(order, Woven(isObject, Outputs(items), items).value.rest)
    ensures var w := Woven(isObject, Outputs(items), items).value;
            var ms := w.messages + LeftOver(w.rest, order);
            && Others(ms) == ItemOthers(isObject, items)
            && (multiset(Results(ms)) == multiset(ItemResults(items)) <==> ResultsDistinct(items))
  {
    hide Woven, Others, Results, ItemResults, Outputs, ResultsDistinct, Matched, ItemOthers;
    var outs := Outputs(items);
    var w := Woven(isObject, outs, items).value;
    var ms := w.messages + LeftOver(w.rest, order);
    NoEmptyKey(items);
    WeaveSays(isObject, outs, items);
    LeftOverCounts(outs, w, order);
    assert w.rest - Members(order) == map[] by {
      AllGone(w.rest, order);
    }
    ItemCounts(items);
    Compare(outs, ms, items);
  }

  lemma AllGone(rest: map<string, string>, order: seq<string>)
    requires Enumerates(order, rest)
    ensures rest - Members(order) == map[]
  {
  }

  lemma Compare(outs: map<string, string>, ms: seq<ChatRequest.Message>, items: seq<ChatRequest.Item>)
    requires outs == Outputs(items) && Counted(outs, Weave(ms, map[]))
    requires |ItemResults(items)| == |Outputs(items)| <==> ResultsDistinct(items)
    requires ResultsDistinct(items) ==> forall p :: multiset(ItemResults(items))[p] == if Matched(outs, map[], p) then 1 else 0
    ensures multiset(Results(ms)) == multiset(ItemResults(items)) <==> ResultsDistinct(items)
  {
    hide Results, ItemResults, Outputs, ResultsDistinct, Matched;
    assert |multiset(Results(ms))| == |Results(ms)| && |multiset(ItemResults(items))| == |ItemResults(items)|;
    if ResultsDistinct(items) {
      forall p ensures multiset(Results(ms))[p] == multiset(ItemResults(items))[p] {
      }
    }
  }

  // ---- each answered call is followed by its result ----

  /** The first call with this id. */
  predicate FirstCall(items: seq<ChatRequest.Item>, i: nat) {
    && i < |items| && items[i].CallItem? && items[i].callId != ""
    && forall j :: 0 <= j < i && items[j].CallItem? ==> items[j].callId != items[i].callId
  }

  ghost predicate Answered(isObject: string -> bool, ms: seq<ChatRequest.Message>, call: ChatRequest.Item, output: string)
    requires call.CallItem?
  {
    exists k :: 0 <= k < |ms| - 1 && ConvertItem(isObject, call) == Said(ms[k]) && ms[k + 1] == ResultMessage(call.callId, output)
  }

  lemma AnsweredMore(isObject: string -> bool, ms: seq<ChatRequest.Message>, more: seq<ChatRequest.Message>, call: ChatRequest.Item, output: string)
    requires call.CallItem? && Answered(isObject, ms, call, output)
    ensures Answered(isObject, ms + more, call, output)
  {
    var k :| 0 <= k < |ms| - 1 && ConvertItem(isObject, call) == Said(ms[k]) && ms[k + 1] == ResultMessage(call.callId, output);
    assert (ms + more)[k] == ms[k] && (ms + more)[k + 1] == ms[k + 1];
  }

  lemma {:induction false} StillWaits(isObject: string -> bool, outs: map<string, string>, items: seq<ChatRequest.Item>, id: string)
    requires Woven(isObject, outs, items).Some? && id in outs
    requires forall j :: 0 <= j < |items| && items[j].CallItem? ==> items[j].callId != id
    ensures id in Woven(isObject, outs, items).value.rest && Woven(isObject, outs, items).value.rest[id] == outs[id]
  {
    hide ConvertItem;
    if items != [] {
      StillWaits(isObject, outs, items[..|items| - 1], id);
    }
  }

  /** A call that has a result is immediately followed by it. */
  lemma {:induction false} AnswerFollows(isObject: string -> bool, outs: map<string, string>, items: seq<ChatRequest.Item>, i: nat)
    requires Woven(isObject, outs, items).Some? && FirstCall(items, i) && items[i].callId in outs
    ensures Answered(isObject, Woven(isObject, outs, items).value.messages, items[i], outs[items[i].callId])
    decreases |items|
  {
    hide Answered, ConvertItem;
    var p, last := items[..|items| - 1], items[|items| - 1];
    var w := Woven(isObject, outs, p).value;
    if i < |p| {
      assert p[i] == items[i] && forall j :: 0 <= j < i ==> p[j] == items[j];
      AnswerFollows(isObject, outs, p, i);
      var ms := Woven(isObject, outs, items).value.messages;
      assert exists more :: ms == w.messages + more by { OnlyAppends(isObject, w, last); }
      var more :| ms == w.messages + more;
      AnsweredMore(isObject, w.messages, more, items[i], outs[items[i].callId]);
    } else {
      assert forall j :: 0 <= j < |p| ==> p[j] == items[j];
      StillWaits(isObject, outs, p, last.callId);
      AnsweredHere(isObject, w.messages, last, outs[last.callId]);
    }
  }

  lemma OnlyAppends(isObject: string -> bool, w: Weave, item: ChatRequest.Item)
    requires WeaveStep(isObject, w, item).Some?
    ensures exists more :: WeaveStep(isObject, w, item).value.messages == w.messages + more
  {
    hide ConvertItem;
    var ms := WeaveStep(isObject, w, item).value.messages;
    assert ms == w.messages + ms[|w.messages|..];
  }

  lemma AnsweredHere(isObject: string -> bool, ms: seq<ChatRequest.Message>, call: ChatRequest.Item, output: string)
    requires call.CallItem?
    ensures ConvertItem(isObject, call).Said?
    ensures Answered(isObject, ms + [ConvertItem(isObject, call).m] + [ResultMessage(call.callId, output)], call, output)
  {
    var m := ConvertItem(isObject, call).m;
    var all := ms + [m] + [ResultMessage(call.callId, output)];
    assert all[|ms|] == m && all[|ms| + 1] == ResultMessage(call.callId, output);
  }
}
