/** Chat -> Anthropic -> Chat: what survives, and exactly when everything does. */
module RoundTrip {
  import opened Wire
  import opened Meaning
  import opened ClaudeOutput
  import opened ChatToClaude
  import ClaudeToChat

  // ---- conditions on the Chat stream ----

  predicate Carries(it: Item) {
    it.Reasoning? || it.Content? || it.Tool?
  }

  predicate NoContent(items: seq<Item>) {
    forall i :: 0 <= i < |items| ==> !Carries(items[i])
  }

  /** No chunk after the one with the finish reason carries content. */
  predicate NothingAfterFinish(chunks: seq<Chunk>, fin: bool)
    decreases chunks
  {
    if chunks == [] then true
    else (fin ==> NoContent(Items(chunks[0]))) && NothingAfterFinish(chunks[1..], fin || Finishes(chunks[0]))
  }

  /** The text fragments that are not data URIs. */
  function PlainText(items: seq<Item>): string {
    if items == [] then ""
    else (if items[0].Content? && !IsDataURI(items[0].text) then items[0].text else "") + PlainText(items[1..])
  }

  function AllText(items: seq<Item>): string {
    if items == [] then ""
    else (if items[0].Content? then items[0].text else "") + AllText(items[1..])
  }

  function AllItems(chunks: seq<Chunk>): seq<Item> {
    if chunks == [] then [] else Items(chunks[0]) + AllItems(chunks[1..])
  }

  lemma {:induction false} AllItemsConcat(a: seq<Chunk>, b: seq<Chunk>)
    ensures AllItems(a + b) == AllItems(a) + AllItems(b)
    decreases a
  {
    hide Items;
    if a == [] {
      assert a + b == b;
    } else {
      assert (a + b)[1..] == a[1..] + b;
      AllItemsConcat(a[1..], b);
    }
  }

  predicate NoDataURI(items: seq<Item>) {
    forall i :: 0 <= i < |items| && items[i].Content? ==> !IsDataURI(items[i].text)
  }

  /** The first record of each tool call carries its id. */
  predicate Announced(calls: seq<Call>, items: seq<Item>)
    decreases items
  {
    if items == [] then true
    else if items[0].Tool? then
      var td := items[0].td;
      (Known(calls, td.Key()) || td.id != "")
      && Announced(HearTool(calls, td.Key(), td.id, td.name, td.args), items[1..])
    else Announced(calls, items[1..])
  }

  predicate EndingKept(m: Meaning) {
    m.finish == Some("stop") || m.finish == Some("length") || m.finish == Some("tool_calls")
  }

  // ---- what the events for one item say ----

  function ToolEffect(s: State, calls: seq<Call>, td: ToolDelta): seq<Call> {
    var k := td.Key();
    if k in s.tools then
      if td.args != "" then HearTool(calls, s.tools[k], "", "", td.args) else calls
    else if td.id != "" then
      var c1 := HearTool(calls, s.nextIndex, td.id, td.name, "");
      if td.args != "" then HearTool(c1, s.nextIndex, "", "", td.args) else c1
    else calls
  }

  function Effect(s: State, w: Meaning, it: Item): Meaning {
    match it
    case Role => w
    case Reasoning(t) => w.(reasoning := w.reasoning + t)
    case Content(t) => if IsDataURI(t) then w else w.(text := w.text + t)
    case Tool(td) => w.(calls := ToolEffect(s, w.calls, td))
    case Finish(r) =>
      if s.pendingStop == "" && !s.stopSent && s.usage.Some? then HearFinish(w, FinishReason(StopReason(r))) else w
  }

  lemma HearOne(w: Meaning, e: ClaudeEvent)
    ensures HearEvents(w, [e]) == HearEvent(w, e)
  {
    hide HearEvent;
    var w1 := HearEvent(w, e);
    assert HearEvents(w1, [e][1..]) == w1;
  }

  lemma HearNone(w: Meaning)
    ensures HearEvents(w, []) == w
  {
  }

  lemma HearTwo(w: Meaning, e: ClaudeEvent, f: ClaudeEvent)
    ensures HearEvents(w, [e, f]) == HearEvent(HearEvent(w, e), f)
  {
    hide HearEvent;
    assert [e, f] == [e] + [f];
    EventsConcat(w, [e], [f]);
    HearOne(w, e);
    HearOne(HearEvent(w, e), f);
  }

  lemma StartMeansNothing(c: Chunk, s: State, w: Meaning)
    ensures HearEvents(w, EnsureStart(c, s).out) == w
    ensures var t := EnsureStart(c, s).s; t == s.(started := true, messageId := t.messageId, model := t.model)
  {
    HearNone(w);
    if !s.started {
      HearOne(w, EnsureStart(c, s).out[0]);
    }
  }

  lemma ThinkingMeans(s: State, w: Meaning, t: string)
    ensures var b := OpenThinking(s);
            HearEvents(w, b.out + [BlockDelta(b.s.thinkingIndex, Some(ThinkingDelta(t)))]) == w.(reasoning := w.reasoning + t)
  {
    var b := OpenThinking(s);
    var d := BlockDelta(b.s.thinkingIndex, Some(ThinkingDelta(t)));
    EventsConcat(w, b.out, [d]);
    HearNone(w);
    HearOne(w, d);
    if !s.thinkingOpen { HearOne(w, b.out[0]); }
  }

  lemma TextMeans(s: State, w: Meaning, t: string)
    ensures HearEvents(w, TextStep(s, t).out) == if IsDataURI(t) then w else w.(text := w.text + t)
  {
    hide ParseDataURI;
    var out := TextStep(s, t).out;
    if IsDataURI(t) {
      HearTwo(w, out[0], out[1]);
    } else {
      var b := OpenText(s);
      var d := BlockDelta(b.s.textIndex, Some(TextDelta(t)));
      EventsConcat(w, b.out, [d]);
      HearNone(w);
      HearOne(w, d);
      if !s.textOpen { HearOne(w, b.out[0]); }
    }
  }

  lemma ToolMeans(s: State, w: Meaning, td: ToolDelta)
    ensures HearEvents(w, ToolStep(s, td).out) == w.(calls := ToolEffect(s, w.calls, td))
  {
    hide HearTool;
    var out := ToolStep(s, td).out;
    HearNone(w);
    if |out| == 1 {
      assert out == [out[0]];
      HearOne(w, out[0]);
    } else if |out| == 2 {
      assert out == [out[0], out[1]];
      HearTwo(w, out[0], out[1]);
    }
  }

  lemma {:induction false} StopsMeanNothing(w: Meaning, es: seq<ClaudeEvent>)
    requires forall i :: 0 <= i < |es| ==> es[i].BlockStop?
    ensures HearEvents(w, es) == w
    decreases es
  {
    if es != [] {
      StopsMeanNothing(w, es[1..]);
    }
  }

  lemma CloseMeansNothing(s: State, w: Meaning)
    ensures HearEvents(w, CloseBlocks(s).out) == w
  {
    hide HearEvents, InOrder, Range;
    StopsMeanNothing(w, CloseBlocks(s).out);
  }

  lemma StopMeans(s: State, w: Meaning)
    requires s.pendingStop != ""
    ensures HearEvents(w, StopEvents(s)) == HearFinish(w, FinishReason(s.pendingStop))
  {
    HearTwo(w, StopEvents(s)[0], StopEvents(s)[1]);
  }

  lemma FinishMeans(c: Chunk, s: State, w: Meaning, r: string)
    ensures HearEvents(w, FinishStep(c, s, r).out) == Effect(s, w, Finish(r))
  {
    hide EnsureStart, CloseBlocks, StopEvents, HearEvents;
    HearNone(w);
    if s.pendingStop == "" && !s.stopSent {
      var a := EnsureStart(c, s);
      StartMeansNothing(c, s, w);
      var b := CloseBlocks(a.s);
      CloseMeansNothing(a.s, w);
      CloseFrame(a.s);
      EventsConcat(w, a.out, b.out);
      var s2 := b.s.(pendingStop := StopReason(r));
      if s2.usage.Some? {
        EventsConcat(w, a.out + b.out, StopEvents(s2));
        StopMeans(s2, w);
      }
    }
  }

  lemma ItemMeans(c: Chunk, s: State, w: Meaning, it: Item)
    ensures HearEvents(w, ItemStep(c, s, it).out) == Effect(s, w, it)
  {
    hide EnsureStart, OpenThinking, TextStep, ToolStep, FinishStep, HearEvents, HearTool, ParseDataURI;
    var a := EnsureStart(c, s);
    StartMeansNothing(c, s, w);
    match it
    case Role =>
    case Reasoning(t) =>
      var b := OpenThinking(a.s);
      var d := [BlockDelta(b.s.thinkingIndex, Some(ThinkingDelta(t)))];
      ThinkingMeans(a.s, w, t);
      EventsConcat(w, a.out, b.out + d);
      assert a.out + b.out + d == a.out + (b.out + d);
    case Content(t) =>
      TextMeans(a.s, w, t);
      EventsConcat(w, a.out, TextStep(a.s, t).out);
    case Tool(td) =>
      ToolMeans(a.s, w, td);
      EventsConcat(w, a.out, ToolStep(a.s, td).out);
    case Finish(r) => FinishMeans(c, s, w, r);
  }

  // ---- the two readings side by side ----

  /** Text, reasoning and ending: `plain` is the plain text so far, `v` what the Chat stream
      has said, `w` what the Anthropic stream has said. */
  predicate Base(s: State, plain: string, v: Meaning, w: Meaning) {
    && w.text == plain && w.reasoning == v.reasoning
    && (v.finish.Some? <==> s.pendingStop != "")
    && (v.finish.Some? ==> s.pendingStop == StopReason(v.finish.value))
    && (s.stopSent ==> s.pendingStop != "")
    && w.finish == (if s.stopSent then Some(FinishReason(s.pendingStop)) else None)
  }

  /** Until the finish, each Chat call is the Anthropic call at the block index the mapper keeps for it. */
  ghost predicate Linked(s: State, a: seq<Call>, b: seq<Call>) {
    && SameCalls(a, b)
    && (s.pendingStop == "" ==>
          && (forall i :: 0 <= i < |a| ==> a[i].key in s.tools && s.tools[a[i].key] == b[i].key)
          && (forall k :: k in s.tools ==> Known(a, k))
          && DistinctKeys(a) && DistinctKeys(b)
          && (forall i :: 0 <= i < |b| ==> b[i].key < s.nextIndex))
  }

  predicate DistinctKeys(a: seq<Call>) {
    forall i, j :: 0 <= i < j < |a| ==> a[i].key != a[j].key
  }

  predicate HasAnonymous(a: seq<Call>) {
    exists i :: 0 <= i < |a| && a[i].id == ""
  }

  ghost predicate Identified(s: State, b: seq<Call>) {
    && (forall i :: 0 <= i < |b| ==> b[i].id != "")
    && (forall k :: k in s.tools ==> Known(b, s.tools[k]))
  }

  ghost predicate Together(s: State, plain: string, v: Meaning, w: Meaning, announced: bool) {
    && Base(s, plain, v, w)
    && Identified(s, w.calls)
    && (if announced then Linked(s, v.calls, w.calls) else HasAnonymous(v.calls))
  }

  predicate NewTool(s: State, it: Item) {
    it.Tool? && it.td.Key() !in s.tools && it.td.id != ""
  }

  predicate FirstFinish(s: State, it: Item) {
    it.Finish? && s.pendingStop == "" && !s.stopSent
  }

  /** The fields that matter here, before and after one item. */
  predicate Fields(s: State, it: Item, t: State) {
    && t.usage == s.usage && t.nextIndex >= s.nextIndex
    && (if FirstFinish(s, it)
        then t.pendingStop == StopReason(it.reason) && t.tools == map[] && t.stopSent == s.usage.Some?
        else t.pendingStop == s.pendingStop && t.stopSent == s.stopSent)
    && (if NewTool(s, it)
        then t.tools == s.tools[it.td.Key() := s.nextIndex] && t.nextIndex == s.nextIndex + 1
        else FirstFinish(s, it) || t.tools == s.tools)
  }

  lemma TextFields(s: State, t: string)
    ensures Fields(s, Content(t), TextStep(s, t).s)
  {
    hide ParseDataURI;
  }

  lemma ToolFields(s: State, td: ToolDelta)
    ensures Fields(s, Tool(td), ToolStep(s, td).s)
  {
  }

  lemma FinishFields(c: Chunk, s: State, r: string)
    ensures Fields(s, Finish(r), FinishStep(c, s, r).s)
  {
    hide EnsureStart, CloseBlocks, StopEvents;
    StartMeansNothing(c, s, NOTHING);
    CloseFrame(EnsureStart(c, s).s);
  }

  lemma ItemFields(c: Chunk, s: State, it: Item)
    ensures Fields(s, it, ItemStep(c, s, it).s)
  {
    hide EnsureStart, TextStep, ToolStep, FinishStep;
    StartMeansNothing(c, s, NOTHING);
    var a := EnsureStart(c, s).s;
    match it
    case Role =>
    case Reasoning(_) =>
    case Content(t) => TextFields(a, t);
    case Tool(td) => ToolFields(a, td);
    case Finish(r) => FinishFields(c, s, r);
  }

  lemma BaseItem(c: Chunk, s: State, it: Item, plain: string, v: Meaning, w: Meaning)
    requires Base(s, plain, v, w)
    ensures Base(ItemStep(c, s, it).s, plain + PlainText([it]), HearItem(v, it), Effect(s, w, it))
  {
    hide ItemStep, ParseDataURI, HearTool, ToolEffect;
    ItemFields(c, s, it);
    assert PlainText([it][1..]) == "";
    assert plain + "" == plain;
  }

  lemma {:induction false} FeedAt(calls: seq<Call>, key: int, args: string, j: nat)
    requires DistinctKeys(calls) && j < |calls|
    ensures Feed(calls, key, args)[j] == if calls[j].key == key then calls[j].(args := calls[j].args + args) else calls[j]
  {
    if j > 0 {
      assert DistinctKeys(calls[1..]);
      if calls[0].key != key { FeedAt(calls[1..], key, args, j - 1); }
    }
  }

  lemma {:induction false} FeedEmpty(calls: seq<Call>, key: int)
    ensures Feed(calls, key, "") == calls
  {
    if calls != [] {
      assert calls[0].args + "" == calls[0].args;
      FeedEmpty(calls[1..], key);
    }
  }

  lemma FeedsAgreeAt(s: State, a: seq<Call>, b: seq<Call>, key: int, args: string, i: nat)
    requires Linked(s, a, b) && s.pendingStop == "" && key in s.tools && i < |a|
    ensures SameCall(Feed(a, key, args)[i], Feed(b, s.tools[key], args)[i])
  {
    hide Feed;
    FeedAt(a, key, args, i);
    FeedAt(b, s.tools[key], args, i);
    var m :| 0 <= m < |a| && a[m].key == key;
    assert SameCall(a[i], b[i]) && b[m].key == s.tools[key];
    if m != i {
      var lo, hi := if i < m then i else m, if i < m then m else i;
      assert a[lo].key != a[hi].key && b[lo].key != b[hi].key;
    }
  }

  lemma FeedsAgree(s: State, a: seq<Call>, b: seq<Call>, key: int, args: string)
    requires Linked(s, a, b) && s.pendingStop == "" && key in s.tools
    ensures Linked(s, Feed(a, key, args), Feed(b, s.tools[key], args))
  {
    hide Feed, Known, SameCall;
    var a', b' := Feed(a, key, args), Feed(b, s.tools[key], args);
    assert SameCalls(a', b') by {
      forall i | 0 <= i < |a| ensures SameCall(a'[i], b'[i]) {
        FeedsAgreeAt(s, a, b, key, args, i);
      }
    }
    ClaudeToChat.FeedKeepsKnown(a, key, args);
    assert DistinctKeys(a') && DistinctKeys(b');
  }

  lemma AppendsAgree(s: State, a: seq<Call>, b: seq<Call>, td: ToolDelta)
    requires Linked(s, a, b) && s.pendingStop == "" && td.Key() !in s.tools
    ensures !Known(a, td.Key()) && !Known(b, s.nextIndex)
    ensures var t := s.(tools := s.tools[td.Key() := s.nextIndex], nextIndex := s.nextIndex + 1);
            Linked(t, a + [Call(td.Key(), td.id, td.name, td.args)], b + [Call(s.nextIndex, td.id, td.name, td.args)])
  {
    var k := td.Key();
    var a', b' := a + [Call(k, td.id, td.name, td.args)], b + [Call(s.nextIndex, td.id, td.name, td.args)];
    assert forall i :: 0 <= i < |a| ==> a'[i] == a[i] && b'[i] == b[i] && SameCall(a[i], b[i]);
    hide SameCall;
    forall j | j in s.tools || j == k ensures Known(a', j) {
      if j == k {
        assert a'[|a|].key == k;
      } else {
        var i :| 0 <= i < |a| && a[i].key == j;
        assert a'[i].key == j;
      }
    }
  }

  lemma {:induction false} FeedLast(calls: seq<Call>, last: Call, args: string)
    requires !Known(calls, last.key)
    ensures Feed(calls + [last], last.key, args) == calls + [last.(args := last.args + args)]
  {
    if calls == [] {
      assert calls + [last] == [last];
    } else {
      assert calls[0].key != last.key;
      assert (calls + [last])[1..] == calls[1..] + [last];
      assert forall i :: 0 <= i < |calls[1..]| ==> calls[1..][i] == calls[i + 1];
      assert !Known(calls[1..], last.key);
      FeedLast(calls[1..], last, args);
    }
  }

  /** A new tool: start and first argument text in the two streams come to the same entry. */
  lemma NewToolEffect(s: State, b: seq<Call>, td: ToolDelta)
    requires td.Key() !in s.tools && td.id != "" && !Known(b, s.nextIndex)
    ensures ToolEffect(s, b, td) == b + [Call(s.nextIndex, td.id, td.name, td.args)]
  {
    var e := Call(s.nextIndex, td.id, td.name, "");
    var c1 := b + [e];
    assert c1[|b|].key == s.nextIndex;
    FeedLast(b, e, td.args);
    assert "" + td.args == td.args;
  }

  lemma LinkedItem(c: Chunk, s: State, it: Item, v: Meaning, w: Meaning)
    requires Linked(s, v.calls, w.calls)
    requires s.pendingStop != "" ==> !it.Tool?
    requires it.Tool? ==> Known(v.calls, it.td.Key()) || it.td.id != ""
    ensures Linked(ItemStep(c, s, it).s, HearItem(v, it).calls, Effect(s, w, it).calls)
  {
    hide ItemStep, ParseDataURI, ToolEffect, Feed;
    ItemFields(c, s, it);
    if it.Tool? {
      var td, k := it.td, it.td.Key();
      if k in s.tools {
        FeedsAgree(s, v.calls, w.calls, k, td.args);
        KnownTool(s, v.calls, w.calls, td);
      } else {
        AppendsAgree(s, v.calls, w.calls, td);
        NewToolEffect(s, w.calls, td);
      }
    }
  }

  lemma KnownTool(s: State, a: seq<Call>, b: seq<Call>, td: ToolDelta)
    requires Linked(s, a, b) && s.pendingStop == "" && td.Key() in s.tools
    ensures ToolEffect(s, b, td) == Feed(b, s.tools[td.Key()], td.args)
  {
    hide Feed;
    LinkedKnows(s, a, b, td.Key());
    FeedEmpty(b, s.tools[td.Key()]);
  }

  lemma LinkedKnows(s: State, a: seq<Call>, b: seq<Call>, k: int)
    requires Linked(s, a, b) && s.pendingStop == "" && k in s.tools
    ensures Known(b, s.tools[k])
  {
    assert Known(a, k);
    var m :| 0 <= m < |a| && a[m].key == k;
    assert b[m].key == s.tools[k];
  }

  lemma IdentifiedItem(c: Chunk, s: State, it: Item, w: Meaning)
    requires Identified(s, w.calls)
    ensures Identified(ItemStep(c, s, it).s, Effect(s, w, it).calls)
  {
    hide ItemStep, ParseDataURI, Feed;
    ItemFields(c, s, it);
    if it.Tool? {
      var td, k, b := it.td, it.td.Key(), w.calls;
      if k in s.tools {
        ClaudeToChat.FeedKeepsKnown(b, s.tools[k], td.args);
      } else if td.id != "" {
        ClaudeToChat.HearKeepsKnown(b, s.nextIndex, td.id, td.name, "");
        ClaudeToChat.HearKeepsKnown(HearTool(b, s.nextIndex, td.id, td.name, ""), s.nextIndex, "", "", td.args);
      }
    }
  }

  lemma StaysAnonymous(v: Meaning, it: Item)
    ensures HasAnonymous(v.calls) ==> HasAnonymous(HearItem(v, it).calls)
    ensures it.Tool? && !Known(v.calls, it.td.Key()) && it.td.id == "" ==> HasAnonymous(HearItem(v, it).calls)
  {
    var r := HearItem(v, it).calls;
    if HasAnonymous(v.calls) {
      var i :| 0 <= i < |v.calls| && v.calls[i].id == "";
      assert r[i].id == "";
    }
    if it.Tool? && !Known(v.calls, it.td.Key()) {
      assert r[|v.calls|].id == it.td.id;
    }
  }

  lemma TogetherItem(c: Chunk, s: State, it: Item, plain: string, v: Meaning, w: Meaning, announced: bool)
    requires Together(s, plain, v, w, announced)
    requires s.pendingStop != "" ==> !Carries(it)
    ensures Together(ItemStep(c, s, it).s, plain + PlainText([it]), HearItem(v, it), Effect(s, w, it),
                     announced && (it.Tool? ==> Known(v.calls, it.td.Key()) || it.td.id != ""))
  {
    hide ItemStep, HearItem, Effect, Base, Linked, Identified, HasAnonymous, PlainText, Known;
    BaseItem(c, s, it, plain, v, w);
    IdentifiedItem(c, s, it, w);
    StaysAnonymous(v, it);
    if announced && (it.Tool? ==> Known(v.calls, it.td.Key()) || it.td.id != "") {
      LinkedItem(c, s, it, v, w);
    }
  }

  // ---- runs ----

  lemma {:induction false} PlainConcat(a: seq<Item>, b: seq<Item>)
    ensures PlainText(a + b) == PlainText(a) + PlainText(b)
    decreases a
  {
    hide IsDataURI;
    if a == [] {
      assert a + b == b;
    } else {
      assert (a + b)[1..] == a[1..] + b;
      PlainConcat(a[1..], b);
    }
  }

  lemma {:induction false} AnnouncedConcat(m: Meaning, a: seq<Item>, b: seq<Item>)
    ensures Announced(m.calls, a + b) <==> Announced(m.calls, a) && Announced(HearItems(m, a).calls, b)
    decreases a
  {
    hide HearTool, Known;
    if a == [] {
      assert a + b == b;
    } else {
      assert (a + b)[1..] == a[1..] + b;
      AnnouncedConcat(HearItem(m, a[0]), a[1..], b);
    }
  }

  lemma {:induction false} TogetherItems(c: Chunk, s: State, items: seq<Item>, plain: string, v: Meaning, w: Meaning, announced: bool)
    requires Together(s, plain, v, w, announced)
    requires forall i :: 0 <= i < |items| && items[i].Finish? ==> i == |items| - 1
    requires s.pendingStop != "" ==> NoContent(items)
    ensures var r := ItemsRun(c, s, items);
            Together(r.s, plain + PlainText(items), HearItems(v, items), HearEvents(w, r.out),
                     announced && Announced(v.calls, items))
    decreases items
  {
    hide ItemStep, HearItem, Together, Effect, IsDataURI, HearTool, Known;
    if items == [] {
      HearNone(w);
      assert plain + "" == plain;
    } else {
      var a := ItemStep(c, s, items[0]);
      TogetherItem(c, s, items[0], plain, v, w, announced);
      ItemMeans(c, s, w, items[0]);
      ItemFields(c, s, items[0]);
      var w1 := HearEvents(w, a.out);
      var ann1 := announced && (items[0].Tool? ==> Known(v.calls, items[0].td.Key()) || items[0].td.id != "");
      var v1 := HearItem(v, items[0]);
      assert items == [items[0]] + items[1..];
      PlainConcat([items[0]], items[1..]);
      assert plain + PlainText([items[0]]) + PlainText(items[1..]) == plain + PlainText(items);
      TogetherItems(c, a.s, items[1..], plain + PlainText([items[0]]), v1, w1, ann1);
      EventsConcat(w, a.out, ItemsRun(c, a.s, items[1..]).out);
      AnnouncedStep(v, items);
    }
  }

  lemma AnnouncedStep(v: Meaning, items: seq<Item>)
    requires items != []
    ensures Announced(v.calls, items) <==>
            (items[0].Tool? ==> Known(v.calls, items[0].td.Key()) || items[0].td.id != "")
            && Announced(HearItem(v, items[0]).calls, items[1..])
  {
    hide HearTool, Known;
  }

  lemma FinishIsLast(c: Chunk)
    ensures forall i :: 0 <= i < |Items(c)| && Items(c)[i].Finish? ==> i == |Items(c)| - 1
  {
  }

  lemma {:induction false} NoContentNoEffect(v: Meaning, items: seq<Item>)
    requires NoContent(items) && v.finish.Some?
    ensures HearItems(v, items) == v && PlainText(items) == "" && Announced(v.calls, items)
    decreases items
  {
    if items != [] {
      NoContentNoEffect(v, items[1..]);
    }
  }

  lemma TogetherStop(s: State, plain: string, v: Meaning, w: Meaning, announced: bool)
    requires Together(s, plain, v, w, announced) && s.pendingStop != "" && !s.stopSent
    ensures Together(s.(stopSent := true), plain, v, HearEvents(w, StopEvents(s)), announced)
  {
    hide StopEvents, HearEvents, SameCalls, Known;
    StopMeans(s, w);
  }

  lemma TogetherUsage(c: Chunk, s: State, plain: string, v: Meaning, w: Meaning, announced: bool)
    requires Together(s, plain, v, w, announced)
    ensures var t := WithUsage(c, WithModel(c, s));
            Together(t, plain, v, w, announced) && t.pendingStop == s.pendingStop && t.stopSent == s.stopSent
  {
    hide Base, Linked, Identified, HasAnonymous;
    var t := WithUsage(c, WithModel(c, s));
    SameBase(s, t, plain, v, w);
    SameLinks(s, t, v.calls, w.calls);
  }

  lemma SameBase(s: State, t: State, plain: string, v: Meaning, w: Meaning)
    requires Base(s, plain, v, w) && t == s.(model := t.model, usage := t.usage)
    ensures Base(t, plain, v, w)
  {
  }

  lemma SameLinks(s: State, t: State, a: seq<Call>, b: seq<Call>)
    requires t == s.(model := t.model, usage := t.usage)
    ensures Linked(s, a, b) ==> Linked(t, a, b)
    ensures Identified(s, b) ==> Identified(t, b)
  {
    hide SameCalls, Known, DistinctKeys;
  }

  lemma TogetherChunk(c: Chunk, s: State, plain: string, v: Meaning, w: Meaning, announced: bool)
    requires Together(s, plain, v, w, announced)
    requires s.pendingStop != "" ==> NoContent(Items(c))
    ensures var r := MapStep(s, c);
            Together(r.s, plain + PlainText(Items(c)), HearChunk(v, c), HearEvents(w, r.out),
                     announced && Announced(v.calls, Items(c)))
  {
    hide Items, ItemsRun, PlainText, HearItems, HearChunk, Announced, StopEvents, HearEvents, Together, WithUsage, WithModel, NoContent;
    var s1 := WithUsage(c, WithModel(c, s));
    ItemsMeanChunk(v, c);
    TogetherUsage(c, s, plain, v, w, announced);
    if EndsOnUsage(c, s) {
      FinishHeard(s, plain, v, w, announced);
      NoContentNoEffect(v, Items(c));
      TogetherStop(s1, plain, v, w, announced);
      assert plain + "" == plain;
    } else {
      FinishIsLast(c);
      TogetherItems(c, s1, Items(c), plain, v, w, announced);
    }
  }

  lemma FinishHeard(s: State, plain: string, v: Meaning, w: Meaning, announced: bool)
    requires Together(s, plain, v, w, announced)
    ensures v.finish.Some? <==> s.pendingStop != ""
  {
    hide Linked, Identified, HasAnonymous;
  }

  lemma MapEnds(s: State, c: Chunk, v: Meaning, plain: string, w: Meaning, announced: bool)
    requires Together(s, plain, v, w, announced)
    requires s.pendingStop != "" ==> NoContent(Items(c))
    ensures MapStep(s, c).s.pendingStop != "" <==> s.pendingStop != "" || Finishes(c)
  {
    hide MapStep, Items, Together, PlainText, HearEvents, Announced, HearTools;
    var r := MapStep(s, c);
    TogetherChunk(c, s, plain, v, w, announced);
    FinishHeard(s, plain, v, w, announced);
    FinishHeard(r.s, plain + PlainText(Items(c)), HearChunk(v, c), HearEvents(w, r.out), announced && Announced(v.calls, Items(c)));
  }

  lemma {:induction false} TogetherRun(s: State, chunks: seq<Chunk>, plain: string, v: Meaning, w: Meaning, announced: bool)
    requires Together(s, plain, v, w, announced)
    requires NothingAfterFinish(chunks, s.pendingStop != "")
    ensures var r := Run(s, chunks);
            Together(r.s, plain + PlainText(AllItems(chunks)), HearChunks(v, chunks), HearEvents(w, r.out),
                     announced && Announced(v.calls, AllItems(chunks)))
    decreases chunks
  {
    hide MapStep, Together, Items, PlainText, HearChunk, HearItems, HearEvents, Announced, NoContent;
    if chunks == [] {
      HearNone(w);
      NoItemsAtAll(v);
      assert plain + "" == plain;
    } else {
      var c := chunks[0];
      var a := MapStep(s, c);
      TogetherChunk(c, s, plain, v, w, announced);
      MapEnds(s, c, v, plain, w, announced);
      ItemsMeanChunk(v, c);
      var rest := AllItems(chunks[1..]);
      TogetherRun(a.s, chunks[1..], plain + PlainText(Items(c)), HearChunk(v, c), HearEvents(w, a.out),
                  announced && Announced(v.calls, Items(c)));
      EventsConcat(w, a.out, Run(a.s, chunks[1..]).out);
      PlainConcat(Items(c), rest);
      AnnouncedConcat(v, Items(c), rest);
      assert plain + PlainText(Items(c)) + PlainText(rest) == plain + PlainText(AllItems(chunks));
    }
  }

  lemma NoItemsAtAll(v: Meaning)
    ensures PlainText([]) == "" && Announced(v.calls, [])
  {
  }

  /** What the Anthropic stream has said once it is flushed. */
  lemma FlushMeans(s: State, plain: string, v: Meaning, w: Meaning, announced: bool)
    requires Together(s, plain, v, w, announced) && (!s.started ==> s.pendingStop == "")
    ensures HearEvents(w, FlushStep(s).out) ==
            if !s.started && !s.stopSent then w
            else w.(finish := Some(if v.finish.Some? then FinishReason(StopReason(v.finish.value)) else "stop"))
  {
    hide CloseBlocks, StopEvents, HearEvents, Linked, Identified, HasAnonymous;
    HearNone(w);
    if s.stopSent {
    } else if s.pendingStop != "" {
      StopMeans(s, w);
    } else if s.started {
      var b := CloseBlocks(s);
      var s2 := b.s.(pendingStop := "end_turn", stopSent := true);
      CloseMeansNothing(s, w);
      EventsConcat(w, b.out, StopEvents(s2));
      StopMeans(s2, w);
    }
  }

  // ---- the results ----

  lemma {:induction false} PlainIsAll(items: seq<Item>)
    ensures |PlainText(items)| <= |AllText(items)|
    ensures PlainText(items) == AllText(items) <==> NoDataURI(items)
  {
    hide ParseDataURI, NoDataURI;
    if items != [] {
      PlainIsAll(items[1..]);
      if items[0].Content? {
        var t, p, a := items[0].text, PlainText(items[1..]), AllText(items[1..]);
        DataURINotEmpty(t);
        assert (t + p)[|t|..] == p && (t + a)[|t|..] == a;
      } else {
        assert "" + PlainText(items[1..]) == PlainText(items[1..]);
      }
      NoDataURIStep(items);
    } else {
      NoDataURINone();
    }
  }

  lemma NoDataURINone()
    ensures NoDataURI([])
  {
  }

  lemma NoDataURIStep(items: seq<Item>)
    requires items != []
    ensures NoDataURI(items) <==> (items[0].Content? ==> !IsDataURI(items[0].text)) && NoDataURI(items[1..])
  {
    hide ParseDataURI;
    assert forall i :: 1 <= i < |items| ==> items[i] == items[1..][i - 1];
    assert forall i :: 0 <= i < |items[1..]| ==> items[1..][i] == items[i + 1];
  }

  lemma DataURINotEmpty(t: string)
    ensures IsDataURI(t) ==> t != ""
  {
  }

  lemma {:induction false} TextHeard(m: Meaning, items: seq<Item>)
    ensures HearItems(m, items).text == m.text + AllText(items)
    decreases items
  {
    hide HearTool;
    if items != [] {
      TextHeard(HearItem(m, items[0]), items[1..]);
    }
  }

  lemma {:induction false} ChunksHeard(m: Meaning, chunks: seq<Chunk>)
    ensures HearChunks(m, chunks) == HearItems(m, AllItems(chunks))
    decreases chunks
  {
    hide HearChunk, HearItem, Items;
    if chunks != [] {
      ItemsMeanChunk(m, chunks[0]);
      ChunksHeard(HearChunk(m, chunks[0]), chunks[1..]);
      ItemsConcat(m, Items(chunks[0]), AllItems(chunks[1..]));
    }
  }

  /** The meaning of the Anthropic stream, whatever the Chat stream was, as long as nothing
      follows its finish: the reasoning, the text but for data URIs, and a definite ending. */
  lemma ClaudeMeaning(freshID: string, requested: string, chunks: seq<Chunk>)
    requires NothingAfterFinish(chunks, false)
    ensures var es := ChatToClaude.Converted(Initial(freshID, requested), chunks);
            var v, w := OfChat(chunks), OfClaude(es);
            && w.text == PlainText(AllItems(chunks))
            && w.reasoning == v.reasoning
            && (SameCalls(v.calls, w.calls) <==> Announced([], AllItems(chunks)))
            && (if es == [] then w.finish == v.finish == None
                else w.finish == Some(if v.finish.Some? then FinishReason(StopReason(v.finish.value)) else "stop"))
  {
    hide Run, FlushStep, HearChunks, HearEvents, Announced, PlainText, AllItems, Known;
    var s0 := Initial(freshID, requested);
    HearNone(NOTHING);
    TogetherRun(s0, chunks, "", NOTHING, NOTHING, true);
    var r := Run(s0, chunks);
    var v, w := HearChunks(NOTHING, chunks), HearEvents(NOTHING, r.out);
    var announced := Announced([], AllItems(chunks));
    assert Together(r.s, PlainText(AllItems(chunks)), v, w, announced) by {
      assert "" + PlainText(AllItems(chunks)) == PlainText(AllItems(chunks));
    }
    StartedIffSent(s0, chunks);
    FlushMeans(r.s, PlainText(AllItems(chunks)), v, w, announced);
    EventsConcat(NOTHING, r.out, FlushStep(r.s).out);
    if !announced {
      AnonymousDiffers(v.calls, w.calls);
    }
  }

  lemma AnonymousDiffers(a: seq<Call>, b: seq<Call>)
    requires HasAnonymous(a) && forall i :: 0 <= i < |b| ==> b[i].id != ""
    ensures !SameCalls(a, b)
  {
    var i :| 0 <= i < |a| && a[i].id == "";
    assert |a| == |b| ==> !SameCall(a[i], b[i]);
  }

  lemma StartedIffSent(s0: State, chunks: seq<Chunk>)
    requires !s0.started && s0.pendingStop == "" && !s0.stopSent
    ensures var r := Run(s0, chunks);
            && (r.s.started <==> r.out + FlushStep(r.s).out != [])
            && (!r.s.started ==> r.s.pendingStop == "" && !r.s.stopSent)
  {
    hide Run, FlushStep;
    RunKeepsSpine(s0, chunks, []);
    var r := Run(s0, chunks);
    assert [] + r.out == r.out;
    FlushOfUnstarted(r.s);
  }

  lemma FlushOfUnstarted(s: State)
    ensures !s.started && s.pendingStop == "" && !s.stopSent ==> FlushStep(s).out == []
  {
  }

  /** Chat -> Anthropic -> Chat keeps the whole meaning exactly when no text fragment is a data
      URI, every tool call is announced with its id, and the finish reason is one Anthropic
      has a word for. */
  lemma RoundTripIff(id1: string, id2: string, requested1: string, requested2: string, chunks: seq<Chunk>)
    requires NothingAfterFinish(chunks, false)
    ensures var es := ChatToClaude.Converted(Initial(id1, requested1), chunks);
            var back := ClaudeToChat.Converted(ClaudeToChat.Initial(id2, requested2), es);
            SameMeaning(OfChat(chunks), OfChat(back)) <==>
              && NoDataURI(AllItems(chunks))
              && Announced([], AllItems(chunks))
              && (es != [] ==> EndingKept(OfChat(chunks)))
  {
    hide ChatToClaude.Converted, ClaudeToChat.Converted, HearEvents, HearChunks, AllItems, Announced, NoDataURI;
    var es := ChatToClaude.Converted(Initial(id1, requested1), chunks);
    ClaudeToChat.MeaningKept(id2, requested2, es);
    ClaudeMeaning(id1, requested1, chunks);
    ChunksHeard(NOTHING, chunks);
    TextHeard(NOTHING, AllItems(chunks));
    PlainIsAll(AllItems(chunks));
    assert OfChat(chunks).text == AllText(AllItems(chunks)) by {
      assert "" + AllText(AllItems(chunks)) == AllText(AllItems(chunks));
    }
  }
}
