/** What a stream says to whoever reads it, whichever protocol it is in: the text, the
    reasoning, the tool calls in the order they were announced, and how it ended.
    Both readings are written from the protocols, without reference to any mapper. */
module Meaning {
  import opened Wire

  /** A tool call; `key` is the number the stream itself uses for it. */
  datatype Call = Call(key: int, id: string, name: string, args: string)

  datatype Meaning = Meaning(text: string, reasoning: string, calls: seq<Call>, finish: Option<string>)

  const NOTHING := Meaning("", "", [], None)

  predicate Known(calls: seq<Call>, key: int) {
    exists i :: 0 <= i < |calls| && calls[i].key == key
  }

  /** Adds argument text to the call with this key. */
  function Feed(calls: seq<Call>, key: int, args: string): (r: seq<Call>)
    ensures |r| == |calls|
    ensures forall i :: 0 <= i < |calls| ==> r[i].key == calls[i].key && r[i].id == calls[i].id && r[i].name == calls[i].name
    ensures forall i :: 0 <= i < |calls| && calls[i].key != key ==> r[i] == calls[i]
  {
    if calls == [] then []
    else if calls[0].key == key then [calls[0].(args := calls[0].args + args)] + calls[1..]
    else [calls[0]] + Feed(calls[1..], key, args)
  }

  /** The first record with a key announces a call; later ones only add argument text to it. */
  function HearTool(calls: seq<Call>, key: int, id: string, name: string, args: string): seq<Call> {
    if Known(calls, key) then Feed(calls, key, args) else calls + [Call(key, id, name, args)]
  }

  function HearTools(calls: seq<Call>, tools: seq<ToolDelta>): seq<Call>
    decreases tools
  {
    if tools == [] then calls
    else HearTools(HearTool(calls, tools[0].Key(), tools[0].id, tools[0].name, tools[0].args), tools[1..])
  }

  /** The first way of ending counts. */
  function HearFinish(m: Meaning, reason: string): Meaning {
    if m.finish.None? then m.(finish := Some(reason)) else m
  }

  // ---- Chat ----

  function HearChunk(m: Meaning, c: Chunk): Meaning {
    if c.choices == [] then m
    else
      var ch := c.choices[0];
      var d := if ch.delta.Some? then ch.delta.value else EMPTY_DELTA;
      var m1 := m.(text := m.text + d.content, reasoning := m.reasoning + d.reasoning,
                   calls := HearTools(m.calls, d.tools));
      if ch.finish.Some? then HearFinish(m1, ch.finish.value) else m1
  }

  function HearChunks(m: Meaning, cs: seq<Chunk>): Meaning
    decreases cs
  {
    if cs == [] then m else HearChunks(HearChunk(m, cs[0]), cs[1..])
  }

  /** The meaning of a whole Chat stream. */
  function OfChat(cs: seq<Chunk>): Meaning {
    HearChunks(NOTHING, cs)
  }

  /** The usage a stream reports: the last record up to the finish, or else the first after it. */
  function ReportedUsage(cs: seq<Chunk>, fin: bool, last: Option<Usage>): Option<Usage>
    decreases cs
  {
    if cs == [] || (fin && last.Some?) then last
    else ReportedUsage(cs[1..], fin || Finishes(cs[0]), if cs[0].usage.Some? then cs[0].usage else last)
  }

  // ---- Anthropic ----

  function FinishReason(stop: string): string {
    if stop == "max_tokens" then "length"
    else if stop == "tool_use" then "tool_calls"
    else "stop"
  }

  function HearEvent(m: Meaning, e: ClaudeEvent): Meaning {
    match e
    case BlockStart(i, Some(ToolUse(id, name))) => m.(calls := HearTool(m.calls, i, id, name, ""))
    case BlockDelta(_, Some(TextDelta(t))) => m.(text := m.text + t)
    case BlockDelta(_, Some(ThinkingDelta(t))) => m.(reasoning := m.reasoning + t)
    case BlockDelta(i, Some(InputJson(Some(p)))) => m.(calls := HearTool(m.calls, i, "", "", p))
    case MessageDelta(stop, _) => if stop != "" then HearFinish(m, FinishReason(stop)) else m
    case MessageStop => HearFinish(m, "stop")
    case _ => m
  }

  function HearEvents(m: Meaning, es: seq<ClaudeEvent>): Meaning
    decreases es
  {
    if es == [] then m else HearEvents(HearEvent(m, es[0]), es[1..])
  }

  /** The meaning of a whole Anthropic stream, its ending told in Chat's terms. */
  function OfClaude(es: seq<ClaudeEvent>): Meaning {
    HearEvents(NOTHING, es)
  }

  lemma {:induction false} EventsConcat(m: Meaning, a: seq<ClaudeEvent>, b: seq<ClaudeEvent>)
    ensures HearEvents(m, a + b) == HearEvents(HearEvents(m, a), b)
    decreases a
  {
    hide HearEvent;
    if a == [] {
      assert a + b == b;
    } else {
      assert (a + b)[1..] == a[1..] + b;
      EventsConcat(HearEvent(m, a[0]), a[1..], b);
    }
  }

  lemma {:induction false} ChunksConcat(m: Meaning, a: seq<Chunk>, b: seq<Chunk>)
    ensures HearChunks(m, a + b) == HearChunks(HearChunks(m, a), b)
    decreases a
  {
    hide HearChunk;
    if a == [] {
      assert a + b == b;
    } else {
      assert (a + b)[1..] == a[1..] + b;
      ChunksConcat(HearChunk(m, a[0]), a[1..], b);
    }
  }

  // ---- comparing meanings across renumberings ----

  /** The same calls, in the same order, whatever numbers the two streams use for them. */
  predicate SameCalls(a: seq<Call>, b: seq<Call>) {
    |a| == |b| && forall i :: 0 <= i < |a| ==> SameCall(a[i], b[i])
  }

  predicate SameCall(a: Call, b: Call) {
    a.id == b.id && a.name == b.name && a.args == b.args
  }

  predicate SameMeaning(a: Meaning, b: Meaning) {
    a.text == b.text && a.reasoning == b.reasoning && SameCalls(a.calls, b.calls) && a.finish == b.finish
  }

  // ---- a chunk's meaning, item by item ----

  function HearItem(m: Meaning, it: Item): Meaning {
    match it
    case Role => m
    case Reasoning(t) => m.(reasoning := m.reasoning + t)
    case Content(t) => m.(text := m.text + t)
    case Tool(td) => m.(calls := HearTool(m.calls, td.Key(), td.id, td.name, td.args))
    case Finish(r) => HearFinish(m, r)
  }

  function HearItems(m: Meaning, items: seq<Item>): Meaning
    decreases items
  {
    if items == [] then m else HearItems(HearItem(m, items[0]), items[1..])
  }

  lemma {:induction false} ItemsConcat(m: Meaning, a: seq<Item>, b: seq<Item>)
    ensures HearItems(m, a + b) == HearItems(HearItems(m, a), b)
    decreases a
  {
    hide HearItem;
    if a == [] {
      assert a + b == b;
    } else {
      assert (a + b)[1..] == a[1..] + b;
      ItemsConcat(HearItem(m, a[0]), a[1..], b);
    }
  }

  lemma {:induction false} ToolItemsMean(m: Meaning, tools: seq<ToolDelta>)
    ensures HearItems(m, ToolItems(tools)) == m.(calls := HearTools(m.calls, tools))
    decreases tools
  {
    hide HearTool;
    if tools != [] {
      var items := ToolItems(tools);
      assert items[1..] == ToolItems(tools[1..]);
      ToolItemsMean(HearItem(m, items[0]), tools[1..]);
    }
  }

  lemma One(m: Meaning, it: Item)
    ensures HearItems(m, [it]) == HearItem(m, it)
  {
    assert [it][1..] == [];
    assert HearItems(HearItem(m, it), []) == HearItem(m, it);
  }

  lemma DeltaMeans(m: Meaning, d: Delta)
    ensures HearItems(m, DeltaItems(d))
         == m.(text := m.text + d.content, reasoning := m.reasoning + d.reasoning, calls := HearTools(m.calls, d.tools))
  {
    hide HearItems, HearTools, ToolItems;
    var r := if d.role != "" then [Role] else [];
    var g := if d.reasoning != "" then [Reasoning(d.reasoning)] else [];
    var t := if d.content != "" then [Content(d.content)] else [];
    ItemsConcat(m, r + g + t, ToolItems(d.tools));
    ItemsConcat(m, r + g, t);
    ItemsConcat(m, r, g);
    NoItems(m);
    One(m, Role);
    var m1 := m.(reasoning := m.reasoning + d.reasoning);
    One(m, Reasoning(d.reasoning));
    NoItems(m1);
    One(m1, Content(d.content));
    ToolItemsMean(m1.(text := m1.text + d.content), d.tools);
    assert m.reasoning + "" == m.reasoning && m.text + "" == m.text;
  }

  lemma NoItems(m: Meaning)
    ensures HearItems(m, []) == m
  {
  }

  /** Reading a chunk is reading its items. */
  lemma ItemsMeanChunk(m: Meaning, c: Chunk)
    ensures HearItems(m, Items(c)) == HearChunk(m, c)
  {
    hide HearItems, HearTools, DeltaItems, HearFinish;
    NoItems(m);
    if c.choices != [] {
      var ch := c.choices[0];
      var d := if ch.delta.Some? then DeltaItems(ch.delta.value) else [];
      var f := if ch.finish.Some? then [Finish(ch.finish.value)] else [];
      ItemsConcat(m, d, f);
      if ch.delta.Some? { DeltaMeans(m, ch.delta.value); }
      var m1 := HearItems(m, d);
      NoItems(m1);
      if ch.finish.Some? { One(m1, f[0]); }
      if ch.delta.None? {
        assert m.text + "" == m.text && m.reasoning + "" == m.reasoning;
        NoTools(m.calls);
      }
    }
  }

  lemma NoTools(calls: seq<Call>)
    ensures HearTools(calls, []) == calls
  {
  }
}
