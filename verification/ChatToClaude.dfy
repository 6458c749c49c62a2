/** The Chat -> Anthropic stream mapper. The class keeps the mapper's fields and its
    control flow; `MapStep` and `FlushStep` say what one call does, one content item at a time,
    and are what the whole-run results are proved about. */
module ChatToClaude {
  import opened Collections
  import opened Wire

  // ---- data URIs and finish reasons ----

  function IndexOf(s: string, c: char): (i: nat)
    ensures i <= |s|
    ensures i < |s| ==> s[i] == c
    ensures c !in s[..i]
  {
    if s == [] || s[0] == c then 0 else 1 + IndexOf(s[1..], c)
  }

  function TrimSuffix(s: string, suffix: string): string {
    if |s| >= |suffix| && s[|s| - |suffix|..] == suffix then s[..|s| - |suffix|] else s
  }

  /** The media type and payload of a `data:` URI, or None for ordinary text. */
  function ParseDataURI(s: string): Option<(string, string)> {
    if |s| < 5 || s[..5] != "data:" then None
    else
      var content := s[5..];
      var comma := IndexOf(content, ',');
      if comma == |content| then None
      else Some((TrimSuffix(content[..comma], ";base64"), content[comma + 1..]))
  }

  predicate IsDataURI(s: string) {
    ParseDataURI(s).Some?
  }

  function StopReason(finish: string): string {
    if finish == "length" then "max_tokens"
    else if finish == "tool_calls" then "tool_use"
    else "end_turn"
  }

  // ---- the mapper's state as a value ----

  datatype State = State(
    messageId: string, requestedModel: string, model: string,
    started: bool, textOpen: bool, thinkingOpen: bool,
    textIndex: int, thinkingIndex: int, nextIndex: nat,
    tools: map<int, int>, usage: Option<ClaudeUsage>,
    pendingStop: string, stopSent: bool)

  function Initial(messageId: string, requestedModel: string): State {
    State(messageId, requestedModel, "", false, false, false, -1, -1, 0, map[], None, "", false)
  }

  datatype Step = Step(s: State, out: seq<ClaudeEvent>)

  /** Events already sent, put in front of a later step. */
  function After(pre: seq<ClaudeEvent>, st: Step): Step {
    st.(out := pre + st.out)
  }

  function EnsureStart(c: Chunk, s: State): Step {
    if s.started then Step(s, [])
    else
      var id := if c.id != "" then c.id else s.messageId;
      var model := if s.requestedModel != "" then s.requestedModel
                   else if c.model != "" then c.model else s.model;
      Step(s.(started := true, messageId := id, model := model),
           [MessageStart(Some(Message(id, model, ClaudeUsage(0, 0, 0))))])
  }

  /** The members of a set that lie in 0, 1, ..., n - 1, in ascending order. */
  function InOrder(xs: set<int>, n: nat): (r: seq<int>)
    ensures forall i :: 0 <= i < |r| ==> r[i] in xs && 0 <= r[i] < n
    ensures forall x :: x in xs && 0 <= x < n ==> x in r
    ensures Increasing(r)
  {
    if n == 0 then [] else InOrder(xs, n - 1) + (if n - 1 in xs then [n - 1] else [])
  }

  predicate Increasing(r: seq<int>) {
    forall i, j :: 0 <= i < j < |r| ==> r[i] < r[j]
  }

  function Stops(indices: seq<int>): (r: seq<ClaudeEvent>)
    ensures |r| == |indices| && forall i :: 0 <= i < |r| ==> r[i] == BlockStop(indices[i])
  {
    seq(|indices|, i requires 0 <= i < |indices| => BlockStop(indices[i]))
  }

  function CloseBlocks(s: State): Step {
    Step(s.(thinkingOpen := false, textOpen := false, tools := map[]),
         (if s.thinkingOpen then [BlockStop(s.thinkingIndex)] else [])
         + (if s.textOpen then [BlockStop(s.textIndex)] else [])
         + Stops(InOrder(Range(s.tools), s.nextIndex)))
  }

  function StopEvents(s: State): seq<ClaudeEvent> {
    [MessageDelta(s.pendingStop,
                  if s.usage.Some? then Some(ClaudeUsage(s.usage.value.input, s.usage.value.output, 0)) else None),
     MessageStop]
  }

  function OpenText(s: State): Step {
    if s.textOpen then Step(s, [])
    else Step(s.(textOpen := true, textIndex := s.nextIndex, nextIndex := s.nextIndex + 1),
              [BlockStart(s.nextIndex, Some(TextBlock))])
  }

  function OpenThinking(s: State): Step {
    if s.thinkingOpen then Step(s, [])
    else Step(s.(thinkingOpen := true, thinkingIndex := s.nextIndex, nextIndex := s.nextIndex + 1),
              [BlockStart(s.nextIndex, Some(ThinkingBlock))])
  }

  function TextStep(s: State, text: string): Step {
    var uri := ParseDataURI(text);
    if uri.Some? then
      Step(s.(nextIndex := s.nextIndex + 1),
           [BlockStart(s.nextIndex, Some(Media(IsImage(uri.value.0), uri.value.0, uri.value.1))),
            BlockStop(s.nextIndex)])
    else
      var o := OpenText(s);
      Step(o.s, o.out + [BlockDelta(o.s.textIndex, Some(TextDelta(text)))])
  }

  predicate IsImage(mediaType: string) {
    "image/" <= mediaType
  }

  function ToolStep(s: State, td: ToolDelta): Step {
    var k := td.Key();
    var o := if k !in s.tools && td.id != "" then
               Step(s.(tools := s.tools[k := s.nextIndex], nextIndex := s.nextIndex + 1),
                    [BlockStart(s.nextIndex, Some(ToolUse(td.id, td.name)))])
             else Step(s, []);
    if td.args != "" && k in o.s.tools
    then Step(o.s, o.out + [BlockDelta(o.s.tools[k], Some(InputJson(Some(td.args))))])
    else o
  }

  function FinishStep(c: Chunk, s: State, reason: string): Step {
    if s.pendingStop != "" || s.stopSent then Step(s, [])
    else
      var a := EnsureStart(c, s);
      var b := CloseBlocks(a.s);
      var s2 := b.s.(pendingStop := StopReason(reason));
      if s2.usage.Some? then Step(s2.(stopSent := true), a.out + b.out + StopEvents(s2))
      else Step(s2, a.out + b.out)
  }

  function ItemStep(c: Chunk, s: State, it: Item): Step {
    match it
    case Role => EnsureStart(c, s)
    case Reasoning(t) =>
      var a := EnsureStart(c, s);
      var b := OpenThinking(a.s);
      Step(b.s, a.out + b.out + [BlockDelta(b.s.thinkingIndex, Some(ThinkingDelta(t)))])
    case Content(t) =>
      var a := EnsureStart(c, s);
      After(a.out, TextStep(a.s, t))
    case Tool(td) =>
      var a := EnsureStart(c, s);
      After(a.out, ToolStep(a.s, td))
    case Finish(r) => FinishStep(c, s, r)
  }

  function ItemsRun(c: Chunk, s: State, items: seq<Item>): Step
    decreases items
  {
    if items == [] then Step(s, [])
    else
      var a := ItemStep(c, s, items[0]);
      After(a.out, ItemsRun(c, a.s, items[1..]))
  }

  function WithModel(c: Chunk, s: State): State {
    if s.requestedModel != "" then s.(model := s.requestedModel)
    else if s.model == "" && c.model != "" then s.(model := c.model)
    else s
  }

  function WithUsage(c: Chunk, s: State): State {
    if c.usage.Some? then s.(usage := Some(ClaudeUsage(c.usage.value.prompt, c.usage.value.completion, 0)))
    else s
  }

  /** A usage record that arrives while a finish is pending ends the message at once,
      and the rest of its chunk is not looked at. */
  predicate EndsOnUsage(c: Chunk, s: State) {
    c.usage.Some? && s.pendingStop != "" && !s.stopSent
  }

  function MapStep(s: State, c: Chunk): Step {
    var s1 := WithUsage(c, WithModel(c, s));
    if EndsOnUsage(c, s) then Step(s1.(stopSent := true), StopEvents(s1))
    else ItemsRun(c, s1, Items(c))
  }

  function FlushStep(s: State): Step {
    if s.stopSent then Step(s, [])
    else if s.pendingStop != "" then Step(s.(stopSent := true), StopEvents(s))
    else if !s.started then Step(s, [])
    else
      var b := CloseBlocks(s);
      var s2 := b.s.(pendingStop := "end_turn", stopSent := true);
      Step(s2, b.out + StopEvents(s2))
  }

  /** A whole stream without its Flush. */
  function Run(s: State, chunks: seq<Chunk>): Step
    decreases chunks
  {
    if chunks == [] then Step(s, [])
    else
      var a := MapStep(s, chunks[0]);
      After(a.out, Run(a.s, chunks[1..]))
  }

  /** Everything the client receives for a stream that is read to its end. */
  function Converted(s: State, chunks: seq<Chunk>): seq<ClaudeEvent> {
    var r := Run(s, chunks);
    r.out + FlushStep(r.s).out
  }

  // ---- the mapper itself ----

  method Insert(r: seq<int>, x: int) returns (q: seq<int>)
    requires Increasing(r) && x !in r
    ensures Increasing(q) && forall y :: y in q <==> y == x || y in r
  {
    var k := 0;
    while k < |r| && r[k] < x
      invariant k <= |r|
      invariant forall i :: 0 <= i < k ==> r[i] < x
    {
      k := k + 1;
    }
    q := r[..k] + [x] + r[k..];
    InsertAt(r, x, k);
  }

  lemma InsertAt(r: seq<int>, x: int, k: nat)
    requires Increasing(r) && k <= |r|
    requires forall i :: 0 <= i < k ==> r[i] < x
    requires k < |r| ==> x < r[k]
    ensures Increasing(r[..k] + [x] + r[k..])
    ensures forall y :: y in r[..k] + [x] + r[k..] <==> y == x || y in r
  {
    var q := r[..k] + [x] + r[k..];
    assert forall i :: 0 <= i < |q| ==> q[i] == if i < k then r[i] else if i == k then x else r[i - 1];
    forall y | y in r ensures y in q {
      var i :| 0 <= i < |r| && r[i] == y;
      assert q[if i < k then i else i + 1] == y;
    }
    assert q[k] == x;
  }

  /** What the library's sort.Ints does to distinct integers. */
  method SortInts(xs: seq<int>) returns (r: seq<int>)
    requires forall i, j :: 0 <= i < j < |xs| ==> xs[i] != xs[j]
    ensures Increasing(r) && forall y :: y in r <==> y in xs
  {
    r := [];
    for n := 0 to |xs|
      invariant Increasing(r) && forall y :: y in r <==> y in xs[..n]
    {
      r := Insert(r, xs[n]);
      assert xs[..n + 1] == xs[..n] + [xs[n]];
    }
    assert xs[..|xs|] == xs;
  }

  lemma HasMember(r: seq<int>)
    ensures r == [] || exists x :: x in r
  {
    if r != [] {
      var x := r[0];
      assert x in r;
    }
  }

  lemma LastIsLargest(r: seq<int>, x: int)
    requires Increasing(r) && x in r
    ensures x <= r[|r| - 1]
    ensures x != r[|r| - 1] ==> x in r[..|r| - 1]
  {
    var i :| 0 <= i < |r| && r[i] == x;
    assert i < |r| - 1 ==> r[..|r| - 1][i] == x;
  }

  /** Sorting leaves no choice. */
  lemma {:induction false} SortedUnique(a: seq<int>, b: seq<int>)
    requires Increasing(a) && Increasing(b)
    requires forall x :: x in a <==> x in b
    ensures a == b
    decreases |a|
  {
    if a == [] {
      HasMember(b);
    } else {
      assert a[|a| - 1] in a;
      LastIsLargest(b, a[|a| - 1]);
      assert b[|b| - 1] in b;
      LastIsLargest(a, b[|b| - 1]);
      var a', b' := a[..|a| - 1], b[..|b| - 1];
      assert a == a' + [a[|a| - 1]] && b == b' + [b[|b| - 1]];
      forall x ensures x in a' <==> x in b' {
        if x in a' { LastIsLargest(b, x); }
        if x in b' { LastIsLargest(a, x); }
      }
      SortedUnique(a', b');
    }
  }

  class Mapper {
    var messageID: string
    const requestedModel: string
    var model: string
    var messageStarted: bool
    var textBlockStart: bool
    var thinkingBlockStart: bool
    var textIndex: int
    var thinkingIndex: int
    var nextIndex: nat
    var toolIndexByChunk: map<int, int>
    var usage: Option<ClaudeUsage>
    var pendingStopReason: string
    var stopSent: bool

    ghost function View(): State
      reads this
    {
      State(messageID, requestedModel, model, messageStarted, textBlockStart, thinkingBlockStart,
            textIndex, thinkingIndex, nextIndex, toolIndexByChunk, usage, pendingStopReason, stopSent)
    }

    /** Tool blocks have distinct indices, all given out already. */
    ghost predicate Valid()
      reads this
    {
      DistinctTools(View())
    }

    constructor (freshID: string, requested: string)
      ensures Valid() && View() == Initial(freshID, requested)
    {
      messageID, requestedModel, model := freshID, requested, "";
      messageStarted, textBlockStart, thinkingBlockStart := false, false, false;
      textIndex, thinkingIndex, nextIndex := -1, -1, 0;
      toolIndexByChunk, usage, pendingStopReason, stopSent := map[], None, "", false;
    }

    method EnsureMessageStart(c: Chunk) returns (events: seq<ClaudeEvent>)
      modifies this
      ensures Step(View(), events) == EnsureStart(c, old(View()))
    {
      if messageStarted {
        return [];
      }
      messageStarted := true;
      if c.id != "" {
        messageID := c.id;
      }
      if requestedModel != "" {
        model := requestedModel;
      } else if c.model != "" {
        model := c.model;
      }
      events := [MessageStart(Some(Message(messageID, model, ClaudeUsage(0, 0, 0))))];
    }

    method EnsureTextBlockStart() returns (events: seq<ClaudeEvent>)
      modifies this
      ensures Step(View(), events) == OpenText(old(View()))
    {
      if textBlockStart {
        return [];
      }
      textBlockStart := true;
      textIndex := nextIndex;
      nextIndex := nextIndex + 1;
      events := [BlockStart(textIndex, Some(TextBlock))];
    }

    method EnsureThinkingBlockStart() returns (events: seq<ClaudeEvent>)
      modifies this
      ensures Step(View(), events) == OpenThinking(old(View()))
    {
      if thinkingBlockStart {
        return [];
      }
      thinkingBlockStart := true;
      thinkingIndex := nextIndex;
      nextIndex := nextIndex + 1;
      events := [BlockStart(thinkingIndex, Some(ThinkingBlock))];
    }

    /** The tool indices, collected in whatever order the map yields them. */
    method ToolIndices() returns (indices: seq<int>)
      requires Valid()
      ensures forall x :: x in indices <==> x in Range(toolIndexByChunk)
      ensures forall i, j :: 0 <= i < j < |indices| ==> indices[i] != indices[j]
    {
      indices := [];
      ghost var visited: seq<int> := [];
      var keys := toolIndexByChunk.Keys;
      while keys != {}
        invariant |visited| == |indices| && keys <= toolIndexByChunk.Keys
        invariant forall i :: 0 <= i < |visited| ==>
          visited[i] in toolIndexByChunk && visited[i] !in keys && indices[i] == toolIndexByChunk[visited[i]]
        invariant forall i, j :: 0 <= i < j < |visited| ==> visited[i] != visited[j]
        invariant forall k :: k in toolIndexByChunk ==> k in keys || k in visited
        decreases keys
      {
        var _ := Inhabited(keys);
        var k :| k in keys;
        indices := indices + [toolIndexByChunk[k]];
        visited := visited + [k];
        keys := keys - {k};
      }
      forall x ensures x in indices <==> x in Range(toolIndexByChunk) {
        if x in Range(toolIndexByChunk) {
          var k :| k in toolIndexByChunk && toolIndexByChunk[k] == x;
          var i :| 0 <= i < |visited| && visited[i] == k;
          assert indices[i] == x;
        }
        if x in indices {
          var i :| 0 <= i < |indices| && indices[i] == x;
          assert visited[i] in toolIndexByChunk;
        }
      }
    }

    method ToolStops() returns (events: seq<ClaudeEvent>)
      requires Valid()
      ensures events == Stops(InOrder(Range(toolIndexByChunk), nextIndex))
    {
      var collected := ToolIndices();
      var toolIndices := SortInts(collected);
      forall x ensures x in toolIndices <==> x in InOrder(Range(toolIndexByChunk), nextIndex) {
      }
      SortedUnique(toolIndices, InOrder(Range(toolIndexByChunk), nextIndex));
      events := [];
      for n := 0 to |toolIndices|
        invariant |events| == n
        invariant forall i :: 0 <= i < n ==> events[i] == BlockStop(toolIndices[i])
      {
        events := events + [BlockStop(toolIndices[n])];
      }
    }

    method CloseOpenContentBlocks() returns (events: seq<ClaudeEvent>)
      requires Valid()
      modifies this
      ensures Valid() && Step(View(), events) == CloseBlocks(old(View()))
    {
      hide InOrder, Stops, Range;
      events := [];
      if thinkingBlockStart {
        events := events + [BlockStop(thinkingIndex)];
        thinkingBlockStart := false;
      }
      if textBlockStart {
        events := events + [BlockStop(textIndex)];
        textBlockStart := false;
      }
      var stops := ToolStops();
      events := events + stops;
      toolIndexByChunk := map[];
    }

    method EmitStopWithUsage() returns (events: seq<ClaudeEvent>)
      ensures events == StopEvents(View())
    {
      var u := if usage.Some? then Some(ClaudeUsage(usage.value.input, usage.value.output, 0)) else None;
      events := [MessageDelta(pendingStopReason, u), MessageStop];
    }

    method Map(c: Chunk) returns (events: seq<ClaudeEvent>)
      requires Valid()
      modifies this
      ensures Valid() && Step(View(), events) == MapStep(old(View()), c)
    {
      hide ItemStep, ItemsRun, DeltaItems;
      events := [];
      if requestedModel != "" {
        model := requestedModel;
      } else if model == "" && c.model != "" {
        model := c.model;
      }
      if c.usage.Some? {
        usage := Some(ClaudeUsage(c.usage.value.prompt, c.usage.value.completion, 0));
        if pendingStopReason != "" && !stopSent {
          stopSent := true;
          events := EmitStopWithUsage();
          return;
        }
      }
      ghost var s1 := View();
      assert s1 == WithUsage(c, WithModel(c, old(View())));
      if |c.choices| == 0 {
        RunNone(c, s1);
        return;
      }
      var choice := c.choices[0];
      ghost var items := Items(c);
      ghost var done := 0;
      if choice.delta.Some? {
        events := MapDelta(c, choice.delta.value);
        done := |DeltaItems(choice.delta.value)|;
        RunConcat(c, s1, items[..done], items[done..]);
        assert items == items[..done] + items[done..];
        assert items[..done] == DeltaItems(choice.delta.value);
      }
      if choice.finish.Some? {
        assert items[done..] == [Finish(choice.finish.value)];
        RunOne(c, View(), Finish(choice.finish.value));
        var f := MapFinish(c, choice.finish.value);
        events := events + f;
      } else {
        assert items[done..] == [];
        RunNone(c, View());
      }
    }

    /** The content part of Map: role, reasoning, text, then the tool calls in order. */
    method MapDelta(c: Chunk, d: Delta) returns (events: seq<ClaudeEvent>)
      requires Valid()
      modifies this
      ensures Valid() && Step(View(), events) == ItemsRun(c, old(View()), DeltaItems(d))
    {
      hide ItemStep, ItemsRun, DistinctTools;
      events := [];
      ghost var s0 := View();
      ghost var items: seq<Item> := [];
      RunNone(c, s0);
      if d.role != "" {
        var a := MapRole(c);
        events := events + a;
        RunSnoc(c, s0, items, Role);
        items := items + [Role];
      }
      if d.reasoning != "" {
        var a := MapReasoning(c, d.reasoning);
        events := events + a;
        RunSnoc(c, s0, items, Reasoning(d.reasoning));
        items := items + [Reasoning(d.reasoning)];
      }
      if d.content != "" {
        var e := MapContent(c, d.content);
        events := events + e;
        RunSnoc(c, s0, items, Content(d.content));
        items := items + [Content(d.content)];
      }
      var e := MapTools(c, d.tools);
      events := events + e;
      RunConcat(c, s0, items, ToolItems(d.tools));
      assert items + ToolItems(d.tools) == DeltaItems(d);
    }

    method MapTools(c: Chunk, tools: seq<ToolDelta>) returns (events: seq<ClaudeEvent>)
      requires Valid()
      modifies this
      ensures Valid() && Step(View(), events) == ItemsRun(c, old(View()), ToolItems(tools))
    {
      hide ItemStep, ItemsRun, DistinctTools;
      events := [];
      RunNone(c, View());
      for n := 0 to |tools|
        invariant Valid()
        invariant Step(View(), events) == ItemsRun(c, old(View()), ToolItems(tools)[..n])
      {
        var e := MapTool(c, tools[n]);
        events := events + e;
        RunSnoc(c, old(View()), ToolItems(tools)[..n], Tool(tools[n]));
        assert ToolItems(tools)[..n + 1] == ToolItems(tools)[..n] + [Tool(tools[n])];
      }
      assert ToolItems(tools)[..|tools|] == ToolItems(tools);
    }

    method MapRole(c: Chunk) returns (events: seq<ClaudeEvent>)
      requires Valid()
      modifies this
      ensures Valid() && Step(View(), events) == ItemStep(c, old(View()), Role)
    {
      events := EnsureMessageStart(c);
    }

    method MapReasoning(c: Chunk, reasoning: string) returns (events: seq<ClaudeEvent>)
      requires Valid()
      modifies this
      ensures Valid() && Step(View(), events) == ItemStep(c, old(View()), Reasoning(reasoning))
    {
      var a := EnsureMessageStart(c);
      var b := EnsureThinkingBlockStart();
      events := a + b + [BlockDelta(thinkingIndex, Some(ThinkingDelta(reasoning)))];
    }

    method MapFinish(c: Chunk, reason: string) returns (events: seq<ClaudeEvent>)
      requires Valid()
      modifies this
      ensures Valid() && Step(View(), events) == ItemStep(c, old(View()), Finish(reason))
    {
      hide CloseBlocks, StopReason;
      events := [];
      if pendingStopReason == "" && !stopSent {
        var a := EnsureMessageStart(c);
        var b := CloseOpenContentBlocks();
        events := a + b;
        pendingStopReason := StopReason(reason);
        if usage.Some? {
          stopSent := true;
          var stop := EmitStopWithUsage();
          events := events + stop;
        }
      }
    }

    method MapContent(c: Chunk, content: string) returns (events: seq<ClaudeEvent>)
      requires Valid()
      modifies this
      ensures Valid() && Step(View(), events) == ItemStep(c, old(View()), Content(content))
    {
      events := EnsureMessageStart(c);
      var uri := ParseDataURI(content);
      if uri.Some? {
        var idx := nextIndex;
        nextIndex := nextIndex + 1;
        events := events + [BlockStart(idx, Some(Media(IsImage(uri.value.0), uri.value.0, uri.value.1)))];
        events := events + [BlockStop(idx)];
      } else {
        var b := EnsureTextBlockStart();
        events := events + b + [BlockDelta(textIndex, Some(TextDelta(content)))];
      }
    }

    method MapTool(c: Chunk, tc: ToolDelta) returns (events: seq<ClaudeEvent>)
      requires Valid()
      modifies this
      ensures Valid() && Step(View(), events) == ItemStep(c, old(View()), Tool(tc))
    {
      events := EnsureMessageStart(c);
      var key := tc.Key();
      var known := key in toolIndexByChunk;
      var idx := if known then toolIndexByChunk[key] else 0;
      if !known && tc.id != "" {
        idx := nextIndex;
        nextIndex := nextIndex + 1;
        toolIndexByChunk := toolIndexByChunk[key := idx];
        known := true;
        events := events + [BlockStart(idx, Some(ToolUse(tc.id, tc.name)))];
      }
      if tc.args != "" {
        if !known {
          return;
        }
        events := events + [BlockDelta(idx, Some(InputJson(Some(tc.args))))];
      }
    }

    method Flush() returns (events: seq<ClaudeEvent>)
      requires Valid()
      modifies this
      ensures Valid() && Step(View(), events) == FlushStep(old(View()))
    {
      if stopSent {
        return [];
      }
      if pendingStopReason != "" {
        stopSent := true;
        events := EmitStopWithUsage();
        return;
      }
      if !messageStarted {
        return [];
      }
      events := CloseOpenContentBlocks();
      pendingStopReason := "end_turn";
      stopSent := true;
      var stop := EmitStopWithUsage();
      events := events + stop;
    }
  }

  ghost predicate DistinctTools(s: State) {
    && (forall j, k :: j in s.tools && k in s.tools && j != k ==> s.tools[j] != s.tools[k])
    && (forall k :: k in s.tools ==> 0 <= s.tools[k] < s.nextIndex)
  }

  lemma RunNone(c: Chunk, s: State)
    ensures ItemsRun(c, s, []) == Step(s, [])
  {
  }

  lemma RunOne(c: Chunk, s: State, it: Item)
    ensures ItemsRun(c, s, [it]) == ItemStep(c, s, it)
  {
    var a := ItemStep(c, s, it);
    assert ItemsRun(c, a.s, [it][1..]) == Step(a.s, []);
    assert a.out + [] == a.out;
  }

  lemma {:induction false} RunConcat(c: Chunk, s: State, a: seq<Item>, b: seq<Item>)
    ensures ItemsRun(c, s, a + b)
         == After(ItemsRun(c, s, a).out, ItemsRun(c, ItemsRun(c, s, a).s, b))
    decreases a
  {
    hide ItemStep;
    if a == [] {
      assert a + b == b;
    } else {
      assert (a + b)[1..] == a[1..] + b;
      RunConcat(c, ItemStep(c, s, a[0]).s, a[1..], b);
    }
  }

  lemma RunSnoc(c: Chunk, s: State, items: seq<Item>, it: Item)
    ensures var r := ItemsRun(c, s, items);
            var t := ItemStep(c, r.s, it);
            ItemsRun(c, s, items + [it]) == Step(t.s, r.out + t.out)
  {
    RunConcat(c, s, items, [it]);
    RunOne(c, ItemsRun(c, s, items).s, it);
  }
}
