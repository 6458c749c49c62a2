/** The Chat -> Responses stream mapper. At the finish it closes the tool calls in whatever
    order the map of tools yields them; `order` stands for that choice. */
module ChatToResponses {
  import opened Collections
  import opened Wire
  import opened ResponsesGrammar
  import Responses

  /** What is remembered of a tool call. */
  datatype ToolState = ToolState(index: int, callId: string, name: string, args: string)

  datatype State = State(
    responseId: string, requestedModel: string, model: string, created: bool,
    textAdded: bool, messageId: string, textIndex: int, next: nat, text: string,
    tools: map<int, ToolState>, usage: Option<Usage>, pendingFinish: bool, completed: bool)

  function Initial(responseId: string, messageId: string, model: string): State {
    State(responseId, model, model, false, false, messageId, -1, 0, "", map[], None, false, false)
  }

  datatype Step = Step(s: State, out: seq<Sent>)

  function After(pre: seq<Sent>, st: Step): Step {
    st.(out := pre + st.out)
  }

  function EnsureCreated(c: Chunk, s: State): Step {
    if s.created then Step(s, [])
    else
      var model := if s.requestedModel != "" then s.requestedModel
                   else if s.model == "" then c.model else s.model;
      Step(s.(created := true, model := model), [Created(s.responseId, model)])
  }

  function OpenText(s: State): Step {
    if s.textAdded then Step(s, [])
    else Step(s.(textAdded := true, textIndex := s.next, next := s.next + 1),
              [ItemAdded(s.next, NewMessage(s.messageId)), PartAdded(s.messageId, s.next)])
  }

  function TextStep(s: State, t: string): Step {
    var o := OpenText(s);
    Step(o.s.(text := o.s.text + t), o.out + [Sent.TextDelta(o.s.messageId, o.s.textIndex, t)])
  }

  function ItemIdOf(callId: string): string {
    "fc-" + callId
  }

  function OpenTool(s: State, td: ToolDelta): Step {
    if td.Key() !in s.tools && td.id != "" then
      Step(s.(tools := s.tools[td.Key() := ToolState(s.next, td.id, td.name, "")], next := s.next + 1),
           [ItemAdded(s.next, NewCall(ItemIdOf(td.id), td.id, td.name))])
    else Step(s, [])
  }

  function FeedTool(s: State, k: int, args: string): Step {
    if args != "" && k in s.tools then
      var t := s.tools[k];
      Step(s.(tools := s.tools[k := t.(args := t.args + args)]), [ArgsDelta(ItemIdOf(t.callId), t.index, args)])
    else Step(s, [])
  }

  function ToolStep(s: State, td: ToolDelta): Step {
    var o := OpenTool(s, td);
    After(o.out, FeedTool(o.s, td.Key(), td.args))
  }

  function TextClose(s: State): seq<Sent> {
    if s.textAdded
    then [TextDone(s.messageId, s.textIndex, s.text), ItemDone(s.textIndex, DoneMessage(s.messageId, s.text))]
    else []
  }

  function ToolClose(t: ToolState): seq<Sent> {
    [ArgsDone(ItemIdOf(t.callId), t.index), ItemDone(t.index, DoneCall(ItemIdOf(t.callId), t.callId, t.name, t.args))]
  }

  function ToolCloses(s: State, order: seq<int>): seq<Sent> {
    if order == [] then []
    else (if order[0] in s.tools then ToolClose(s.tools[order[0]]) else []) + ToolCloses(s, order[1..])
  }

  function NonZero(n: Option<int>): Option<int> {
    if n == Some(0) then None else n
  }

  /** Chat usage as the Responses protocol reports it: zero details are left out. */
  function SentUsage(u: Usage): Responses.Usage {
    Responses.Usage(u.prompt, u.completion, if u.total == 0 then u.prompt + u.completion else u.total,
                    if u.details == Some(PromptDetails(0, 0, 0)) then None else u.details,
                    None, NonZero(u.reasoning))
  }

  function Reported(u: Option<Usage>): Option<Responses.Usage> {
    if u.None? then None else Some(SentUsage(u.value))
  }

  /** The two usage mappings are inverse but for figures that say nothing. */
  lemma UsageSymmetric(u: Usage)
    ensures Responses.ChatUsage(SentUsage(u)) == u <==>
            && (u.total != 0 || u.prompt + u.completion == 0)
            && u.details != Some(PromptDetails(0, 0, 0))
            && u.reasoning != Some(0)
  {
    var r := Responses.ChatUsage(SentUsage(u));
    assert r.total == u.total <==> u.total != 0 || u.prompt + u.completion == 0;
    assert r.details == u.details <==> u.details != Some(PromptDetails(0, 0, 0));
    assert r.reasoning == u.reasoning <==> u.reasoning != Some(0);
  }

  function CompletedEvents(s: State): seq<Sent> {
    [Completed(s.responseId, s.model, Reported(s.usage))]
  }

  function FinishStep(c: Chunk, s: State, order: seq<int>): Step {
    if s.pendingFinish || s.completed then Step(s, [])
    else
      var a := EnsureCreated(c, s);
      var out := a.out + TextClose(a.s) + ToolCloses(a.s, order);
      var s2 := a.s.(pendingFinish := true);
      if s2.usage.Some? then Step(s2.(completed := true), out + CompletedEvents(s2)) else Step(s2, out)
  }

  function ItemStep(c: Chunk, s: State, it: Wire.Item, order: seq<int>): Step {
    match it
    case Role => Step(s, [])
    case Reasoning(_) => Step(s, [])
    case Content(t) =>
      var a := EnsureCreated(c, s);
      After(a.out, TextStep(a.s, t))
    case Tool(td) =>
      var a := EnsureCreated(c, s);
      After(a.out, ToolStep(a.s, td))
    case Finish(_) => FinishStep(c, s, order)
  }

  function ItemsRun(c: Chunk, s: State, items: seq<Wire.Item>, order: seq<int>): Step
    decreases items
  {
    if items == [] then Step(s, [])
    else
      var a := ItemStep(c, s, items[0], order);
      After(a.out, ItemsRun(c, a.s, items[1..], order))
  }

  function WithModel(c: Chunk, s: State): State {
    if s.requestedModel != "" then s.(model := s.requestedModel)
    else if s.model == "" && c.model != "" then s.(model := c.model)
    else s
  }

  /** A usage record is kept, and completes a response that was waiting for one. */
  function UsageStep(c: Chunk, s: State): Step {
    if c.usage.None? then Step(s, [])
    else
      var s1 := s.(usage := c.usage);
      if s1.pendingFinish && !s1.completed then Step(s1.(completed := true), CompletedEvents(s1))
      else Step(s1, [])
  }

  function MapStep(s: State, c: Chunk, order: seq<int>): Step {
    var u := UsageStep(c, WithModel(c, s));
    After(u.out, ItemsRun(c, u.s, Items(c), order))
  }

  function FlushStep(s: State): Step {
    if s.completed || !s.pendingFinish then Step(s, [])
    else Step(s.(completed := true), CompletedEvents(s))
  }

  /** A second Flush sends nothing and changes nothing. */
  lemma FlushTwice(s: State)
    ensures FlushStep(FlushStep(s).s) == Step(FlushStep(s).s, [])
  {
    hide CompletedEvents;
  }

  /** A whole stream without its Flush; one enumeration of the tools per chunk. */
  function Run(s: State, chunks: seq<Chunk>, orders: seq<seq<int>>): Step
    requires |orders| == |chunks|
    decreases chunks
  {
    if chunks == [] then Step(s, [])
    else
      var a := MapStep(s, chunks[0], orders[0]);
      After(a.out, Run(a.s, chunks[1..], orders[1..]))
  }

  function Converted(s: State, chunks: seq<Chunk>, orders: seq<seq<int>>): seq<Sent>
    requires |orders| == |chunks|
  {
    var r := Run(s, chunks, orders);
    r.out + FlushStep(r.s).out
  }

  /** Four maps with the same keys, as one. */
  function Joined(index: map<int, int>, callId: map<int, string>, name: map<int, string>, args: map<int, string>): map<int, ToolState>
    requires index.Keys == callId.Keys == name.Keys == args.Keys
  {
    map k | k in index :: ToolState(index[k], callId[k], name[k], args[k])
  }

  lemma JoinedPut(index: map<int, int>, callId: map<int, string>, name: map<int, string>, args: map<int, string>, k: int, t: ToolState)
    requires index.Keys == callId.Keys == name.Keys == args.Keys
    ensures index[k := t.index].Keys == callId[k := t.callId].Keys == name[k := t.name].Keys == args[k := t.args].Keys
    ensures Joined(index[k := t.index], callId[k := t.callId], name[k := t.name], args[k := t.args])
         == Joined(index, callId, name, args)[k := t]
  {
  }

  /** The enumeration a chunk with a first finish reason needs: each tool once. */
  ghost predicate OrderFits(s: State, c: Chunk, order: seq<int>) {
    var t := UsageThenContent(s, c);
    Finishes(c) && !t.pendingFinish && !t.completed ==> Enumerates(order, t.tools)
  }

  // ---- the mapper itself ----

  class Mapper {
    const responseID: string
    const requestedModel: string
    var model: string
    var responseCreated: bool
    var textItemAdded: bool
    const messageItemID: string
    var textOutputIndex: int
    var nextOutputIndex: nat
    var accumulatedText: string
    var toolOutputIndexByTCIndex: map<int, int>
    var toolCallIDByTCIndex: map<int, string>
    var toolNameByTCIndex: map<int, string>
    var accumulatedArgsByTCIndex: map<int, string>
    var usage: Option<Usage>
    var pendingFinish: bool
    var completedSent: bool

    /** The four maps have the same keys. */
    ghost predicate Valid()
      reads this
    {
      toolOutputIndexByTCIndex.Keys == toolCallIDByTCIndex.Keys == toolNameByTCIndex.Keys == accumulatedArgsByTCIndex.Keys
    }

    ghost function Tools(): map<int, ToolState>
      reads this
      requires Valid()
    {
      Joined(toolOutputIndexByTCIndex, toolCallIDByTCIndex, toolNameByTCIndex, accumulatedArgsByTCIndex)
    }

    ghost function View(): State
      reads this
      requires Valid()
    {
      State(responseID, requestedModel, model, responseCreated, textItemAdded, messageItemID, textOutputIndex,
            nextOutputIndex, accumulatedText, Tools(), usage, pendingFinish, completedSent)
    }

    constructor (freshResponseID: string, freshMessageID: string, requested: string)
      ensures Valid() && View() == Initial(freshResponseID, freshMessageID, requested)
    {
      responseID, requestedModel, model, messageItemID := freshResponseID, requested, requested, freshMessageID;
      responseCreated, textItemAdded, textOutputIndex, nextOutputIndex, accumulatedText := false, false, -1, 0, "";
      toolOutputIndexByTCIndex, toolCallIDByTCIndex, toolNameByTCIndex, accumulatedArgsByTCIndex := map[], map[], map[], map[];
      usage, pendingFinish, completedSent := None, false, false;
    }

    method EnsureResponseCreated(c: Chunk) returns (events: seq<Sent>)
      requires Valid()
      modifies this`model, this`responseCreated
      ensures Valid() && Step(View(), events) == EnsureCreated(c, old(View()))
    {
      if responseCreated {
        return [];
      }
      if requestedModel != "" {
        model := requestedModel;
      } else if model == "" {
        model := c.model;
      }
      responseCreated := true;
      events := [Created(responseID, model)];
    }

    method EnsureTextItemAdded() returns (events: seq<Sent>)
      requires Valid()
      modifies this`textItemAdded, this`textOutputIndex, this`nextOutputIndex
      ensures Valid() && Step(View(), events) == OpenText(old(View()))
    {
      if textItemAdded {
        return [];
      }
      textItemAdded := true;
      textOutputIndex := nextOutputIndex;
      nextOutputIndex := nextOutputIndex + 1;
      events := [ItemAdded(textOutputIndex, NewMessage(messageItemID)), PartAdded(messageItemID, textOutputIndex)];
    }

    method MapContent(c: Chunk, content: string) returns (events: seq<Sent>)
      requires Valid()
      modifies this
      ensures Valid() && Step(View(), events) == ItemStep(c, old(View()), Content(content), [])
    {
      var a := EnsureResponseCreated(c);
      var b := EnsureTextItemAdded();
      accumulatedText := accumulatedText + content;
      events := a + (b + [Sent.TextDelta(messageItemID, textOutputIndex, content)]);
    }

    method RegisterTool(key: int, outputIdx: int, id: string, name: string)
      requires Valid()
      modifies this`toolOutputIndexByTCIndex, this`toolCallIDByTCIndex, this`toolNameByTCIndex, this`accumulatedArgsByTCIndex
      ensures Valid() && Tools() == old(Tools())[key := ToolState(outputIdx, id, name, "")]
    {
      hide Joined;
      toolOutputIndexByTCIndex := toolOutputIndexByTCIndex[key := outputIdx];
      toolCallIDByTCIndex := toolCallIDByTCIndex[key := id];
      toolNameByTCIndex := toolNameByTCIndex[key := name];
      accumulatedArgsByTCIndex := accumulatedArgsByTCIndex[key := ""];
      JoinedPut(old(toolOutputIndexByTCIndex), old(toolCallIDByTCIndex), old(toolNameByTCIndex), old(accumulatedArgsByTCIndex),
                key, ToolState(outputIdx, id, name, ""));
    }

    method AnnounceTool(tc: ToolDelta) returns (events: seq<Sent>)
      requires Valid()
      modifies this
      ensures Valid() && Step(View(), events) == OpenTool(old(View()), tc)
    {
      hide ItemIdOf;
      events := [];
      var key := tc.Key();
      if key !in toolOutputIndexByTCIndex && tc.id != "" {
        var outputIdx := nextOutputIndex;
        nextOutputIndex := nextOutputIndex + 1;
        RegisterTool(key, outputIdx, tc.id, tc.name);
        events := [ItemAdded(outputIdx, NewCall(ItemIdOf(tc.id), tc.id, tc.name))];
      }
    }

    method AppendArgs(key: int, args: string) returns (events: seq<Sent>)
      requires Valid()
      modifies this`accumulatedArgsByTCIndex
      ensures Valid() && Step(View(), events) == FeedTool(old(View()), key, args)
    {
      events := [];
      if args != "" {
        if key !in toolOutputIndexByTCIndex {
          return;
        }
        accumulatedArgsByTCIndex := accumulatedArgsByTCIndex[key := accumulatedArgsByTCIndex[key] + args];
        events := [ArgsDelta(ItemIdOf(toolCallIDByTCIndex[key]), toolOutputIndexByTCIndex[key], args)];
      }
    }

    method MapTool(c: Chunk, tc: ToolDelta) returns (events: seq<Sent>)
      requires Valid()
      modifies this
      ensures Valid() && Step(View(), events) == ItemStep(c, old(View()), Tool(tc), [])
    {
      hide EnsureCreated, OpenTool, FeedTool;
      var a := EnsureResponseCreated(c);
      var b := AnnounceTool(tc);
      var d := AppendArgs(tc.Key(), tc.args);
      events := a + (b + d);
    }

    /** Closes the tool calls in the order the map yields them, which it reports. */
    method CloseTools() returns (events: seq<Sent>, ghost order: seq<int>)
      requires Valid()
      ensures Enumerates(order, Tools()) && events == ToolCloses(View(), order)
    {
      events, order := [], [];
      var keys := toolOutputIndexByTCIndex.Keys;
      while keys != {}
        invariant keys <= toolOutputIndexByTCIndex.Keys
        invariant forall i :: 0 <= i < |order| ==> order[i] in toolOutputIndexByTCIndex && order[i] !in keys
        invariant forall k :: k in toolOutputIndexByTCIndex ==> k in keys || k in order
        invariant forall i, j :: 0 <= i < j < |order| ==> order[i] != order[j]
        invariant events == ToolCloses(View(), order)
        decreases keys
      {
        var _ := Inhabited(keys);
        var k :| k in keys;
        var fc := ItemIdOf(toolCallIDByTCIndex[k]);
        var close := [ArgsDone(fc, toolOutputIndexByTCIndex[k]),
                      ItemDone(toolOutputIndexByTCIndex[k],
                               DoneCall(fc, toolCallIDByTCIndex[k], toolNameByTCIndex[k], accumulatedArgsByTCIndex[k]))];
        assert close == ToolClose(Tools()[k]);
        ClosesSnoc(View(), order, k);
        events := events + close;
        order := order + [k];
        keys := keys - {k};
      }
    }

    method CloseText() returns (events: seq<Sent>)
      requires Valid()
      ensures events == TextClose(View())
    {
      events := [];
      if textItemAdded {
        events := [TextDone(messageItemID, textOutputIndex, accumulatedText),
                   ItemDone(textOutputIndex, DoneMessage(messageItemID, accumulatedText))];
      }
    }

    method MapFinish(c: Chunk) returns (events: seq<Sent>, ghost order: seq<int>)
      requires Valid()
      modifies this
      ensures Valid() && Step(View(), events) == FinishStep(c, old(View()), order)
      ensures !old(View()).pendingFinish && !old(View()).completed ==> Enumerates(order, old(View()).tools)
    {
      hide TextClose, ToolCloses, Enumerates;
      events, order := [], [];
      if !pendingFinish && !completedSent {
        var a := EnsureResponseCreated(c);
        var t := CloseText();
        var d;
        d, order := CloseTools();
        events := a + t + d;
        pendingFinish := true;
        if usage.Some? {
          completedSent := true;
          events := events + [Completed(responseID, model, Reported(usage))];
        }
      }
    }

    /** The content part of Map: text, then the tool calls in order. */
    method MapDelta(c: Chunk, d: Delta) returns (events: seq<Sent>)
      requires Valid()
      modifies this
      ensures Valid() && Step(View(), events) == ItemsRun(c, old(View()), DeltaItems(d), [])
    {
      hide ItemStep, ItemsRun;
      events := [];
      ghost var s0 := View();
      ghost var items: seq<Wire.Item> := [];
      RunNone(c, s0);
      if d.role != "" {
        RunSnoc(c, s0, items, Role);
        RoleStep(c, View(), Role);
        items := items + [Role];
      }
      if d.reasoning != "" {
        RunSnoc(c, s0, items, Reasoning(d.reasoning));
        RoleStep(c, View(), Reasoning(d.reasoning));
        items := items + [Reasoning(d.reasoning)];
      }
      if d.content != "" {
        var e := MapContent(c, d.content);
        events := events + e;
        RunSnoc(c, s0, items, Content(d.content));
        items := items + [Content(d.content)];
      }
      var e := MapTools(c, d.tools);
      events := events + e;
      ItemsConcat(c, s0, items, ToolItems(d.tools), []);
      assert items + ToolItems(d.tools) == DeltaItems(d);
    }

    method MapTools(c: Chunk, tools: seq<ToolDelta>) returns (events: seq<Sent>)
      requires Valid()
      modifies this
      ensures Valid() && Step(View(), events) == ItemsRun(c, old(View()), ToolItems(tools), [])
    {
      hide ItemStep, ItemsRun;
      events := [];
      RunNone(c, View());
      for n := 0 to |tools|
        invariant Valid()
        invariant Step(View(), events) == ItemsRun(c, old(View()), ToolItems(tools)[..n], [])
      {
        var e := MapTool(c, tools[n]);
        events := events + e;
        RunSnoc(c, old(View()), ToolItems(tools)[..n], Tool(tools[n]));
        assert ToolItems(tools)[..n + 1] == ToolItems(tools)[..n] + [Tool(tools[n])];
      }
      assert ToolItems(tools)[..|tools|] == ToolItems(tools);
    }

    method MapUsage(c: Chunk) returns (events: seq<Sent>)
      requires Valid()
      modifies this`usage, this`completedSent
      ensures Valid() && Step(View(), events) == UsageStep(c, old(View()))
    {
      events := [];
      if c.usage.Some? {
        usage := c.usage;
        if pendingFinish && !completedSent {
          completedSent := true;
          events := [Completed(responseID, model, Reported(usage))];
        }
      }
    }

    method Map(c: Chunk) returns (events: seq<Sent>, ghost order: seq<int>)
      requires Valid()
      modifies this
      ensures Valid() && Step(View(), events) == MapStep(old(View()), c, order)
      ensures OrderFits(old(View()), c, order)
    {
      hide ItemStep, ItemsRun, DeltaItems, UsageStep, Enumerates;
      order := [];
      if requestedModel != "" {
        model := requestedModel;
      } else if model == "" && c.model != "" {
        model := c.model;
      }
      assert View() == WithModel(c, old(View()));
      events := MapUsage(c);
      ghost var s1 := View();
      if |c.choices| == 0 {
        RunNone(c, s1);
        return;
      }
      var choice := c.choices[0];
      var content: seq<Sent> := [];
      RunNone(c, s1);
      if choice.delta.Some? {
        content := MapDelta(c, choice.delta.value);
      }
      ghost var s2 := View();
      assert s2 == UsageThenContent(old(View()), c);
      var finish: seq<Sent> := [];
      if choice.finish.Some? {
        finish, order := MapFinish(c);
      }
      events := events + (content + finish);
      Assemble(c, s1, content, s2, finish, View(), order);
    }

    method Flush() returns (events: seq<Sent>)
      requires Valid()
      modifies this`completedSent
      ensures Valid() && Step(View(), events) == FlushStep(old(View()))
    {
      if completedSent || !pendingFinish {
        return [];
      }
      completedSent := true;
      events := [Completed(responseID, model, Reported(usage))];
    }
  }

  // ---- lemmas for the class ----

  /** The state in which a chunk's finish is met. */
  function UsageThenContent(s: State, c: Chunk): State {
    ItemsRun(c, UsageStep(c, WithModel(c, s)).s, ContentItems(c), []).s
  }

  lemma ClosesSnoc(s: State, order: seq<int>, k: int)
    requires k in s.tools
    ensures ToolCloses(s, order + [k]) == ToolCloses(s, order) + ToolClose(s.tools[k])
    decreases |order|
  {
    if order == [] {
      assert [] + [k] == [k] && [k][1..] == [];
    } else {
      assert (order + [k])[1..] == order[1..] + [k];
      ClosesSnoc(s, order[1..], k);
    }
  }

  lemma RunNone(c: Chunk, s: State)
    ensures forall order :: ItemsRun(c, s, [], order) == Step(s, [])
  {
  }

  lemma RoleStep(c: Chunk, s: State, it: Wire.Item)
    requires it.Role? || it.Reasoning?
    ensures ItemStep(c, s, it, []) == Step(s, [])
  {
  }

  lemma {:induction false} ItemsConcat(c: Chunk, s: State, a: seq<Wire.Item>, b: seq<Wire.Item>, order: seq<int>)
    ensures var r := ItemsRun(c, s, a, order);
            ItemsRun(c, s, a + b, order) == After(r.out, ItemsRun(c, r.s, b, order))
    decreases a
  {
    hide ItemStep;
    if a == [] {
      assert a + b == b;
    } else {
      assert (a + b)[1..] == a[1..] + b;
      ItemsConcat(c, ItemStep(c, s, a[0], order).s, a[1..], b, order);
    }
  }

  lemma RunSnoc(c: Chunk, s: State, items: seq<Wire.Item>, it: Wire.Item)
    ensures var r := ItemsRun(c, s, items, []);
            var t := ItemStep(c, r.s, it, []);
            ItemsRun(c, s, items + [it], []) == Step(t.s, r.out + t.out)
  {
    hide ItemStep;
    ItemsConcat(c, s, items, [it], []);
    RunOne(c, ItemsRun(c, s, items, []).s, it, []);
  }

  lemma RunOne(c: Chunk, s: State, it: Wire.Item, order: seq<int>)
    ensures ItemsRun(c, s, [it], order) == ItemStep(c, s, it, order)
  {
    hide ItemStep;
    var a := ItemStep(c, s, it, order);
    assert ItemsRun(c, a.s, [it][1..], order) == Step(a.s, []);
    assert a.out + [] == a.out;
  }

  /** Only the finish looks at the enumeration. */
  lemma {:induction false} OrderMattersAtFinish(c: Chunk, s: State, items: seq<Wire.Item>, order: seq<int>)
    requires forall i :: 0 <= i < |items| ==> !items[i].Finish?
    ensures ItemsRun(c, s, items, order) == ItemsRun(c, s, items, [])
    decreases items
  {
    hide EnsureCreated, TextStep, ToolStep;
    if items != [] {
      OrderMattersAtFinish(c, ItemStep(c, s, items[0], order).s, items[1..], order);
    }
  }

  lemma Assemble(c: Chunk, s1: State, content: seq<Sent>, s2: State, finish: seq<Sent>, s3: State, order: seq<int>)
    requires c.choices != []
    requires Step(s2, content) == ItemsRun(c, s1, ContentItems(c), [])
    requires if Finishes(c) then Step(s3, finish) == FinishStep(c, s2, order) else s3 == s2 && finish == []
    ensures Step(s3, content + finish) == ItemsRun(c, s1, Items(c), order)
  {
    hide ItemsRun, FinishStep, DeltaItems;
    var f := if Finishes(c) then [Finish(c.choices[0].finish.value)] else [];
    assert Items(c) == ContentItems(c) + f;
    NoFinishInContent(c);
    OrderMattersAtFinish(c, s1, ContentItems(c), order);
    ItemsConcat(c, s1, ContentItems(c), f, order);
    if Finishes(c) { RunOne(c, s2, f[0], order); } else { RunNone(c, s2); }
  }

  lemma NoFinishInContent(c: Chunk)
    ensures forall i :: 0 <= i < |ContentItems(c)| ==> !ContentItems(c)[i].Finish?
  {
  }
}
