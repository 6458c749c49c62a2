/** The Responses -> Chat stream mapper: tool calls are found again by output index, by item id,
    or as the only call without either; argument text that comes before its call is kept aside. */
module ResponsesToChat {
  import opened Wire
  import opened Responses

  /** How a tool is remembered: `output:N`, `item:ID` or `call:ID`. */
  datatype Key = OutKey(index: int) | ItemKey(id: string) | CallKey(id: string)

  datatype State = State(
    responseId: string, requestedModel: string, model: string, roleSent: bool,
    toolIndex: map<Key, int>, nextTool: nat,
    itemToKey: map<string, Key>, outputToKey: map<int, Key>,
    pendingItem: map<string, string>, pendingOutput: map<int, string>,
    fallbackKey: Option<Key>, ambiguous: bool,
    sawTool: bool, needsBreak: bool, hasReasoning: bool)

  function Initial(responseId: string, model: string): State {
    State(responseId, model, model, false, map[], 0, map[], map[], map[], map[], None, false, false, false, false)
  }

  datatype Step = Step(s: State, out: seq<Chunk>, failed: bool)

  function At<K>(m: map<K, string>, k: K): string {
    if k in m then m[k] else ""
  }

  function Look<K>(m: map<K, Key>, tools: map<Key, int>, k: K): Option<int> {
    if k in m && m[k] in tools then Some(tools[m[k]]) else None
  }

  function LookKey(tools: map<Key, int>, k: Key): Option<int> {
    if k in tools then Some(tools[k]) else None
  }

  function OrElse(a: Option<int>, b: Option<int>): Option<int> {
    if a.Some? then a else b
  }

  /** The tool an argument event belongs to, without the last resort. */
  function Direct(s: State, out: Option<int>, id: string): Option<int> {
    var byOut := if out.Some? then Look(s.outputToKey, s.toolIndex, out.value) else None;
    var byItem := if id != "" then Look(s.itemToKey, s.toolIndex, id) else None;
    var byOutKey := if out.Some? then LookKey(s.toolIndex, OutKey(out.value)) else None;
    var byItemKey := if id != "" then LookKey(s.toolIndex, ItemKey(id)) else None;
    OrElse(byOut, OrElse(byItem, OrElse(byOutKey, byItemKey)))
  }

  /** The last resort: the one call that came with neither index nor item id. */
  function Fallback(s: State): Option<int> {
    if !s.ambiguous && s.fallbackKey.Some? then LookKey(s.toolIndex, s.fallbackKey.value) else None
  }

  /** Finding a tool; the last resort also binds the event's numbers to it. */
  function FindTool(s: State, out: Option<int>, itemId: string): (State, Option<int>) {
    var id := Trim(itemId);
    var d := Direct(s, out, id);
    if d.Some? then (s, d)
    else if Fallback(s).Some? then
      (s.(outputToKey := if out.Some? then s.outputToKey[out.value := s.fallbackKey.value] else s.outputToKey,
          itemToKey := if id != "" then s.itemToKey[id := s.fallbackKey.value] else s.itemToKey),
       Fallback(s))
    else (s, None)
  }

  /** Where a newly announced tool is kept; the state notes a call that has only its call id. */
  function KeyFor(s: State, e: Event, callId: string): (State, Option<Key>)
    requires e.ItemAdded?
  {
    if e.outputIndex.Some? then (s, Some(OutKey(e.outputIndex.value)))
    else if Trim(e.itemId) != "" then (s, Some(ItemKey(Trim(e.itemId))))
    else if e.item.id != "" then (s, Some(ItemKey(Trim(e.item.id))))
    else if callId != "" then
      var key := CallKey(Trim(callId));
      if s.fallbackKey.Some? && s.fallbackKey.value != key then (s.(ambiguous := true), Some(key))
      else (s.(fallbackKey := Some(key)), Some(key))
    else (s, None)
  }

  function EnsureTool(s: State, e: Event, callId: string): (State, Option<int>)
    requires e.ItemAdded?
  {
    var (s1, key) := KeyFor(s, e, callId);
    if key.None? then (s1, None)
    else if key.value in s1.toolIndex then (s1, Some(s1.toolIndex[key.value]))
    else
      var id := Trim(e.item.id);
      (s1.(toolIndex := s1.toolIndex[key.value := s1.nextTool], nextTool := s1.nextTool + 1,
           outputToKey := if e.outputIndex.Some? then s1.outputToKey[e.outputIndex.value := key.value] else s1.outputToKey,
           itemToKey := if id != "" then s1.itemToKey[id := key.value] else s1.itemToKey),
       Some(s1.nextTool))
  }

  /** Argument text kept aside for an announced tool: by output index, else by item id. */
  function TakePending(s: State, e: Event): (State, string)
    requires e.ItemAdded?
  {
    var byOut := if e.outputIndex.Some? then At(s.pendingOutput, e.outputIndex.value) else "";
    var s1 := if e.outputIndex.Some? then s.(pendingOutput := s.pendingOutput - {e.outputIndex.value}) else s;
    var id := Trim(e.item.id);
    if byOut == "" && id != "" then (s1.(pendingItem := s1.pendingItem - {id}), At(s1.pendingItem, id))
    else (s1, byOut)
  }

  function PutPending(s: State, out: Option<int>, itemId: string, args: string): State {
    var id := Trim(itemId);
    s.(pendingOutput := if out.Some? then s.pendingOutput[out.value := At(s.pendingOutput, out.value) + args] else s.pendingOutput,
       pendingItem := if id != "" then s.pendingItem[id := At(s.pendingItem, id) + args] else s.pendingItem)
  }

  function ChunkOf(s: State, d: Delta, finish: Option<string>, usage: Option<Wire.Usage>): Chunk {
    Chunk(s.responseId, s.model, [Choice(Some(d), finish)], usage)
  }

  function RoleIfNeeded(s: State): seq<Chunk> {
    if s.roleSent then [] else [ChunkOf(s, Delta("assistant", "", "", []), None, None)]
  }

  function ToolChunk(s: State, td: ToolDelta): Chunk {
    ChunkOf(s, Delta("", "", "", [td]), None, None)
  }

  function AddedStep(s: State, e: Event): Step
    requires e.ItemAdded?
  {
    if !Announces(e) then Step(s, [], false)
    else
      var callId := CallId(e, s.nextTool);
      var (s1, idx) := EnsureTool(s, e, callId);
      if idx.None? then Step(s1, [], false)
      else
        var (s2, args) := TakePending(s1.(sawTool := true), e);
        var s3 := s2.(roleSent := true);
        Step(s3, RoleIfNeeded(s2) + [ToolChunk(s3, ToolDelta(idx, callId, Trim(e.item.name), args))], false)
  }

  function ArgsStep(s: State, e: Event): Step
    requires e.ArgsDelta?
  {
    if e.args == "" then Step(s, [], false)
    else
      var (s1, idx) := FindTool(s, e.outputIndex, e.itemId);
      if idx.Some? then Step(s1, [ToolChunk(s1, ToolDelta(idx, "", "", e.args))], false)
      else Step(PutPending(s1, e.outputIndex, e.itemId, e.args), [], false)
  }

  function ReasoningStep(s: State, text: string): Step {
    if text == "" then Step(s, [], false)
    else
      var t := if s.needsBreak then Separator(text) + text else text;
      var s1 := s.(needsBreak := false, hasReasoning := true);
      var s2 := s1.(roleSent := true);
      Step(s2, RoleIfNeeded(s1) + [ChunkOf(s2, Delta("", "", t, []), None, None)], false)
  }

  function MapStep(s: State, e: Event): Step {
    match e
    case Created(id, model) =>
      var s1 := s.(responseId := if id != "" then id else s.responseId,
                   model := if s.requestedModel != "" then s.requestedModel else if model != "" then model else s.model);
      Step(s1.(roleSent := true), RoleIfNeeded(s1), false)
    case ReasoningDelta(t) => ReasoningStep(s, t)
    case ReasoningDone => Step(if s.hasReasoning then s.(needsBreak := true) else s, [], false)
    case ItemAdded(_, _, _) => AddedStep(s, e)
    case TextDelta(t) => Step(s, if t == "" then [] else [ChunkOf(s, Delta("", t, "", []), None, None)], false)
    case ArgsDelta(_, _, _, _) => ArgsStep(s, e)
    case Ended(_, body) =>
      var usage := if body.Some? && body.value.usage.Some? then Some(ChatUsage(body.value.usage.value)) else None;
      Step(s, [ChunkOf(s, EMPTY_DELTA, Some(EndReason(body, s.sawTool)), usage)], false)
    case Failed => Step(s, [], true)
    case Other => Step(s, [], false)
  }

  /** Events in order, up to the first that fails. */
  function Run(s: State, es: seq<Event>): Step
    decreases es
  {
    if es == [] then Step(s, [], false)
    else
      var a := MapStep(s, es[0]);
      if a.failed then a
      else
        var b := Run(a.s, es[1..]);
        Step(b.s, a.out + b.out, b.failed)
  }

  function Converted(s: State, es: seq<Event>): seq<Chunk> {
    Run(s, es).out
  }

  // ---- the mapper itself ----

  class Mapper {
    var responseID: string
    const requestedModel: string
    var model: string
    var roleSent: bool
    var toolIndex: map<Key, int>
    var nextTool: nat
    var itemIDToKey: map<string, Key>
    var outputIndexToKey: map<int, Key>
    var pendingArgsByItemID: map<string, string>
    var pendingArgsByOutputIndex: map<int, string>
    var fallbackToolKey: Option<Key>
    var fallbackToolAmbiguous: bool
    var sawToolCall: bool
    var needsReasoningSummaryBreak: bool
    var hasSentReasoning: bool

    ghost function View(): State
      reads this
    {
      State(responseID, requestedModel, model, roleSent, toolIndex, nextTool, itemIDToKey, outputIndexToKey,
            pendingArgsByItemID, pendingArgsByOutputIndex, fallbackToolKey, fallbackToolAmbiguous,
            sawToolCall, needsReasoningSummaryBreak, hasSentReasoning)
    }

    constructor (freshID: string, requested: string)
      ensures View() == Initial(freshID, requested)
    {
      responseID, requestedModel, model, roleSent := freshID, requested, requested, false;
      toolIndex, nextTool, itemIDToKey, outputIndexToKey := map[], 0, map[], map[];
      pendingArgsByItemID, pendingArgsByOutputIndex := map[], map[];
      fallbackToolKey, fallbackToolAmbiguous := None, false;
      sawToolCall, needsReasoningSummaryBreak, hasSentReasoning := false, false, false;
    }

    method EmitRoleIfNeeded() returns (chunks: seq<Chunk>)
      modifies this`roleSent
      ensures chunks == RoleIfNeeded(old(View())) && roleSent
    {
      if roleSent {
        return [];
      }
      roleSent := true;
      chunks := [Chunk(responseID, model, [Choice(Some(Delta("assistant", "", "", [])), None)], None)];
    }

    method Find(out: Option<int>, itemID: string) returns (idx: Option<int>)
      modifies this`itemIDToKey, this`outputIndexToKey
      ensures (View(), idx) == FindTool(old(View()), out, itemID)
    {
      var id := Trim(itemID);
      if out.Some? && out.value in outputIndexToKey {
        var key := outputIndexToKey[out.value];
        if key in toolIndex {
          return Some(toolIndex[key]);
        }
      }
      if id != "" && id in itemIDToKey {
        var key := itemIDToKey[id];
        if key in toolIndex {
          return Some(toolIndex[key]);
        }
      }
      if out.Some? && OutKey(out.value) in toolIndex {
        return Some(toolIndex[OutKey(out.value)]);
      }
      if id != "" && ItemKey(id) in toolIndex {
        return Some(toolIndex[ItemKey(id)]);
      }
      if !fallbackToolAmbiguous && fallbackToolKey.Some? && fallbackToolKey.value in toolIndex {
        if out.Some? {
          outputIndexToKey := outputIndexToKey[out.value := fallbackToolKey.value];
        }
        if id != "" {
          itemIDToKey := itemIDToKey[id := fallbackToolKey.value];
        }
        return Some(toolIndex[fallbackToolKey.value]);
      }
      return None;
    }

    method ChooseKey(e: Event, callID: string) returns (key: Option<Key>)
      requires e.ItemAdded?
      modifies this`fallbackToolKey, this`fallbackToolAmbiguous
      ensures (View(), key) == KeyFor(old(View()), e, callID)
    {
      hide Trim;
      key := None;
      if e.outputIndex.Some? {
        key := Some(OutKey(e.outputIndex.value));
      } else if Trim(e.itemId) != "" {
        key := Some(ItemKey(Trim(e.itemId)));
      }
      if key.None? && e.item.id != "" {
        key := Some(ItemKey(Trim(e.item.id)));
      }
      if key.None? && callID != "" {
        key := Some(CallKey(Trim(callID)));
        if fallbackToolKey.Some? && fallbackToolKey != key {
          fallbackToolAmbiguous := true;
        } else {
          fallbackToolKey := key;
        }
      }
    }

    method Ensure(e: Event, callID: string) returns (idx: Option<int>)
      requires e.ItemAdded?
      modifies this
      ensures (View(), idx) == EnsureTool(old(View()), e, callID)
    {
      hide Trim, KeyFor;
      var key := ChooseKey(e, callID);
      if key.None? {
        return None;
      }
      if key.value in toolIndex {
        return Some(toolIndex[key.value]);
      }
      idx := Some(nextTool);
      nextTool := nextTool + 1;
      toolIndex := toolIndex[key.value := idx.value];
      if e.outputIndex.Some? {
        outputIndexToKey := outputIndexToKey[e.outputIndex.value := key.value];
      }
      if Trim(e.item.id) != "" {
        itemIDToKey := itemIDToKey[Trim(e.item.id) := key.value];
      }
    }

    method Take(e: Event) returns (initialArgs: string)
      requires e.ItemAdded?
      modifies this`pendingArgsByItemID, this`pendingArgsByOutputIndex
      ensures (View(), initialArgs) == TakePending(old(View()), e)
    {
      initialArgs := "";
      if e.outputIndex.Some? {
        initialArgs := At(pendingArgsByOutputIndex, e.outputIndex.value);
        pendingArgsByOutputIndex := pendingArgsByOutputIndex - {e.outputIndex.value};
      }
      if initialArgs == "" {
        var id := Trim(e.item.id);
        if id != "" {
          initialArgs := At(pendingArgsByItemID, id);
          pendingArgsByItemID := pendingArgsByItemID - {id};
        }
      }
    }

    method MapAdded(e: Event) returns (chunks: seq<Chunk>)
      requires e.ItemAdded?
      modifies this
      ensures Step(View(), chunks, false) == AddedStep(old(View()), e)
    {
      hide EnsureTool, TakePending;
      if !IsToolKind(e.item.kind) {
        return [];
      }
      var name := Trim(e.item.name);
      if name == "" {
        return [];
      }
      var callID := CallId(e, nextTool);
      var idx := Ensure(e, callID);
      if idx.None? {
        return [];
      }
      sawToolCall := true;
      var initialArgs := Take(e);
      chunks := EmitRoleIfNeeded();
      chunks := chunks + [Chunk(responseID, model, [Choice(Some(Delta("", "", "", [ToolDelta(idx, callID, name, initialArgs)])), None)], None)];
    }

    method MapArgs(e: Event) returns (chunks: seq<Chunk>)
      requires e.ArgsDelta?
      modifies this
      ensures Step(View(), chunks, false) == ArgsStep(old(View()), e)
    {
      hide FindTool, Trim;
      if e.args == "" {
        return [];
      }
      var idx := Find(e.outputIndex, e.itemId);
      if idx.Some? {
        return [Chunk(responseID, model, [Choice(Some(Delta("", "", "", [ToolDelta(idx, "", "", e.args)])), None)], None)];
      }
      if e.outputIndex.Some? {
        var i := e.outputIndex.value;
        pendingArgsByOutputIndex := pendingArgsByOutputIndex[i := At(pendingArgsByOutputIndex, i) + e.args];
      }
      var id := Trim(e.itemId);
      if id != "" {
        pendingArgsByItemID := pendingArgsByItemID[id := At(pendingArgsByItemID, id) + e.args];
      }
      chunks := [];
    }

    method MapReasoning(text: string) returns (chunks: seq<Chunk>)
      modifies this
      ensures Step(View(), chunks, false) == ReasoningStep(old(View()), text)
    {
      if text == "" {
        return [];
      }
      var delta := text;
      if needsReasoningSummaryBreak {
        if "\n\n" <= delta {
          assert "" + delta == delta;
        } else if "\n" <= delta {
          delta := "\n" + delta;
        } else {
          delta := "\n\n" + delta;
        }
        needsReasoningSummaryBreak := false;
      }
      hasSentReasoning := true;
      chunks := EmitRoleIfNeeded();
      chunks := chunks + [Chunk(responseID, model, [Choice(Some(Delta("", "", delta, [])), None)], None)];
    }

    method MapCreated(id: string, m: string) returns (chunks: seq<Chunk>)
      modifies this
      ensures Step(View(), chunks, false) == MapStep(old(View()), Created(id, m))
    {
      if id != "" {
        responseID := id;
      }
      if requestedModel != "" {
        model := requestedModel;
      } else if m != "" {
        model := m;
      }
      chunks := EmitRoleIfNeeded();
    }

    method MapEnded(body: Option<Body>) returns (chunks: seq<Chunk>)
      ensures forall completed :: Step(View(), chunks, false) == MapStep(View(), Ended(completed, body))
    {
      var finish := EndReason(body, sawToolCall);
      var u: Option<Wire.Usage> := None;
      if body.Some? && body.value.usage.Some? {
        u := Some(ChatUsage(body.value.usage.value));
      }
      chunks := [Chunk(responseID, model, [Choice(Some(EMPTY_DELTA), Some(finish))], u)];
    }

    method Map(e: Event) returns (chunks: seq<Chunk>, failed: bool)
      modifies this
      ensures Step(View(), chunks, failed) == MapStep(old(View()), e)
    {
      hide AddedStep, ArgsStep, ReasoningStep, Trim, EndReason, ChatUsage, RoleIfNeeded;
      chunks, failed := [], false;
      match e
      case Created(id, m) =>
        chunks := MapCreated(id, m);
      case ReasoningDelta(text) =>
        chunks := MapReasoning(text);
      case ReasoningDone =>
        if hasSentReasoning {
          needsReasoningSummaryBreak := true;
        }
      case ItemAdded(_, _, _) =>
        chunks := MapAdded(e);
      case TextDelta(text) =>
        if text == "" {
          return;
        }
        chunks := [Chunk(responseID, model, [Choice(Some(Delta("", text, "", [])), None)], None)];
      case ArgsDelta(_, _, _, _) =>
        chunks := MapArgs(e);
      case Ended(_, body) =>
        chunks := MapEnded(body);
      case Failed =>
        failed := true;
      case Other =>
    }
  }
}
