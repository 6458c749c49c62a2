/** A Chat request's messages as Responses input items: system texts become the instructions, calls and
    results become items of their own, and a result without an id goes to the oldest call without one. */
module ChatRequest {
  import opened Wire
  import opened Responses

  datatype ToolCall = ToolCall(id: string, name: string, args: string)

  /** A message with text content; a missing content counts as empty. */
  datatype Message = Message(role: string, content: string, name: string, legacy: Option<ToolCall>,
                             calls: seq<ToolCall>, callId: string, reasoning: string)

  const CALL_KINDS := {"function_call", "mcp_tool_call", "custom_tool_call"}
  const RESULT_KINDS := {"function_call_output", "mcp_tool_call_output", "custom_tool_call_output"}

  /** Item types that are none of the others. */
  type OtherKind = k: string | k !in CALL_KINDS && k !in RESULT_KINDS && k != "message" && k != "reasoning" witness ""

  /** An input item. CallItem and ResultItem stand for each of the three types of calls and of results, which
      are converted alike. */
  datatype Item =
    | TextItem(role: string, text: string)
    | CallItem(callId: string, name: string, args: string)
    | ResultItem(callId: string, output: string)
    | ReasoningItem(text: string)
    | OtherItem(kind: OtherKind)

  datatype Request = Request(instructions: Option<string>, input: seq<Item>)

  /** Arguments that are not a JSON object are replaced by an empty one; `isObject` is the JSON parser's verdict. */
  function NormalArgs(isObject: string -> bool, args: string): (r: string)
    ensures if args != "" && isObject(args) then r == args else r == "{}"
  {
    if args == "" || !isObject(args) then "{}" else args
  }

  datatype State = State(systems: seq<string>, items: seq<Item>, legacy: map<string, seq<string>>, legacySeq: nat,
                         generatedSeq: nat, pending: seq<string>)

  const START := State([], [], map[], 0, 0, [])

  function GeneratedId(n: nat): string {
    "generated_tool_call_" + Decimal(n)
  }

  function LegacyId(n: nat): string {
    "legacy_function_call_" + Decimal(n)
  }

  function CallStep(isObject: string -> bool, s: State, tc: ToolCall): State {
    var n := if tc.id == "" then s.generatedSeq + 1 else s.generatedSeq;
    var id := if tc.id == "" then GeneratedId(n) else tc.id;
    s.(items := s.items + [CallItem(id, tc.name, NormalArgs(isObject, tc.args))], generatedSeq := n, pending := s.pending + [id])
  }

  function CallsStep(isObject: string -> bool, s: State, tcs: seq<ToolCall>): State {
    if tcs == [] then s else CallStep(isObject, CallsStep(isObject, s, tcs[..|tcs| - 1]), tcs[|tcs| - 1])
  }

  function Legacy(m: map<string, seq<string>>, name: string): seq<string> {
    if name in m then m[name] else []
  }

  function LegacyStep(isObject: string -> bool, s: State, fc: Option<ToolCall>): State {
    if fc.None? then s
    else
      var n := s.legacySeq + 1;
      s.(items := s.items + [CallItem(LegacyId(n), fc.value.name, NormalArgs(isObject, fc.value.args))], legacySeq := n,
         legacy := s.legacy[fc.value.name := Legacy(s.legacy, fc.value.name) + [LegacyId(n)]])
  }

  function ThoughtOf(replay: bool, m: Message): seq<Item> {
    if replay && m.reasoning != "" then [ReasoningItem(m.reasoning)] else []
  }

  function TextOf(m: Message): seq<Item> {
    if m.content != "" then [TextItem("assistant", m.content)] else []
  }

  function AssistantStep(isObject: string -> bool, replay: bool, s: State, m: Message): State {
    LegacyStep(isObject, CallsStep(isObject, s.(items := s.items + ThoughtOf(replay, m) + TextOf(m)), m.calls), m.legacy)
  }

  /** The first occurrence is taken out. */
  function RemoveFirst(xs: seq<string>, x: string): seq<string> {
    if xs == [] then [] else if xs[0] == x then xs[1..] else [xs[0]] + RemoveFirst(xs[1..], x)
  }

  const MISSING_ID := "[tool_output_missing_call_id] "

  /** The call a result is for: its own id, else the oldest call that waits for one. */
  function ResultId(s: State, m: Message): string {
    if m.callId != "" then m.callId else if s.pending != [] then s.pending[0] else ""
  }

  function ToolStep(s: State, m: Message): State {
    var id := ResultId(s, m);
    var rest := if m.callId != "" then RemoveFirst(s.pending, m.callId) else if s.pending != [] then s.pending[1..] else s.pending;
    s.(pending := rest,
       items := s.items + [if id == "" then TextItem("user", MISSING_ID + m.content) else ResultItem(id, m.content)])
  }

  function MessageStep(isObject: string -> bool, replay: bool, s: State, m: Message): Option<State> {
    if m.role == "system" || m.role == "developer" then Some(s.(systems := s.systems + [m.content]))
    else if m.role == "assistant" then Some(AssistantStep(isObject, replay, s, m))
    else if m.role == "tool" then Some(ToolStep(s, m))
    else if m.role == "function" then
      var ids := Legacy(s.legacy, m.name);
      if m.name == "" || |ids| != 1 then None
      else Some(s.(legacy := s.legacy - {m.name}, items := s.items + [ResultItem(ids[0], m.content)]))
    else Some(s.(items := s.items + [TextItem(m.role, m.content)]))
  }

  function Filled(isObject: string -> bool, replay: bool, ms: seq<Message>): Option<State> {
    if ms == [] then Some(START)
    else
      var p := Filled(isObject, replay, ms[..|ms| - 1]);
      if p.None? then None else MessageStep(isObject, replay, p.value, ms[|ms| - 1])
  }

  function Joined(ts: seq<string>): string {
    if ts == [] then "" else if |ts| == 1 then ts[0] else Joined(ts[..|ts| - 1]) + "\n" + ts[|ts| - 1]
  }

  function RequestOf(s: State): Request {
    Request(if s.systems == [] then None else Some(Joined(s.systems)), s.items)
  }

  // ---- the conversion itself ----

  method RemovePendingCallID(callIDs: seq<string>, target: string) returns (r: seq<string>)
    ensures r == RemoveFirst(callIDs, target)
  {
    for i := 0 to |callIDs|
      invariant RemoveFirst(callIDs, target) == callIDs[..i] + RemoveFirst(callIDs[i..], target)
    {
      if callIDs[i] == target {
        assert callIDs[i..][1..] == callIDs[i + 1..];
        return callIDs[..i] + callIDs[i + 1..];
      }
      assert callIDs[i..][1..] == callIDs[i + 1..];
      assert callIDs[..i + 1] == callIDs[..i] + [callIDs[i]];
    }
    assert callIDs[..|callIDs|] == callIDs;
    r := callIDs;
  }

  method AppendFunctionCalls(isObject: string -> bool, items0: seq<Item>, tcs: seq<ToolCall>, seq0: nat, ghost s: State)
    returns (items: seq<Item>, ids: seq<string>, n: nat)
    requires s.items == items0 && s.generatedSeq == seq0
    ensures CallsStep(isObject, s, tcs) == s.(items := items, pending := s.pending + ids, generatedSeq := n)
  {
    hide GeneratedId, NormalArgs;
    items, ids, n := items0, [], seq0;
    for i := 0 to |tcs|
      invariant CallsStep(isObject, s, tcs[..i]) == s.(items := items, pending := s.pending + ids, generatedSeq := n)
    {
      assert tcs[..i + 1][..i] == tcs[..i] && tcs[..i + 1][i] == tcs[i];
      var callID := tcs[i].id;
      if callID == "" {
        n := n + 1;
        callID := GeneratedId(n);
      }
      items := items + [CallItem(callID, tcs[i].name, NormalArgs(isObject, tcs[i].args))];
      ids := ids + [callID];
    }
    assert tcs[..|tcs|] == tcs;
  }

  method AppendAssistantItems(isObject: string -> bool, items0: seq<Item>, m: Message, seq0: nat, ghost s: State)
    returns (items: seq<Item>, ids: seq<string>, n: nat)
    requires s.items == items0 && s.generatedSeq == seq0
    ensures CallsStep(isObject, s.(items := s.items + TextOf(m)), m.calls)
         == s.(items := items, pending := s.pending + ids, generatedSeq := n)
  {
    hide CallsStep;
    items := items0;
    if m.content != "" {
      items := items + [TextItem("assistant", m.content)];
    }
    assert items == s.items + TextOf(m);
    items, ids, n := AppendFunctionCalls(isObject, items, m.calls, seq0, s.(items := items));
  }

  method Join(ts: seq<string>) returns (r: string)
    ensures r == Joined(ts)
  {
    r := "";
    for i := 0 to |ts|
      invariant r == Joined(ts[..i])
    {
      assert ts[..i + 1][..i] == ts[..i];
      if i == 0 {
        r := ts[0];
      } else {
        r := r + "\n" + ts[i];
      }
    }
    assert ts[..|ts|] == ts;
  }

  /** Splits the messages into instructions and input; fails on a legacy result without exactly one call. */
  method FillInstructionsAndInput(isObject: string -> bool, ms: seq<Message>, replay: bool) returns (r: Option<Request>)
    ensures var f := Filled(isObject, replay, ms); r == if f.None? then None else Some(RequestOf(f.value))
  {
    hide CallsStep, LegacyStep, RemoveFirst, NormalArgs, Joined, TextOf, LegacyId, Filled;
    FilledNone(isObject, replay, ms);
    var systemTexts: seq<string>, items: seq<Item>, pending: seq<string> := [], [], [];
    var legacyCalls: map<string, seq<string>> := map[];
    var legacySeq, generatedSeq := 0, 0;
    for i := 0 to |ms|
      invariant Filled(isObject, replay, ms[..i]) == Some(State(systemTexts, items, legacyCalls, legacySeq, generatedSeq, pending))
    {
      ghost var s := State(systemTexts, items, legacyCalls, legacySeq, generatedSeq, pending);
      FilledSnoc(isObject, replay, ms, i);
      var m := ms[i];
      if m.role == "system" || m.role == "developer" {
        systemTexts := systemTexts + [m.content];
      } else if m.role == "assistant" {
        if replay && m.reasoning != "" {
          items := items + [ReasoningItem(m.reasoning)];
        }
        ghost var s1 := s.(items := s.items + ThoughtOf(replay, m));
        var ids;
        items, ids, generatedSeq := AppendAssistantItems(isObject, items, m, generatedSeq, s1);
        pending := pending + ids;
        ghost var s2 := s1.(items := items, pending := pending, generatedSeq := generatedSeq);
        LegacyCall(isObject, s2, m.legacy);
        if m.legacy.Some? {
          legacySeq := legacySeq + 1;
          var name := m.legacy.value.name;
          items := items + [CallItem(LegacyId(legacySeq), name, NormalArgs(isObject, m.legacy.value.args))];
          legacyCalls := legacyCalls[name := Legacy(legacyCalls, name) + [LegacyId(legacySeq)]];
        }
      } else if m.role == "tool" {
        var callID := m.callId;
        if callID == "" && |pending| > 0 {
          callID := pending[0];
          pending := pending[1..];
        } else if callID != "" {
          pending := RemovePendingCallID(pending, callID);
        }
        if callID == "" {
          items := items + [TextItem("user", MISSING_ID + m.content)];
        } else {
          items := items + [ResultItem(callID, m.content)];
        }
      } else if m.role == "function" {
        if m.name == "" || |Legacy(legacyCalls, m.name)| != 1 {
          FailsForGood(isObject, replay, ms, i + 1);
          return None;
        }
        items := items + [ResultItem(Legacy(legacyCalls, m.name)[0], m.content)];
        legacyCalls := legacyCalls - {m.name};
      } else {
        items := items + [TextItem(m.role, m.content)];
      }
    }
    assert ms[..|ms|] == ms;
    var instructions: Option<string> := None;
    if |systemTexts| > 0 {
      var joined := Join(systemTexts);
      instructions := Some(joined);
    }
    r := Some(Request(instructions, items));
  }

  lemma FilledNone(isObject: string -> bool, replay: bool, ms: seq<Message>)
    ensures Filled(isObject, replay, ms[..0]) == Some(START)
  {
  }

  lemma FilledSnoc(isObject: string -> bool, replay: bool, ms: seq<Message>, i: nat)
    requires i < |ms|
    ensures var p := Filled(isObject, replay, ms[..i]);
            Filled(isObject, replay, ms[..i + 1]) == if p.None? then None else MessageStep(isObject, replay, p.value, ms[i])
  {
    hide MessageStep;
    assert ms[..i + 1][..i] == ms[..i];
  }

  lemma LegacyCall(isObject: string -> bool, s: State, fc: Option<ToolCall>)
    ensures LegacyStep(isObject, s, fc) ==
            if fc.None? then s
            else s.(items := s.items + [CallItem(LegacyId(s.legacySeq + 1), fc.value.name, NormalArgs(isObject, fc.value.args))],
                    legacySeq := s.legacySeq + 1,
                    legacy := s.legacy[fc.value.name := Legacy(s.legacy, fc.value.name) + [LegacyId(s.legacySeq + 1)]])
  {
  }

  lemma {:induction false} FailsForGood(isObject: string -> bool, replay: bool, ms: seq<Message>, n: nat)
    requires n <= |ms| && Filled(isObject, replay, ms[..n]).None?
    ensures Filled(isObject, replay, ms).None?
    decreases |ms|
  {
    hide MessageStep;
    if n < |ms| {
      assert ms[..|ms| - 1][..n] == ms[..n];
      FailsForGood(isObject, replay, ms[..|ms| - 1], n);
    } else {
      assert ms[..n] == ms;
    }
  }
}
