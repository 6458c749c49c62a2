/** The other way to read a Responses stream: into one object first, which is then converted
    to a Chat answer as a whole. */
module Batch {
  import opened Collections
  import opened Wire
  import opened Responses

  datatype Part = Part(kind: string, text: string)

  datatype Output = Output(kind: string, id: string, role: string, callId: string, name: string, args: string,
                           content: seq<Part>, summary: seq<Part>)

  datatype Object = Object(status: string, failed: bool, incompleteReason: Option<string>, output: seq<Output>, usage: Responses.Usage)

  datatype AnswerCall = AnswerCall(id: string, name: string, args: string)

  datatype Answer = Answer(text: string, reasoning: string, calls: seq<AnswerCall>, finish: string, usage: Wire.Usage)

  const NO_USAGE := Responses.Usage(0, 0, 0, None, None, None)

  // ---- what the conversion of an object gives ----

  function TextOfParts(ps: seq<Part>, kind: string): string {
    if ps == [] then ""
    else
      var last := ps[|ps| - 1];
      TextOfParts(ps[..|ps| - 1], kind) + (if kind == "" || last.kind == kind then last.text else "")
  }

  predicate FromAssistant(o: Output) {
    o.kind == "message" && o.role in {"", "assistant"}
  }

  /** The text of all assistant messages. */
  function MessageText(os: seq<Output>): string {
    if os == [] then ""
    else
      var last := os[|os| - 1];
      MessageText(os[..|os| - 1]) + (if FromAssistant(last) then TextOfParts(last.content, "output_text") else "")
  }

  function AnyText(os: seq<Output>): string {
    if os == [] then "" else AnyText(os[..|os| - 1]) + TextOfParts(os[|os| - 1].content, "")
  }

  function OutputText(os: seq<Output>): string {
    if MessageText(os) != "" then MessageText(os) else AnyText(os)
  }

  predicate Supported(o: Output) {
    o.kind == "message" ==> forall i :: 0 <= i < |o.content| ==> o.content[i].kind in {"output_text", "refusal"}
  }

  function SummaryText(ps: seq<Part>): string {
    if ps == [] then ""
    else
      var last := ps[|ps| - 1];
      SummaryText(ps[..|ps| - 1]) + (if last.kind == "summary_text" && Trim(last.text) != "" then last.text else "")
  }

  /** A reasoning item's own text goes before everything collected so far. */
  function ReasoningIn(os: seq<Output>): string {
    if os == [] then ""
    else
      var last, before := os[|os| - 1], ReasoningIn(os[..|os| - 1]);
      if last.kind == "reasoning" then TextOfParts(last.content, "reasoning_text") + (before + SummaryText(last.summary)) else before
  }

  function CallOf(o: Output): AnswerCall {
    AnswerCall(if Trim(o.callId) != "" then Trim(o.callId) else Trim(o.id), Trim(o.name), o.args)
  }

  predicate IsCall(o: Output) {
    o.kind == "function_call" && Trim(o.name) != ""
  }

  function CallsOf(os: seq<Output>): seq<AnswerCall> {
    if os == [] then []
    else
      var last := os[|os| - 1];
      CallsOf(os[..|os| - 1]) + (if IsCall(last) then [CallOf(last)] else [])
  }

  function StatusReason(o: Object): Option<string> {
    if o.status != "incomplete" then None
    else if o.incompleteReason.Some? && Trim(o.incompleteReason.value) == "content_filter" then Some("content_filter")
    else Some("length")
  }

  function AnswerReason(o: Object): string {
    if StatusReason(o).Some? then StatusReason(o).value
    else if CallsOf(o.output) != [] then "tool_calls" else "stop"
  }

  predicate Convertible(o: Object) {
    o.status != "failed" && !o.failed && forall i :: 0 <= i < |o.output| ==> Supported(o.output[i])
  }

  function AnswerOf(o: Object): Answer {
    Answer(OutputText(o.output), ReasoningIn(o.output), CallsOf(o.output), AnswerReason(o), ChatUsage(o.usage))
  }

  // ---- the conversion itself ----

  method JoinParts(ps: seq<Part>, kind: string) returns (t: string)
    ensures t == TextOfParts(ps, kind)
  {
    t := "";
    for i := 0 to |ps|
      invariant t == TextOfParts(ps[..i], kind)
    {
      assert ps[..i + 1][..i] == ps[..i];
      if (kind == "" || ps[i].kind == kind) && ps[i].text != "" {
        t := t + ps[i].text;
      }
    }
    assert ps[..|ps|] == ps;
  }

  method ExtractOutputText(os: seq<Output>) returns (t: string)
    ensures t == OutputText(os)
  {
    t := "";
    for i := 0 to |os|
      invariant t == MessageText(os[..i])
    {
      assert os[..i + 1][..i] == os[..i];
      if os[i].kind != "message" {
        continue;
      }
      if os[i].role != "" && os[i].role != "assistant" {
        continue;
      }
      var part := JoinParts(os[i].content, "output_text");
      t := t + part;
    }
    assert os[..|os|] == os;
    if t != "" {
      return;
    }
    for i := 0 to |os|
      invariant t == AnyText(os[..i])
    {
      assert os[..i + 1][..i] == os[..i];
      var part := JoinParts(os[i].content, "");
      t := t + part;
    }
  }

  method CheckParts(ps: seq<Part>) returns (ok: bool)
    ensures ok <==> forall i :: 0 <= i < |ps| ==> ps[i].kind in {"output_text", "refusal"}
  {
    for i := 0 to |ps|
      invariant forall j :: 0 <= j < i ==> ps[j].kind in {"output_text", "refusal"}
    {
      if ps[i].kind != "output_text" && ps[i].kind != "refusal" {
        return false;
      }
    }
    return true;
  }

  method JoinSummary(ps: seq<Part>) returns (t: string)
    ensures t == SummaryText(ps)
  {
    t := "";
    for i := 0 to |ps|
      invariant t == SummaryText(ps[..i])
    {
      assert ps[..i + 1][..i] == ps[..i];
      if ps[i].kind == "summary_text" && Trim(ps[i].text) != "" {
        t := t + ps[i].text;
      }
    }
    assert ps[..|ps|] == ps;
  }

  /** An object becomes an answer, or an error if it failed or holds a part that is not text. */
  method Convert(o: Object) returns (r: Option<Answer>)
    ensures r == if Convertible(o) then Some(AnswerOf(o)) else None
  {
    hide TextOfParts, SummaryText, CallOf, Trim, OutputText;
    if o.status == "failed" || o.failed {
      return None;
    }
    var text := ExtractOutputText(o.output);
    var reasoning, calls: seq<AnswerCall> := "", [];
    for i := 0 to |o.output|
      invariant forall j :: 0 <= j < i ==> Supported(o.output[j])
      invariant reasoning == ReasoningIn(o.output[..i]) && calls == CallsOf(o.output[..i])
    {
      var item := o.output[i];
      assert o.output[..i + 1][..i] == o.output[..i];
      if item.kind == "message" {
        var ok := CheckParts(item.content);
        if !ok {
          assert !Supported(item);
          return None;
        }
      } else if item.kind == "function_call" {
        if Trim(item.name) != "" {
          calls := calls + [CallOf(item)];
        }
      } else if item.kind == "reasoning" {
        var own := JoinParts(item.content, "reasoning_text");
        var summary := JoinSummary(item.summary);
        reasoning := own + (reasoning + summary);
      }
    }
    assert o.output[..|o.output|] == o.output;
    var finish := if StatusReason(o).Some? then StatusReason(o).value else if calls != [] then "tool_calls" else "stop";
    r := Some(Answer(text, reasoning, calls, finish, ChatUsage(o.usage)));
  }

  // ---- reading a stream into an object ----

  datatype Acc = Acc(status: string, text: string, args: map<string, string>, callIds: map<string, string>,
                     names: map<string, string>, usage: Responses.Usage)

  const EMPTY_ACC := Acc("completed", "", map[], map[], map[], NO_USAGE)

  function Entry(m: map<string, string>, k: string): string {
    if k in m then m[k] else ""
  }

  /** Tool calls are kept by item id, as it stands; a new announcement forgets earlier argument text. */
  function Collect(a: Acc, e: Event): Acc {
    match e
    case ItemAdded(_, _, item) =>
      if item.kind != "function_call" then a
      else a.(args := a.args[item.id := ""], callIds := a.callIds[item.id := item.callId], names := a.names[item.id := item.name])
    case TextDelta(t) => a.(text := a.text + t)
    case ArgsDelta(custom, _, id, args) =>
      if !custom && args != "" && id != "" then a.(args := a.args[id := Entry(a.args, id) + args]) else a
    case Ended(completed, body) =>
      if completed && body.Some? then
        a.(status := if body.value.status != "" then body.value.status else a.status,
           usage := if body.value.usage.Some? then body.value.usage.value else a.usage)
      else a
    case _ => a
  }

  function Collected(h: seq<Event>): Acc {
    if h == [] then EMPTY_ACC else Collect(Collected(h[..|h| - 1]), h[|h| - 1])
  }

  /** Details that are missing count as zero. */
  function Filled(u: Responses.Usage): Responses.Usage {
    var out := if u.outputReasoning.Some? then u.outputReasoning
               else if u.completionReasoning.Some? then u.completionReasoning else Some(0);
    u.(details := if u.details.Some? then u.details else Some(PromptDetails(0, 0, 0)),
       outputReasoning := out,
       completionReasoning := if u.completionReasoning.Some? then u.completionReasoning else out)
  }

  function MessageOf(text: string): Output {
    Output("message", "", "assistant", "", "", "", [Part("output_text", text)], [])
  }

  function CallOutput(a: Acc, k: string): Output {
    Output("function_call", "", "", Entry(a.callIds, k), Entry(a.names, k), Entry(a.args, k), [], [])
  }

  function CallOutputs(a: Acc, order: seq<string>): (r: seq<Output>)
    ensures |r| == |order| && forall i :: 0 <= i < |r| ==> r[i] == CallOutput(a, order[i])
  {
    seq(|order|, i requires 0 <= i < |order| => CallOutput(a, order[i]))
  }

  function ObjectOf(a: Acc, order: seq<string>): Object {
    Object(a.status, false, None, (if a.text != "" then [MessageOf(a.text)] else []) + CallOutputs(a, order), Filled(a.usage))
  }

  predicate NeverFailed(es: seq<Event>) {
    forall i :: 0 <= i < |es| ==> !es[i].Failed?
  }

  /** The tool calls come out in the order the map yields them, which is reported as `order`. */
  method ListCalls(a: Acc) returns (os: seq<Output>, ghost order: seq<string>)
    ensures Enumerates(order, a.args) && os == CallOutputs(a, order)
  {
    hide CallOutput;
    os, order := [], [];
    var keys := a.args.Keys;
    while keys != {}
      invariant keys <= a.args.Keys
      invariant forall i :: 0 <= i < |order| ==> order[i] in a.args && order[i] !in keys
      invariant forall k :: k in a.args ==> k in keys || k in order
      invariant forall i, j :: 0 <= i < j < |order| ==> order[i] != order[j]
      invariant os == CallOutputs(a, order)
      decreases keys
    {
      var _ := Inhabited(keys);
      var k :| k in keys;
      os := os + [CallOutput(a, k)];
      order := order + [k];
      keys := keys - {k};
    }
  }

  /** Reads the whole stream; response.failed is the only error. */
  method ReadToObject(es: seq<Event>) returns (r: Option<Object>, ghost order: seq<string>)
    ensures r.Some? <==> NeverFailed(es)
    ensures r.Some? ==> Enumerates(order, Collected(es).args) && r.value == ObjectOf(Collected(es), order)
  {
    hide CallOutputs, Enumerates;
    order := [];
    var status, text, usage := "completed", "", NO_USAGE;
    var toolArgs: map<string, string>, toolCallIDs: map<string, string>, toolCallNames: map<string, string> := map[], map[], map[];
    for i := 0 to |es|
      invariant NeverFailed(es[..i])
      invariant Acc(status, text, toolArgs, toolCallIDs, toolCallNames, usage) == Collected(es[..i])
    {
      assert es[..i + 1][..i] == es[..i] && es[..i + 1][i] == es[i];
      match es[i] {
        case ItemAdded(_, _, item) =>
          if item.kind == "function_call" {
            toolArgs := toolArgs[item.id := ""];
            toolCallIDs := toolCallIDs[item.id := item.callId];
            toolCallNames := toolCallNames[item.id := item.name];
          }
        case TextDelta(t) =>
          text := text + t;
        case ArgsDelta(custom, _, id, args) =>
          if !custom && args != "" && id != "" {
            toolArgs := toolArgs[id := Entry(toolArgs, id) + args];
          }
        case Ended(completed, body) =>
          if completed && body.Some? {
            if body.value.status != "" {
              status := body.value.status;
            }
            if body.value.usage.Some? {
              usage := body.value.usage.value;
            }
          }
        case Failed =>
          assert !NeverFailed(es);
          return None, [];
        case _ =>
      }
    }
    assert es[..|es|] == es;
    var a := Acc(status, text, toolArgs, toolCallIDs, toolCallNames, usage);
    var calls;
    calls, order := ListCalls(a);
    var output := (if text != "" then [MessageOf(text)] else []) + calls;
    r := Some(Object(status, false, None, output, Filled(usage)));
  }
}
