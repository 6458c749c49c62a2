/** The Anthropic -> Chat stream mapper. */
module ClaudeToChat {
  import opened Wire
  import opened Meaning

  datatype ToolName = ToolName(id: string, name: string)

  datatype State = State(
    responseId: string, requestedModel: string, model: string,
    roleSent: bool, finishSent: bool, tools: map<int, ToolName>,
    usage: Option<Usage>, usageFromDelta: bool)

  function Initial(responseId: string, model: string): State {
    State(responseId, model, model, false, false, map[], None, false)
  }

  datatype Step = Step(s: State, out: seq<Chunk>)

  const ZERO_USAGE := Usage(0, 0, 0, None, None)

  /** `fromDelta`: the record came with message_delta, so the output side counts. */
  function Merge(dst: Usage, src: ClaudeUsage, fromDelta: bool): Usage {
    var u := if fromDelta
             then dst.(completion := src.output, prompt := if src.input > 0 then src.input else dst.prompt)
             else dst.(prompt := src.input);
    var v := if src.cacheRead > 0
             then u.(details := Some((if u.details.Some? then u.details.value else PromptDetails(0, 0, 0)).(cached := src.cacheRead)))
             else u;
    v.(total := v.prompt + v.completion)
  }

  function Ready(s: State): Option<Usage> {
    if s.usageFromDelta then s.usage else None
  }

  function ChunkOf(s: State, d: Delta, finish: Option<string>, usage: Option<Usage>): Chunk {
    Chunk(s.responseId, s.model, [Choice(Some(d), finish)], usage)
  }

  function ToolChunk(s: State, td: ToolDelta): Chunk {
    ChunkOf(s, Delta("", "", "", [td]), None, None)
  }

  function MapStep(s: State, e: ClaudeEvent): Step {
    match e
    case MessageStart(m) =>
      var s1 := if m.None? then s else
        s.(responseId := if m.value.id != "" then m.value.id else s.responseId,
           model := if s.requestedModel != "" then s.requestedModel
                    else if m.value.model != "" then m.value.model else s.model,
           usage := Some(Merge(ZERO_USAGE, m.value.usage, false)));
      var s2 := s1.(roleSent := true);
      Step(s2, [ChunkOf(s2, Delta("assistant", "", "", []), None, None)])
    case BlockStart(i, Some(ToolUse(id, name))) =>
      var s1 := s.(tools := s.tools[i := ToolName(id, name)]);
      Step(s1, [ToolChunk(s1, ToolDelta(Some(i), id, name, ""))])
    case BlockDelta(_, Some(TextDelta(t))) => Step(s, [ChunkOf(s, Delta("", t, "", []), None, None)])
    case BlockDelta(_, Some(ThinkingDelta(t))) => Step(s, [ChunkOf(s, Delta("", "", t, []), None, None)])
    case BlockDelta(i, Some(InputJson(Some(p)))) =>
      var t := if i in s.tools then s.tools[i] else ToolName("", "");
      Step(s, [ToolChunk(s, ToolDelta(Some(i), t.id, t.name, p))])
    case MessageDelta(stop, u) =>
      var s1 := if u.None? then s else
        s.(usage := Some(Merge(if s.usage.Some? then s.usage.value else ZERO_USAGE, u.value, true)),
           usageFromDelta := true);
      if stop != "" then
        Step(s1.(finishSent := true), [ChunkOf(s1, EMPTY_DELTA, Some(FinishReason(stop)), Ready(s1))])
      else if u.Some? then
        Step(s1, [Chunk(s1.responseId, s1.model, [], Ready(s1))])
      else Step(s1, [])
    case MessageStop =>
      if s.finishSent then Step(s, [])
      else Step(s.(finishSent := true), [ChunkOf(s, EMPTY_DELTA, Some("stop"), Ready(s))])
    case _ => Step(s, [])
  }

  function Run(s: State, es: seq<ClaudeEvent>): Step
    decreases es
  {
    if es == [] then Step(s, [])
    else
      var a := MapStep(s, es[0]);
      var b := Run(a.s, es[1..]);
      Step(b.s, a.out + b.out)
  }

  /** The Chat stream a whole Anthropic stream turns into (this mapper has no Flush). */
  function Converted(s: State, es: seq<ClaudeEvent>): seq<Chunk> {
    Run(s, es).out
  }

  // ---- the mapper itself ----

  class Mapper {
    var responseID: string
    const requestedModel: string
    var model: string
    var roleSent: bool
    var finishSent: bool
    var toolCallByIndex: map<int, ToolName>
    var usage: Option<Usage>
    var usageFromDelta: bool

    ghost function View(): State
      reads this
    {
      State(responseID, requestedModel, model, roleSent, finishSent, toolCallByIndex, usage, usageFromDelta)
    }

    constructor (freshID: string, requested: string)
      ensures View() == Initial(freshID, requested)
    {
      responseID, requestedModel, model := freshID, requested, requested;
      roleSent, finishSent, toolCallByIndex := false, false, map[];
      usage, usageFromDelta := None, false;
    }

    method ReadyUsageCopy() returns (u: Option<Usage>)
      ensures u == Ready(View())
    {
      if !usageFromDelta || usage.None? {
        return None;
      }
      u := usage;
    }

    method MergeUsage(src: ClaudeUsage, fromDelta: bool)
      requires usage.Some?
      modifies this`usage
      ensures usage == Some(Merge(old(usage).value, src, fromDelta))
    {
      var dst := usage.value;
      if fromDelta {
        dst := dst.(completion := src.output);
        if src.input > 0 {
          dst := dst.(prompt := src.input);
        }
      } else {
        dst := dst.(prompt := src.input);
      }
      if src.cacheRead > 0 {
        if dst.details.None? {
          dst := dst.(details := Some(PromptDetails(0, 0, 0)));
        }
        dst := dst.(details := Some(dst.details.value.(cached := src.cacheRead)));
      }
      dst := dst.(total := dst.prompt + dst.completion);
      usage := Some(dst);
    }

    method ChunkWithUsage(d: Delta, finish: Option<string>, u: Option<Usage>) returns (c: Chunk)
      ensures c == ChunkOf(View(), d, finish, u)
    {
      c := Chunk(responseID, model, [Choice(Some(d), finish)], u);
    }

    method Map(e: ClaudeEvent) returns (chunks: seq<Chunk>)
      modifies this
      ensures Step(View(), chunks) == MapStep(old(View()), e)
    {
      chunks := [];
      match e
      case MessageStart(m) =>
        if m.Some? {
          if m.value.id != "" {
            responseID := m.value.id;
          }
          if requestedModel != "" {
            model := requestedModel;
          } else if m.value.model != "" {
            model := m.value.model;
          }
          usage := Some(Usage(0, 0, 0, None, None));
          MergeUsage(m.value.usage, false);
        }
        roleSent := true;
        var c := ChunkWithUsage(Delta("assistant", "", "", []), None, None);
        chunks := [c];
      case BlockStart(index, block) =>
        if block.Some? && block.value.ToolUse? {
          toolCallByIndex := toolCallByIndex[index := ToolName(block.value.id, block.value.name)];
          var c := ChunkWithUsage(Delta("", "", "", [ToolDelta(Some(index), block.value.id, block.value.name, "")]), None, None);
          chunks := [c];
        }
      case BlockDelta(index, delta) =>
        if delta.None? {
          return;
        }
        match delta.value {
          case TextDelta(text) =>
            var c := ChunkWithUsage(Delta("", text, "", []), None, None);
            chunks := [c];
          case InputJson(partial) =>
            if partial.Some? {
              var toolCall := ToolName("", "");
              if index in toolCallByIndex {
                toolCall := toolCallByIndex[index];
              }
              var td := ToolDelta(Some(index), toolCall.id, toolCall.name, partial.value);
              var c := ChunkWithUsage(Delta("", "", "", [td]), None, None);
              chunks := [c];
            }
          case ThinkingDelta(thinking) =>
            var c := ChunkWithUsage(Delta("", "", thinking, []), None, None);
            chunks := [c];
          case OtherDelta =>
        }
      case BlockStop(_) =>
      case MessageDelta(stopReason, eventUsage) =>
        if eventUsage.Some? {
          if usage.None? {
            usage := Some(Usage(0, 0, 0, None, None));
          }
          MergeUsage(eventUsage.value, true);
          usageFromDelta := true;
        }
        if stopReason != "" {
          finishSent := true;
          var u := ReadyUsageCopy();
          var c := ChunkWithUsage(EMPTY_DELTA, Some(FinishReason(stopReason)), u);
          chunks := [c];
          return;
        }
        if eventUsage.Some? {
          var u := ReadyUsageCopy();
          if u.Some? {
            chunks := [Chunk(responseID, model, [], u)];
          }
        }
      case MessageStop =>
        if finishSent {
          return;
        }
        finishSent := true;
        var u := ReadyUsageCopy();
        var c := ChunkWithUsage(EMPTY_DELTA, Some("stop"), u);
        chunks := [c];
      case OtherEvent =>
    }
  }

  // ---- the stream keeps its meaning ----

  /** Every tool the mapper remembers has been announced; an ending was sent iff one was read. */
  ghost predicate Heard(s: State, m: Meaning) {
    && (forall i :: i in s.tools ==> Known(m.calls, i))
    && (s.finishSent <==> m.finish.Some?)
  }

  lemma FeedKeepsKnown(calls: seq<Call>, key: int, args: string)
    ensures forall k :: Known(Feed(calls, key, args), k) <==> Known(calls, k)
  {
    var r := Feed(calls, key, args);
    forall k ensures Known(r, k) <==> Known(calls, k) {
      if Known(calls, k) {
        var i :| 0 <= i < |calls| && calls[i].key == k;
        assert r[i].key == k;
      }
      if Known(r, k) {
        var i :| 0 <= i < |r| && r[i].key == k;
        assert calls[i].key == k;
      }
    }
  }

  lemma HearKeepsKnown(calls: seq<Call>, key: int, id: string, name: string, args: string)
    ensures forall k :: Known(HearTool(calls, key, id, name, args), k) <==> k == key || Known(calls, k)
  {
    FeedKeepsKnown(calls, key, args);
    var r := HearTool(calls, key, id, name, args);
    if !Known(calls, key) {
      assert r[|calls|].key == key;
      assert forall i :: 0 <= i < |calls| ==> r[i] == calls[i];
      forall k | Known(calls, k) ensures Known(r, k) {
        var i :| 0 <= i < |calls| && calls[i].key == k;
        assert r[i].key == k;
      }
    }
  }

  lemma OneTool(calls: seq<Call>, td: ToolDelta)
    ensures HearTools(calls, [td]) == HearTool(calls, td.Key(), td.id, td.name, td.args)
  {
    hide HearTool;
    var c := HearTool(calls, td.Key(), td.id, td.name, td.args);
    assert HearTools(c, [td][1..]) == c;
  }

  lemma OneChunk(m: Meaning, c: Chunk)
    ensures HearChunks(m, [c]) == HearChunk(m, c)
  {
    hide HearChunk;
    var m1 := HearChunk(m, c);
    assert HearChunks(m1, [c][1..]) == m1;
  }

  lemma ToolChunkMeans(m: Meaning, s: State, td: ToolDelta)
    ensures HearChunk(m, ToolChunk(s, td)) == m.(calls := HearTool(m.calls, td.Key(), td.id, td.name, td.args))
  {
    hide HearTool;
    OneTool(m.calls, td);
    assert m.text + "" == m.text && m.reasoning + "" == m.reasoning;
  }

  lemma PlainChunkMeans(m: Meaning, c: Chunk)
    requires c.choices != [] ==> c.choices[0].delta.Some? && c.choices[0].delta.value.tools == []
    ensures HearChunk(m, c) ==
      if c.choices == [] then m
      else
        var d := c.choices[0].delta.value;
        var m1 := m.(text := m.text + d.content, reasoning := m.reasoning + d.reasoning);
        if c.choices[0].finish.Some? then HearFinish(m1, c.choices[0].finish.value) else m1
  {
    NoTools(m.calls);
  }

  lemma EventKeepsMeaning(s: State, m: Meaning, e: ClaudeEvent)
    requires Heard(s, m)
    ensures HearChunks(m, MapStep(s, e).out) == HearEvent(m, e)
    ensures Heard(MapStep(s, e).s, HearEvent(m, e))
  {
    hide HearChunk, HearChunks, HearTool, Known, Merge;
    var r := MapStep(s, e);
    if r.out != [] {
      OneChunk(m, r.out[0]);
      if r.out[0].choices == [] || r.out[0].choices[0].delta.value.tools == [] {
        PlainChunkMeans(m, r.out[0]);
      }
    } else {
      NoChunks(m);
    }
    assert m.text + "" == m.text && m.reasoning + "" == m.reasoning;
    match e
    case BlockStart(i, Some(ToolUse(id, name))) =>
      ToolChunkMeans(m, r.s, ToolDelta(Some(i), id, name, ""));
      HearKeepsKnown(m.calls, i, id, name, "");
    case BlockDelta(i, Some(InputJson(Some(p)))) =>
      var t := if i in s.tools then s.tools[i] else ToolName("", "");
      ToolChunkMeans(m, s, ToolDelta(Some(i), t.id, t.name, p));
      HearKeepsKnown(m.calls, i, "", "", p);
      KnownIgnoresName(m.calls, i, t.id, t.name, p);
    case _ =>
  }

  lemma NoChunks(m: Meaning)
    ensures HearChunks(m, []) == m
  {
  }

  lemma KnownIgnoresName(calls: seq<Call>, key: int, id: string, name: string, args: string)
    ensures Known(calls, key) ==> HearTool(calls, key, id, name, args) == HearTool(calls, key, "", "", args)
  {
  }

  lemma {:induction false} RunKeepsMeaning(s: State, m: Meaning, es: seq<ClaudeEvent>)
    requires Heard(s, m)
    ensures HearChunks(m, Run(s, es).out) == HearEvents(m, es)
    decreases es
  {
    hide MapStep, HearEvent, Heard;
    if es == [] {
      NoChunks(m);
    } else {
      var a := MapStep(s, es[0]);
      EventKeepsMeaning(s, m, es[0]);
      RunKeepsMeaning(a.s, HearEvent(m, es[0]), es[1..]);
      ChunksConcat(m, a.out, Run(a.s, es[1..]).out);
    }
  }

  /** Any Anthropic stream, well formed or not, means the same after the conversion to Chat,
      and its tool calls even keep their numbers. */
  lemma MeaningKept(freshID: string, requested: string, es: seq<ClaudeEvent>)
    ensures OfChat(Converted(Initial(freshID, requested), es)) == OfClaude(es)
  {
    RunKeepsMeaning(Initial(freshID, requested), NOTHING, es);
  }
}
