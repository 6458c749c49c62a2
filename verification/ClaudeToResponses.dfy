/** Anthropic -> Chat -> Responses, the two mappers one after the other: a well-formed
    Anthropic stream comes out as one complete response with everything it said but its reasoning. */
module ClaudeToResponses {
  import opened Wire
  import opened Meaning
  import opened ClaudeGrammar
  import ResponsesGrammar
  import ChatToResponses
  import opened ClaudeToChat
  import opened RoundTrip
  import opened ResponsesOutput
  import opened ResponsesDelivered

  /** Every tool_use block has an id. */
  predicate AllNamed(es: seq<ClaudeEvent>) {
    forall i :: 0 <= i < |es| ==> Named(es[i])
  }

  predicate Named(e: ClaudeEvent) {
    e.BlockStart? && e.block.Some? && e.block.value.ToolUse? ==> e.block.value.id != ""
  }

  /** The usage of a message: what message_start said of the input, unless message_delta says
      more, and what message_delta said of the output. Without the latter there is none. */
  function Totals(start: ClaudeUsage, end: Option<ClaudeUsage>): Option<Usage> {
    if end.None? then None
    else
      var prompt := if end.value.input > 0 then end.value.input else start.input;
      var cached := if end.value.cacheRead > 0 then end.value.cacheRead else start.cacheRead;
      Some(Usage(prompt, end.value.output, prompt + end.value.output,
                 if cached > 0 then Some(PromptDetails(cached, 0, 0)) else None, None))
  }

  function StartUsage(es: seq<ClaudeEvent>): ClaudeUsage
    requires es != [] && es[0].MessageStart? && es[0].message.Some?
  {
    es[0].message.value.usage
  }

  function EndUsage(es: seq<ClaudeEvent>): Option<ClaudeUsage>
    requires |es| >= 2 && es[|es| - 2].MessageDelta?
  {
    es[|es| - 2].usage
  }

  // ---- a well-formed stream, event by event ----

  predicate Ends(p: Phase, es: seq<ClaudeEvent>) {
    p != Broken && Read(p, es) == Finished
  }

  lemma EndsStep(p: Phase, es: seq<ClaudeEvent>)
    requires Ends(p, es)
    ensures es == [] <==> p == Finished
    ensures es != [] ==> Ends(Advance(p, es[0]), es[1..])
    ensures p == Closing ==> es == [MessageStop]
  {
    if es != [] {
      BrokenStays(es[1..]);
      if |es| > 1 {
        assert es[1..][1..] == es[2..];
        BrokenStays(es[2..]);
      }
    }
  }

  /** The last events are message_delta and message_stop. */
  lemma {:induction false} EndsWithDelta(p: Phase, es: seq<ClaudeEvent>)
    requires Ends(p, es) && (p == Idle || p.Body?)
    ensures |es| >= 2 && es[|es| - 2].MessageDelta? && es[|es| - 2].stopReason != ""
    ensures forall i :: 0 <= i < |es| - 2 ==> !es[i].MessageDelta? && !es[i].MessageStop?
    ensures p == Idle ==> es[0].MessageStart? && es[0].message.Some?
    ensures forall i :: 0 < i < |es| ==> !es[i].MessageStart?
    ensures p.Body? ==> !es[0].MessageStart?
    decreases es
  {
    hide Read;
    EndsStep(p, es);
    var q := Advance(p, es[0]);
    EndsStep(q, es[1..]);
    if q == Closing {
      assert es == [es[0]] + [MessageStop];
    } else {
      EndsWithDelta(q, es[1..]);
    }
  }

  /** The mapper has sent a finish exactly when the reader has seen message_delta. */
  predicate InStep(p: Phase, s: State) {
    s.finishSent <==> p == Closing || p == Finished
  }

  lemma StepKeepsInStep(p: Phase, s: State, e: ClaudeEvent)
    requires InStep(p, s) && Advance(p, e) != Broken
    ensures InStep(Advance(p, e), MapStep(s, e).s)
    ensures |MapStep(s, e).out| <= 1
    ensures forall c :: c in MapStep(s, e).out ==> (Finishes(c) <==> Advance(p, e) == Closing)
    ensures p == Closing ==> MapStep(s, e).out == []
  {
    hide Merge;
  }

  lemma {:induction false} ConversionIsQuiet(p: Phase, s: State, es: seq<ClaudeEvent>, known: set<int>)
    requires Ends(p, es) && InStep(p, s)
    ensures Quiet(Run(s, es).out, s.finishSent, known)
    decreases es
  {
    hide MapStep, Advance, Read, KnownAfterAll, Items, Finishes;
    EndsStep(p, es);
    if es != [] {
      var a := MapStep(s, es[0]);
      StepKeepsInStep(p, s, es[0]);
      if a.out == [] {
        ConversionIsQuiet(Advance(p, es[0]), a.s, es[1..], known);
        assert a.out + Run(a.s, es[1..]).out == Run(a.s, es[1..]).out;
        NothingSent(p, s, es, known);
      } else {
        assert a.out == [a.out[0]] && a.out[0] in a.out;
        var rest := Run(a.s, es[1..]).out;
        assert (a.out + rest)[1..] == rest && (a.out + rest)[0] == a.out[0];
        ConversionIsQuiet(Advance(p, es[0]), a.s, es[1..], KnownAfterAll(Items(a.out[0]), known));
        SentWhileOpen(p, s, es[0]);
      }
    }
  }

  lemma NothingSent(p: Phase, s: State, es: seq<ClaudeEvent>, known: set<int>)
    requires Ends(p, es) && InStep(p, s) && es != [] && MapStep(s, es[0]).out == []
    ensures MapStep(s, es[0]).s.finishSent == s.finishSent
  {
    hide Merge, Read;
    EndsStep(p, es);
  }

  lemma SentWhileOpen(p: Phase, s: State, e: ClaudeEvent)
    requires InStep(p, s) && Advance(p, e) != Broken && MapStep(s, e).out != []
    ensures !s.finishSent
    ensures MapStep(s, e).s.finishSent == Finishes(MapStep(s, e).out[0])
  {
    hide Merge;
  }

  // ---- calls are announced ----

  /** The mapper knows the tools the Chat reader knows; open tool blocks are among them. */
  ghost predicate SameTools(p: Phase, s: State, calls: seq<Call>) {
    && (forall k :: Known(calls, k) <==> k in s.tools)
    && (p == Idle ==> s.tools == map[])
    && (p.Body? ==> (forall k :: k in s.tools ==> k < p.next)
                    && (forall i :: i in p.open && p.open[i] == ToolKind ==> i in s.tools))
  }

  function ToolOf(s: State, e: ClaudeEvent): Option<ToolDelta> {
    match e
    case BlockStart(i, Some(ToolUse(id, name))) => Some(ToolDelta(Some(i), id, name, ""))
    case BlockDelta(i, Some(InputJson(Some(p)))) =>
      var t := if i in s.tools then s.tools[i] else ToolName("", "");
      Some(ToolDelta(Some(i), t.id, t.name, p))
    case _ => None
  }

  lemma ChunkOfTool(s: State, e: ClaudeEvent)
    ensures var out := AllItems(MapStep(s, e).out);
            if ToolOf(s, e).Some? then out == [Tool(ToolOf(s, e).value)]
            else forall i :: 0 <= i < |out| ==> !out[i].Tool?
  {
    hide Merge, AllItems, Items;
    var out := MapStep(s, e).out;
    if out == [] {
      OnlyItems(out);
    } else {
      assert out == [out[0]];
      OnlyItems(out);
      if ToolOf(s, e).Some? {
        ItemsOfTool(out[0], ToolOf(s, e).value);
      } else {
        ItemsOfPlain(out[0]);
      }
    }
  }

  lemma OnlyItems(out: seq<Chunk>)
    requires |out| <= 1
    ensures AllItems(out) == if out == [] then [] else Items(out[0])
  {
    hide Items;
    if out != [] {
      assert AllItems(out[1..]) == [];
      assert Items(out[0]) + [] == Items(out[0]);
    }
  }

  lemma ItemsOfTool(c: Chunk, td: ToolDelta)
    requires c.choices == [Choice(Some(Delta("", "", "", [td])), None)]
    ensures Items(c) == [Tool(td)]
  {
    assert ToolItems([td]) == [Tool(td)];
  }

  lemma ItemsOfPlain(c: Chunk)
    requires c.choices != [] && c.choices[0].delta.Some? ==> c.choices[0].delta.value.tools == []
    ensures forall i :: 0 <= i < |Items(c)| ==> !Items(c)[i].Tool?
  {
  }

  lemma {:induction false} NoToolsAnnounced(calls: seq<Call>, items: seq<Wire.Item>, rest: seq<Wire.Item>)
    requires forall i :: 0 <= i < |items| ==> !items[i].Tool?
    ensures Announced(calls, items + rest) <==> Announced(calls, rest)
    decreases items
  {
    hide HearTool, Known;
    if items == [] {
      assert items + rest == rest;
    } else {
      assert (items + rest)[1..] == items[1..] + rest && (items + rest)[0] == items[0];
      NoToolsAnnounced(calls, items[1..], rest);
    }
  }

  lemma ToolAnnounced(calls: seq<Call>, td: ToolDelta, rest: seq<Wire.Item>)
    ensures Announced(calls, [Tool(td)] + rest) <==>
            (Known(calls, td.Key()) || td.id != "")
            && Announced(HearTool(calls, td.Key(), td.id, td.name, td.args), rest)
  {
    hide HearTool, Known;
    var all := [Tool(td)] + rest;
    assert all[0] == Tool(td) && all[1..] == rest;
  }

  lemma ToolsInStep(p: Phase, s: State, e: ClaudeEvent, calls: seq<Call>)
    requires SameTools(p, s, calls) && Advance(p, e) != Broken
    ensures var td := ToolOf(s, e);
            && SameTools(Advance(p, e), MapStep(s, e).s,
                         if td.Some? then HearTool(calls, td.value.Key(), td.value.id, td.value.name, td.value.args) else calls)
            && (td.Some? ==> (Known(calls, td.value.Key()) || td.value.id != "" <==> Named(e)))
            && (td.None? ==> Named(e))
  {
    hide Merge, HearTool, Known;
    var td := ToolOf(s, e);
    if td.Some? {
      HearKeepsKnown(calls, td.value.Key(), td.value.id, td.value.name, td.value.args);
    }
  }

  lemma {:induction false} ConversionAnnounces(p: Phase, s: State, es: seq<ClaudeEvent>, calls: seq<Call>)
    requires Ends(p, es) && SameTools(p, s, calls)
    ensures Announced(calls, AllItems(Run(s, es).out)) <==> AllNamed(es)
    decreases es
  {
    hide MapStep, Advance, Read, ToolOf, HearTool, Known, Items, SameTools, Named;
    EndsStep(p, es);
    if es != [] {
      var a := MapStep(s, es[0]);
      var rest := Run(a.s, es[1..]).out;
      var td := ToolOf(s, es[0]);
      var calls1 := if td.Some? then HearTool(calls, td.value.Key(), td.value.id, td.value.name, td.value.args) else calls;
      ToolsInStep(p, s, es[0], calls);
      ConversionAnnounces(Advance(p, es[0]), a.s, es[1..], calls1);
      AllItemsConcat(a.out, rest);
      ChunkOfTool(s, es[0]);
      if td.Some? {
        ToolAnnounced(calls, td.value, AllItems(rest));
      } else {
        NoToolsAnnounced(calls, AllItems(a.out), AllItems(rest));
      }
      assert es == [es[0]] + es[1..];
      assert AllNamed(es) <==> Named(es[0]) && AllNamed(es[1..]);
    }
  }

  // ---- ending and usage ----

  lemma {:induction false} EndingHeard(p: Phase, m: Meaning, es: seq<ClaudeEvent>)
    requires Ends(p, es) && (p == Closing || p == Finished ==> m.finish.Some?)
    ensures HearEvents(m, es).finish.Some?
    decreases es
  {
    hide Read, HearTool;
    EndsStep(p, es);
    if es != [] {
      EndingHeard(Advance(p, es[0]), HearEvent(m, es[0]), es[1..]);
    }
  }

  /** Once message_start is read, what the mapper holds is what it said of the input. */
  predicate Started(s: State, start: ClaudeUsage) {
    s.usage == Some(Merge(ZERO_USAGE, start, false)) && !s.usageFromDelta
  }

  lemma {:induction false} ConversionReports(n: nat, open: map<int, Kind>, s: State, start: ClaudeUsage, es: seq<ClaudeEvent>, last: Option<Usage>)
    requires Ends(Body(n, open), es) && Started(s, start) && !s.finishSent && last.None?
    ensures |es| >= 2 && es[|es| - 2].MessageDelta?
    ensures ReportedUsage(Run(s, es).out, false, last) == Totals(start, EndUsage(es))
    decreases es
  {
    hide Read;
    var p := Body(n, open);
    EndsWithDelta(p, es);
    EndsStep(p, es);
    var a := MapStep(s, es[0]);
    var q := Advance(p, es[0]);
    var rest := Run(a.s, es[1..]).out;
    assert (a.out + rest)[|a.out|..] == rest;
    if q == Closing {
      EndsStep(q, es[1..]);
      assert es == [es[0], MessageStop];
      assert Run(a.s, [MessageStop][1..]).out == [];
      assert rest == [];
      DeltaReports(s, start, es[0]);
      assert a.out + rest == a.out;
    } else {
      ConversionReports(q.next, q.open, a.s, start, es[1..], last);
      if a.out == [] { assert a.out + rest == rest; }
    }
  }

  lemma DeltaReports(s: State, start: ClaudeUsage, e: ClaudeEvent)
    requires Started(s, start) && e.MessageDelta? && e.stopReason != ""
    ensures ReportedUsage(MapStep(s, e).out, false, None) == Totals(start, e.usage)
  {
    var out := MapStep(s, e).out;
    assert out == [out[0]] && out[1..] == [];
  }

  lemma WholeReports(id: string, model: string, es: seq<ClaudeEvent>)
    requires Read(Idle, es) == Finished
    ensures |es| >= 2 && es[|es| - 2].MessageDelta? && es[0].MessageStart? && es[0].message.Some?
    ensures ReportedUsage(Converted(ClaudeToChat.Initial(id, model), es), false, None) == Totals(StartUsage(es), EndUsage(es))
  {
    hide Read, Merge, Totals, Finishes;
    EndsWithDelta(Idle, es);
    EndsStep(Idle, es);
    var s := ClaudeToChat.Initial(id, model);
    var a := MapStep(s, es[0]);
    var rest := Run(a.s, es[1..]).out;
    assert a.out == [a.out[0]] && (a.out + rest)[1..] == rest && (a.out + rest)[0] == a.out[0];
    ConversionReports(0, map[], a.s, StartUsage(es), es[1..], None);
    RoleReportsNothing(s, es[0]);
  }

  lemma RoleReportsNothing(s: State, e: ClaudeEvent)
    requires e.MessageStart?
    ensures MapStep(s, e).out != [] && MapStep(s, e).out[0].usage.None? && !Finishes(MapStep(s, e).out[0])
  {
  }

  // ---- the result ----

  /** A well-formed Anthropic message, through Chat, is one complete response: its text, its usage,
      and its calls in their order exactly when each has an id. */
  lemma ComesThrough(id: string, model: string, responseId: string, messageId: string, asked: string,
                     es: seq<ClaudeEvent>, orders: seq<seq<int>>)
    requires WellFormed(es)
    requires var chunks := Converted(ClaudeToChat.Initial(id, model), es);
             |orders| == |chunks| && OrdersFit(ChatToResponses.Initial(responseId, messageId, asked), chunks, orders)
    ensures var chunks := Converted(ClaudeToChat.Initial(id, model), es);
            var sent := ChatToResponses.Converted(ChatToResponses.Initial(responseId, messageId, asked), chunks, orders);
            var p := ResponsesGrammar.Read(ResponsesGrammar.Fresh, sent);
            if es == [] then sent == []
            else
              && p.Complete? && p.id == responseId
              && TextIn(p.items) == OfClaude(es).text
              && (SameCalls(OfClaude(es).calls, CallsIn(p.items)) <==> AllNamed(es))
              && |es| >= 2 && es[0].MessageStart? && es[0].message.Some? && es[|es| - 2].MessageDelta?
              && p.usage == ChatToResponses.Reported(Totals(StartUsage(es), EndUsage(es)))
  {
    hide Run, Read, HearChunks, HearEvents, Quiet, Announced, AllItems, AllNamed, ReportedUsage, Totals, OrdersFit,
         ResponsesGrammar.Read, TextIn, CallsIn, SameCalls, ChatToResponses.Reported;
    var s := ClaudeToChat.Initial(id, model);
    if es == [] {
      NoEvents(s);
      NoChunksSent(ChatToResponses.Initial(responseId, messageId, asked), orders);
    } else {
      var chunks := Converted(s, es);
      ConversionIsQuiet(Idle, s, es, {});
      ConversionAnnounces(Idle, s, es, []);
      EndingHeard(Idle, NOTHING, es);
      MeaningKept(id, model, es);
      WholeReports(id, model, es);
      ResponseSaysAll(responseId, messageId, asked, chunks, orders);
    }
  }

  lemma NoEvents(s: State)
    ensures Run(s, []) == Step(s, [])
  {
  }

  lemma NoChunksSent(s: ChatToResponses.State, orders: seq<seq<int>>)
    requires orders == [] && !s.pendingFinish
    ensures ChatToResponses.Converted(s, [], orders) == []
  {
  }
}
