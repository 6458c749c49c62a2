/** How messages end: the stop reason and the usage that reach the other protocol. */
module Endings {
  import opened Wire
  import opened Meaning
  import opened ClaudeGrammar
  import opened ClaudeOutput
  import opened ChatToClaude
  import ClaudeToChat
  import ResponsesOutput
  import RoundTrip

  /** Chat usage in an Anthropic message_delta. */
  function Shown(u: Option<Usage>): Option<ClaudeUsage> {
    if u.None? then None else Some(ClaudeUsage(u.value.prompt, u.value.completion, 0))
  }

  function StopFor(finish: Option<string>): string {
    if finish.None? then "end_turn" else StopReason(finish.value)
  }

  /** `v`: what the Chat stream has said, `rep`: the usage record that counts so far. */
  predicate Pending(s: State, v: Meaning, rep: Option<Usage>) {
    && (v.finish.Some? <==> s.pendingStop != "")
    && (v.finish.Some? ==> s.pendingStop == StopReason(v.finish.value))
    && (s.stopSent <==> v.finish.Some? && rep.Some?)
    && (!s.stopSent ==> s.usage == Shown(rep))
  }

  /** The spine, once message_delta is out, is complete. */
  ghost predicate Sent(s: State, es: seq<ClaudeEvent>, v: Meaning, rep: Option<Usage>) {
    && SpineOf(s, es)
    && (s.stopSent ==> Spine(es)[1] == MessageDelta(StopFor(v.finish), Shown(rep)))
  }

  lemma StopSends(s: State, es: seq<ClaudeEvent>, rep: Option<Usage>)
    requires SpineOf(s, es) && s.started && !s.stopSent && s.pendingStop != "" && s.usage == Shown(rep)
    ensures SpineOf(s.(stopSent := true), es + StopEvents(s))
    ensures Spine(es + StopEvents(s))[1] == MessageDelta(s.pendingStop, Shown(rep))
  {
    StopKeepsSpine(s, es);
    SpineConcat(es, StopEvents(s));
    var stop := StopEvents(s);
    assert stop[1..] == [MessageStop] && Spine(stop[1..][1..]) == [];
    assert Spine(stop) == [stop[0]] + Spine(stop[1..]);
  }

  // ---- items ----

  /** Once message_stop is out, only block events are still sent. */
  lemma NoMoreSpine(c: Chunk, s: State, it: Item)
    requires s.started && s.stopSent
    ensures OnlyBlocks(ItemStep(c, s, it).out)
  {
    hide TextStep, ToolStep, OpenThinking;
    match it
    case Reasoning(t) =>
      ThinkingFrame(s, t);
      var d := [BlockDelta(OpenThinking(s).s.thinkingIndex, Some(ThinkingDelta(t)))];
      assert [] + OpenThinking(s).out + d == OpenThinking(s).out + d;
    case Content(t) => TextFrame(s, t);
    case Tool(td) => ToolFrame(s, td);
    case _ =>
  }

  lemma FinishSends(c: Chunk, s: State, reason: string, es: seq<ClaudeEvent>, rep: Option<Usage>)
    requires SpineOf(s, es) && s.pendingStop == "" && !s.stopSent && s.usage == Shown(rep)
    ensures var r := FinishStep(c, s, reason);
            rep.Some? ==> |Spine(es + r.out)| > 1 && Spine(es + r.out)[1] == MessageDelta(StopReason(reason), Shown(rep))
  {
    hide CloseBlocks, EnsureStart, StopEvents, Spine;
    var a := EnsureStart(c, s);
    StartKeepsSpine(c, s, es);
    var b := CloseBlocks(a.s);
    CloseKeepsSpine(a.s, es + a.out);
    StartFrame(c, s);
    CloseFrame(a.s);
    var s2 := b.s.(pendingStop := StopReason(reason));
    SameSpine(b.s, s2, es + a.out + b.out);
    if rep.Some? {
      StopSends(s2, es + a.out + b.out, rep);
      assert es + (a.out + b.out + StopEvents(s2)) == es + a.out + b.out + StopEvents(s2);
    }
  }

  lemma SameSpine(s: State, t: State, es: seq<ClaudeEvent>)
    requires SpineOf(s, es) && s.started && !s.stopSent && t == s.(pendingStop := t.pendingStop)
    ensures SpineOf(t, es)
  {
  }

  lemma ItemSends(c: Chunk, s: State, it: Item, es: seq<ClaudeEvent>, v: Meaning, rep: Option<Usage>)
    requires Sent(s, es, v, rep) && Pending(s, v, rep)
    ensures var r := ItemStep(c, s, it);
            Sent(r.s, es + r.out, HearItem(v, it), rep) && Pending(r.s, HearItem(v, it), rep)
  {
    hide ItemStep, HearTool, SpineOf, Spine, FinishStep;
    var r := ItemStep(c, s, it);
    RoundTrip.ItemFields(c, s, it);
    ItemKeepsSpine(c, s, it, es);
    if s.stopSent {
      StoppedIsStarted(s, es);
      NoMoreSpine(c, s, it);
      NoSpine(r.out);
      SpineConcat(es, r.out);
      assert Spine(es) + [] == Spine(es);
    } else if RoundTrip.FirstFinish(s, it) {
      FinishSends(c, s, it.reason, es, rep);
      FinishIsItem(c, s, it);
    }
  }

  lemma FinishIsItem(c: Chunk, s: State, it: Item)
    requires it.Finish?
    ensures ItemStep(c, s, it) == FinishStep(c, s, it.reason)
  {
    hide FinishStep;
  }

  lemma StoppedIsStarted(s: State, es: seq<ClaudeEvent>)
    requires SpineOf(s, es) && s.stopSent
    ensures s.started && |Spine(es)| == 3
  {
  }

  lemma {:induction false} ItemsSend(c: Chunk, s: State, items: seq<Item>, es: seq<ClaudeEvent>, v: Meaning, rep: Option<Usage>)
    requires Sent(s, es, v, rep) && Pending(s, v, rep)
    ensures var r := ItemsRun(c, s, items);
            Sent(r.s, es + r.out, HearItems(v, items), rep) && Pending(r.s, HearItems(v, items), rep)
    decreases items
  {
    hide ItemStep, HearItem, Sent, Pending;
    if items == [] {
      assert es + [] == es;
    } else {
      var a := ItemStep(c, s, items[0]);
      ItemSends(c, s, items[0], es, v, rep);
      ItemsSend(c, a.s, items[1..], es + a.out, HearItem(v, items[0]), rep);
      assert es + (a.out + ItemsRun(c, a.s, items[1..]).out) == es + a.out + ItemsRun(c, a.s, items[1..]).out;
    }
  }

  // ---- chunks and runs ----

  lemma UsageKept(c: Chunk, s: State, es: seq<ClaudeEvent>, v: Meaning, rep: Option<Usage>)
    requires Sent(s, es, v, rep) && Pending(s, v, rep)
    ensures var t := WithUsage(c, WithModel(c, s));
            var rep' := ResponsesOutput.NextReport(c, v.finish.Some?, rep);
            if EndsOnUsage(c, s) then t.usage == Shown(rep') && rep'.Some? && SpineOf(t, es) && t.started
            else Sent(t, es, v, rep') && Pending(t, v, rep')
    ensures var t := WithUsage(c, WithModel(c, s)); t.pendingStop == s.pendingStop && t.stopSent == s.stopSent
  {
    hide Spine;
  }

  lemma ChunkSends(c: Chunk, s: State, es: seq<ClaudeEvent>, v: Meaning, rep: Option<Usage>)
    requires Sent(s, es, v, rep) && Pending(s, v, rep)
    ensures var r := MapStep(s, c);
            var rep' := ResponsesOutput.NextReport(c, v.finish.Some?, rep);
            Sent(r.s, es + r.out, HearChunk(v, c), rep') && Pending(r.s, HearChunk(v, c), rep')
  {
    hide SpineOf, Spine, ItemsRun, Items, HearItems, HearTools, StopEvents, WithUsage, WithModel, ResponsesOutput.NextReport;
    var t := WithUsage(c, WithModel(c, s));
    var rep' := ResponsesOutput.NextReport(c, v.finish.Some?, rep);
    UsageKept(c, s, es, v, rep);
    if EndsOnUsage(c, s) {
      StopSends(t, es, rep');
    } else {
      ItemsSend(c, t, Items(c), es, v, rep');
      ItemsMeanChunk(v, c);
    }
  }

  lemma {:induction false} RunSends(s: State, chunks: seq<Chunk>, es: seq<ClaudeEvent>, v: Meaning, rep: Option<Usage>)
    requires Sent(s, es, v, rep) && Pending(s, v, rep)
    ensures var r := Run(s, chunks);
            var rep' := ReportedUsage(chunks, v.finish.Some?, rep);
            Sent(r.s, es + r.out, HearChunks(v, chunks), rep') && Pending(r.s, HearChunks(v, chunks), rep')
    decreases chunks
  {
    hide MapStep, HearChunk, Sent, Pending, Finishes;
    if chunks == [] {
      assert es + [] == es;
    } else {
      var c := chunks[0];
      var a := MapStep(s, c);
      var rep1 := ResponsesOutput.NextReport(c, v.finish.Some?, rep);
      ChunkSends(c, s, es, v, rep);
      RunSends(a.s, chunks[1..], es + a.out, HearChunk(v, c), rep1);
      assert es + (a.out + Run(a.s, chunks[1..]).out) == es + a.out + Run(a.s, chunks[1..]).out;
      FinishOfChunk(v, c);
      ResponsesOutput.ReportStays(chunks[1..], v.finish.Some?, rep);
    }
  }

  lemma FinishOfChunk(v: Meaning, c: Chunk)
    ensures HearChunk(v, c).finish.Some? <==> v.finish.Some? || Finishes(c)
  {
    hide HearTools;
  }

  lemma FlushSends(s: State, es: seq<ClaudeEvent>, v: Meaning, rep: Option<Usage>)
    requires Sent(s, es, v, rep) && Pending(s, v, rep)
    ensures var all := es + FlushStep(s).out;
            if s.started then |Spine(all)| == 3 && Spine(all)[1] == MessageDelta(StopFor(v.finish), Shown(rep))
            else all == []
  {
    hide CloseBlocks, StopEvents, Spine;
    FlushKeepsSpine(s, es);
    assert es + [] == es;
    if s.stopSent {
    } else if s.pendingStop != "" {
      StopSends(s, es, rep);
    } else if s.started {
      var b := CloseBlocks(s);
      CloseKeepsSpine(s, es);
      CloseFrame(s);
      var s2 := b.s.(pendingStop := "end_turn");
      SameSpine(b.s, s2, es + b.out);
      StopSends(s2, es + b.out, rep);
      StopIgnoresFlag(s2);
      assert es + (b.out + StopEvents(s2)) == es + b.out + StopEvents(s2);
    }
  }

  /** For every chunk stream at all: the one message_delta carries the first finish reason, or
      end_turn without one, and the usage the Chat stream reported. */
  lemma MessageEnds(freshID: string, requested: string, chunks: seq<Chunk>)
    ensures var es := Converted(Initial(freshID, requested), chunks);
            es == [] || Spine(es) == [es[0], MessageDelta(StopFor(OfChat(chunks).finish), Shown(ReportedUsage(chunks, false, None))), MessageStop]
  {
    hide Run, FlushStep, Spine, HearChunks, ReportedUsage;
    var s0 := Initial(freshID, requested);
    var r := Run(s0, chunks);
    EmptySpine();
    RunSends(s0, chunks, [], NOTHING, None);
    assert [] + r.out == r.out;
    FlushSends(r.s, r.out, OfChat(chunks), ReportedUsage(chunks, false, None));
    OneMessage(freshID, requested, chunks);
    var es := Converted(s0, chunks);
    if es != [] {
      assert Spine(es) == [Spine(es)[0], Spine(es)[1], Spine(es)[2]];
    }
  }

  lemma EmptySpine()
    ensures Spine([]) == []
  {
  }

  // ---- and back ----

  /** Two states of the Anthropic -> Chat mapper that differ in their tools only. */
  predicate Alike(s: ClaudeToChat.State, t: ClaudeToChat.State) {
    t == s.(tools := t.tools)
  }

  /** Block events change nothing in the usage a stream reports. */
  lemma {:induction false} UsageFollowsSpine(s: ClaudeToChat.State, t: ClaudeToChat.State, es: seq<ClaudeEvent>, fin: bool, last: Option<Usage>)
    requires Alike(s, t)
    ensures ReportedUsage(ClaudeToChat.Run(s, es).out, fin, last) == ReportedUsage(ClaudeToChat.Run(t, Spine(es)).out, fin, last)
    decreases es
  {
    hide ClaudeToChat.MapStep, Finishes;
    if es != [] {
      var e := es[0];
      var a := ClaudeToChat.MapStep(s, e);
      var rest := ClaudeToChat.Run(a.s, es[1..]).out;
      if IsBlockEvent(e) {
        BlockSaysNothing(s, e);
        UsageFollowsSpine(a.s, t, es[1..], fin, last);
        if a.out == [] {
          assert a.out + rest == rest;
        } else {
          assert (a.out + rest)[0] == a.out[0] && (a.out + rest)[1..] == rest;
          ReportedEarly(rest, fin, last);
        }
      } else {
        var b := ClaudeToChat.MapStep(t, e);
        SpineAlike(s, t, e);
        assert Spine(es) == [e] + Spine(es[1..]);
        assert Spine(es)[1..] == Spine(es[1..]);
        var rest' := ClaudeToChat.Run(b.s, Spine(es[1..])).out;
        if a.out == [] {
          assert a.out + rest == rest && b.out + rest' == rest';
          UsageFollowsSpine(a.s, b.s, es[1..], fin, last);
        } else {
          var c := a.out[0];
          assert (a.out + rest)[0] == c && (a.out + rest)[1..] == rest;
          assert (b.out + rest')[0] == c && (b.out + rest')[1..] == rest';
          UsageFollowsSpine(a.s, b.s, es[1..], fin || Finishes(c), if c.usage.Some? then c.usage else last);
        }
      }
    }
  }

  lemma ReportedEarly(cs: seq<Chunk>, fin: bool, last: Option<Usage>)
    ensures fin && last.Some? ==> ReportedUsage(cs, fin, last) == last
  {
  }

  lemma BlockSaysNothing(s: ClaudeToChat.State, e: ClaudeEvent)
    requires IsBlockEvent(e)
    ensures var a := ClaudeToChat.MapStep(s, e);
            && Alike(s, a.s) && |a.out| <= 1
            && (a.out != [] ==> a.out[0].usage.None? && !Finishes(a.out[0]))
  {
  }

  lemma SpineAlike(s: ClaudeToChat.State, t: ClaudeToChat.State, e: ClaudeEvent)
    requires Alike(s, t) && !IsBlockEvent(e)
    ensures var a, b := ClaudeToChat.MapStep(s, e), ClaudeToChat.MapStep(t, e);
            Alike(a.s, b.s) && a.out == b.out && |a.out| <= 1
  {
    hide ClaudeToChat.Merge;
  }

  /** Chat usage after the trip to Anthropic and back: the two counts, a negative prompt count as 0. */
  function Returned(u: Option<Usage>): Option<Usage> {
    if u.None? then None
    else
      var prompt := if u.value.prompt > 0 then u.value.prompt else 0;
      Some(Usage(prompt, u.value.completion, prompt + u.value.completion, None, None))
  }

  lemma SpineReports(s: ClaudeToChat.State, m: Message, stop: string, u: Option<Usage>)
    requires s.usage.None? && !s.usageFromDelta && !s.finishSent && m.usage == ClaudeUsage(0, 0, 0) && stop != ""
    ensures ReportedUsage(ClaudeToChat.Run(s, [MessageStart(Some(m)), MessageDelta(stop, Shown(u)), MessageStop]).out, false, None) == Returned(u)
  {
    hide ClaudeToChat.MapStep, Finishes, Returned;
    var es := [MessageStart(Some(m)), MessageDelta(stop, Shown(u)), MessageStop];
    var a := ClaudeToChat.MapStep(s, es[0]);
    var b := ClaudeToChat.MapStep(a.s, es[1]);
    var c := ClaudeToChat.MapStep(b.s, es[2]);
    SpineSteps(s, m, stop, u);
    assert es[1..] == [es[1], es[2]] && es[1..][1..] == [es[2]] && [es[2]][1..] == [];
    assert ClaudeToChat.Run(c.s, []).out == [];
    assert ClaudeToChat.Run(b.s, [es[2]]).out == [] + [];
    assert ClaudeToChat.Run(a.s, es[1..]).out == b.out + ([] + []);
    assert ClaudeToChat.Run(s, es).out == a.out + (b.out + ([] + []));
    TwoReport(a.out[0], b.out[0]);
    assert a.out + (b.out + ([] + [])) == [a.out[0], b.out[0]];
  }

  lemma SpineSteps(s: ClaudeToChat.State, m: Message, stop: string, u: Option<Usage>)
    requires s.usage.None? && !s.usageFromDelta && !s.finishSent && m.usage == ClaudeUsage(0, 0, 0) && stop != ""
    ensures var a := ClaudeToChat.MapStep(s, MessageStart(Some(m)));
            var b := ClaudeToChat.MapStep(a.s, MessageDelta(stop, Shown(u)));
            && |a.out| == |b.out| == 1 && a.out[0].usage.None? && !Finishes(a.out[0]) && b.out[0].usage == Returned(u)
            && ClaudeToChat.MapStep(b.s, MessageStop).out == []
  {
  }

  lemma TwoReport(c: Chunk, d: Chunk)
    requires c.usage.None? && !Finishes(c)
    ensures ReportedUsage([c, d], false, None) == d.usage
  {
    hide Finishes;
    assert [c, d][1..] == [d] && [d][1..] == [];
    assert ReportedUsage([d], false, None) == ReportedUsage([], Finishes(d), d.usage);
  }

  /** The usage of every Chat stream that came to anything survives Chat -> Anthropic -> Chat. */
  lemma UsageReturns(id1: string, id2: string, requested1: string, requested2: string, chunks: seq<Chunk>)
    ensures var es := Converted(Initial(id1, requested1), chunks);
            var back := ClaudeToChat.Converted(ClaudeToChat.Initial(id2, requested2), es);
            ReportedUsage(back, false, None) == if es == [] then None else Returned(ReportedUsage(chunks, false, None))
  {
    hide Run, FlushStep, Spine, ReportedUsage, ClaudeToChat.Run, HearChunks;
    var es := Converted(Initial(id1, requested1), chunks);
    var t := ClaudeToChat.Initial(id2, requested2);
    UsageFollowsSpine(t, t, es, false, None);
    if es == [] {
      EmptySpine();
      NothingReported(t);
    } else {
      MessageEnds(id1, requested1, chunks);
      OneMessage(id1, requested1, chunks);
      SpineReports(t, es[0].message.value, StopFor(OfChat(chunks).finish), ReportedUsage(chunks, false, None));
    }
  }

  lemma NothingReported(t: ClaudeToChat.State)
    ensures ReportedUsage(ClaudeToChat.Run(t, []).out, false, None) == None
  {
  }

  // ---- reasons, told without the mappers' tables ----

  /** How the first event that ends the message ends it: its stop reason, "" for a bare message_stop. */
  function FirstEnding(es: seq<ClaudeEvent>): Option<string> {
    if es == [] then None
    else if es[0].MessageDelta? && es[0].stopReason != "" then Some(es[0].stopReason)
    else if es[0].MessageStop? then Some("")
    else FirstEnding(es[1..])
  }

  /** `finish` is how Chat says that a message ended in this way. */
  predicate SaysEnding(finish: Option<string>, ending: Option<string>) {
    && (finish.None? <==> ending.None?)
    && (finish == Some("length") <==> ending == Some("max_tokens"))
    && (finish == Some("tool_calls") <==> ending == Some("tool_use"))
    && (finish == Some("stop") <==> ending.Some? && ending.value !in {"max_tokens", "tool_use"})
  }

  lemma {:induction false} EndingHeard(m: Meaning, es: seq<ClaudeEvent>)
    ensures var f := HearEvents(m, es).finish;
            if m.finish.Some? then f == m.finish else SaysEnding(f, FirstEnding(es))
    decreases es
  {
    hide HearTool, SaysEnding;
    if es == [] {
      NoEnding();
    } else {
      EndingHeard(HearEvent(m, es[0]), es[1..]);
      if es[0].MessageDelta? && es[0].stopReason != "" {
        EndingTold(es[0].stopReason);
      } else if es[0].MessageStop? {
        EndingTold("");
      }
    }
  }

  lemma NoEnding()
    ensures SaysEnding(None, None)
  {
  }

  lemma EndingTold(stop: string)
    ensures SaysEnding(Some(if stop == "" then "stop" else FinishReason(stop)), Some(stop))
  {
  }

  /** Anthropic to Chat, for every event stream: the finish reason is told by the first ending. */
  lemma FinishTold(freshID: string, requested: string, es: seq<ClaudeEvent>)
    ensures SaysEnding(OfChat(ClaudeToChat.Converted(ClaudeToChat.Initial(freshID, requested), es)).finish, FirstEnding(es))
  {
    hide SaysEnding, HearEvents, ClaudeToChat.Converted, HearChunks;
    ClaudeToChat.MeaningKept(freshID, requested, es);
    EndingHeard(NOTHING, es);
  }

  /** The first finish reason of a Chat stream. */
  function FirstFinish(chunks: seq<Chunk>): Option<string> {
    if chunks == [] then None
    else if chunks[0].choices != [] && chunks[0].choices[0].finish.Some? then chunks[0].choices[0].finish
    else FirstFinish(chunks[1..])
  }

  lemma {:induction false} FinishHeard(m: Meaning, chunks: seq<Chunk>)
    ensures HearChunks(m, chunks).finish == if m.finish.Some? then m.finish else FirstFinish(chunks)
    decreases chunks
  {
    hide HearTools;
    if chunks != [] {
      FinishHeard(HearChunk(m, chunks[0]), chunks[1..]);
    }
  }

  /** Chat to Anthropic, for every chunk stream: the stop reason of the one message_delta is told by the first
      finish reason. */
  lemma StopTold(freshID: string, requested: string, chunks: seq<Chunk>)
    ensures var es := Converted(Initial(freshID, requested), chunks);
            var finish := FirstFinish(chunks);
            es != [] ==>
              && |Spine(es)| == 3 && Spine(es)[1].MessageDelta?
              && var stop := Spine(es)[1].stopReason;
                 && (stop == "max_tokens" <==> finish == Some("length"))
                 && (stop == "tool_use" <==> finish == Some("tool_calls"))
                 && (stop == "end_turn" <==> finish.None? || finish.value !in {"length", "tool_calls"})
  {
    hide Converted, Spine, HearChunks;
    MessageEnds(freshID, requested, chunks);
    FinishHeard(NOTHING, chunks);
  }
}
