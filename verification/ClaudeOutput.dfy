/** What a client sees of the Chat -> Anthropic mapper over a whole run. */
module ClaudeOutput {
  import opened Wire
  import opened ClaudeGrammar
  import opened ChatToClaude

  // ---- one message, for every input ----

  predicate IsBlockEvent(e: ClaudeEvent) {
    e.BlockStart? || e.BlockDelta? || e.BlockStop?
  }

  lemma {:induction false} NoSpine(es: seq<ClaudeEvent>)
    requires OnlyBlocks(es)
    ensures Spine(es) == []
  {
    if es != [] {
      NoSpine(es[1..]);
    }
  }

  predicate StartsAtZero(e: ClaudeEvent) {
    e.MessageStart? && e.message.Some? && e.message.value.usage == ClaudeUsage(0, 0, 0)
  }

  /** The spine sent so far is what the mapper's flags say it is. */
  ghost predicate SpineOf(s: State, es: seq<ClaudeEvent>) {
    && (!s.started ==> es == [] && s.pendingStop == "" && !s.stopSent)
    && (s.started ==> es != [] && StartsAtZero(es[0]))
    && (s.started && !s.stopSent ==> Spine(es) == [es[0]])
    && (s.stopSent ==> s.pendingStop != "" && |Spine(es)| == 3 && Spine(es)[0] == es[0]
                       && Spine(es)[1].MessageDelta? && Spine(es)[1].stopReason == s.pendingStop
                       && Spine(es)[2] == MessageStop)
  }

  lemma AddBlocks(s: State, s': State, es: seq<ClaudeEvent>, out: seq<ClaudeEvent>)
    requires SpineOf(s, es) && s.started
    requires SameFlags(s, s') && OnlyBlocks(out)
    ensures SpineOf(s', es + out)
  {
    NoSpine(out);
    SpineConcat(es, out);
  }

  lemma StartKeepsSpine(c: Chunk, s: State, es: seq<ClaudeEvent>)
    requires SpineOf(s, es)
    ensures SpineOf(EnsureStart(c, s).s, es + EnsureStart(c, s).out) && EnsureStart(c, s).s.started
  {
    var a := EnsureStart(c, s);
    assert es + [] == es;
    if !s.started {
      assert es + a.out == a.out;
      assert Spine(a.out[1..]) == [];
    }
  }

  lemma StopKeepsSpine(s: State, es: seq<ClaudeEvent>)
    requires SpineOf(s, es) && s.started && !s.stopSent && s.pendingStop != ""
    ensures SpineOf(s.(stopSent := true), es + StopEvents(s))
  {
    SpineConcat(es, StopEvents(s));
    var stop := StopEvents(s);
    assert stop[1..] == [MessageStop] && Spine(stop[1..][1..]) == [];
    assert Spine(stop) == [stop[0]] + Spine(stop[1..]);
    assert Spine(stop) == stop;
  }

  lemma CloseKeepsSpine(s: State, es: seq<ClaudeEvent>)
    requires SpineOf(s, es) && s.started
    ensures SpineOf(CloseBlocks(s).s, es + CloseBlocks(s).out)
  {
    AddBlocks(s, CloseBlocks(s).s, es, CloseBlocks(s).out);
  }

  /** Two states that agree on the flags the spine depends on. */
  predicate SameFlags(s: State, t: State) {
    s.started == t.started && s.pendingStop == t.pendingStop && s.stopSent == t.stopSent
  }

  predicate OnlyBlocks(es: seq<ClaudeEvent>) {
    forall i :: 0 <= i < |es| ==> IsBlockEvent(es[i])
  }

  lemma ThinkingFrame(s: State, t: string)
    ensures var b := OpenThinking(s);
            SameFlags(s, b.s) && OnlyBlocks(b.out + [BlockDelta(b.s.thinkingIndex, Some(ThinkingDelta(t)))])
  {
  }

  lemma TextFrame(s: State, t: string)
    ensures SameFlags(s, TextStep(s, t).s) && OnlyBlocks(TextStep(s, t).out)
  {
    hide ParseDataURI;
  }

  lemma ToolFrame(s: State, td: ToolDelta)
    ensures SameFlags(s, ToolStep(s, td).s) && OnlyBlocks(ToolStep(s, td).out)
  {
  }

  lemma ItemKeepsSpine(c: Chunk, s: State, it: Item, es: seq<ClaudeEvent>)
    requires SpineOf(s, es)
    ensures SpineOf(ItemStep(c, s, it).s, es + ItemStep(c, s, it).out)
  {
    hide SpineOf, EnsureStart, TextStep, ToolStep, OpenThinking, FinishStep;
    var a := EnsureStart(c, s);
    StartKeepsSpine(c, s, es);
    match it
    case Role =>
    case Reasoning(t) =>
      var b := OpenThinking(a.s);
      var out := b.out + [BlockDelta(b.s.thinkingIndex, Some(ThinkingDelta(t)))];
      ThinkingFrame(a.s, t);
      AddBlocks(a.s, b.s, es + a.out, out);
      assert es + (a.out + b.out + [BlockDelta(b.s.thinkingIndex, Some(ThinkingDelta(t)))]) == es + a.out + out;
    case Content(t) =>
      var b := TextStep(a.s, t);
      TextFrame(a.s, t);
      AddBlocks(a.s, b.s, es + a.out, b.out);
      assert es + (a.out + b.out) == es + a.out + b.out;
    case Tool(td) =>
      var b := ToolStep(a.s, td);
      ToolFrame(a.s, td);
      AddBlocks(a.s, b.s, es + a.out, b.out);
      assert es + (a.out + b.out) == es + a.out + b.out;
    case Finish(reason) => FinishKeepsSpine(c, s, reason, es);
  }

  lemma FinishKeepsSpine(c: Chunk, s: State, reason: string, es: seq<ClaudeEvent>)
    requires SpineOf(s, es)
    ensures SpineOf(FinishStep(c, s, reason).s, es + FinishStep(c, s, reason).out)
  {
    hide CloseBlocks, EnsureStart, StopEvents;
    if s.pendingStop != "" || s.stopSent {
      assert es + [] == es;
    } else {
      var a := EnsureStart(c, s);
      StartKeepsSpine(c, s, es);
      var b := CloseBlocks(a.s);
      CloseKeepsSpine(a.s, es + a.out);
      StartFrame(c, s);
      CloseFrame(a.s);
      var s2 := b.s.(pendingStop := StopReason(reason));
      assert es + (a.out + b.out) == es + a.out + b.out;
      assert SpineOf(s2, es + a.out + b.out);
      if s2.usage.Some? {
        StopKeepsSpine(s2, es + a.out + b.out);
        assert es + (a.out + b.out + StopEvents(s2)) == es + a.out + b.out + StopEvents(s2);
      }
    }
  }

  lemma StartFrame(c: Chunk, s: State)
    ensures var t := EnsureStart(c, s).s;
            t == s.(started := true, messageId := t.messageId, model := t.model)
  {
  }

  lemma CloseFrame(s: State)
    ensures CloseBlocks(s).s == s.(thinkingOpen := false, textOpen := false, tools := map[])
  {
  }

  lemma {:induction false} ItemsKeepSpine(c: Chunk, s: State, items: seq<Item>, es: seq<ClaudeEvent>)
    requires SpineOf(s, es)
    ensures SpineOf(ItemsRun(c, s, items).s, es + ItemsRun(c, s, items).out)
    decreases items
  {
    hide ItemStep, SpineOf;
    if items == [] {
      assert es + [] == es;
    } else {
      var a := ItemStep(c, s, items[0]);
      ItemKeepsSpine(c, s, items[0], es);
      ItemsKeepSpine(c, a.s, items[1..], es + a.out);
      assert es + (a.out + ItemsRun(c, a.s, items[1..]).out) == es + a.out + ItemsRun(c, a.s, items[1..]).out;
    }
  }

  lemma MapKeepsSpine(c: Chunk, s: State, es: seq<ClaudeEvent>)
    requires SpineOf(s, es)
    ensures SpineOf(MapStep(s, c).s, es + MapStep(s, c).out)
  {
    hide StopEvents, ItemsRun, Items;
    var s1 := WithUsage(c, WithModel(c, s));
    if EndsOnUsage(c, s) {
      StopKeepsSpine(s1, es);
    } else {
      ItemsKeepSpine(c, s1, Items(c), es);
    }
  }

  lemma {:induction false} RunKeepsSpine(s: State, chunks: seq<Chunk>, es: seq<ClaudeEvent>)
    requires SpineOf(s, es)
    ensures SpineOf(Run(s, chunks).s, es + Run(s, chunks).out)
    decreases chunks
  {
    hide MapStep, SpineOf;
    if chunks == [] {
      assert es + [] == es;
    } else {
      var a := MapStep(s, chunks[0]);
      MapKeepsSpine(chunks[0], s, es);
      RunKeepsSpine(a.s, chunks[1..], es + a.out);
      assert es + (a.out + Run(a.s, chunks[1..]).out) == es + a.out + Run(a.s, chunks[1..]).out;
    }
  }

  lemma FlushKeepsSpine(s: State, es: seq<ClaudeEvent>)
    requires SpineOf(s, es)
    ensures SpineOf(FlushStep(s).s, es + FlushStep(s).out)
    ensures FlushStep(s).s.started ==> FlushStep(s).s.stopSent
  {
    hide CloseBlocks, StopEvents;
    if s.stopSent || (s.pendingStop == "" && !s.started) {
      assert es + [] == es;
    } else if s.pendingStop != "" {
      StopKeepsSpine(s, es);
    } else {
      var b := CloseBlocks(s);
      CloseKeepsSpine(s, es);
      CloseFrame(s);
      var s2 := b.s.(pendingStop := "end_turn");
      StopKeepsSpine(s2, es + b.out);
      assert StopEvents(s2) == StopEvents(s2.(stopSent := true)) by {
        StopIgnoresFlag(s2);
      }
      assert es + (b.out + StopEvents(s2)) == es + b.out + StopEvents(s2);
    }
  }

  lemma StopIgnoresFlag(s: State)
    ensures StopEvents(s) == StopEvents(s.(stopSent := true))
  {
  }

  /** For every chunk stream at all: either nothing is sent, or message_start comes first and,
      block events aside, exactly message_start, message_delta, message_stop are sent, once each. */
  lemma OneMessage(freshID: string, requested: string, chunks: seq<Chunk>)
    ensures var es := Converted(Initial(freshID, requested), chunks);
            es == [] || (&& StartsAtZero(es[0])
                         && |Spine(es)| == 3
                         && Spine(es)[0] == es[0]
                         && Spine(es)[1].MessageDelta?
                         && Spine(es)[2] == MessageStop)
  {
    hide Run, FlushStep;
    var s0 := Initial(freshID, requested);
    RunKeepsSpine(s0, chunks, []);
    var r := Run(s0, chunks);
    assert [] + r.out == r.out;
    FlushKeepsSpine(r.s, r.out);
  }

  /** Flush is idempotent: a second one sends nothing and changes nothing. */
  lemma FlushTwice(s: State)
    ensures FlushStep(FlushStep(s).s) == Step(FlushStep(s).s, [])
  {
  }
}
