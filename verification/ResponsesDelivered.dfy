/** Chat -> Responses, and Anthropic -> Chat -> Responses: when a client gets a complete
    response, and that it then holds exactly what the source stream said. */
module ResponsesDelivered {
  import opened Wire
  import opened Meaning
  import opened ResponsesGrammar
  import opened ChatToResponses
  import opened RoundTrip
  import opened ResponsesOutput

  // ---- what a client reads off the finished items ----

  function TextIn(items: seq<ResponsesGrammar.Item>): string {
    if items == [] then ""
    else
      var last := items[|items| - 1];
      TextIn(items[..|items| - 1]) + (if last.Prose? then last.text else "")
  }

  /** The tool calls in item order. */
  function CallsIn(items: seq<ResponsesGrammar.Item>): seq<Call> {
    if items == [] then []
    else
      var last := items[|items| - 1];
      CallsIn(items[..|items| - 1])
      + (if last.Call? then [Call.Call(|items| - 1, last.callId, last.name, last.args)] else [])
  }

  /** `m` calls have been met among the first `n` items. */
  ghost predicate Met(s: State, a: seq<Call>, n: nat, m: nat)
    requires ResponsesOutput.Linked(s, a)
  {
    && m <= |a|
    && (forall i :: 0 <= i < m ==> s.tools[a[i].key].index < n)
    && (forall i :: m <= i < |a| ==> s.tools[a[i].key].index >= n)
  }

  lemma NextCall(s: State, a: seq<Call>, items: seq<ResponsesGrammar.Item>, n: nat, m: nat)
    requires Placed(s) && Layout(s, items, false) && ResponsesOutput.Linked(s, a)
    requires n < |items| && Met(s, a, n, m) && !(s.textAdded && s.textIndex == n)
    ensures m < |a| && Met(s, a, n + 1, m + 1)
    ensures items[n] == ItemOf(s.tools[a[m].key], false)
  {
    hide Matches;
    assert HasTool(s.tools, n);
    var k :| k in s.tools && s.tools[k].index == n;
    assert Known(a, k);
    var j :| 0 <= j < |a| && a[j].key == k;
    assert j >= m;
    if j > 0 {
      var lo := if m < j then m else 0;
      assert s.tools[a[lo].key].index < s.tools[a[j].key].index;
    }
  }

  lemma TextItem(s: State, a: seq<Call>, items: seq<ResponsesGrammar.Item>, n: nat, m: nat)
    requires Placed(s) && Layout(s, items, false) && ResponsesOutput.Linked(s, a)
    requires n < |items| && Met(s, a, n, m) && s.textAdded && s.textIndex == n
    ensures Met(s, a, n + 1, m) && items[n] == Prose(s.messageId, s.text, false)
  {
    hide Matches;
  }

  /** Reading the first `n` items off a finished layout. */
  lemma {:induction false} ReadItems(s: State, a: seq<Call>, items: seq<ResponsesGrammar.Item>, n: nat) returns (m: nat)
    requires Placed(s) && Layout(s, items, false) && ResponsesOutput.Linked(s, a) && n <= |items|
    ensures Met(s, a, n, m) && SameCalls(a[..m], CallsIn(items[..n]))
    ensures TextIn(items[..n]) == if s.textAdded && s.textIndex < n then s.text else ""
  {
    hide Placed, Layout, ResponsesOutput.Linked, Met, SameCalls, TextIn, CallsIn;
    if n == 0 {
      m := 0;
      NoneMet(s, a, items);
    } else {
      m := ReadItems(s, a, items, n - 1);
      assert items[..n][..n - 1] == items[..n - 1] && items[..n][n - 1] == items[n - 1];
      if s.textAdded && s.textIndex == n - 1 {
        TextItem(s, a, items, n - 1, m);
        LastText(items[..n]);
      } else {
        NextCall(s, a, items, n - 1, m);
        LastCall(s, a, items[..n], m);
        m := m + 1;
      }
    }
  }

  lemma NoneMet(s: State, a: seq<Call>, items: seq<ResponsesGrammar.Item>)
    requires Placed(s) && ResponsesOutput.Linked(s, a)
    ensures Met(s, a, 0, 0) && SameCalls(a[..0], CallsIn(items[..0])) && TextIn(items[..0]) == ""
    ensures !(s.textAdded && s.textIndex < 0)
  {
    hide Matches;
  }

  lemma LastText(xs: seq<ResponsesGrammar.Item>)
    requires xs != [] && xs[|xs| - 1].Prose?
    ensures CallsIn(xs) == CallsIn(xs[..|xs| - 1])
    ensures TextIn(xs) == TextIn(xs[..|xs| - 1]) + xs[|xs| - 1].text
    ensures TextIn(xs[..|xs| - 1]) == "" ==> TextIn(xs) == xs[|xs| - 1].text
  {
    assert "" + xs[|xs| - 1].text == xs[|xs| - 1].text;
  }

  lemma {:induction false} LastCall(s: State, a: seq<Call>, xs: seq<ResponsesGrammar.Item>, m: nat)
    requires ResponsesOutput.Linked(s, a) && m < |a|
    requires xs != [] && xs[|xs| - 1] == ItemOf(s.tools[a[m].key], false)
    requires SameCalls(a[..m], CallsIn(xs[..|xs| - 1]))
    ensures SameCalls(a[..m + 1], CallsIn(xs))
    ensures TextIn(xs) == TextIn(xs[..|xs| - 1])
  {
    hide ItemIdOf, SameCalls;
    var t := s.tools[a[m].key];
    assert Matches(a[m], t);
    var e := Call.Call(|xs| - 1, t.callId, t.name, t.args);
    assert CallsIn(xs) == CallsIn(xs[..|xs| - 1]) + [e];
    assert a[..m + 1] == a[..m] + [a[m]];
    SameSnoc(a[..m], CallsIn(xs[..|xs| - 1]), a[m], e);
    assert TextIn(xs[..|xs| - 1]) + "" == TextIn(xs[..|xs| - 1]);
  }

  lemma SameSnoc(a: seq<Call>, b: seq<Call>, x: Call, y: Call)
    requires SameCalls(a, b) && SameCall(x, y)
    ensures SameCalls(a + [x], b + [y])
  {
    hide SameCall;
  }

  lemma {:induction false} CallsNamed(s: State, items: seq<ResponsesGrammar.Item>, n: nat)
    requires Placed(s) && Layout(s, items, false) && n <= |items|
    ensures forall i :: 0 <= i < |CallsIn(items[..n])| ==> CallsIn(items[..n])[i].id != ""
  {
    hide ItemIdOf, Matches;
    if n > 0 {
      CallsNamed(s, items, n - 1);
      assert items[..n][..n - 1] == items[..n - 1];
      if items[n - 1].Call? {
        assert !(s.textAdded && s.textIndex == n - 1);
        assert HasTool(s.tools, n - 1);
        var k :| k in s.tools && s.tools[k].index == n - 1;
        assert items[n - 1].callId == s.tools[k].callId;
      }
    }
  }

  // ---- Chat -> Responses ----

  /** The items of a finished response are the text and the calls of the Chat stream. */
  lemma ItemsSay(s: State, v: Meaning, items: seq<ResponsesGrammar.Item>, announced: bool)
    requires Placed(s) && Layout(s, items, false) && Holds(s, v, announced)
    ensures SameCalls(v.calls, CallsIn(items)) <==> announced
  {
    hide Placed, Layout, ResponsesOutput.Linked, SameCalls, TextIn, CallsIn, HasAnonymous;
    assert items[..|items|] == items;
    if announced {
      var m := ReadItems(s, v.calls, items, |items|);
      AllMet(s, v.calls, items, m);
      assert v.calls[..|v.calls|] == v.calls;
    } else {
      CallsNamed(s, items, |items|);
      AnonymousDiffers(v.calls, CallsIn(items));
    }
  }

  lemma AllMet(s: State, a: seq<Call>, items: seq<ResponsesGrammar.Item>, m: nat)
    requires Placed(s) && Layout(s, items, false) && ResponsesOutput.Linked(s, a) && Met(s, a, |items|, m)
    ensures m == |a|
    ensures s.textAdded ==> s.textIndex < |items|
    ensures !s.textAdded ==> s.text == ""
  {
    hide Matches, Known;
    if a != [] {
      var i := if m < |a| then m else 0;
      assert s.tools[a[i].key].index < |items|;
    }
  }

  /** The text, also when some call was dropped. */
  lemma {:induction false} TextSays(s: State, items: seq<ResponsesGrammar.Item>, n: nat)
    requires Placed(s) && Layout(s, items, false) && n <= |items|
    ensures TextIn(items[..n]) == if s.textAdded && s.textIndex < n then s.text else ""
  {
    hide ItemIdOf;
    if n > 0 {
      TextSays(s, items, n - 1);
      assert items[..n][..n - 1] == items[..n - 1];
      if s.textAdded && s.textIndex == n - 1 {
        assert "" + s.text == s.text;
      } else {
        assert HasTool(s.tools, n - 1);
        assert items[n - 1].Call?;
        assert s.text + "" == s.text;
      }
    }
  }

  lemma WholeText(s: State, items: seq<ResponsesGrammar.Item>)
    requires Placed(s) && Layout(s, items, false)
    ensures TextIn(items) == s.text
  {
    TextSays(s, items, |items|);
    assert items[..|items|] == items;
  }

  lemma FlushReads(s: State, p: Phase, rep: Option<Usage>)
    requires Tracks(s, p) && Reporting(s, p, rep)
    ensures var q := Read(p, FlushStep(s).out);
            if s.pendingFinish then q.Complete? && q.id == s.responseId && q.usage == Reported(rep) && Layout(s, q.items, false)
            else q == p && (q == Fresh || q.Streaming?)
  {
    hide Placed, Layout, Read;
    ReadNone(p);
    if s.pendingFinish && !s.completed {
      ReadOne(p, FlushStep(s).out[0]);
      LaidIsDone(s, p.items);
    }
  }

  lemma SpoiledFlush(s: State, p: Phase)
    requires Spoiled(s, p)
    ensures Read(p, FlushStep(s).out) == Broken
  {
    hide Read, AllDone;
    ReadNone(p);
    if FlushStep(s).out != [] { CompletedSpoils(s, p, FlushStep(s).out); }
  }

  lemma PhaseNamesResponse(s: State, p: Phase)
    requires Tracks(s, p)
    ensures Placed(s)
  {
  }

  lemma InitialTracks(responseId: string, messageId: string, model: string)
    ensures var s := Initial(responseId, messageId, model);
            Tracks(s, Fresh) && Reporting(s, Fresh, None) && Holds(s, NOTHING, true)
  {
  }

  lemma Outcome(r: State, q: Phase, v: Meaning, rep: Option<Usage>, announced: bool)
    requires Tracks(r, q) && Reporting(r, q, rep) && Holds(r, v, announced)
    ensures var p := Read(q, FlushStep(r).out);
            if v.finish.None? then p == Fresh || p.Streaming?
            else p.Complete? && p.id == r.responseId && p.usage == Reported(rep)
                 && TextIn(p.items) == v.text && (SameCalls(v.calls, CallsIn(p.items)) <==> announced)
  {
    hide Placed, Layout, Read, ResponsesOutput.Linked, HasAnonymous, SameCalls, FlushStep, TextIn, CallsIn;
    FlushReads(r, q, rep);
    PhaseNamesResponse(r, q);
    if r.pendingFinish {
      var items := Read(q, FlushStep(r).out).items;
      ItemsSay(r, v, items, announced);
      WholeText(r, items);
    }
  }

  lemma {:induction false} SameResponse(s: State, chunks: seq<Chunk>, orders: seq<seq<int>>)
    requires |orders| == |chunks|
    ensures Run(s, chunks, orders).s.responseId == s.responseId
    decreases chunks
  {
    hide MapStep;
    if chunks != [] {
      ChunkKeepsId(s, chunks[0], orders[0]);
      SameResponse(MapStep(s, chunks[0], orders[0]).s, chunks[1..], orders[1..]);
    }
  }

  lemma ChunkKeepsId(s: State, c: Chunk, order: seq<int>)
    ensures MapStep(s, c, order).s.responseId == s.responseId
  {
    hide ItemsRun, Items, CompletedEvents;
    ItemsKeepId(c, UsageStep(c, WithModel(c, s)).s, Items(c), order);
  }

  lemma {:induction false} ItemsKeepId(c: Chunk, s: State, items: seq<Wire.Item>, order: seq<int>)
    ensures ItemsRun(c, s, items, order).s.responseId == s.responseId
    decreases items
  {
    hide ItemStep;
    if items != [] {
      ItemKeepsId(c, s, items[0], order);
      ItemsKeepId(c, ItemStep(c, s, items[0], order).s, items[1..], order);
    }
  }

  lemma ItemKeepsId(c: Chunk, s: State, it: Wire.Item, order: seq<int>)
    ensures ItemStep(c, s, it, order).s.responseId == s.responseId
  {
    hide EnsureCreated, TextStep, ToolStep, FinishStep;
    CreatedKeepsTools(c, s);
    var a := EnsureCreated(c, s).s;
    match it
    case Content(t) => ResponsesOutput.TextFields(a, t);
    case Tool(td) => ResponsesOutput.ToolFields(a, td);
    case Finish(_) => ResponsesOutput.FinishFields(c, s, order);
    case _ =>
  }

  /** Whatever the Chat stream and whatever order the tools are closed in: the client gets a
      complete response exactly when the stream finished and nothing that would have to be sent
      followed, and it then has the text, the usage, and, if every call was announced with an
      id, the calls in their order. A stream that never finished leaves the response incomplete,
      any other one breaks it. */
  lemma ResponseSaysAll(responseId: string, messageId: string, model: string, chunks: seq<Chunk>, orders: seq<seq<int>>)
    requires |orders| == |chunks| && OrdersFit(Initial(responseId, messageId, model), chunks, orders)
    ensures var p := Read(Fresh, ChatToResponses.Converted(Initial(responseId, messageId, model), chunks, orders));
            var v := OfChat(chunks);
            && (p.Complete? <==> v.finish.Some? && Quiet(chunks, false, {}))
            && (p == Fresh || p.Streaming? <==> v.finish.None? && Quiet(chunks, false, {}))
            && (p.Complete? ==>
                  && p.id == responseId && p.usage == Reported(ReportedUsage(chunks, false, None))
                  && TextIn(p.items) == v.text
                  && (SameCalls(v.calls, CallsIn(p.items)) <==> Announced([], AllItems(chunks))))
  {
    hide Run, FlushStep, Read, Tracks, Reporting, Holds, Spoiled, Quiet, OrdersFit, Announced,
         AllItems, HearChunks, ReportedUsage, SameCalls, TextIn, CallsIn;
    var s := Initial(responseId, messageId, model);
    var r := Run(s, chunks, orders);
    var v, announced, rep := OfChat(chunks), Announced([], AllItems(chunks)), ReportedUsage(chunks, false, None);
    InitialTracks(responseId, messageId, model);
    RunFollows(s, Fresh, chunks, orders, None);
    HoldsRun(s, NOTHING, chunks, orders, true);
    ReadConcat(Fresh, r.out, FlushStep(r.s).out);
    SameResponse(s, chunks, orders);
    assert s.tools.Keys == {};
    if Quiet(chunks, false, {}) {
      Outcome(r.s, Read(Fresh, r.out), v, rep, announced);
    } else {
      SpoiledFlush(r.s, Read(Fresh, r.out));
    }
  }

  const STOP := Chunk("", "", [Choice(None, Some("stop"))], None)

  /** With text after the finish there is no complete response. */
  lemma LateTextBreaks(responseId: string, messageId: string, model: string, orders: seq<seq<int>>)
    requires var late := Chunk("", "", [Choice(Some(EMPTY_DELTA.(content := "late")), None)], None);
             |orders| == 2 && OrdersFit(Initial(responseId, messageId, model), [STOP, late], orders)
    ensures var late := Chunk("", "", [Choice(Some(EMPTY_DELTA.(content := "late")), None)], None);
            !Read(Fresh, ChatToResponses.Converted(Initial(responseId, messageId, model), [STOP, late], orders)).Complete?
  {
    hide Read, ChatToResponses.Converted, OrdersFit;
    var late := Chunk("", "", [Choice(Some(EMPTY_DELTA.(content := "late")), None)], None);
    assert Items(late)[0] == Content("late");
    assert !Silent(Items(late), KnownAfterAll(Items(STOP), {}));
    assert [STOP, late][1..] == [late];
    assert !Quiet([STOP, late], false, {});
    ResponseSaysAll(responseId, messageId, model, [STOP, late], orders);
  }

  lemma QuietToStop(c: Chunk)
    requires !Finishes(c)
    ensures Quiet([c, STOP], false, {}) && OfChat([c, STOP]).finish.Some?
  {
    hide KnownAfterAll, Silent;
    assert [c, STOP][1..] == [STOP] && [STOP][1..] == [];
    var known := KnownAfterAll(Items(c), {});
    assert Quiet([], true, KnownAfterAll(Items(STOP), known));
    assert Quiet([STOP], false, known);
    var m := HearChunk(NOTHING, c);
    assert HearChunks(m, [STOP]) == HearChunks(HearChunk(m, STOP), []);
  }

  /** A call whose first record has no id is not among those of the complete response. */
  lemma NamelessCallIsDropped(responseId: string, messageId: string, model: string, orders: seq<seq<int>>)
    requires var call := Chunk("", "", [Choice(Some(EMPTY_DELTA.(tools := [ToolDelta(Some(0), "", "f", "{}")])), None)], None);
             |orders| == 2 && OrdersFit(Initial(responseId, messageId, model), [call, STOP], orders)
    ensures var call := Chunk("", "", [Choice(Some(EMPTY_DELTA.(tools := [ToolDelta(Some(0), "", "f", "{}")])), None)], None);
            var p := Read(Fresh, ChatToResponses.Converted(Initial(responseId, messageId, model), [call, STOP], orders));
            p.Complete? && !SameCalls(OfChat([call, STOP]).calls, CallsIn(p.items))
  {
    hide Read, ChatToResponses.Converted, OrdersFit, CallsIn, SameCalls;
    var call := Chunk("", "", [Choice(Some(EMPTY_DELTA.(tools := [ToolDelta(Some(0), "", "f", "{}")])), None)], None);
    assert Items(call) == [Tool(ToolDelta(Some(0), "", "f", "{}"))];
    assert [call, STOP][1..] == [STOP] && [STOP][1..] == [];
    assert AllItems([call, STOP]) == [Tool(ToolDelta(Some(0), "", "f", "{}"))] + AllItems([STOP]);
    assert !Announced([], AllItems([call, STOP]));
    QuietToStop(call);
    ResponseSaysAll(responseId, messageId, model, [call, STOP], orders);
  }
}
