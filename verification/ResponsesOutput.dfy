/** What a client sees of the Chat -> Responses mapper over a whole run, whatever order the
    tool map is walked in. */
module ResponsesOutput {
  import opened Collections
  import opened Wire
  import opened Meaning
  import opened ResponsesGrammar
  import opened ChatToResponses
  import opened RoundTrip
  import ClaudeToChat

  // ---- the reader's items follow the mapper's fields ----

  function ItemOf(t: ToolState, open: bool): ResponsesGrammar.Item {
    ResponsesGrammar.Item.Call(ItemIdOf(t.callId), t.callId, t.name, t.args, open)
  }

  predicate HasTool(tools: map<int, ToolState>, i: int) {
    exists k :: k in tools && tools[k].index == i
  }

  /** The tools sit at distinct indices, none of them the text's. */
  ghost predicate Placed(s: State) {
    && (s.textAdded ==> 0 <= s.textIndex < s.next)
    && (!s.textAdded ==> s.text == "")
    && (forall k :: k in s.tools ==>
          && 0 <= s.tools[k].index < s.next && s.tools[k].callId != ""
          && (s.textAdded ==> s.tools[k].index != s.textIndex))
    && (forall j, k :: j in s.tools && k in s.tools && j != k ==> s.tools[j].index != s.tools[k].index)
    && (forall i :: 0 <= i < s.next && !(s.textAdded && i == s.textIndex) ==> HasTool(s.tools, i))
  }

  ghost predicate Layout(s: State, items: seq<ResponsesGrammar.Item>, open: bool) {
    && |items| == s.next
    && (s.textAdded ==> 0 <= s.textIndex < |items| && items[s.textIndex] == Prose(s.messageId, s.text, open))
    && (forall k :: k in s.tools ==> 0 <= s.tools[k].index < |items| && items[s.tools[k].index] == ItemOf(s.tools[k], open))
  }

  ghost predicate Tracks(s: State, p: Phase) {
    && Placed(s)
    && (!s.created ==> p == Fresh && s.next == 0 && s.tools == map[] && !s.textAdded && !s.pendingFinish)
    && (s.created && !s.completed ==> p.Streaming? && p.id == s.responseId && Layout(s, p.items, !s.pendingFinish))
    && (s.completed ==> p.Complete? && p.id == s.responseId && Layout(s, p.items, false))
    && (s.completed <==> s.pendingFinish && s.usage.Some?)
  }

  // ---- content ----

  lemma CreatedTracks(c: Chunk, s: State, p: Phase)
    requires Tracks(s, p)
    ensures var a := EnsureCreated(c, s);
            && a.s.created && Tracks(a.s, Read(p, a.out))
            && a.s == s.(created := true, model := a.s.model)
  {
    ReadNone(p);
    if !s.created { ReadOne(p, EnsureCreated(c, s).out[0]); }
  }

  predicate Running(s: State) {
    s.created && !s.pendingFinish && !s.completed
  }

  lemma OpenTextTracks(s: State, p: Phase)
    requires Tracks(s, p) && Running(s)
    ensures var o := OpenText(s);
            Tracks(o.s, Read(p, o.out)) && Running(o.s) && o.s.textAdded && o.s.tools == s.tools && o.s.text == s.text
  {
    var o := OpenText(s);
    ReadNone(p);
    if !s.textAdded {
      ReadTwo(p, o.out[0], o.out[1]);
      assert p.items + [] == p.items;
    }
  }

  lemma TextTracks(s: State, p: Phase, t: string)
    requires Tracks(s, p) && Running(s)
    ensures var r := TextStep(s, t);
            Tracks(r.s, Read(p, r.out)) && Running(r.s) && r.s.tools == s.tools && r.s.text == s.text + t
  {
    hide OpenText, Read, Placed;
    var o := OpenText(s);
    OpenTextTracks(s, p);
    var q := Read(p, o.out);
    var d := Sent.TextDelta(o.s.messageId, o.s.textIndex, t);
    ReadConcat(p, o.out, [d]);
    ReadOne(q, d);
    MoreText(o.s, q.items, t);
  }

  lemma MoreText(s: State, items: seq<ResponsesGrammar.Item>, t: string)
    requires Placed(s) && Layout(s, items, true) && s.textAdded
    ensures Placed(s.(text := s.text + t))
    ensures Layout(s.(text := s.text + t), items[s.textIndex := Prose(s.messageId, s.text + t, true)], true)
  {
  }

  lemma OpenToolTracks(s: State, p: Phase, td: ToolDelta)
    requires Tracks(s, p) && Running(s)
    ensures var o := OpenTool(s, td);
            Tracks(o.s, Read(p, o.out)) && Running(o.s) && o.s.text == s.text
  {
    hide ItemIdOf, Read;
    var o := OpenTool(s, td);
    ReadNone(p);
    if o.out != [] {
      ReadOne(p, o.out[0]);
      MoreTools(s, td);
      ToolLaid(s, p.items, td);
    }
  }

  lemma MoreTools(s: State, td: ToolDelta)
    requires Placed(s) && td.Key() !in s.tools && td.id != ""
    ensures Placed(OpenTool(s, td).s)
  {
    var t := OpenTool(s, td).s;
    forall i | 0 <= i < t.next && !(t.textAdded && i == t.textIndex) ensures HasTool(t.tools, i) {
      if i == s.next {
        assert t.tools[td.Key()].index == i;
      } else {
        assert HasTool(s.tools, i);
        var k :| k in s.tools && s.tools[k].index == i;
        assert t.tools[k].index == i;
      }
    }
  }

  lemma ToolLaid(s: State, items: seq<ResponsesGrammar.Item>, td: ToolDelta)
    requires Placed(s) && Layout(s, items, true) && td.Key() !in s.tools && td.id != ""
    ensures Layout(OpenTool(s, td).s, items + [ResponsesGrammar.Item.Call(ItemIdOf(td.id), td.id, td.name, "", true)], true)
  {
  }

  lemma FeedToolTracks(s: State, p: Phase, k: int, args: string)
    requires Tracks(s, p) && Running(s)
    ensures var r := FeedTool(s, k, args);
            Tracks(r.s, Read(p, r.out)) && Running(r.s) && r.s.text == s.text
  {
    hide ItemIdOf, Read;
    var r := FeedTool(s, k, args);
    ReadNone(p);
    if r.out != [] {
      ReadOne(p, r.out[0]);
      FedPlaced(s, k, args);
      FedLaid(s, p.items, k, args);
    }
  }

  lemma FedPlaced(s: State, k: int, args: string)
    requires Placed(s) && k in s.tools && args != ""
    ensures Placed(FeedTool(s, k, args).s)
  {
    var t := FeedTool(s, k, args).s;
    forall i | 0 <= i < t.next && !(t.textAdded && i == t.textIndex) ensures HasTool(t.tools, i) {
      assert HasTool(s.tools, i);
      var j :| j in s.tools && s.tools[j].index == i;
      assert t.tools[j].index == i;
    }
  }

  lemma FedLaid(s: State, items: seq<ResponsesGrammar.Item>, k: int, args: string)
    requires Placed(s) && Layout(s, items, true) && k in s.tools && args != ""
    ensures var i := s.tools[k].index;
            Layout(FeedTool(s, k, args).s, items[i := items[i].(args := items[i].args + args)], true)
  {
  }

  lemma ToolTracks(s: State, p: Phase, td: ToolDelta)
    requires Tracks(s, p) && Running(s)
    ensures var r := ToolStep(s, td);
            Tracks(r.s, Read(p, r.out)) && Running(r.s) && r.s.text == s.text
  {
    hide OpenTool, FeedTool, Tracks, Read;
    var o := OpenTool(s, td);
    OpenToolTracks(s, p, td);
    FeedToolTracks(o.s, Read(p, o.out), td.Key(), td.args);
    ReadConcat(p, o.out, FeedTool(o.s, td.Key(), td.args).out);
  }

  // ---- the finish ----

  /** Part of the way through closing: the tools in `done` are closed. */
  ghost predicate HalfClosed(s: State, items: seq<ResponsesGrammar.Item>, done: seq<int>) {
    && |items| == s.next
    && (s.textAdded ==> 0 <= s.textIndex < |items| && items[s.textIndex] == Prose(s.messageId, s.text, false))
    && (forall k :: k in s.tools ==>
          0 <= s.tools[k].index < |items| && items[s.tools[k].index] == ItemOf(s.tools[k], k !in done))
  }

  lemma TextCloses(s: State, id: string, items: seq<ResponsesGrammar.Item>)
    requires Placed(s) && Layout(s, items, true)
    ensures exists items' :: HalfClosed(s, items', []) && Read(Streaming(id, items), TextClose(s)) == Streaming(id, items')
  {
    hide ItemIdOf;
    var p := Streaming(id, items);
    var items' := if s.textAdded then items[s.textIndex := Prose(s.messageId, s.text, false)] else items;
    ReadNone(p);
    if s.textAdded {
      ReadTwo(p, TextClose(s)[0], TextClose(s)[1]);
    }
    assert HalfClosed(s, items', []);
  }

  lemma ToolCloses1(s: State, id: string, items: seq<ResponsesGrammar.Item>, done: seq<int>, k: int)
    requires Placed(s) && HalfClosed(s, items, done) && k in s.tools && k !in done
    ensures exists items' :: HalfClosed(s, items', done + [k]) && Read(Streaming(id, items), ToolClose(s.tools[k])) == Streaming(id, items')
  {
    hide ItemIdOf;
    var t := s.tools[k];
    var p := Streaming(id, items);
    ReadTwo(p, ToolClose(t)[0], ToolClose(t)[1]);
    var items' := items[t.index := ItemOf(t, false)];
    assert HalfClosed(s, items', done + [k]) by {
      forall j | j in s.tools ensures items'[s.tools[j].index] == ItemOf(s.tools[j], j !in done + [k]) {
        assert j in done + [k] <==> j == k || j in done;
      }
    }
  }

  lemma {:induction false} ToolsClose(s: State, id: string, items: seq<ResponsesGrammar.Item>, done: seq<int>, order: seq<int>)
    requires Placed(s) && HalfClosed(s, items, done)
    requires forall i :: 0 <= i < |order| ==> order[i] in s.tools && order[i] !in done
    requires forall i, j :: 0 <= i < j < |order| ==> order[i] != order[j]
    ensures exists items' :: HalfClosed(s, items', done + order) && Read(Streaming(id, items), ToolCloses(s, order)) == Streaming(id, items')
    decreases |order|
  {
    hide ItemIdOf, ToolClose, HalfClosed, Read, Placed;
    if order == [] {
      ReadNone(Streaming(id, items));
      assert done + order == done;
    } else {
      var k := order[0];
      ToolCloses1(s, id, items, done, k);
      var items1 :| HalfClosed(s, items1, done + [k]) && Read(Streaming(id, items), ToolClose(s.tools[k])) == Streaming(id, items1);
      assert done + [k] + order[1..] == done + order;
      forall i | 0 <= i < |order[1..]| ensures order[1..][i] !in done + [k] {
        assert order[1..][i] == order[i + 1];
      }
      ToolsClose(s, id, items1, done + [k], order[1..]);
      ReadConcat(Streaming(id, items), ToolClose(s.tools[k]), ToolCloses(s, order[1..]));
    }
  }

  lemma AllClosed(s: State, items: seq<ResponsesGrammar.Item>, order: seq<int>)
    requires Placed(s) && HalfClosed(s, items, order) && Enumerates(order, s.tools)
    ensures Layout(s, items, false) && AllDone(items)
  {
    forall i | 0 <= i < |items| ensures !items[i].open {
      if !(s.textAdded && i == s.textIndex) {
        assert HasTool(s.tools, i);
        var k :| k in s.tools && s.tools[k].index == i;
        assert k in order;
      }
    }
  }

  lemma LaidIsDone(s: State, items: seq<ResponsesGrammar.Item>)
    requires Placed(s) && Layout(s, items, false)
    ensures AllDone(items)
  {
    forall i | 0 <= i < |items| ensures !items[i].open {
      if !(s.textAdded && i == s.textIndex) {
        assert HasTool(s.tools, i);
      }
    }
  }

  lemma FinishTracks(c: Chunk, s: State, p: Phase, order: seq<int>)
    requires Tracks(s, p) && (!s.pendingFinish ==> Enumerates(order, s.tools))
    ensures var r := FinishStep(c, s, order);
            && Tracks(r.s, Read(p, r.out)) && r.s.pendingFinish
            && r.s.text == s.text && r.s.tools == s.tools && r.s.usage == s.usage
            && (s.completed ==> r == Step(s, []))
            && (r.s.completed && !s.completed ==> Read(p, r.out).usage == Reported(s.usage))
  {
    hide EnsureCreated, TextClose, ToolCloses, Placed, Layout, HalfClosed, Enumerates, Read, AllDone;
    ReadNone(p);
    if !s.pendingFinish && !s.completed {
      var a := EnsureCreated(c, s);
      CreatedTracks(c, s, p);
      var q := Read(p, a.out);
      TextCloses(a.s, q.id, q.items);
      var items1 :| HalfClosed(a.s, items1, []) && Read(q, TextClose(a.s)) == Streaming(q.id, items1);
      EnumeratesFacts(order, s.tools);
      ToolsClose(a.s, q.id, items1, [], order);
      var items2 :| HalfClosed(a.s, items2, [] + order) && Read(Streaming(q.id, items1), ToolCloses(a.s, order)) == Streaming(q.id, items2);
      assert [] + order == order;
      AllClosed(a.s, items2, order);
      ReadConcat(p, a.out + TextClose(a.s), ToolCloses(a.s, order));
      ReadConcat(p, a.out, TextClose(a.s));
      var s2 := a.s.(pendingFinish := true);
      var out := a.out + TextClose(a.s) + ToolCloses(a.s, order);
      Same(a.s, s2, items2);
      if s2.usage.Some? {
        ReadConcat(p, out, CompletedEvents(s2));
        ReadOne(Streaming(q.id, items2), CompletedEvents(s2)[0]);
        Same(s2, s2.(completed := true), items2);
      }
    }
  }

  lemma EnumeratesFacts(order: seq<int>, tools: map<int, ToolState>)
    requires Enumerates(order, tools)
    ensures forall i :: 0 <= i < |order| ==> order[i] in tools
    ensures forall i, j :: 0 <= i < j < |order| ==> order[i] != order[j]
  {
  }

  lemma Same(s: State, t: State, items: seq<ResponsesGrammar.Item>)
    requires t.tools == s.tools && t.next == s.next && t.textAdded == s.textAdded && t.textIndex == s.textIndex
          && t.text == s.text && t.messageId == s.messageId
    ensures Placed(s) <==> Placed(t)
    ensures Layout(s, items, false) <==> Layout(t, items, false)
    ensures Layout(s, items, true) <==> Layout(t, items, true)
  {
  }

  lemma UsageTracks(c: Chunk, s: State, p: Phase)
    requires Tracks(s, p)
    ensures var r := UsageStep(c, WithModel(c, s));
            && Tracks(r.s, Read(p, r.out)) && r.s.pendingFinish == s.pendingFinish
            && r.s.text == s.text && r.s.tools == s.tools
            && r.s.usage == (if c.usage.Some? then c.usage else s.usage)
            && (s.completed ==> r.out == [])
            && (r.s.completed && !s.completed ==> Read(p, r.out).usage == Reported(c.usage))
  {
    hide Tracks, Read, CompletedEvents;
    ReadNone(p);
    CompletedKnown(s, p);
    var t := UsageStep(c, WithModel(c, s)).s.(completed := s.completed);
    if c.usage.Some? && s.pendingFinish && !s.completed {
      CompletingTracks(s, t, p);
    } else {
      PlainUsageTracks(s, t, p);
    }
  }

  lemma CompletedKnown(s: State, p: Phase)
    requires Tracks(s, p)
    ensures s.completed <==> s.pendingFinish && s.usage.Some?
  {
  }

  lemma PlainUsageTracks(s: State, t: State, p: Phase)
    requires Tracks(s, p) && t == s.(model := t.model, usage := t.usage) && (t.completed <==> t.pendingFinish && t.usage.Some?)
    ensures Tracks(t, p)
  {
    hide Placed, Layout;
    Same(s, t, if p.Streaming? || p.Complete? then p.items else []);
  }

  lemma CompletingTracks(s: State, t: State, p: Phase)
    requires Tracks(s, p) && s.pendingFinish && !s.completed && t == s.(model := t.model, usage := t.usage) && t.usage.Some?
    ensures var q := Read(p, CompletedEvents(t));
            Tracks(t.(completed := true), q) && q.Complete? && q.usage == Reported(t.usage)
  {
    hide Placed, Layout, Read, CompletedEvents;
    CompletedReads(t.(completed := true), s, p);
    Same(s, t.(completed := true), p.items);
    assert s.(model := t.model, usage := t.usage) == t;
  }

  lemma CompletedReads(t: State, s: State, p: Phase)
    requires Tracks(s, p) && s.created && s.pendingFinish && !s.completed && t == s.(model := t.model, usage := t.usage, completed := true)
    ensures var q := Read(p, CompletedEvents(s.(model := t.model, usage := t.usage)));
            q.Complete? && q.id == s.responseId && q.items == p.items && q.usage == Reported(t.usage)
  {
    hide Placed, Layout;
    LaidIsDone(s, p.items);
    ReadOne(p, CompletedEvents(s.(model := t.model, usage := t.usage))[0]);
  }

  // ---- content after the finish ----

  /** An item that leads to no event once the items are closed; `known`: the calls announced so far. */
  predicate SilentItem(it: Wire.Item, known: set<int>) {
    match it
    case Content(_) => false
    case Tool(td) => if td.Key() in known then td.args == "" else td.id == ""
    case _ => true
  }

  function KnownAfter(it: Wire.Item, known: set<int>): set<int> {
    if it.Tool? && it.td.id != "" then known + {it.td.Key()} else known
  }

  predicate Silent(items: seq<Wire.Item>, known: set<int>) {
    forall i :: 0 <= i < |items| ==> SilentItem(items[i], known)
  }

  function KnownAfterAll(items: seq<Wire.Item>, known: set<int>): set<int> {
    if items == [] then known else KnownAfterAll(items[1..], KnownAfter(items[0], known))
  }

  /** Nothing follows the finish that would have to be sent: no text, no new call, no argument text for a call. */
  predicate Quiet(chunks: seq<Chunk>, fin: bool, known: set<int>)
    decreases chunks
  {
    if chunks == [] then true
    else
      && (fin ==> Silent(Items(chunks[0]), known))
      && Quiet(chunks[1..], fin || Finishes(chunks[0]), KnownAfterAll(Items(chunks[0]), known))
  }

  /** The reader has been lost, or will be at response.completed: something is left open. */
  ghost predicate Bad(p: Phase) {
    p == Broken || (p.Streaming? && !AllDone(p.items))
  }

  ghost predicate Spoiled(s: State, p: Phase) {
    s.created && s.pendingFinish && Bad(p) && (s.completed ==> p == Broken)
  }

  lemma {:induction false} BadStays(p: Phase, es: seq<Sent>)
    requires Bad(p) && forall i :: 0 <= i < |es| ==> !es[i].ItemDone?
    ensures Bad(Read(p, es)) && (p == Broken ==> Read(p, es) == Broken)
    decreases es
  {
    hide Read, AllDone;
    if es == [] {
      ReadNone(p);
    } else {
      BadAdvance(p, es[0]);
      BadStays(Advance(p, es[0]), es[1..]);
      assert es == [es[0]] + es[1..];
      ReadConcat(p, [es[0]], es[1..]);
      ReadOne(p, es[0]);
    }
  }

  lemma BadAdvance(p: Phase, e: Sent)
    requires Bad(p) && !e.ItemDone?
    ensures Bad(Advance(p, e)) && (p == Broken ==> Advance(p, e) == Broken)
    ensures e.Completed? ==> Advance(p, e) == Broken
  {
    if p.Streaming? {
      var i :| 0 <= i < |p.items| && p.items[i].open;
      var q := Advance(p, e);
      assert q.Streaming? ==> i < |q.items| && q.items[i].open;
    }
  }

  /** The first event of a noisy item finds its target closed, or opens an item for good. */
  lemma NoiseSpoils(p: Phase, es: seq<Sent>)
    requires es != [] && Bad(Advance(p, es[0]))
    requires forall i :: 0 <= i < |es| ==> !es[i].ItemDone?
    ensures Bad(Read(p, es)) && (p.Complete? ==> Read(p, es) == Broken)
  {
    hide Read, AllDone;
    BadStays(Advance(p, es[0]), es[1..]);
    assert es == [es[0]] + es[1..];
    ReadConcat(p, [es[0]], es[1..]);
    ReadOne(p, es[0]);
  }

  lemma FieldsKept(c: Chunk, s: State, it: Wire.Item, order: seq<int>)
    requires s.pendingFinish && s.created
    ensures var r := ItemStep(c, s, it, order);
            && r.s.pendingFinish && r.s.created && r.s.completed == s.completed && r.s.usage == s.usage
            && (forall i :: 0 <= i < |r.out| ==> !r.out[i].ItemDone?)
            && (r.out == [] <==> SilentItem(it, s.tools.Keys))
  {
  }

  lemma OpensOrMisses(s: State, p: Phase, e: Sent)
    requires Tracks(s, p) && s.created && s.pendingFinish && (e.ItemAdded? || e.TextDelta? || e.ArgsDelta?)
    ensures Bad(Advance(p, e))
  {
    hide ItemOf, Placed;
    if p.Streaming? {
      LaidIsDone(s, p.items);
      var q := Advance(p, e);
      assert q.Streaming? ==> q.items[|p.items|].open;
    }
  }

  lemma FirstEvent(c: Chunk, s: State, it: Wire.Item, order: seq<int>)
    requires s.created && s.pendingFinish && !SilentItem(it, s.tools.Keys)
    ensures var out := ItemStep(c, s, it, order).out;
            out != [] && (out[0].ItemAdded? || out[0].TextDelta? || out[0].ArgsDelta?)
  {
  }

  lemma ItemSpoils(c: Chunk, s: State, p: Phase, it: Wire.Item, order: seq<int>)
    requires Tracks(s, p) && s.created && s.pendingFinish && !SilentItem(it, s.tools.Keys)
    ensures var r := ItemStep(c, s, it, order);
            Spoiled(r.s, Read(p, r.out))
  {
    hide ItemStep, Placed, Layout, AllDone, Read, SilentItem;
    FieldsKept(c, s, it, order);
    FirstEvent(c, s, it, order);
    OpensOrMisses(s, p, ItemStep(c, s, it, order).out[0]);
    NoiseSpoils(p, ItemStep(c, s, it, order).out);
  }

  lemma ItemStaysSpoiled(c: Chunk, s: State, p: Phase, it: Wire.Item, order: seq<int>)
    requires Spoiled(s, p)
    ensures var r := ItemStep(c, s, it, order);
            Spoiled(r.s, Read(p, r.out))
  {
    hide ItemStep, AllDone, Read, SilentItem;
    FieldsKept(c, s, it, order);
    BadStays(p, ItemStep(c, s, it, order).out);
  }

  /** The items go on being what the mapper holds, unless something came after the finish. */
  ghost predicate Follows(s: State, p: Phase, r: Step, silent: bool) {
    var q := Read(p, r.out);
    if silent then Tracks(r.s, q) else Spoiled(r.s, q)
  }

  lemma ContentTracks(c: Chunk, s: State, p: Phase, it: Wire.Item)
    requires Tracks(s, p) && !s.pendingFinish && !it.Finish?
    ensures var r := ItemStep(c, s, it, []);
            Tracks(r.s, Read(p, r.out)) && !r.s.pendingFinish
  {
    hide Placed, Layout, EnsureCreated, TextStep, ToolStep, Read;
    ReadNone(p);
    var a := EnsureCreated(c, s);
    CreatedTracks(c, s, p);
    var q := Read(p, a.out);
    match it
    case Content(t) =>
      TextTracks(a.s, q, t);
      ReadConcat(p, a.out, TextStep(a.s, t).out);
    case Tool(td) =>
      ToolTracks(a.s, q, td);
      ReadConcat(p, a.out, ToolStep(a.s, td).out);
    case _ =>
  }

  lemma KnownIsTools(c: Chunk, s: State, it: Wire.Item, order: seq<int>)
    ensures ItemStep(c, s, it, order).s.tools.Keys == KnownAfter(it, s.tools.Keys)
    ensures it.Tool? && it.td.id == "" ==> KnownAfter(it, s.tools.Keys) == s.tools.Keys
  {
    hide EnsureCreated;
    var a := EnsureCreated(c, s);
    assert a.s.tools == s.tools by { CreatedKeepsTools(c, s); }
    if it.Tool? && it.td.Key() in s.tools {
      assert s.tools.Keys + {it.td.Key()} == s.tools.Keys;
    }
  }

  lemma CreatedKeepsTools(c: Chunk, s: State)
    ensures EnsureCreated(c, s).s == s.(created := true, model := EnsureCreated(c, s).s.model)
  {
  }

  lemma SilentIsNothing(c: Chunk, s: State, it: Wire.Item, order: seq<int>)
    requires s.created && s.pendingFinish && SilentItem(it, s.tools.Keys)
    ensures ItemStep(c, s, it, order) == Step(s, [])
  {
  }

  lemma ItemFollows(c: Chunk, s: State, p: Phase, it: Wire.Item)
    requires Tracks(s, p) && !it.Finish?
    ensures Follows(s, p, ItemStep(c, s, it, []), s.pendingFinish ==> SilentItem(it, s.tools.Keys))
    ensures ItemStep(c, s, it, []).s.pendingFinish == s.pendingFinish
  {
    hide Placed, Layout, ItemStep, Read, SilentItem, Spoiled;
    ReadNone(p);
    if !s.pendingFinish {
      ContentTracks(c, s, p, it);
    } else if SilentItem(it, s.tools.Keys) {
      SilentIsNothing(c, s, it, []);
    } else {
      ItemSpoils(c, s, p, it, []);
      FieldsKept(c, s, it, []);
    }
  }

  lemma {:induction false} SpoiledItems(c: Chunk, s: State, p: Phase, items: seq<Wire.Item>, order: seq<int>)
    requires Spoiled(s, p)
    ensures var r := ItemsRun(c, s, items, order);
            Spoiled(r.s, Read(p, r.out))
    decreases items
  {
    hide ItemStep, Spoiled, Read;
    if items == [] {
      ReadNone(p);
    } else {
      var a := ItemStep(c, s, items[0], order);
      ItemStaysSpoiled(c, s, p, items[0], order);
      SpoiledItems(c, a.s, Read(p, a.out), items[1..], order);
      ReadConcat(p, a.out, ItemsRun(c, a.s, items[1..], order).out);
    }
  }

  lemma {:induction false} ContentFollows(c: Chunk, s: State, p: Phase, items: seq<Wire.Item>)
    requires Tracks(s, p) && forall i :: 0 <= i < |items| ==> !items[i].Finish?
    ensures Follows(s, p, ItemsRun(c, s, items, []), s.pendingFinish ==> Silent(items, s.tools.Keys))
    ensures ItemsRun(c, s, items, []).s.pendingFinish == s.pendingFinish
    ensures ItemsRun(c, s, items, []).s.tools.Keys == KnownAfterAll(items, s.tools.Keys)
    decreases items
  {
    hide ItemStep, Tracks, Bad, Read, SilentItem, KnownAfter;
    if items == [] {
      ReadNone(p);
    } else {
      var it := items[0];
      var a := ItemStep(c, s, it, []);
      var q := Read(p, a.out);
      ItemFollows(c, s, p, it);
      KnownIsTools(c, s, it, []);
      ReadConcat(p, a.out, ItemsRun(c, a.s, items[1..], []).out);
      assert items == [it] + items[1..];
      if s.pendingFinish ==> SilentItem(it, s.tools.Keys) {
        ContentFollows(c, a.s, q, items[1..]);
        if s.pendingFinish { SilentChangesNothing(c, s, p, it); }
        assert s.pendingFinish ==> (Silent(items, s.tools.Keys) <==> Silent(items[1..], s.tools.Keys));
      } else {
        assert !Silent(items, s.tools.Keys);
        SpoiledItems(c, a.s, q, items[1..], []);
        SpoiledKnown(c, a.s, items[1..]);
      }
    }
  }

  lemma SilentChangesNothing(c: Chunk, s: State, p: Phase, it: Wire.Item)
    requires Tracks(s, p) && s.pendingFinish && SilentItem(it, s.tools.Keys)
    ensures ItemStep(c, s, it, []) == Step(s, [])
  {
    hide ItemStep, SilentItem, Placed, Layout;
    SilentIsNothing(c, s, it, []);
  }

  lemma {:induction false} SpoiledKnown(c: Chunk, s: State, items: seq<Wire.Item>)
    requires s.created && s.pendingFinish
    ensures ItemsRun(c, s, items, []).s.pendingFinish
    ensures ItemsRun(c, s, items, []).s.tools.Keys == KnownAfterAll(items, s.tools.Keys)
    decreases items
  {
    hide ItemStep, SilentItem, KnownAfter;
    if items != [] {
      FieldsKept(c, s, items[0], []);
      KnownIsTools(c, s, items[0], []);
      SpoiledKnown(c, ItemStep(c, s, items[0], []).s, items[1..]);
    }
  }

  // ---- the mapper's fields hold what the Chat stream has said ----

  predicate Matches(a: Call, t: ToolState) {
    a.id == t.callId && a.name == t.name && a.args == t.args
  }

  /** Each Chat call is a tool the mapper holds, in the same order. */
  ghost predicate Linked(s: State, a: seq<Call>) {
    && (forall i :: 0 <= i < |a| ==> a[i].key in s.tools && Matches(a[i], s.tools[a[i].key]))
    && (forall k :: k in s.tools ==> Known(a, k) && s.tools[k].index < s.next)
    && Distinct(a)
    && (forall i, j :: 0 <= i < j < |a| ==> s.tools[a[i].key].index < s.tools[a[j].key].index)
  }

  ghost predicate Holds(s: State, v: Meaning, announced: bool) {
    && s.text == v.text
    && (s.pendingFinish <==> v.finish.Some?) && (s.completed ==> s.pendingFinish)
    && (if announced then Linked(s, v.calls) else HasAnonymous(v.calls))
  }

  lemma LinkedFeed(s: State, a: seq<Call>, k: int, args: string)
    requires Linked(s, a) && k in s.tools
    ensures Linked(FeedTool(s, k, args).s, Feed(a, k, args))
  {
    hide Feed, Known, ItemIdOf;
    var b := Feed(a, k, args);
    var t := FeedTool(s, k, args).s;
    forall i | 0 <= i < |b| ensures b[i].key in t.tools && Matches(b[i], t.tools[b[i].key]) {
      FeedAt(a, k, args, i);
      assert a[i].args + "" == a[i].args;
    }
    ClaudeToChat.FeedKeepsKnown(a, k, args);
  }

  lemma LinkedOpen(s: State, a: seq<Call>, td: ToolDelta)
    requires Linked(s, a) && td.Key() !in s.tools && td.id != ""
    ensures !Known(a, td.Key())
    ensures Linked(OpenTool(s, td).s, a + [Call.Call(td.Key(), td.id, td.name, "")])
  {
    hide ItemIdOf;
    var k := td.Key();
    var b := a + [Call.Call(k, td.id, td.name, "")];
    var t := OpenTool(s, td).s;
    assert forall i :: 0 <= i < |a| ==> b[i] == a[i] && a[i].key != k;
    assert b[|a|].key == k;
    forall j | j in t.tools ensures Known(b, j) {
      if j != k {
        var i :| 0 <= i < |a| && a[i].key == j;
        assert b[i].key == j;
      }
    }
  }

  lemma LinkedTool(s: State, a: seq<Call>, td: ToolDelta)
    requires Linked(s, a) && (Known(a, td.Key()) || td.id != "")
    ensures Linked(ToolStep(s, td).s, HearTool(a, td.Key(), td.id, td.name, td.args))
  {
    hide Linked, Feed, OpenTool, FeedTool, Known;
    var k := td.Key();
    KnownIff(s, a, k);
    var o := OpenTool(s, td);
    if k in s.tools {
      OpenNone(s, td);
      LinkedFeed(s, a, k, td.args);
    } else {
      LinkedOpen(s, a, td);
      var e := Call.Call(k, td.id, td.name, "");
      KnownIff(o.s, a + [e], k);
      assert (a + [e])[|a|] == e;
      LastKnown(a, e);
      LinkedFeed(o.s, a + [e], k, td.args);
      FeedLast(a, e, td.args);
      assert "" + td.args == td.args;
    }
  }

  lemma LastKnown(a: seq<Call>, e: Call)
    ensures Known(a + [e], e.key)
  {
    assert (a + [e])[|a|] == e;
  }

  lemma OpenNone(s: State, td: ToolDelta)
    requires td.Key() in s.tools
    ensures OpenTool(s, td) == Step(s, [])
  {
  }

  lemma KnownIff(s: State, a: seq<Call>, k: int)
    requires Linked(s, a)
    ensures Known(a, k) <==> k in s.tools
  {
  }

  lemma SameLinks(s: State, t: State, a: seq<Call>)
    requires t.tools == s.tools && t.next == s.next
    ensures Linked(s, a) ==> Linked(t, a)
  {
    hide Known, Matches, Distinct;
  }

  lemma HoldsTool(c: Chunk, s: State, v: Meaning, td: ToolDelta, announced: bool)
    requires Holds(s, v, announced)
    ensures Holds(ItemStep(c, s, Tool(td), []).s, HearItem(v, Tool(td)), announced && (Known(v.calls, td.Key()) || td.id != ""))
  {
    hide EnsureCreated, ToolStep, Linked, HearTool, Known, HasAnonymous;
    var a := EnsureCreated(c, s).s;
    CreatedKeepsTools(c, s);
    ToolFields(a, td);
    StaysAnonymous(v, Tool(td));
    if announced && (Known(v.calls, td.Key()) || td.id != "") {
      SameLinks(s, a, v.calls);
      LinkedTool(a, v.calls, td);
    }
  }

  lemma ToolFields(s: State, td: ToolDelta)
    ensures var t := ToolStep(s, td).s; t == s.(tools := t.tools, next := t.next)
  {
  }

  lemma TextFields(s: State, x: string)
    ensures var t := TextStep(s, x).s;
            t == s.(textAdded := t.textAdded, textIndex := t.textIndex, next := t.next, text := s.text + x) && t.next >= s.next
  {
  }

  lemma FinishFields(c: Chunk, s: State, order: seq<int>)
    ensures var t := FinishStep(c, s, order).s;
            && t == s.(created := t.created, model := t.model, pendingFinish := t.pendingFinish, completed := t.completed)
            && (t.pendingFinish || t.completed)
            && (t.completed ==> s.completed || t.pendingFinish)
            && (s.pendingFinish ==> t.pendingFinish)
  {
    hide TextClose, ToolCloses, CompletedEvents;
    CreatedKeepsTools(c, s);
  }

  lemma RaisedLinks(s: State, t: State, a: seq<Call>)
    requires t.tools == s.tools && t.next >= s.next
    ensures Linked(s, a) ==> Linked(t, a)
  {
    hide Known, Matches, Distinct;
  }

  lemma HoldsItem(c: Chunk, s: State, v: Meaning, it: Wire.Item, order: seq<int>, announced: bool)
    requires Holds(s, v, announced)
    ensures Holds(ItemStep(c, s, it, order).s, HearItem(v, it),
                  announced && (it.Tool? ==> Known(v.calls, it.td.Key()) || it.td.id != ""))
  {
    hide EnsureCreated, TextStep, ToolStep, FinishStep, Linked, HearTool, Known, HasAnonymous;
    CreatedKeepsTools(c, s);
    var a := EnsureCreated(c, s).s;
    match it
    case Content(x) =>
      TextFields(a, x);
      RaisedLinks(s, TextStep(a, x).s, v.calls);
    case Tool(td) => HoldsTool(c, s, v, td, announced);
    case Finish(_) =>
      FinishFields(c, s, order);
      SameLinks(s, FinishStep(c, s, order).s, v.calls);
    case _ =>
  }

  lemma {:induction false} HoldsItems(c: Chunk, s: State, v: Meaning, items: seq<Wire.Item>, order: seq<int>, announced: bool)
    requires Holds(s, v, announced)
    ensures Holds(ItemsRun(c, s, items, order).s, HearItems(v, items), announced && Announced(v.calls, items))
    decreases items
  {
    hide ItemStep, HearItem, Holds, HearTool, Known;
    if items != [] {
      var ann := items[0].Tool? ==> Known(v.calls, items[0].td.Key()) || items[0].td.id != "";
      HoldsItem(c, s, v, items[0], order, announced);
      HoldsItems(c, ItemStep(c, s, items[0], order).s, HearItem(v, items[0]), items[1..], order, announced && ann);
      AnnouncedStep(v, items);
    }
  }

  lemma UsageHolds(c: Chunk, s: State, v: Meaning, announced: bool)
    requires Holds(s, v, announced)
    ensures Holds(UsageStep(c, WithModel(c, s)).s, v, announced)
  {
    hide Linked, HasAnonymous, CompletedEvents;
    SameLinks(s, UsageStep(c, WithModel(c, s)).s, v.calls);
  }

  lemma HoldsChunk(c: Chunk, s: State, v: Meaning, order: seq<int>, announced: bool)
    requires Holds(s, v, announced)
    ensures Holds(MapStep(s, c, order).s, HearChunk(v, c), announced && Announced(v.calls, Items(c)))
  {
    hide Items, ItemsRun, HearItems, HearChunk, Announced, Holds, CompletedEvents;
    ItemsMeanChunk(v, c);
    var u := UsageStep(c, WithModel(c, s)).s;
    UsageHolds(c, s, v, announced);
    HoldsItems(c, u, v, Items(c), order, announced);
  }

  lemma {:induction false} HoldsRun(s: State, v: Meaning, chunks: seq<Chunk>, orders: seq<seq<int>>, announced: bool)
    requires |orders| == |chunks| && Holds(s, v, announced)
    ensures Holds(Run(s, chunks, orders).s, HearChunks(v, chunks), announced && Announced(v.calls, AllItems(chunks)))
    decreases chunks
  {
    hide MapStep, HearChunk, HearItems, Holds, Items, Announced;
    if chunks == [] {
      NoItemsAtAll(v);
    } else {
      var c := chunks[0];
      HoldsChunk(c, s, v, orders[0], announced);
      HoldsRun(MapStep(s, c, orders[0]).s, HearChunk(v, c), chunks[1..], orders[1..], announced && Announced(v.calls, Items(c)));
      ItemsMeanChunk(v, c);
      AnnouncedConcat(v, Items(c), AllItems(chunks[1..]));
    }
  }

  // ---- whole runs ----

  /** At every first finish, the walk over the tools visits each once. */
  ghost predicate OrdersFit(s: State, chunks: seq<Chunk>, orders: seq<seq<int>>)
    requires |orders| == |chunks|
    decreases chunks
  {
    chunks == [] || (OrderFits(s, chunks[0], orders[0]) && OrdersFit(MapStep(s, chunks[0], orders[0]).s, chunks[1..], orders[1..]))
  }

  /** `rep` is the usage record the completed response carries, or would carry now. */
  ghost predicate Reporting(s: State, p: Phase, rep: Option<Usage>) {
    && (!s.completed ==> rep == s.usage)
    && (s.completed ==> p.Complete? && p.usage == Reported(rep) && rep.Some?)
  }

  function NextReport(c: Chunk, fin: bool, rep: Option<Usage>): Option<Usage> {
    if fin && rep.Some? then rep else if c.usage.Some? then c.usage else rep
  }

  lemma UsageCarried(c: Chunk, s: State, p: Phase, rep: Option<Usage>)
    requires Tracks(s, p) && Reporting(s, p, rep)
    ensures var u := UsageStep(c, WithModel(c, s));
            Reporting(u.s, Read(p, u.out), NextReport(c, s.pendingFinish, rep))
  {
    hide Placed, Layout, Read;
    ReadNone(p);
    UsageTracks(c, s, p);
  }

  lemma {:induction false} ContentKeepsUsage(c: Chunk, s: State, items: seq<Wire.Item>)
    requires forall i :: 0 <= i < |items| ==> !items[i].Finish?
    ensures var r := ItemsRun(c, s, items, []);
            && r.s.usage == s.usage && r.s.completed == s.completed
            && (s.created && s.pendingFinish && Silent(items, s.tools.Keys) ==> r == Step(s, []))
    decreases items
  {
    hide ItemStep, SilentItem;
    if items != [] {
      ItemKeepsUsage(c, s, items[0]);
      ContentKeepsUsage(c, ItemStep(c, s, items[0], []).s, items[1..]);
      if s.created && s.pendingFinish && Silent(items, s.tools.Keys) {
        SilentIsNothing(c, s, items[0], []);
      }
    }
  }

  lemma ItemKeepsUsage(c: Chunk, s: State, it: Wire.Item)
    requires !it.Finish?
    ensures var t := ItemStep(c, s, it, []).s; t.usage == s.usage && t.completed == s.completed
  {
    hide EnsureCreated, TextStep, ToolStep;
    CreatedKeepsTools(c, s);
    var a := EnsureCreated(c, s).s;
    if it.Content? { TextFields(a, it.text); }
    if it.Tool? { ToolFields(a, it.td); }
  }

  lemma FinishFollows(c: Chunk, s: State, p: Phase, order: seq<int>, rep: Option<Usage>)
    requires Tracks(s, p) && Reporting(s, p, rep) && (!s.pendingFinish ==> Enumerates(order, s.tools))
    ensures var r := FinishStep(c, s, order);
            && Tracks(r.s, Read(p, r.out)) && r.s.pendingFinish && r.s.tools == s.tools
            && Reporting(r.s, Read(p, r.out), rep)
  {
    hide Placed, Layout, Read, FinishStep;
    ReadNone(p);
    FinishTracks(c, s, p, order);
    FinishNothing(c, s, order);
  }

  lemma FinishNothing(c: Chunk, s: State, order: seq<int>)
    ensures s.pendingFinish || s.completed ==> FinishStep(c, s, order) == Step(s, [])
  {
  }

  /** The content of a chunk, then its finish if it has one. */
  lemma ChunkSplits(c: Chunk, s: State, order: seq<int>)
    ensures var u := UsageStep(c, WithModel(c, s));
            var t := ItemsRun(c, u.s, ContentItems(c), []);
            var f := if Finishes(c) then FinishStep(c, t.s, order) else Step(t.s, []);
            MapStep(s, c, order) == Step(f.s, u.out + (t.out + f.out))
    ensures Items(c) == ContentItems(c) + if Finishes(c) then [Finish(c.choices[0].finish.value)] else []
  {
    hide ItemsRun, UsageStep, FinishStep, DeltaItems;
    var u := UsageStep(c, WithModel(c, s));
    var t := ItemsRun(c, u.s, ContentItems(c), []);
    var f := if Finishes(c) then FinishStep(c, t.s, order) else Step(t.s, []);
    if c.choices != [] {
      Assemble(c, u.s, t.out, t.s, f.out, f.s, order);
    } else {
      RunNone(c, u.s);
    }
  }

  lemma ContentOnly(c: Chunk, known: set<int>)
    requires Items(c) == ContentItems(c) + if Finishes(c) then [Finish(c.choices[0].finish.value)] else []
    ensures Silent(Items(c), known) <==> Silent(ContentItems(c), known)
    ensures KnownAfterAll(Items(c), known) == KnownAfterAll(ContentItems(c), known)
  {
    hide Items, ContentItems, KnownAfter;
    if Finishes(c) {
      FinishAddsNothing(ContentItems(c), c.choices[0].finish.value, known);
    } else {
      assert ContentItems(c) + [] == ContentItems(c);
    }
  }

  lemma {:induction false} FinishAddsNothing(items: seq<Wire.Item>, r: string, known: set<int>)
    ensures KnownAfterAll(items + [Finish(r)], known) == KnownAfterAll(items, known)
    ensures Silent(items + [Finish(r)], known) <==> Silent(items, known)
    decreases items
  {
    var more := items + [Finish(r)];
    assert forall i :: 0 <= i < |items| ==> more[i] == items[i];
    assert SilentItem(more[|items|], known);
    if items == [] {
      assert more[1..] == [];
    } else {
      assert more[1..] == items[1..] + [Finish(r)];
      FinishAddsNothing(items[1..], r, KnownAfter(items[0], known));
    }
  }

  lemma ChunkFollows(c: Chunk, s: State, p: Phase, order: seq<int>, rep: Option<Usage>)
    requires Tracks(s, p) && Reporting(s, p, rep) && OrderFits(s, c, order)
    ensures var r := MapStep(s, c, order);
            var silent := s.pendingFinish ==> Silent(Items(c), s.tools.Keys);
            && Follows(s, p, r, silent)
            && (silent ==> Reporting(r.s, Read(p, r.out), NextReport(c, s.pendingFinish, rep)))
            && r.s.pendingFinish == (s.pendingFinish || Finishes(c))
            && r.s.tools.Keys == KnownAfterAll(Items(c), s.tools.Keys)
  {
    hide Items, ContentItems, ItemsRun, UsageStep, FinishStep, MapStep, Read, Placed, Layout, Silent, Bad, KnownAfterAll, Enumerates;
    ChunkSplits(c, s, order);
    ContentOnly(c, s.tools.Keys);
    NoFinishInContent(c);
    var u := UsageStep(c, WithModel(c, s));
    UsageTracks(c, s, p);
    UsageCarried(c, s, p, rep);
    var q1 := Read(p, u.out);
    var rep1 := NextReport(c, s.pendingFinish, rep);
    var t := ItemsRun(c, u.s, ContentItems(c), []);
    ContentFollows(c, u.s, q1, ContentItems(c));
    ContentKeepsUsage(c, u.s, ContentItems(c));
    var q2 := Read(q1, t.out);
    var f := if Finishes(c) then FinishStep(c, t.s, order) else Step(t.s, []);
    ReadConcat(p, u.out, t.out + f.out);
    ReadConcat(q1, t.out, f.out);
    ReadNone(q1);
    ReadNone(q2);
    if s.pendingFinish ==> Silent(ContentItems(c), s.tools.Keys) {
      if Finishes(c) { FinishFollows(c, t.s, q2, order, rep1); }
    } else {
      if Finishes(c) { FinishNothing(c, t.s, order); }
    }
  }

  lemma {:induction false} SpoiledRun(s: State, p: Phase, chunks: seq<Chunk>, orders: seq<seq<int>>)
    requires |orders| == |chunks| && Spoiled(s, p)
    ensures var r := Run(s, chunks, orders);
            Spoiled(r.s, Read(p, r.out))
    decreases chunks
  {
    hide MapStep, Spoiled, Read;
    if chunks == [] {
      ReadNone(p);
    } else {
      var a := MapStep(s, chunks[0], orders[0]);
      SpoiledChunk(s, p, chunks[0], orders[0]);
      SpoiledRun(a.s, Read(p, a.out), chunks[1..], orders[1..]);
      ReadConcat(p, a.out, Run(a.s, chunks[1..], orders[1..]).out);
    }
  }

  lemma SpoiledChunk(s: State, p: Phase, c: Chunk, order: seq<int>)
    requires Spoiled(s, p)
    ensures var r := MapStep(s, c, order);
            Spoiled(r.s, Read(p, r.out))
  {
    hide ItemsRun, Items, Read, Bad;
    var u := UsageStep(c, WithModel(c, s));
    ReadNone(p);
    if u.out != [] { CompletedSpoils(s, p, u.out); }
    SpoiledItems(c, u.s, Read(p, u.out), Items(c), order);
    ReadConcat(p, u.out, ItemsRun(c, u.s, Items(c), order).out);
  }

  lemma CompletedSpoils(s: State, p: Phase, es: seq<Sent>)
    requires Spoiled(s, p) && |es| == 1 && es[0].Completed?
    ensures Read(p, es) == Broken && Bad(Read(p, es))
  {
    hide Read, AllDone;
    assert es == [es[0]];
    ReadOne(p, es[0]);
    BadAdvance(p, es[0]);
  }

  lemma {:induction false} RunFollows(s: State, p: Phase, chunks: seq<Chunk>, orders: seq<seq<int>>, rep: Option<Usage>)
    requires |orders| == |chunks| && OrdersFit(s, chunks, orders)
    requires Tracks(s, p) && Reporting(s, p, rep)
    ensures var r := Run(s, chunks, orders);
            var quiet := Quiet(chunks, s.pendingFinish, s.tools.Keys);
            && Follows(s, p, r, quiet)
            && (quiet ==> Reporting(r.s, Read(p, r.out), ReportedUsage(chunks, s.pendingFinish, rep)))
    decreases chunks
  {
    hide MapStep, Tracks, Spoiled, Reporting, Read, Silent, OrderFits, KnownAfterAll, Items;
    if chunks == [] {
      ReadNone(p);
    } else {
      var c := chunks[0];
      var a := MapStep(s, c, orders[0]);
      var q := Read(p, a.out);
      ChunkFollows(c, s, p, orders[0], rep);
      ReadConcat(p, a.out, Run(a.s, chunks[1..], orders[1..]).out);
      if s.pendingFinish ==> Silent(Items(c), s.tools.Keys) {
        RunFollows(a.s, q, chunks[1..], orders[1..], NextReport(c, s.pendingFinish, rep));
        ReportStays(chunks[1..], s.pendingFinish, rep);
      } else {
        SpoiledRun(a.s, q, chunks[1..], orders[1..]);
      }
    }
  }

  lemma ReportStays(chunks: seq<Chunk>, fin: bool, rep: Option<Usage>)
    ensures fin && rep.Some? ==> ReportedUsage(chunks, true, rep) == rep
  {
  }
}
