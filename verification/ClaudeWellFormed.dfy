/** The Chat -> Anthropic mapper does not look at its finish flag before it sends content.
    Here: exactly when the stream it sends is well formed all the same. */
module ClaudeWellFormed {
  import opened Collections
  import opened Wire
  import opened ClaudeGrammar
  import opened ChatToClaude

  /** An item that, once the finish has been seen, leads to no block being left open
      (`stopped`: message_stop is out, so no event at all may follow). */
  predicate SilentItem(it: Item, stopped: bool) {
    match it
    case Role => true
    case Reasoning(_) => false
    case Content(t) => !stopped && IsDataURI(t)
    case Tool(td) => td.id == ""
    case Finish(_) => true
  }

  predicate Silent(items: seq<Item>, stopped: bool) {
    forall i :: 0 <= i < |items| ==> SilentItem(items[i], stopped)
  }

  /** No content after the finish. `fin`: a finish has been seen; `use`: a usage record has.
      The first usage record after the finish ends the message, and whatever else is in
      its chunk is ignored. */
  predicate Quiet(chunks: seq<Chunk>, fin: bool, use: bool)
    decreases chunks
  {
    if chunks == [] then true
    else
      var c := chunks[0];
      && QuietChunk(c, fin, use)
      && Quiet(chunks[1..], fin || Finishes(c), use || c.usage.Some?)
  }

  predicate QuietChunk(c: Chunk, fin: bool, use: bool) {
    fin ==> (!use && c.usage.Some?) || Silent(Items(c), use)
  }

  // ---- the reader's phase follows the mapper's fields ----

  predicate NothingOpen(s: State) {
    !s.textOpen && !s.thinkingOpen && s.tools == map[]
  }

  /** Open blocks have distinct indices below `nextIndex`. */
  ghost predicate Sane(s: State) {
    && DistinctTools(s)
    && (s.textOpen ==> 0 <= s.textIndex < s.nextIndex && forall k :: k in s.tools ==> s.tools[k] != s.textIndex)
    && (s.thinkingOpen ==> 0 <= s.thinkingIndex < s.nextIndex && forall k :: k in s.tools ==> s.tools[k] != s.thinkingIndex)
    && (s.textOpen && s.thinkingOpen ==> s.textIndex != s.thinkingIndex)
    && (!s.started ==> NothingOpen(s) && s.nextIndex == 0 && s.pendingStop == "" && !s.stopSent)
    && (s.stopSent <==> s.pendingStop != "" && s.usage.Some?)
  }

  /** The blocks a reader has open are the ones the mapper's fields say are open. */
  ghost predicate OpenIs(s: State, open: map<int, Kind>) {
    && (s.textOpen ==> s.textIndex in open && open[s.textIndex] == TextKind)
    && (s.thinkingOpen ==> s.thinkingIndex in open && open[s.thinkingIndex] == ThinkingKind)
    && (forall k :: k in s.tools ==> s.tools[k] in open && open[s.tools[k]] == ToolKind)
    && (forall i :: i in open ==> i < s.nextIndex
                                  && ((s.textOpen && i == s.textIndex) || (s.thinkingOpen && i == s.thinkingIndex)
                                      || i in Range(s.tools)))
  }

  ghost predicate Tracks(s: State, p: Phase) {
    && Sane(s)
    && (!s.started ==> p == Idle)
    && (s.started && !s.stopSent ==> p.Body? && p.next == s.nextIndex && OpenIs(s, p.open))
    && (s.stopSent ==> p == Broken || (p == Finished && NothingOpen(s)))
  }

  /** The stream can still end well. */
  predicate Alive(s: State, p: Phase) {
    (s.pendingStop != "" ==> NothingOpen(s)) && p != Broken
  }

  lemma NothingOpenIsEmpty(s: State, open: map<int, Kind>)
    requires OpenIs(s, open)
    ensures NothingOpen(s) <==> open == map[]
  {
    if NothingOpen(s) {
      assert forall i :: i !in open;
    } else if s.tools != map[] {
      assert s.tools.Keys == {} ==> s.tools == map[];
      var _ := Inhabited(s.tools.Keys);
      var k :| k in s.tools.Keys;
      assert s.tools[k] in open;
    }
  }

  lemma InRange(m: map<int, int>, k: int)
    requires k in m
    ensures m[k] in Range(m)
  {
  }

  // ---- opening blocks ----

  lemma StartTracks(c: Chunk, s: State, p: Phase)
    requires Tracks(s, p)
    ensures var a := EnsureStart(c, s);
            && a.s.started && Tracks(a.s, Read(p, a.out))
            && (Alive(a.s, Read(p, a.out)) <==> Alive(s, p))
            && (s.pendingStop != "" ==> a == Step(s, []))
  {
    var a := EnsureStart(c, s);
    if !s.started {
      assert a.out[1..] == [];
      assert Read(p, a.out) == Read(Advance(p, a.out[0]), []);
    }
  }

  function WithText(s: State): State {
    s.(textOpen := true, textIndex := s.nextIndex, nextIndex := s.nextIndex + 1)
  }

  function WithThinking(s: State): State {
    s.(thinkingOpen := true, thinkingIndex := s.nextIndex, nextIndex := s.nextIndex + 1)
  }

  function WithTool(s: State, k: int): State {
    s.(tools := s.tools[k := s.nextIndex], nextIndex := s.nextIndex + 1)
  }

  lemma TextOpens(s: State, open: map<int, Kind>)
    requires Sane(s) && s.started && !s.textOpen
    ensures Sane(WithText(s))
    ensures OpenIs(s, open) ==> OpenIs(WithText(s), open[s.nextIndex := TextKind])
  {
  }

  lemma ThinkingOpens(s: State, open: map<int, Kind>)
    requires Sane(s) && s.started && !s.thinkingOpen
    ensures Sane(WithThinking(s))
    ensures OpenIs(s, open) ==> OpenIs(WithThinking(s), open[s.nextIndex := ThinkingKind])
  {
  }

  lemma ToolOpens(s: State, k: int, open: map<int, Kind>)
    requires Sane(s) && s.started && k !in s.tools
    ensures Sane(WithTool(s, k)) && !NothingOpen(WithTool(s, k))
    ensures OpenIs(s, open) ==> OpenIs(WithTool(s, k), open[s.nextIndex := ToolKind])
  {
    var t := WithTool(s, k);
    assert k in t.tools;
    InRange(t.tools, k);
    forall i | i in Range(s.tools) ensures i in Range(t.tools) {
      var j := PreImage(s.tools, i);
      assert t.tools[j] == i;
    }
  }

  lemma MediaKeepsOpen(s: State, open: map<int, Kind>)
    requires Sane(s) && s.started
    ensures Sane(s.(nextIndex := s.nextIndex + 1))
    ensures OpenIs(s, open) ==> OpenIs(s.(nextIndex := s.nextIndex + 1), open[s.nextIndex := OtherKind] - {s.nextIndex})
  {
  }

  // ---- what a started mapper does with one item of content ----

  function Core(s: State, it: Item): Step
    requires !it.Role? && !it.Finish?
  {
    match it
    case Reasoning(t) =>
      var b := OpenThinking(s);
      Step(b.s, b.out + [BlockDelta(b.s.thinkingIndex, Some(ThinkingDelta(t)))])
    case Content(t) => TextStep(s, t)
    case Tool(td) => ToolStep(s, td)
  }

  predicate SameEnding(s: State, t: State) {
    s.started == t.started && s.pendingStop == t.pendingStop && s.stopSent == t.stopSent && s.usage == t.usage
  }

  ghost predicate Moves(s: State, p: Phase, it: Item, r: Step) {
    var q := Read(p, r.out);
    && SameEnding(s, r.s)
    && Tracks(r.s, q)
    && (Alive(r.s, q) <==> Alive(s, p) && (s.pendingStop != "" ==> SilentItem(it, s.stopSent)))
  }

  lemma ReadOne(p: Phase, e: ClaudeEvent)
    ensures Read(p, [e]) == Advance(p, e)
  {
    assert [e][1..] == [];
    assert Read(Advance(p, e), []) == Advance(p, e);
  }

  lemma ReadTwo(p: Phase, e: ClaudeEvent, f: ClaudeEvent)
    ensures Read(p, [e, f]) == Advance(Advance(p, e), f)
  {
    assert [e, f][1..] == [f];
    ReadOne(Advance(p, e), f);
  }

  lemma ReasoningMoves(s: State, p: Phase, t: string)
    requires Tracks(s, p) && s.started && !s.stopSent
    ensures Moves(s, p, Reasoning(t), Core(s, Reasoning(t)))
  {
    var r := Core(s, Reasoning(t));
    var d := BlockDelta(r.s.thinkingIndex, Some(ThinkingDelta(t)));
    if s.thinkingOpen {
      assert r.out == [d];
      ReadOne(p, d);
    } else {
      ThinkingOpens(s, p.open);
      assert r.out == [BlockStart(s.nextIndex, Some(ThinkingBlock)), d];
      ReadTwo(p, r.out[0], d);
    }
  }

  lemma MediaMoves(s: State, p: Phase, t: string)
    requires Tracks(s, p) && s.started && !s.stopSent && IsDataURI(t)
    ensures Moves(s, p, Content(t), TextStep(s, t))
  {
    hide ParseDataURI;
    var r := TextStep(s, t);
    MediaKeepsOpen(s, p.open);
    ReadTwo(p, r.out[0], r.out[1]);
  }

  lemma TextMoves(s: State, p: Phase, t: string)
    requires Tracks(s, p) && s.started && !s.stopSent && !IsDataURI(t)
    ensures Moves(s, p, Content(t), TextStep(s, t))
  {
    hide ParseDataURI;
    var r := TextStep(s, t);
    var d := BlockDelta(r.s.textIndex, Some(TextDelta(t)));
    if s.textOpen {
      assert r.out == [d];
      ReadOne(p, d);
    } else {
      TextOpens(s, p.open);
      assert r.out == [BlockStart(s.nextIndex, Some(TextBlock)), d];
      ReadTwo(p, r.out[0], d);
    }
  }

  lemma ToolMoves(s: State, p: Phase, td: ToolDelta)
    requires Tracks(s, p) && s.started && !s.stopSent
    ensures Moves(s, p, Tool(td), Core(s, Tool(td)))
  {
    var r := Core(s, Tool(td));
    var k := td.Key();
    if k in s.tools {
      if td.args != "" { ReadOne(p, r.out[0]); }
    } else if td.id != "" {
      ToolOpens(s, k, p.open);
      if td.args == "" { ReadOne(p, r.out[0]); } else { ReadTwo(p, r.out[0], r.out[1]); }
    }
  }

  /** After message_stop, any event at all spoils the stream. */
  lemma StoppedMoves(s: State, p: Phase, it: Item)
    requires Tracks(s, p) && s.started && s.stopSent && !it.Role? && !it.Finish?
    ensures Moves(s, p, it, Core(s, it))
  {
    hide ParseDataURI;
    var r := Core(s, it);
    StaysSane(s, it);
    if r.out != [] {
      assert r.out == [r.out[0]] + r.out[1..];
      assert Advance(p, r.out[0]) == Broken by {
        assert p == Broken || p == Finished;
      }
      BrokenStays(r.out[1..]);
    }
  }

  lemma StaysSane(s: State, it: Item)
    requires Sane(s) && s.started && !it.Role? && !it.Finish?
    ensures Sane(Core(s, it).s) && SameEnding(s, Core(s, it).s)
    ensures Core(s, it).out == [] ==> Core(s, it).s == s
    ensures NothingOpen(s) ==> (Core(s, it).out == [] <==> SilentItem(it, true))
  {
    hide ParseDataURI;
    match it
    case Reasoning(t) =>
      if !s.thinkingOpen { ThinkingOpens(s, map[]); }
    case Content(t) =>
      if IsDataURI(t) { MediaKeepsOpen(s, map[]); }
      else if !s.textOpen { TextOpens(s, map[]); }
    case Tool(td) =>
      if td.Key() !in s.tools && td.id != "" { ToolOpens(s, td.Key(), map[]); }
  }

  lemma CoreMoves(s: State, p: Phase, it: Item)
    requires Tracks(s, p) && s.started && !it.Role? && !it.Finish?
    ensures Moves(s, p, it, Core(s, it))
  {
    hide Moves, Tracks, ParseDataURI, TextStep, ToolStep, OpenThinking;
    if s.stopSent {
      StoppedMoves(s, p, it);
    } else {
      match it
      case Reasoning(t) => ReasoningMoves(s, p, t);
      case Content(t) => if IsDataURI(t) { MediaMoves(s, p, t); } else { TextMoves(s, p, t); }
      case Tool(td) => ToolMoves(s, p, td);
    }
  }

  lemma CoreIsItem(c: Chunk, s: State, it: Item)
    requires !it.Role? && !it.Finish?
    ensures var a := EnsureStart(c, s);
            var b := Core(a.s, it);
            ItemStep(c, s, it) == Step(b.s, a.out + b.out)
  {
    hide EnsureStart, TextStep, ToolStep, OpenThinking;
    if it.Reasoning? {
      var a := EnsureStart(c, s);
      var b := OpenThinking(a.s);
      var d := [BlockDelta(b.s.thinkingIndex, Some(ThinkingDelta(it.text)))];
      assert a.out + b.out + d == a.out + (b.out + d);
    }
  }

  lemma StartKeepsEnding(c: Chunk, s: State)
    ensures var t := EnsureStart(c, s).s;
            t.pendingStop == s.pendingStop && t.stopSent == s.stopSent && t.usage == s.usage
  {
  }

  /** What one item does to the mapper, the reader, and the chances of a good end. */
  ghost predicate Follows(s: State, p: Phase, r: Step, silent: bool) {
    var q := Read(p, r.out);
    && Tracks(r.s, q)
    && r.s.usage == s.usage
    && (s.pendingStop != "" ==> r.s.pendingStop == s.pendingStop && r.s.stopSent == s.stopSent)
    && (Alive(r.s, q) <==> Alive(s, p) && (s.pendingStop != "" ==> silent))
  }

  lemma ContentFollows(c: Chunk, s: State, it: Item, p: Phase)
    requires Tracks(s, p) && !it.Finish?
    ensures Follows(s, p, ItemStep(c, s, it), SilentItem(it, s.stopSent))
    ensures ItemStep(c, s, it).s.pendingStop == s.pendingStop
  {
    hide Tracks, Alive, EnsureStart, TextStep, ToolStep, OpenThinking, ParseDataURI;
    var a := EnsureStart(c, s);
    StartTracks(c, s, p);
    StartKeepsEnding(c, s);
    if !it.Role? {
      CoreMoves(a.s, Read(p, a.out), it);
      CoreIsItem(c, s, it);
      ReadConcat(p, a.out, Core(a.s, it).out);
    }
  }

  // ---- closing ----

  function Drop(open: map<int, Kind>, ids: seq<int>): map<int, Kind> {
    map k | k in open && k !in ids :: open[k]
  }

  lemma {:induction false} StopsRead(n: int, open: map<int, Kind>, ids: seq<int>)
    requires Increasing(ids)
    requires forall i :: 0 <= i < |ids| ==> ids[i] in open
    ensures Read(Body(n, open), Stops(ids)) == Body(n, Drop(open, ids))
    decreases |ids|
  {
    if ids == [] {
      assert Drop(open, ids) == open;
      assert Stops(ids) == [];
    } else {
      assert ids == [ids[0]] + ids[1..];
      assert Stops(ids)[1..] == Stops(ids[1..]);
      StopsRead(n, open - {ids[0]}, ids[1..]);
      assert Drop(open - {ids[0]}, ids[1..]) == Drop(open, ids);
    }
  }

  lemma TextStops(s: State, open: map<int, Kind>)
    requires Sane(s) && OpenIs(s, open) && s.textOpen
    ensures OpenIs(s.(textOpen := false), open - {s.textIndex})
  {
  }

  lemma ThinkingStops(s: State, open: map<int, Kind>)
    requires Sane(s) && OpenIs(s, open) && s.thinkingOpen
    ensures OpenIs(s.(thinkingOpen := false), open - {s.thinkingIndex})
  {
  }

  lemma ToolsStop(s: State, open: map<int, Kind>)
    requires Sane(s) && OpenIs(s, open) && !s.textOpen && !s.thinkingOpen
    ensures Read(Body(s.nextIndex, open), Stops(InOrder(Range(s.tools), s.nextIndex))) == Body(s.nextIndex, map[])
  {
    hide InOrder, Read, Stops;
    var ids := InOrder(Range(s.tools), s.nextIndex);
    forall i | 0 <= i < |ids| ensures ids[i] in open {
      assert ids[i] in Range(s.tools);
      var k := PreImage(s.tools, ids[i]);
    }
    StopsRead(s.nextIndex, open, ids);
    forall i | i in open ensures i in ids {
      var k := PreImage(s.tools, i);
      assert 0 <= i < s.nextIndex;
    }
    assert Drop(open, ids) == map[];
  }

  lemma CloseReads(s: State, p: Phase)
    requires Tracks(s, p) && s.started && !s.stopSent
    ensures Read(p, CloseBlocks(s).out) == Body(s.nextIndex, map[])
  {
    hide InOrder, Stops, OpenIs;
    var a := if s.thinkingOpen then [BlockStop(s.thinkingIndex)] else [];
    var b := if s.textOpen then [BlockStop(s.textIndex)] else [];
    var t := Stops(InOrder(Range(s.tools), s.nextIndex));
    var s1, open1 := s.(thinkingOpen := false), if s.thinkingOpen then p.open - {s.thinkingIndex} else p.open;
    assert Read(p, a) == Body(s.nextIndex, open1) && OpenIs(s1, open1) by {
      if s.thinkingOpen { ThinkingStops(s, p.open); IsOpen(s, p.open); ReadOne(p, a[0]); }
    }
    var s2, open2 := s1.(textOpen := false), if s.textOpen then open1 - {s.textIndex} else open1;
    assert Read(Body(s.nextIndex, open1), b) == Body(s.nextIndex, open2) && OpenIs(s2, open2) by {
      if s.textOpen { TextStops(s1, open1); IsOpen(s1, open1); ReadOne(Body(s.nextIndex, open1), b[0]); }
    }
    ToolsStop(s2, open2);
    ReadConcat(p, a + b, t);
    ReadConcat(p, a, b);
  }

  lemma IsOpen(s: State, open: map<int, Kind>)
    requires OpenIs(s, open)
    ensures s.textOpen ==> s.textIndex in open
    ensures s.thinkingOpen ==> s.thinkingIndex in open
  {
  }

  lemma StopReads(s: State, p: Phase)
    requires s.pendingStop != "" && p.Body?
    ensures Read(p, StopEvents(s)) == if p.open == map[] then Finished else Broken
  {
    ReadTwo(p, StopEvents(s)[0], StopEvents(s)[1]);
  }

  lemma FinishFollows(c: Chunk, s: State, reason: string, p: Phase)
    requires Tracks(s, p)
    ensures Follows(s, p, FinishStep(c, s, reason), true)
    ensures FinishStep(c, s, reason).s.pendingStop != ""
  {
    hide EnsureStart, StopEvents, CloseBlocks, Read;
    if s.pendingStop != "" || s.stopSent {
      assert Read(p, []) == p by { ReadNone(p); }
    } else {
      var a := EnsureStart(c, s);
      StartTracks(c, s, p);
      StartKeepsEnding(c, s);
      var p1 := Read(p, a.out);
      var b := CloseBlocks(a.s);
      CloseReads(a.s, p1);
      Closed(a.s, reason);
      ReadConcat(p, a.out, b.out);
      var s2 := b.s.(pendingStop := StopReason(reason));
      if s2.usage.Some? {
        StopReads(s2, Body(a.s.nextIndex, map[]));
        ReadConcat(p, a.out + b.out, StopEvents(s2));
      }
    }
  }

  lemma ReadNone(p: Phase)
    ensures Read(p, []) == p
  {
  }

  lemma Closed(s: State, reason: string)
    requires Sane(s) && s.started && !s.stopSent
    ensures var t := CloseBlocks(s).s.(pendingStop := reason);
            t == s.(thinkingOpen := false, textOpen := false, tools := map[], pendingStop := reason) && NothingOpen(t)
    ensures OpenIs(CloseBlocks(s).s.(pendingStop := reason), map[])
  {
  }

  lemma ItemFollows(c: Chunk, s: State, it: Item, p: Phase)
    requires Tracks(s, p)
    ensures Follows(s, p, ItemStep(c, s, it), SilentItem(it, s.stopSent))
    ensures ItemStep(c, s, it).s.pendingStop == s.pendingStop || it.Finish?
    ensures it.Finish? ==> ItemStep(c, s, it).s.pendingStop != ""
  {
    hide FinishStep, Follows;
    if it.Finish? {
      FinishFollows(c, s, it.reason, p);
      assert ItemStep(c, s, it) == FinishStep(c, s, it.reason);
    } else {
      ContentFollows(c, s, it, p);
    }
  }

  // ---- chunks and whole runs ----

  predicate NoFinish(items: seq<Item>) {
    forall i :: 0 <= i < |items| ==> !items[i].Finish?
  }

  lemma {:induction false} ItemsFollow(c: Chunk, s: State, items: seq<Item>, p: Phase)
    requires Tracks(s, p) && NoFinish(items)
    ensures Follows(s, p, ItemsRun(c, s, items), Silent(items, s.stopSent))
    ensures ItemsRun(c, s, items).s.pendingStop == s.pendingStop
    decreases items
  {
    hide ItemStep, Tracks, Alive, SilentItem;
    if items == [] {
      ReadNone(p);
    } else {
      var a := ItemStep(c, s, items[0]);
      ItemFollows(c, s, items[0], p);
      var q := Read(p, a.out);
      ItemsFollow(c, a.s, items[1..], q);
      ReadConcat(p, a.out, ItemsRun(c, a.s, items[1..]).out);
      assert s.pendingStop != "" ==> (Silent(items, s.stopSent) <==>
        SilentItem(items[0], s.stopSent) && Silent(items[1..], a.s.stopSent));
    }
  }

  lemma ItemsSplit(c: Chunk)
    ensures NoFinish(ContentItems(c))
    ensures Items(c) == ContentItems(c) + (if Finishes(c) then [Finish(c.choices[0].finish.value)] else [])
    ensures forall stopped :: Silent(Items(c), stopped) <==> Silent(ContentItems(c), stopped)
  {
    forall stopped ensures Silent(Items(c), stopped) <==> Silent(ContentItems(c), stopped) {
      var n := |ContentItems(c)|;
      assert forall i :: 0 <= i < n ==> Items(c)[i] == ContentItems(c)[i];
      assert forall i :: n <= i < |Items(c)| ==> SilentItem(Items(c)[i], stopped);
      if Silent(Items(c), stopped) {
        assert forall i :: 0 <= i < n ==> SilentItem(Items(c)[i], stopped);
      }
    }
  }

  lemma AllItemsFollow(c: Chunk, s: State, p: Phase)
    requires Tracks(s, p)
    ensures Follows(s, p, ItemsRun(c, s, Items(c)), Silent(Items(c), s.stopSent))
    ensures ItemsRun(c, s, Items(c)).s.pendingStop != "" <==> s.pendingStop != "" || Finishes(c)
  {
    hide ItemsRun, ItemStep, Tracks, Alive, SilentItem, Silent;
    ItemsSplit(c);
    var content := ContentItems(c);
    ItemsFollow(c, s, content, p);
    if Finishes(c) {
      var f := Finish(c.choices[0].finish.value);
      var r := ItemsRun(c, s, content);
      RunSnoc(c, s, content, f);
      ItemFollows(c, r.s, f, Read(p, r.out));
      ReadConcat(p, r.out, ItemStep(c, r.s, f).out);
      SilentFinish(f, r.s.stopSent);
    } else {
      assert Items(c) == content;
    }
  }

  lemma SilentFinish(f: Item, stopped: bool)
    requires f.Finish?
    ensures SilentItem(f, stopped)
  {
  }

  /** One chunk, in terms of the two things a caller can tell: has it seen a finish, and a usage. */
  lemma ChunkFollows(c: Chunk, s: State, p: Phase)
    requires Tracks(s, p)
    ensures var fin, use := s.pendingStop != "", s.usage.Some?;
            var r := MapStep(s, c);
            var q := Read(p, r.out);
            && Tracks(r.s, q)
            && (r.s.pendingStop != "" <==> fin || Finishes(c))
            && (r.s.usage.Some? <==> use || c.usage.Some?)
            && (Alive(r.s, q) <==> Alive(s, p) && QuietChunk(c, fin, use))
  {
    hide Items, ItemsRun, StopEvents, Read, Silent;
    var s1 := WithUsage(c, WithModel(c, s));
    if EndsOnUsage(c, s) {
      StopReads(s1, p);
      NothingOpenIsEmpty(s, p.open);
      assert s1.stopSent == false && s1.pendingStop == s.pendingStop;
    } else {
      UsageKeeps(c, s, p);
      AllItemsFollow(c, s1, p);
    }
  }

  lemma UsageKeeps(c: Chunk, s: State, p: Phase)
    requires Tracks(s, p) && !EndsOnUsage(c, s)
    ensures var t := WithUsage(c, WithModel(c, s));
            Tracks(t, p) && (Alive(t, p) <==> Alive(s, p)) && t.stopSent == s.stopSent && t.pendingStop == s.pendingStop
  {
    hide Sane, OpenIs, NothingOpen;
    var t := WithUsage(c, WithModel(c, s));
    EndingKnown(c, s);
    SaneKeeps(s, t);
    SameNothing(s, t);
    if s.started && !s.stopSent {
      SameBlocksOpen(s, t, p.open);
    }
  }

  lemma EndingKnown(c: Chunk, s: State)
    requires Sane(s) && !EndsOnUsage(c, s)
    ensures var t := WithUsage(c, WithModel(c, s));
            t == s.(model := t.model, usage := t.usage) && (t.stopSent <==> t.pendingStop != "" && t.usage.Some?)
  {
    hide DistinctTools, NothingOpen;
  }

  lemma SaneKeeps(s: State, t: State)
    requires Sane(s) && t == s.(model := t.model, usage := t.usage) && (t.stopSent <==> t.pendingStop != "" && t.usage.Some?)
    ensures Sane(t)
  {
  }

  lemma SameNothing(s: State, t: State)
    requires t == s.(model := t.model, usage := t.usage)
    ensures NothingOpen(t) <==> NothingOpen(s)
  {
  }

  lemma SameBlocksOpen(s: State, t: State, open: map<int, Kind>)
    requires t == s.(model := t.model, usage := t.usage)
    requires OpenIs(s, open)
    ensures OpenIs(t, open)
  {
  }

  lemma FlushReads(s: State, p: Phase)
    requires Tracks(s, p)
    ensures var q := Read(p, FlushStep(s).out);
            if s.started then q == Finished <==> Alive(s, p) else FlushStep(s).out == [] && Alive(s, p)
  {
    hide StopEvents, CloseBlocks, Read;
    ReadNone(p);
    if s.started && !s.stopSent {
      if s.pendingStop != "" {
        StopReads(s, p);
        NothingOpenIsEmpty(s, p.open);
      } else {
        var b := CloseBlocks(s);
        CloseReads(s, p);
        Closed(s, "end_turn");
        var s2 := b.s.(pendingStop := "end_turn", stopSent := true);
        StopReads(s2, Body(s.nextIndex, map[]));
        ReadConcat(p, b.out, StopEvents(s2));
      }
    }
  }

  lemma {:induction false} RunFollows(s: State, p: Phase, chunks: seq<Chunk>)
    requires Tracks(s, p)
    ensures var r := Run(s, chunks);
            var q := Read(p, r.out);
            && Tracks(r.s, q)
            && (Alive(r.s, q) <==> Alive(s, p) && Quiet(chunks, s.pendingStop != "", s.usage.Some?))
    decreases chunks
  {
    hide MapStep, Tracks, Alive, QuietChunk;
    if chunks == [] {
      ReadNone(p);
    } else {
      var c := chunks[0];
      var a := MapStep(s, c);
      ChunkFollows(c, s, p);
      RunFollows(a.s, Read(p, a.out), chunks[1..]);
      ReadConcat(p, a.out, Run(a.s, chunks[1..]).out);
    }
  }

  lemma {:induction false} IdleMeansEmpty(p: Phase, es: seq<ClaudeEvent>)
    requires es != []
    ensures Read(p, es) != Idle
    decreases es
  {
    var q := Advance(p, es[0]);
    assert q != Idle;
    if |es| > 1 {
      IdleMeansEmpty(q, es[1..]);
    } else {
      assert es[1..] == [];
    }
  }

  /** The stream sent for a whole run is well formed exactly when no content follows the finish. */
  lemma WellFormedIffQuiet(freshID: string, requested: string, chunks: seq<Chunk>)
    ensures WellFormed(Converted(Initial(freshID, requested), chunks)) <==> Quiet(chunks, false, false)
  {
    hide Run, FlushStep, Quiet, Read;
    var s0 := Initial(freshID, requested);
    RunFollows(s0, Idle, chunks);
    var r := Run(s0, chunks);
    var q := Read(Idle, r.out);
    FlushReads(r.s, q);
    ReadConcat(Idle, r.out, FlushStep(r.s).out);
    if r.out != [] {
      IdleMeansEmpty(Idle, r.out);
    } else {
      ReadNone(Idle);
    }
  }

  /** Text after the finish breaks the stream. */
  lemma LateTextBreaks(freshID: string, requested: string)
    ensures var chunks := [Chunk("", "", [Choice(None, Some("stop"))], None),
                           Chunk("", "", [Choice(Some(EMPTY_DELTA.(content := "late")), None)], None)];
            !WellFormed(Converted(Initial(freshID, requested), chunks))
  {
    var c, d := Chunk("", "", [Choice(None, Some("stop"))], None), Chunk("", "", [Choice(Some(EMPTY_DELTA.(content := "late")), None)], None);
    assert Items(d)[0] == Content("late");
    assert !Silent(Items(d), false);
    assert [c, d][1..] == [d];
    assert !Quiet([d], true, false);
    WellFormedIffQuiet(freshID, requested, [c, d]);
  }
}
