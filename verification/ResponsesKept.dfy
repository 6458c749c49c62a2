/** Responses -> Chat, and on to Anthropic: no text, no reasoning and no argument text is lost,
    whether it comes before or after its tool is announced. */
module ResponsesKept {
  import opened Wire
  import opened Meaning
  import opened Responses
  import opened ResponsesToChat
  import RoundTrip
  import ClaudeToChat
  import ChatToClaude
  import ClaudeGrammar
  import ClaudeWellFormed

  // ---- what is asked of the stream ----

  function ItemIdOf(e: Event): string {
    if e.ItemAdded? then Trim(e.item.id) else if e.ArgsDelta? then Trim(e.itemId) else ""
  }

  /** A tool event names its output index, and its item id, if it has one, belongs to that index. */
  predicate ToolOk(e: Event, own: map<string, int>) {
    Announces(e) || AddsArgs(e) ==>
      && e.outputIndex.Some?
      && (ItemIdOf(e) != "" ==> ItemIdOf(e) in own && own[ItemIdOf(e)] == IndexOf(e))
  }

  function IndexOf(e: Event): int {
    if (e.ItemAdded? || e.ArgsDelta?) && e.outputIndex.Some? then e.outputIndex.value else 0
  }

  ghost predicate Consistent(es: seq<Event>, own: map<string, int>) {
    forall i :: 0 <= i < |es| ==> ToolOk(es[i], own)
  }

  /** No output index is announced twice. */
  ghost predicate AnnouncedOnce(es: seq<Event>) {
    forall i, j :: 0 <= i < j < |es| && Announces(es[i]) && Announces(es[j]) ==> IndexOf(es[i]) != IndexOf(es[j])
  }

  ghost predicate Open(es: seq<Event>) {
    forall i :: 0 <= i < |es| ==> !es[i].Ended? && !es[i].Failed?
  }

  // ---- the mapper's maps, told from the history ----

  predicate IsAnn(ann: seq<Announcement>, index: int) {
    exists j :: 0 <= j < |ann| && ann[j].index == index
  }

  ghost predicate CallsOk(h: seq<Event>, s: State, calls: seq<Call>) {
    var ann := Announcements(h);
    && |calls| == |ann| == s.nextTool
    && (forall j :: 0 <= j < |ann| ==> calls[j] == Call(j, ann[j].id, ann[j].name, ArgsFor(h, ann[j].index)))
  }

  /** The announced indices lead to the tools' numbers. */
  ghost predicate Numbered(ann: seq<Announcement>, toKey: map<int, Key>, tools: map<Key, int>) {
    forall j :: 0 <= j < |ann| ==>
      && ann[j].index in toKey && toKey[ann[j].index] == OutKey(ann[j].index)
      && OutKey(ann[j].index) in tools && tools[OutKey(ann[j].index)] == j
  }

  ghost predicate NothingElse(ann: seq<Announcement>, toKey: map<int, Key>, tools: map<Key, int>) {
    && (forall k :: k in tools ==> k.OutKey? && IsAnn(ann, k.index))
    && (forall i :: i in toKey ==> IsAnn(ann, i))
  }

  ghost predicate ItemsKeyed(itemToKey: map<string, Key>, own: map<string, int>) {
    forall x :: x in itemToKey ==> x in own && itemToKey[x] == OutKey(own[x])
  }

  ghost predicate KeysOk(h: seq<Event>, s: State, own: map<string, int>) {
    var ann := Announcements(h);
    && s.nextTool == |ann|
    && Numbered(ann, s.outputToKey, s.toolIndex)
    && NothingElse(ann, s.outputToKey, s.toolIndex)
    && ItemsKeyed(s.itemToKey, own)
    && s.fallbackKey.None?
  }

  /** What is kept aside by output index is all that was sent for an index not announced yet. */
  ghost predicate OutputsOk(h: seq<Event>, pending: map<int, string>) {
    forall i :: !IsAnn(Announcements(h), i) ==> At(pending, i) == ArgsFor(h, i)
  }

  /** What is kept aside by item id is never all there is. */
  ghost predicate ItemsOk(h: seq<Event>, pending: map<string, string>, own: map<string, int>) {
    forall x :: At(pending, x) != "" ==> x in own && (IsAnn(Announcements(h), own[x]) || ArgsFor(h, own[x]) != "")
  }

  ghost predicate PendingOk(h: seq<Event>, s: State, own: map<string, int>) {
    OutputsOk(h, s.pendingOutput) && ItemsOk(h, s.pendingItem, own)
  }

  predicate ProseOk(h: seq<Event>, s: State, m: Meaning) {
    && m.text == TextOf(h) && m.reasoning == ReasoningOf(h)
    && s.needsBreak == PartEnded(h) && s.hasReasoning == (ReasoningOf(h) != "")
    && s.sawTool == (Announcements(h) != [])
    && m.finish == None
  }

  ghost predicate Kept(h: seq<Event>, s: State, m: Meaning, own: map<string, int>) {
    ProseOk(h, s, m) && CallsOk(h, s, m.calls) && KeysOk(h, s, own) && PendingOk(h, s, own)
  }

  // ---- argument text ----

  lemma ArgsSnoc(h: seq<Event>, e: Event, i: int)
    ensures ArgsFor(h + [e], i) == ArgsFor(h, i) + (if e.ArgsDelta? && e.outputIndex == Some(i) then e.args else "")
  {
    Snoc(h, e);
  }

  lemma AnnSnoc(h: seq<Event>, e: Event)
    ensures Announcements(h + [e]) ==
            if Announces(e) && e.outputIndex.Some?
            then Announcements(h) + [Announcement(e.outputIndex.value, CallId(e, 0), Trim(e.item.name))]
            else Announcements(h)
  {
    Snoc(h, e);
  }

  lemma KeysAreDistinct(h: seq<Event>, s: State, calls: seq<Call>)
    requires CallsOk(h, s, calls)
    ensures RoundTrip.DistinctKeys(calls)
    ensures forall k :: Known(calls, k) <==> 0 <= k < |calls|
  {
    hide ArgsFor, Announcements;
    forall k | 0 <= k < |calls| ensures Known(calls, k) {
      assert calls[k].key == k;
    }
  }

  lemma IndicesAreDistinct(h: seq<Event>, s: State, own: map<string, int>)
    requires KeysOk(h, s, own)
    ensures var ann := Announcements(h);
            forall i, j :: 0 <= i < |ann| && 0 <= j < |ann| && ann[i].index == ann[j].index ==> i == j
  {
    hide Announcements;
  }

  /** An argument event for an announced tool is passed on under the tool's number. */
  lemma FindsAnnounced(h: seq<Event>, s: State, own: map<string, int>, e: Event)
    requires KeysOk(h, s, own) && AddsArgs(e) && e.outputIndex.Some? && IsAnn(Announcements(h), e.outputIndex.value)
    ensures exists j :: 0 <= j < |Announcements(h)| && Announcements(h)[j].index == e.outputIndex.value
                        && FindTool(s, e.outputIndex, e.itemId) == (s, Some(j))
  {
    hide Announcements, Trim;
    var ann := Announcements(h);
    var j :| 0 <= j < |ann| && ann[j].index == e.outputIndex.value;
    assert Look(s.outputToKey, s.toolIndex, e.outputIndex.value) == Some(j);
  }

  lemma MissesUnannounced(h: seq<Event>, s: State, own: map<string, int>, e: Event)
    requires KeysOk(h, s, own) && AddsArgs(e) && ToolOk(e, own) && !IsAnn(Announcements(h), IndexOf(e))
    ensures FindTool(s, e.outputIndex, e.itemId) == (s, None)
  {
    hide Announcements, Trim;
  }

  lemma ArgsToAnnounced(h: seq<Event>, s: State, m: Meaning, own: map<string, int>, e: Event, j: nat)
    requires CallsOk(h, s, m.calls) && KeysOk(h, s, own) && e.ArgsDelta?
    requires j < |Announcements(h)| && e.outputIndex == Some(Announcements(h)[j].index)
    ensures CallsOk(h + [e], s, HearTool(m.calls, j, "", "", e.args))
  {
    hide Announcements, ArgsFor, Feed;
    AnnSnoc(h, e);
    KeysAreDistinct(h, s, m.calls);
    IndicesAreDistinct(h, s, own);
    var ann := Announcements(h);
    var r := Feed(m.calls, j, e.args);
    forall i | 0 <= i < |ann|
      ensures r[i] == Call(i, ann[i].id, ann[i].name, ArgsFor(h + [e], ann[i].index))
    {
      ArgsSnoc(h, e, ann[i].index);
      RoundTrip.FeedAt(m.calls, j, e.args, i);
      assert ArgsFor(h, ann[i].index) + "" == ArgsFor(h, ann[i].index);
    }
  }

  lemma ArgsElsewhere(h: seq<Event>, s: State, calls: seq<Call>, e: Event)
    requires CallsOk(h, s, calls) && !Announces(e)
    requires e.ArgsDelta? && e.outputIndex.Some? ==> !IsAnn(Announcements(h), e.outputIndex.value) || e.args == ""
    ensures CallsOk(h + [e], s, calls)
  {
    hide Announcements, ArgsFor;
    AnnSnoc(h, e);
    var ann := Announcements(h);
    forall i | 0 <= i < |ann| ensures ArgsFor(h + [e], ann[i].index) == ArgsFor(h, ann[i].index) {
      ArgsSnoc(h, e, ann[i].index);
      assert ArgsFor(h, ann[i].index) + "" == ArgsFor(h, ann[i].index);
    }
  }

  /** Argument text only ever adds up, and announcements stay. */
  lemma Grows(h: seq<Event>, e: Event)
    ensures forall i :: ArgsFor(h, i) != "" ==> ArgsFor(h + [e], i) != ""
    ensures forall i :: IsAnn(Announcements(h), i) ==> IsAnn(Announcements(h + [e]), i)
    ensures Announces(e) && e.outputIndex.Some? ==>
            forall i :: IsAnn(Announcements(h + [e]), i) <==> i == IndexOf(e) || IsAnn(Announcements(h), i)
    ensures !Announces(e) ==> forall i :: IsAnn(Announcements(h + [e]), i) <==> IsAnn(Announcements(h), i)
    ensures !AddsArgs(e) ==> forall i :: ArgsFor(h + [e], i) == ArgsFor(h, i)
    ensures AddsArgs(e) && e.outputIndex.Some? ==>
            forall i :: ArgsFor(h + [e], i) == if i == IndexOf(e) then ArgsFor(h, i) + e.args else ArgsFor(h, i)
  {
    hide Announcements, ArgsFor, Trim;
    AnnSnoc(h, e);
    var ann, ann' := Announcements(h), Announcements(h + [e]);
    if ann' != ann {
      assert ann'[|ann|].index == IndexOf(e);
      forall k | IsAnn(ann, k) ensures IsAnn(ann', k) {
        var j :| 0 <= j < |ann| && ann[j].index == k;
        assert ann'[j].index == k;
      }
    }
    forall i
      ensures ArgsFor(h + [e], i) == ArgsFor(h, i) + (if e.ArgsDelta? && e.outputIndex == Some(i) then e.args else "")
      ensures ArgsFor(h, i) + "" == ArgsFor(h, i)
    {
      ArgsSnoc(h, e, i);
    }
  }

  lemma PendingArgs(h: seq<Event>, s: State, own: map<string, int>, e: Event)
    requires PendingOk(h, s, own) && AddsArgs(e) && ToolOk(e, own)
    ensures !IsAnn(Announcements(h), IndexOf(e)) ==> PendingOk(h + [e], PutPending(s, e.outputIndex, e.itemId, e.args), own)
    ensures IsAnn(Announcements(h), IndexOf(e)) ==> PendingOk(h + [e], s, own)
  {
    hide Announcements, ArgsFor, Trim, IsAnn, OutputsOk, ItemsOk;
    var t := PutPending(s, e.outputIndex, e.itemId, e.args);
    var i, x := IndexOf(e), Trim(e.itemId);
    PutOutputs(h, s.pendingOutput, e);
    PutItems(h, s.pendingItem, own, e);
    assert t.pendingOutput == s.pendingOutput[i := At(s.pendingOutput, i) + e.args];
    assert t.pendingItem == if x != "" then s.pendingItem[x := At(s.pendingItem, x) + e.args] else s.pendingItem;
  }

  lemma PutOutputs(h: seq<Event>, pending: map<int, string>, e: Event)
    requires OutputsOk(h, pending) && AddsArgs(e) && e.outputIndex.Some?
    ensures OutputsOk(h + [e], pending[IndexOf(e) := At(pending, IndexOf(e)) + e.args])
         || IsAnn(Announcements(h), IndexOf(e))
    ensures IsAnn(Announcements(h), IndexOf(e)) ==> OutputsOk(h + [e], pending)
  {
    hide Announcements, ArgsFor, Trim, IsAnn;
    Grows(h, e);
  }

  lemma PutItems(h: seq<Event>, pending: map<string, string>, own: map<string, int>, e: Event)
    requires ItemsOk(h, pending, own) && AddsArgs(e) && ToolOk(e, own)
    ensures ItemsOk(h + [e], pending, own)
    ensures var x := Trim(e.itemId);
            x != "" ==> ItemsOk(h + [e], pending[x := At(pending, x) + e.args], own)
  {
    hide Announcements, ArgsFor, Trim, IsAnn;
    Grows(h, e);
    assert ArgsFor(h + [e], IndexOf(e)) != "";
  }

  lemma KeysSame(h: seq<Event>, s: State, t: State, own: map<string, int>, e: Event)
    requires KeysOk(h, s, own) && !Announces(e)
    requires t.toolIndex == s.toolIndex && t.outputToKey == s.outputToKey && t.itemToKey == s.itemToKey
          && t.fallbackKey == s.fallbackKey && t.nextTool == s.nextTool
    ensures KeysOk(h + [e], t, own)
  {
    hide Announcements;
    AnnSnoc(h, e);
  }

  lemma ProseSame(h: seq<Event>, s: State, t: State, m: Meaning, calls: seq<Call>, e: Event)
    requires ProseOk(h, s, m)
    requires e.ArgsDelta? || e.Created? || e.Other? || e.ItemAdded?
    requires t.needsBreak == s.needsBreak && t.hasReasoning == s.hasReasoning
    requires t.sawTool == (s.sawTool || (Announces(e) && e.outputIndex.Some?))
    ensures ProseOk(h + [e], t, m.(calls := calls))
  {
    hide Trim;
    AnnSnoc(h, e);
    Snoc(h, e);
    assert TextOf(h) + "" == TextOf(h);
  }

  // ---- one event ----

  lemma TakesPending(h: seq<Event>, s: State, own: map<string, int>, e: Event)
    requires PendingOk(h, s, own) && Announces(e) && ToolOk(e, own) && !IsAnn(Announcements(h), IndexOf(e))
    ensures TakePending(s, e).1 == ArgsFor(h, IndexOf(e))
    ensures var t := TakePending(s, e).0;
            t == s.(pendingItem := t.pendingItem, pendingOutput := t.pendingOutput)
    ensures PendingOk(h + [e], TakePending(s, e).0, own)
  {
    hide Announcements, ArgsFor, Trim, IsAnn;
    Grows(h, e);
    var i, x := IndexOf(e), Trim(e.item.id);
    var t := TakePending(s, e).0;
    assert At(s.pendingOutput, i) == ArgsFor(h, i);
    assert x != "" && ArgsFor(h, i) == "" ==> At(s.pendingItem, x) == "";
    assert t.pendingOutput == s.pendingOutput - {i};
    assert OutputsOk(h + [e], t.pendingOutput) by {
      hide ItemsOk, TakePending;
    }
    assert ItemsOk(h + [e], t.pendingItem, own) by {
      hide OutputsOk;
    }
  }

  lemma EnsuresNew(h: seq<Event>, s: State, own: map<string, int>, e: Event)
    requires KeysOk(h, s, own) && Announces(e) && ToolOk(e, own) && !IsAnn(Announcements(h), IndexOf(e))
    ensures var (t, idx) := EnsureTool(s, e, CallId(e, s.nextTool));
            && idx == Some(s.nextTool) && KeysOk(h + [e], t, own)
            && t == s.(toolIndex := t.toolIndex, nextTool := t.nextTool, outputToKey := t.outputToKey, itemToKey := t.itemToKey)
  {
    hide Announcements, Trim, CallId, KeysOk;
    var i, x := IndexOf(e), Trim(e.item.id);
    NotKeyed(h, s, own, i);
    var (t, idx) := EnsureTool(s, e, CallId(e, s.nextTool));
    var t' := s.(toolIndex := s.toolIndex[OutKey(i) := s.nextTool], nextTool := s.nextTool + 1,
                 outputToKey := s.outputToKey[i := OutKey(i)],
                 itemToKey := if x != "" then s.itemToKey[x := OutKey(i)] else s.itemToKey);
    assert t == t';
    KeysGrow(h, s, t', own, e);
  }

  lemma NotKeyed(h: seq<Event>, s: State, own: map<string, int>, i: int)
    requires KeysOk(h, s, own) && !IsAnn(Announcements(h), i)
    ensures OutKey(i) !in s.toolIndex
  {
    hide Announcements;
  }

  lemma NumberedGrows(ann: seq<Announcement>, a: Announcement, toKey: map<int, Key>, tools: map<Key, int>)
    requires Numbered(ann, toKey, tools) && !IsAnn(ann, a.index)
    ensures Numbered(ann + [a], toKey[a.index := OutKey(a.index)], tools[OutKey(a.index) := |ann|])
  {
    var ann' := ann + [a];
    forall j | 0 <= j < |ann| ensures ann'[j] == ann[j] && ann[j].index != a.index {
    }
  }

  lemma NothingElseGrows(ann: seq<Announcement>, a: Announcement, toKey: map<int, Key>, tools: map<Key, int>)
    requires NothingElse(ann, toKey, tools)
    requires forall i :: IsAnn(ann + [a], i) <==> i == a.index || IsAnn(ann, i)
    ensures NothingElse(ann + [a], toKey[a.index := OutKey(a.index)], tools[OutKey(a.index) := |ann|])
  {
    hide IsAnn;
  }

  lemma KeysGrow(h: seq<Event>, s: State, t: State, own: map<string, int>, e: Event)
    requires KeysOk(h, s, own) && Announces(e) && ToolOk(e, own) && !IsAnn(Announcements(h), IndexOf(e))
    requires t.toolIndex == s.toolIndex[OutKey(IndexOf(e)) := s.nextTool] && t.nextTool == s.nextTool + 1
    requires t.outputToKey == s.outputToKey[IndexOf(e) := OutKey(IndexOf(e))] && t.fallbackKey == s.fallbackKey
    requires t.itemToKey == s.itemToKey
          || (Trim(e.item.id) != "" && t.itemToKey == s.itemToKey[Trim(e.item.id) := OutKey(IndexOf(e))])
    ensures KeysOk(h + [e], t, own)
  {
    hide Announcements, Trim, CallId, IsAnn, Numbered, NothingElse;
    AnnSnoc(h, e);
    Grows(h, e);
    var ann := Announcements(h);
    var a := Announcement(e.outputIndex.value, CallId(e, 0), Trim(e.item.name));
    NumberedGrows(ann, a, s.outputToKey, s.toolIndex);
    NothingElseGrows(ann, a, s.outputToKey, s.toolIndex);
  }

  lemma CallsGrow(h: seq<Event>, s: State, t: State, calls: seq<Call>, e: Event)
    requires CallsOk(h, s, calls) && Announces(e) && e.outputIndex.Some? && t.nextTool == s.nextTool + 1
    ensures HearTool(calls, s.nextTool, CallId(e, 0), Trim(e.item.name), ArgsFor(h, e.outputIndex.value))
         == calls + [Call(s.nextTool, CallId(e, 0), Trim(e.item.name), ArgsFor(h, e.outputIndex.value))]
    ensures CallsOk(h + [e], t, calls + [Call(s.nextTool, CallId(e, 0), Trim(e.item.name), ArgsFor(h, e.outputIndex.value))])
  {
    hide Announcements, ArgsFor, Trim, CallId;
    AnnSnoc(h, e);
    KeysAreDistinct(h, s, calls);
    forall i ensures ArgsFor(h + [e], i) == ArgsFor(h, i) {
      ArgsSnoc(h, e, i);
      assert ArgsFor(h, i) + "" == ArgsFor(h, i);
    }
  }

  lemma RoleMeansNothing(s: State, m: Meaning)
    ensures HearChunks(m, RoleIfNeeded(s)) == m
    ensures RoundTrip.Announced(m.calls, RoundTrip.AllItems(RoleIfNeeded(s)))
  {
    hide HearChunk;
    ClaudeToChat.NoChunks(m);
    if !s.roleSent {
      var c := RoleIfNeeded(s)[0];
      ClaudeToChat.OneChunk(m, c);
      ClaudeToChat.PlainChunkMeans(m, c);
      assert m.text + "" == m.text && m.reasoning + "" == m.reasoning;
      OnlyChunk(c);
      assert Items(c) == [Role];
      NothingToAnnounce(m.calls, [Role]);
    }
  }

  lemma OnlyChunk(c: Chunk)
    ensures RoundTrip.AllItems([c]) == Items(c)
  {
    assert [c][1..] == [] && RoundTrip.AllItems([]) == [];
  }

  lemma {:induction false} NothingToAnnounce(calls: seq<Call>, items: seq<Item>)
    requires forall i :: 0 <= i < |items| ==> !items[i].Tool?
    ensures RoundTrip.Announced(calls, items)
    decreases items
  {
    if items != [] {
      NothingToAnnounce(calls, items[1..]);
    }
  }

  lemma ToolChunkHeard(s: State, m: Meaning, td: ToolDelta)
    ensures HearChunk(m, ToolChunk(s, td)) == m.(calls := HearTool(m.calls, td.Key(), td.id, td.name, td.args))
    ensures Items(ToolChunk(s, td)) == [Tool(td)]
    ensures Known(m.calls, td.Key()) || td.id != "" ==> RoundTrip.Announced(m.calls, [Tool(td)])
  {
    hide HearTool, Known;
    ClaudeToChat.OneTool(m.calls, td);
    assert m.text + "" == m.text && m.reasoning + "" == m.reasoning;
    assert [Tool(td)][1..] == [];
    assert RoundTrip.Announced(HearTool(m.calls, td.Key(), td.id, td.name, td.args), []);
  }

  /** Two chunks, the first of which says nothing. */
  lemma AfterRole(s: State, m: Meaning, c: Chunk)
    ensures HearChunks(m, RoleIfNeeded(s) + [c]) == HearChunk(m, c)
    ensures RoundTrip.Announced(m.calls, Items(c)) ==>
            RoundTrip.Announced(m.calls, RoundTrip.AllItems(RoleIfNeeded(s) + [c]))
  {
    hide HearChunk, Items, RoleIfNeeded, HearItems;
    RoleMeansNothing(s, m);
    ChunksConcat(m, RoleIfNeeded(s), [c]);
    ClaudeToChat.OneChunk(m, c);
    OnlyChunk(c);
    RoundTrip.AllItemsConcat(RoleIfNeeded(s), [c]);
    RoundTrip.AnnouncedConcat(m, RoundTrip.AllItems(RoleIfNeeded(s)), Items(c));
    RoundTrip.ChunksHeard(m, RoleIfNeeded(s));
  }

  ghost predicate Good(h: seq<Event>, m: Meaning, own: map<string, int>, e: Event, r: Step) {
    && !r.failed
    && Kept(h + [e], r.s, HearChunks(m, r.out), own)
    && RoundTrip.Announced(m.calls, RoundTrip.AllItems(r.out))
  }

  lemma AddedKept(h: seq<Event>, s: State, m: Meaning, own: map<string, int>, e: Event)
    requires Kept(h, s, m, own) && e.ItemAdded? && Announces(e) && ToolOk(e, own) && !IsAnn(Announcements(h), IndexOf(e))
    ensures Good(h, m, own, e, MapStep(s, e))
  {
    hide Announcements, ArgsFor, Trim, EnsureTool, TakePending, RoleIfNeeded, CallsOk, KeysOk, PendingOk, ProseOk,
         HearTool, HearChunk, HearChunks, Items;
    var id := CallId(e, s.nextTool);
    assert id == CallId(e, 0);
    var (s1, idx) := EnsureTool(s, e, id);
    EnsuresNew(h, s, own, e);
    SamePending(h, s, s1, own);
    var (s2, args) := TakePending(s1.(sawTool := true), e);
    SamePending(h, s1, s1.(sawTool := true), own);
    TakesPending(h, s1.(sawTool := true), own, e);
    var s3 := s2.(roleSent := true);
    var td := ToolDelta(idx, id, Trim(e.item.name), args);
    AfterRole(s2, m, ToolChunk(s3, td));
    ToolChunkHeard(s3, m, td);
    CallsGrow(h, s, s3, m.calls, e) by { NextTool(h, s, s1, own, e); }
    SameKeys(h + [e], s1, s3, own);
    SamePending(h + [e], s2, s3, own);
    ProseSame(h, s, s3, m, HearTool(m.calls, s.nextTool, id, Trim(e.item.name), args), e) by { Flags(h, s, m); }
  }

  lemma Flags(h: seq<Event>, s: State, m: Meaning)
    requires ProseOk(h, s, m)
    ensures s.sawTool == (Announcements(h) != [])
  {
  }

  lemma NextTool(h: seq<Event>, s: State, t: State, own: map<string, int>, e: Event)
    requires KeysOk(h, s, own) && KeysOk(h + [e], t, own) && Announces(e) && e.outputIndex.Some?
    ensures t.nextTool == s.nextTool + 1
  {
    hide Trim;
    AnnSnoc(h, e);
  }

  lemma SamePending(h: seq<Event>, s: State, t: State, own: map<string, int>)
    requires PendingOk(h, s, own) && t.pendingItem == s.pendingItem && t.pendingOutput == s.pendingOutput
    ensures PendingOk(h, t, own)
  {
  }

  lemma SameKeys(h: seq<Event>, s: State, t: State, own: map<string, int>)
    requires KeysOk(h, s, own)
    requires t.toolIndex == s.toolIndex && t.outputToKey == s.outputToKey && t.itemToKey == s.itemToKey
          && t.fallbackKey == s.fallbackKey && t.nextTool == s.nextTool
    ensures KeysOk(h, t, own)
  {
  }

  lemma ArgsKept(h: seq<Event>, s: State, m: Meaning, own: map<string, int>, e: Event)
    requires Kept(h, s, m, own) && AddsArgs(e) && ToolOk(e, own)
    ensures Good(h, m, own, e, MapStep(s, e))
  {
    hide Announcements, ArgsFor, Trim, CallsOk, KeysOk, PendingOk, ProseOk, FindTool, PutPending,
         HearTool, HearChunk, HearChunks, Items, IsAnn;
    ProseSame(h, s, s, m, m.calls, e);
    if IsAnn(Announcements(h), IndexOf(e)) {
      FindsAnnounced(h, s, own, e);
      var j :| 0 <= j < |Announcements(h)| && Announcements(h)[j].index == e.outputIndex.value
               && FindTool(s, e.outputIndex, e.itemId) == (s, Some(j));
      var td := ToolDelta(Some(j), "", "", e.args);
      ToolChunkHeard(s, m, td);
      ClaudeToChat.OneChunk(m, ToolChunk(s, td));
      OnlyChunk(ToolChunk(s, td));
      CallKnown(h, s, m.calls, j);
      ArgsToAnnounced(h, s, m, own, e, j);
      KeysSame(h, s, s, own, e);
      PendingArgs(h, s, own, e);
      ProseSame(h, s, s, m, HearTool(m.calls, j, "", "", e.args), e);
    } else {
      MissesUnannounced(h, s, own, e);
      var t := PutPending(s, e.outputIndex, e.itemId, e.args);
      PutFrame(s, e);
      ClaudeToChat.NoChunks(m);
      NothingToAnnounce(m.calls, []);
      ArgsElsewhere(h, s, m.calls, e);
      SameCallsOk(h + [e], s, t, m.calls);
      KeysSame(h, s, t, own, e);
      PendingArgs(h, s, own, e);
      ProseSame(h, s, t, m, m.calls, e);
    }
  }

  lemma CallKnown(h: seq<Event>, s: State, calls: seq<Call>, j: nat)
    requires CallsOk(h, s, calls) && j < |Announcements(h)|
    ensures Known(calls, j)
  {
    hide Announcements, ArgsFor;
    assert calls[j].key == j;
  }

  lemma PutFrame(s: State, e: Event)
    requires e.ArgsDelta?
    ensures var t := PutPending(s, e.outputIndex, e.itemId, e.args);
            t == s.(pendingItem := t.pendingItem, pendingOutput := t.pendingOutput)
  {
    hide Trim;
  }

  lemma SameCallsOk(h: seq<Event>, s: State, t: State, calls: seq<Call>)
    requires CallsOk(h, s, calls) && t.nextTool == s.nextTool
    ensures CallsOk(h, t, calls)
  {
  }

  /** Events that have nothing to do with tools. */
  lemma ProseKept(h: seq<Event>, s: State, m: Meaning, own: map<string, int>, e: Event)
    requires Kept(h, s, m, own) && !Announces(e) && !AddsArgs(e) && !e.Ended? && !e.Failed?
    ensures Good(h, m, own, e, MapStep(s, e))
  {
    hide Announcements, ArgsFor, Trim, CallsOk, KeysOk, PendingOk, ProseOk, HearChunk, HearChunks, Items;
    var r := MapStep(s, e);
    ProseFrame(s, e);
    ProseMeans(h, s, m, e);
    ArgsElsewhere(h, s, m.calls, e) by { AnnouncedOrEmpty(e); }
    SameCallsOk(h + [e], s, r.s, m.calls);
    KeysSame(h, s, r.s, own, e);
    PendingElse(h, s, own, e);
    SamePending(h + [e], s, r.s, own);
    assert Kept(h + [e], r.s, HearChunks(m, r.out), own);
  }

  lemma AnnouncedOrEmpty(e: Event)
    requires !AddsArgs(e)
    ensures e.ArgsDelta? ==> e.args == ""
  {
  }

  lemma PendingElse(h: seq<Event>, s: State, own: map<string, int>, e: Event)
    requires PendingOk(h, s, own) && !Announces(e) && !AddsArgs(e)
    ensures PendingOk(h + [e], s, own)
  {
    hide Announcements, ArgsFor, Trim, IsAnn;
    Grows(h, e);
  }

  lemma ProseFrame(s: State, e: Event)
    requires !Announces(e) && !AddsArgs(e) && !e.Ended?
    ensures var t := MapStep(s, e).s;
            && t.toolIndex == s.toolIndex && t.outputToKey == s.outputToKey && t.itemToKey == s.itemToKey
            && t.fallbackKey == s.fallbackKey && t.nextTool == s.nextTool
            && t.pendingItem == s.pendingItem && t.pendingOutput == s.pendingOutput
            && t.sawTool == s.sawTool
  {
    hide Trim, AddedStep, ArgsStep, RoleIfNeeded, Separator;
    NothingFor(s, e);
  }

  /** Items that are no calls, and empty argument deltas. */
  lemma NothingFor(s: State, e: Event)
    requires !Announces(e) && !AddsArgs(e)
    ensures e.ItemAdded? ==> AddedStep(s, e) == Step(s, [], false)
    ensures e.ArgsDelta? ==> ArgsStep(s, e) == Step(s, [], false)
  {
    hide Trim, EnsureTool, FindTool, TakePending;
  }

  lemma PlainHeard(s: State, m: Meaning, d: Delta)
    requires d.tools == []
    ensures var c := ChunkOf(s, d, None, None);
            && HearChunk(m, c) == m.(text := m.text + d.content, reasoning := m.reasoning + d.reasoning)
            && RoundTrip.Announced(m.calls, Items(c)) && RoundTrip.AllItems([c]) == Items(c)
            && HearChunks(m, [c]) == HearChunk(m, c)
  {
    var c := ChunkOf(s, d, None, None);
    ClaudeToChat.PlainChunkMeans(m, c);
    ClaudeToChat.OneChunk(m, c);
    OnlyChunk(c);
    NothingToAnnounce(m.calls, Items(c));
  }

  lemma ReasoningMeans(s: State, m: Meaning, text: string)
    requires text != ""
    ensures var r := ReasoningStep(s, text);
            && !r.failed && HearChunks(m, r.out) == m.(reasoning := m.reasoning + if s.needsBreak then Separator(text) + text else text)
            && RoundTrip.Announced(m.calls, RoundTrip.AllItems(r.out))
  {
    hide HearChunk, HearChunks, Items, RoleIfNeeded, Separator, RoundTrip.Announced, RoundTrip.AllItems;
    var r := ReasoningStep(s, text);
    var t := if s.needsBreak then Separator(text) + text else text;
    var s1 := s.(needsBreak := false, hasReasoning := true);
    PlainHeard(r.s, m, Delta("", "", t, []));
    AfterRole(s1, m, ChunkOf(r.s, Delta("", "", t, []), None, None));
    assert m.text + "" == m.text;
  }

  lemma ProseMeans(h: seq<Event>, s: State, m: Meaning, e: Event)
    requires ProseOk(h, s, m) && !Announces(e) && !AddsArgs(e) && !e.Ended? && !e.Failed?
    ensures var r := MapStep(s, e);
            && !r.failed
            && HearChunks(m, r.out).calls == m.calls
            && ProseOk(h + [e], r.s, HearChunks(m, r.out))
            && RoundTrip.Announced(m.calls, RoundTrip.AllItems(r.out))
  {
    hide HearChunk, HearChunks, Items, RoleIfNeeded, Separator, AddedStep, ArgsStep, ReasoningStep, ProseOk;
    hide Announces, RoundTrip.Announced, RoundTrip.AllItems, TextOf, ReasoningOf, PartEnded, Announcements;
    var r := MapStep(s, e);
    NothingFor(s, e);
    ProseSnoc(h, s, m, e, HearChunks(m, r.out));
    if e.ReasoningDelta? && e.text != "" {
      ReasoningMeans(s, m, e.text);
    } else if e.ReasoningDelta? {
      SilentReasoning(s);
      ClaudeToChat.NoChunks(m);
      NothingToAnnounce(m.calls, []);
      NoItems();
    } else if e.TextDelta? && e.text != "" {
      PlainHeard(s, m, Delta("", e.text, "", []));
    } else if e.Created? {
      RoleMeansNothing(r.s.(roleSent := s.roleSent), m);
    } else {
      ClaudeToChat.NoChunks(m);
      NothingToAnnounce(m.calls, []);
      NoItems();
    }
    assert m.reasoning + "" == m.reasoning && m.text + "" == m.text;
  }

  lemma SilentReasoning(s: State)
    ensures ReasoningStep(s, "") == Step(s, [], false)
  {
  }

  lemma NoItems()
    ensures RoundTrip.AllItems([]) == []
  {
  }

  /** What a reader must have heard of an event. */
  lemma ProseSnoc(h: seq<Event>, s: State, m: Meaning, e: Event, w: Meaning)
    requires ProseOk(h, s, m) && !Announces(e) && !AddsArgs(e) && !e.Ended? && !e.Failed?
    ensures var t := MapStep(s, e).s;
            var more := if e.ReasoningDelta? && e.text != "" then if s.needsBreak then Separator(e.text) + e.text else e.text else "";
            w.finish == m.finish && w.text == m.text + (if e.TextDelta? then e.text else "") && w.reasoning == m.reasoning + more
            ==> ProseOk(h + [e], t, w)
  {
    hide Trim, AddedStep, ArgsStep, RoleIfNeeded, Separator, Announcements;
    AnnSnoc(h, e);
    Snoc(h, e);
    NothingFor(s, e);
    assert ReasoningOf(h) + "" == ReasoningOf(h);
  }

  lemma EventKept(h: seq<Event>, s: State, m: Meaning, own: map<string, int>, e: Event)
    requires Kept(h, s, m, own) && ToolOk(e, own) && !e.Ended? && !e.Failed?
    requires Announces(e) ==> !IsAnn(Announcements(h), IndexOf(e))
    ensures Good(h, m, own, e, MapStep(s, e))
  {
    hide Kept, Good, MapStep, Trim, Announcements, ToolOk;
    if Announces(e) {
      AddedKept(h, s, m, own, e);
    } else if AddsArgs(e) {
      ArgsKept(h, s, m, own, e);
    } else {
      ProseKept(h, s, m, own, e);
    }
  }

  // ---- whole streams ----

  lemma {:induction false} AnnHasSource(h: seq<Event>, i: int)
    requires IsAnn(Announcements(h), i)
    ensures exists k :: 0 <= k < |h| && Announces(h[k]) && IndexOf(h[k]) == i
  {
    hide Trim, CallId;
    if h != [] {
      var p, e := h[..|h| - 1], h[|h| - 1];
      assert h == p + [e];
      AnnSnoc(p, e);
      if Announces(e) && IndexOf(e) == i {
      } else {
        var ann := Announcements(h);
        var j :| 0 <= j < |ann| && ann[j].index == i;
        assert Announcements(p)[j].index == i;
        AnnHasSource(p, i);
        var k :| 0 <= k < |p| && Announces(p[k]) && IndexOf(p[k]) == i;
        assert h[k] == p[k];
      }
    }
  }

  lemma FreshAnnouncement(h: seq<Event>, es: seq<Event>)
    requires es != [] && Announces(es[0]) && AnnouncedOnce(h + es)
    ensures !IsAnn(Announcements(h), IndexOf(es[0]))
  {
    hide Announcements, Trim, Announces;
    assert forall k :: 0 <= k < |h| ==> (h + es)[k] == h[k];
    assert (h + es)[|h|] == es[0];
    if IsAnn(Announcements(h), IndexOf(es[0])) {
      AnnHasSource(h, IndexOf(es[0]));
    }
  }

  lemma {:induction false} OpenRunKept(h: seq<Event>, s: State, m: Meaning, own: map<string, int>, es: seq<Event>)
    requires Kept(h, s, m, own) && Consistent(es, own) && Open(es) && AnnouncedOnce(h + es)
    ensures var r := Run(s, es);
            && !r.failed
            && Kept(h + es, r.s, HearChunks(m, r.out), own)
            && RoundTrip.Announced(m.calls, RoundTrip.AllItems(r.out))
    decreases es
  {
    hide Kept, MapStep, ToolOk, Announcements, HearChunk, Items, HearItems, HearTool, Announces;
    if es == [] {
      assert h + es == h;
      ClaudeToChat.NoChunks(m);
      NothingToAnnounce(m.calls, []);
    } else {
      var a := MapStep(s, es[0]);
      if Announces(es[0]) { FreshAnnouncement(h, es); }
      EventKept(h, s, m, own, es[0]);
      assert h + [es[0]] + es[1..] == h + es;
      var m1 := HearChunks(m, a.out);
      OpenRunKept(h + [es[0]], a.s, m1, own, es[1..]);
      var rest := Run(a.s, es[1..]).out;
      ChunksConcat(m, a.out, rest);
      RoundTrip.AllItemsConcat(a.out, rest);
      RoundTrip.ChunksHeard(m, a.out);
      RoundTrip.AnnouncedConcat(m, RoundTrip.AllItems(a.out), RoundTrip.AllItems(rest));
    }
  }

  predicate OpenChunks(cs: seq<Chunk>) {
    forall i :: 0 <= i < |cs| ==> !Finishes(cs[i]) && cs[i].usage.None?
  }

  lemma StepSendsNoFinish(s: State, e: Event)
    requires !e.Ended?
    ensures OpenChunks(MapStep(s, e).out)
  {
    hide EnsureTool, TakePending, FindTool, PutPending, Trim, Separator, CallId;
  }

  lemma {:induction false} RunSendsNoFinish(s: State, es: seq<Event>)
    requires Open(es)
    ensures OpenChunks(Run(s, es).out)
    decreases es
  {
    hide MapStep, Finishes;
    if es != [] {
      StepSendsNoFinish(s, es[0]);
      RunSendsNoFinish(MapStep(s, es[0]).s, es[1..]);
    }
  }

  lemma {:induction false} RunConcat(s: State, a: seq<Event>, b: seq<Event>)
    requires !Run(s, a).failed
    ensures var r := Run(s, a);
            var t := Run(r.s, b);
            Run(s, a + b) == Step(t.s, r.out + t.out, t.failed)
    decreases a
  {
    hide MapStep;
    if a == [] {
      assert a + b == b;
    } else {
      assert (a + b)[1..] == a[1..] + b;
      RunConcat(MapStep(s, a[0]).s, a[1..], b);
    }
  }

  lemma RunEnd(s: State, completed: bool, body: Option<Body>)
    ensures Run(s, [Ended(completed, body)]) == MapStep(s, Ended(completed, body))
  {
    assert [Ended(completed, body)][1..] == [];
  }

  lemma StartKept(id: string, requested: string, own: map<string, int>)
    ensures Kept([], Initial(id, requested), NOTHING, own)
  {
  }

  lemma EndMeans(s: State, m: Meaning, completed: bool, body: Option<Body>)
    requires m.finish == None
    ensures HearChunks(m, MapStep(s, Ended(completed, body)).out) == m.(finish := Some(EndReason(body, s.sawTool)))
    ensures RoundTrip.AllItems(MapStep(s, Ended(completed, body)).out) == [Finish(EndReason(body, s.sawTool))]
  {
    hide ChatUsage, EndReason;
    var c := MapStep(s, Ended(completed, body)).out[0];
    ClaudeToChat.OneChunk(m, c);
    ClaudeToChat.PlainChunkMeans(m, c);
    OnlyChunk(c);
    assert m.text + "" == m.text && m.reasoning + "" == m.reasoning;
  }

  /** The calls a history announces, numbered in order, each with all the argument text sent for it. */
  ghost predicate AllCalls(h: seq<Event>, calls: seq<Call>) {
    var ann := Announcements(h);
    && |calls| == |ann|
    && forall j :: 0 <= j < |ann| ==> calls[j] == Call(j, ann[j].id, ann[j].name, ArgsFor(h, ann[j].index))
  }

  /** A stream that ends with its terminal event, read in Chat: all text, all reasoning, and for
      every announced call all its argument text, early or late. */
  lemma ChatSaysAll(id: string, requested: string, es: seq<Event>, completed: bool, body: Option<Body>, own: map<string, int>)
    requires Consistent(es, own) && AnnouncedOnce(es) && Open(es)
    ensures var chunks := Converted(Initial(id, requested), es + [Ended(completed, body)]);
            var v := OfChat(chunks);
            && v.text == TextOf(es) && v.reasoning == ReasoningOf(es)
            && AllCalls(es, v.calls)
            && v.finish == Some(EndReason(body, Announcements(es) != []))
            && ReportedUsage(chunks, false, None) == SentUsage(body)
            && RoundTrip.Announced([], RoundTrip.AllItems(chunks))
            && RoundTrip.NothingAfterFinish(chunks, false)
  {
    hide KeysOk, PendingOk, ArgsFor, Announcements, TextOf, ReasoningOf, PartEnded, Run, MapStep, EndReason, HearChunk, Items, HearItems, HearTool;
    var s0 := Initial(id, requested);
    StartKept(id, requested, own);
    assert [] + es == es;
    OpenRunKept([], s0, NOTHING, own, es);
    var r := Run(s0, es);
    var m := HearChunks(NOTHING, r.out);
    RunConcat(s0, es, [Ended(completed, body)]);
    RunEnd(r.s, completed, body);
    var last := MapStep(r.s, Ended(completed, body)).out;
    EndMeans(r.s, m, completed, body);
    ChunksConcat(NOTHING, r.out, last);
    RoundTrip.AllItemsConcat(r.out, last);
    RoundTrip.AnnouncedConcat(NOTHING, RoundTrip.AllItems(r.out), RoundTrip.AllItems(last));
    NothingToAnnounce(HearItems(NOTHING, RoundTrip.AllItems(r.out)).calls, RoundTrip.AllItems(last));
    RunSendsNoFinish(s0, es);
    EndsAtEnd(r.s, completed, body);
    NothingAfterOpen(r.out, last);
    LastReports(r.out, last);
  }

  /** The usage of the terminal event, in Chat's terms. */
  function SentUsage(body: Option<Body>): Option<Wire.Usage> {
    if body.Some? && body.value.usage.Some? then Some(ChatUsage(body.value.usage.value)) else None
  }

  lemma {:induction false} LastReports(a: seq<Chunk>, last: seq<Chunk>)
    requires OpenChunks(a) && |last| == 1
    ensures ReportedUsage(a + last, false, None) == last[0].usage
    decreases a
  {
    hide Finishes;
    if a == [] {
      assert a + last == last;
      assert ReportedUsage(last[1..], Finishes(last[0]), last[0].usage) == last[0].usage;
    } else {
      assert (a + last)[1..] == a[1..] + last && (a + last)[0] == a[0];
      LastReports(a[1..], last);
    }
  }

  lemma EndsAtEnd(s: State, completed: bool, body: Option<Body>)
    ensures |MapStep(s, Ended(completed, body)).out| == 1
    ensures MapStep(s, Ended(completed, body)).out[0].usage == SentUsage(body)
  {
  }

  lemma {:induction false} NothingAfterOpen(a: seq<Chunk>, last: seq<Chunk>)
    requires OpenChunks(a) && |last| == 1
    ensures RoundTrip.NothingAfterFinish(a + last, false)
    decreases a
  {
    hide Finishes, Items;
    if a == [] {
      assert a + last == last;
      assert RoundTrip.NothingAfterFinish(last[1..], Finishes(last[0]));
    } else {
      assert (a + last)[1..] == a[1..] + last;
      NothingAfterOpen(a[1..], last);
    }
  }

  // ---- and on to Anthropic ----

  lemma {:induction false} QuietEnough(chunks: seq<Chunk>, fin: bool, use: bool)
    requires RoundTrip.NothingAfterFinish(chunks, fin)
    ensures ClaudeWellFormed.Quiet(chunks, fin, use)
    decreases chunks
  {
    hide Items, Finishes;
    if chunks != [] {
      QuietEnough(chunks[1..], fin || Finishes(chunks[0]), use || chunks[0].usage.Some?);
    }
  }

  predicate TextIsPlain(es: seq<Event>) {
    forall i :: 0 <= i < |es| && es[i].TextDelta? ==> !ChatToClaude.IsDataURI(es[i].text)
  }

  /** A chunk whose text, if any, is this one. */
  predicate Says(c: Chunk, t: string) {
    |c.choices| == 1 && c.choices[0].delta.Some? && c.choices[0].delta.value.content in {"", t}
  }

  lemma StepSays(s: State, e: Event)
    ensures forall i :: 0 <= i < |MapStep(s, e).out| ==> Says(MapStep(s, e).out[i], if e.TextDelta? then e.text else "")
  {
    hide EnsureTool, TakePending, FindTool, PutPending, Trim, Separator, CallId, EndReason, ChatUsage;
  }

  lemma {:induction false} SaysPlain(cs: seq<Chunk>, t: string)
    requires forall i :: 0 <= i < |cs| ==> Says(cs[i], t)
    requires !ChatToClaude.IsDataURI(t)
    ensures RoundTrip.NoDataURI(RoundTrip.AllItems(cs))
  {
    hide ChatToClaude.IsDataURI;
    if cs != [] {
      SaysPlain(cs[1..], t);
    }
  }

  lemma EmptyIsPlain()
    ensures !ChatToClaude.IsDataURI("")
  {
  }

  lemma StepText(s: State, e: Event)
    requires e.TextDelta? ==> !ChatToClaude.IsDataURI(e.text)
    ensures RoundTrip.NoDataURI(RoundTrip.AllItems(MapStep(s, e).out))
  {
    hide MapStep, RoundTrip.NoDataURI, RoundTrip.AllItems, ChatToClaude.IsDataURI;
    StepSays(s, e);
    EmptyIsPlain();
    SaysPlain(MapStep(s, e).out, if e.TextDelta? then e.text else "");
  }

  lemma {:induction false} RunText(s: State, es: seq<Event>)
    requires TextIsPlain(es)
    ensures RoundTrip.NoDataURI(RoundTrip.AllItems(Run(s, es).out))
    decreases es
  {
    hide MapStep, Items, ChatToClaude.IsDataURI;
    if es != [] {
      var a := MapStep(s, es[0]);
      StepText(s, es[0]);
      if !a.failed {
        RunText(a.s, es[1..]);
        RoundTrip.AllItemsConcat(a.out, Run(a.s, es[1..]).out);
      }
    }
  }

  /** Responses -> Chat -> Anthropic: the client receives a well-formed stream with the text, the
      reasoning, and every announced call with all its argument text; nothing is dropped on the way. */
  lemma ClaudeSaysAll(id1: string, id2: string, requested: string, es: seq<Event>, completed: bool, body: Option<Body>, own: map<string, int>)
    requires Consistent(es, own) && AnnouncedOnce(es) && Open(es)
    ensures var chunks := Converted(Initial(id1, requested), es + [Ended(completed, body)]);
            var sent := ChatToClaude.Converted(ChatToClaude.Initial(id2, requested), chunks);
            var w := OfClaude(sent);
            && sent != [] && ClaudeGrammar.WellFormed(sent)
            && (TextIsPlain(es) ==> w.text == TextOf(es))
            && w.reasoning == ReasoningOf(es)
            && (exists calls :: AllCalls(es, calls) && SameCalls(calls, w.calls))
            && w.finish == Some(FinishReason(ChatToClaude.StopReason(EndReason(body, Announcements(es) != []))))
  {
    hide Run, MapStep, Consistent, AnnouncedOnce, TextOf, ReasoningOf, AllCalls, EndReason, Announcements, RoundTrip.NothingAfterFinish,
         RoundTrip.AllItems, RoundTrip.PlainText, RoundTrip.AllText, RoundTrip.NoDataURI, ChatToClaude.Converted, HearChunks, HearEvents, HearItems, RoundTrip.Announced, SameCalls, ClaudeGrammar.WellFormed, ClaudeWellFormed.Quiet, TextIsPlain;
    var all := es + [Ended(completed, body)];
    var chunks := Converted(Initial(id1, requested), all);
    ChatSaysAll(id1, requested, es, completed, body, own);
    RoundTrip.ClaudeMeaning(id2, requested, chunks);
    QuietEnough(chunks, false, false);
    ClaudeWellFormed.WellFormedIffQuiet(id2, requested, chunks);
    RoundTrip.ChunksHeard(NOTHING, chunks);
    RoundTrip.TextHeard(NOTHING, RoundTrip.AllItems(chunks));
    assert "" + RoundTrip.AllText(RoundTrip.AllItems(chunks)) == RoundTrip.AllText(RoundTrip.AllItems(chunks));
    RoundTrip.PlainIsAll(RoundTrip.AllItems(chunks));
    if TextIsPlain(es) {
      StillPlain(es, completed, body);
      RunText(Initial(id1, requested), all);
    }
  }

  lemma StillPlain(es: seq<Event>, completed: bool, body: Option<Body>)
    requires TextIsPlain(es)
    ensures TextIsPlain(es + [Ended(completed, body)])
  {
    hide ChatToClaude.IsDataURI;
  }
}
