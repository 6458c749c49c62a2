/** What the mappers put around the text: ids, model names, the assistant's role and media, told from the input. */
module Envelopes {
  import opened Wire
  import Responses
  import ChatToClaude
  import ClaudeToChat
  import ChatToResponses
  import ResponsesToChat
  import ResponsesGrammar
  import ResponsesNamed
  import Streams

  /** The model a client is told: the one it asked for, or else the first that is named. */
  function FirstModel(requested: string, chunks: seq<Chunk>): string {
    if requested != "" then requested
    else if chunks == [] then ""
    else if chunks[0].model != "" then chunks[0].model
    else FirstModel("", chunks[1..])
  }

  lemma {:induction false} FirstModelSnoc(requested: string, chunks: seq<Chunk>, c: Chunk)
    ensures FirstModel(requested, chunks + [c]) ==
            if FirstModel(requested, chunks) != "" then FirstModel(requested, chunks) else c.model
  {
    if requested == "" {
      if chunks == [] {
        assert [c][1..] == [];
      } else {
        assert (chunks + [c])[1..] == chunks[1..] + [c] && (chunks + [c])[0] == chunks[0];
        FirstModelSnoc("", chunks[1..], c);
      }
    }
  }

  // ---- Chat -> Anthropic ----

  /** The first chunk that says anything. */
  function FirstSaying(chunks: seq<Chunk>): (k: nat)
    ensures k <= |chunks| && (k < |chunks| ==> Items(chunks[k]) != [])
    ensures forall i :: 0 <= i < k ==> Items(chunks[i]) == []
  {
    if chunks == [] || Items(chunks[0]) != [] then 0
    else
      assert forall i :: 1 <= i < |chunks| ==> chunks[i] == chunks[1..][i - 1];
      1 + FirstSaying(chunks[1..])
  }

  predicate NotBegun(s: ChatToClaude.State) {
    !s.started && s.pendingStop == "" && !s.stopSent
  }

  lemma SilentChunk(s: ChatToClaude.State, c: Chunk)
    requires NotBegun(s) && Items(c) == []
    ensures var r := ChatToClaude.MapStep(s, c);
            && r.out == [] && NotBegun(r.s) && r.s.messageId == s.messageId && r.s.requestedModel == s.requestedModel
            && r.s.model == if s.requestedModel != "" then s.requestedModel else if s.model != "" then s.model else c.model
  {
    hide Items;
  }

  lemma FirstItem(c: Chunk, s: ChatToClaude.State, it: Item)
    requires NotBegun(s)
    ensures var out := ChatToClaude.ItemStep(c, s, it).out;
            out != [] && out[0] == ChatToClaude.EnsureStart(c, s).out[0]
  {
    hide ChatToClaude.TextStep, ChatToClaude.ToolStep, ChatToClaude.OpenThinking, ChatToClaude.CloseBlocks, ChatToClaude.StopEvents;
  }

  lemma SayingChunk(s: ChatToClaude.State, c: Chunk)
    requires NotBegun(s) && Items(c) != []
    ensures var out := ChatToClaude.MapStep(s, c).out;
            && out != []
            && out[0] == MessageStart(Some(Message(if c.id != "" then c.id else s.messageId,
                                                   if s.requestedModel != "" then s.requestedModel else if c.model != "" then c.model else s.model,
                                                   ClaudeUsage(0, 0, 0))))
  {
    hide Items, ChatToClaude.ItemStep;
    var t := ChatToClaude.WithUsage(c, ChatToClaude.WithModel(c, s));
    FirstItem(c, t, Items(c)[0]);
  }

  lemma {:induction false} StartsWith(s: ChatToClaude.State, chunks: seq<Chunk>)
    requires NotBegun(s)
    ensures var k, out := FirstSaying(chunks), ChatToClaude.Run(s, chunks).out;
            if k == |chunks| then out == [] && NotBegun(ChatToClaude.Run(s, chunks).s)
            else && out != []
                 && out[0] == MessageStart(Some(Message(if chunks[k].id != "" then chunks[k].id else s.messageId,
                                                        if s.requestedModel != "" then s.requestedModel
                                                        else if chunks[k].model != "" then chunks[k].model
                                                        else if s.model != "" then s.model else FirstModel("", chunks[..k]),
                                                        ClaudeUsage(0, 0, 0))))
    decreases chunks
  {
    hide Items, ChatToClaude.MapStep;
    if chunks != [] {
      var c := chunks[0];
      if Items(c) != [] {
        SayingChunk(s, c);
      } else {
        SilentChunk(s, c);
        StartsWith(ChatToClaude.MapStep(s, c).s, chunks[1..]);
        var k := FirstSaying(chunks);
        if k < |chunks| {
          assert chunks[..k][1..] == chunks[1..][..k - 1];
        }
      }
    }
  }

  /** The message starts with the id and model of the first chunk that says anything; where that has none, with an id of
      its own, and with the model asked for or one that was named before. */
  lemma StartTold(freshID: string, requested: string, chunks: seq<Chunk>)
    ensures var es := ChatToClaude.Converted(ChatToClaude.Initial(freshID, requested), chunks);
            var k := FirstSaying(chunks);
            && (es == [] <==> k == |chunks|)
            && (k < |chunks| ==>
                  es[0] == MessageStart(Some(Message(if chunks[k].id != "" then chunks[k].id else freshID,
                                                     if requested != "" then requested
                                                     else if chunks[k].model != "" then chunks[k].model else FirstModel("", chunks[..k]),
                                                     ClaudeUsage(0, 0, 0)))))
  {
    hide Items, ChatToClaude.Run, FirstModel;
    StartsWith(ChatToClaude.Initial(freshID, requested), chunks);
  }

  // ---- media ----

  /** A text that is a data URI of this type and content. */
  predicate IsMedia(text: string, mediaType: string, data: string) {
    && ',' !in mediaType
    && (text == "data:" + mediaType + ";base64," + data
        || (text == "data:" + mediaType + "," + data && !(|mediaType| >= 7 && mediaType[|mediaType| - 7..] == ";base64")))
  }

  lemma HeadOf(head: string, data: string)
    requires ',' !in head
    ensures var text := "data:" + head + "," + data;
            ChatToClaude.ParseDataURI(text) == Some((ChatToClaude.TrimSuffix(head, ";base64"), data))
  {
    hide ChatToClaude.TrimSuffix, ChatToClaude.IndexOf;
    var text := "data:" + head + "," + data;
    assert text[..5] == "data:" && text[5..] == head + "," + data;
    var content := text[5..];
    var i := ChatToClaude.IndexOf(content, ',');
    assert content[|head|] == ',';
    assert forall j :: 0 <= j < |head| ==> content[j] == head[j];
    assert i <= |head| by {
      assert forall j :: 0 <= j < i ==> content[..i][j] == content[j];
    }
    assert i == |head|;
    assert content[..i] == head && content[i + 1..] == data;
  }

  lemma SuffixOf(mediaType: string)
    ensures ChatToClaude.TrimSuffix(mediaType + ";base64", ";base64") == mediaType
    ensures !(|mediaType| >= 7 && mediaType[|mediaType| - 7..] == ";base64") ==> ChatToClaude.TrimSuffix(mediaType, ";base64") == mediaType
  {
    var head := mediaType + ";base64";
    assert head[|head| - 7..] == ";base64" && head[..|head| - 7] == mediaType;
  }

  lemma MediaParses(text: string, mediaType: string, data: string)
    requires IsMedia(text, mediaType, data)
    ensures ChatToClaude.ParseDataURI(text) == Some((mediaType, data))
  {
    hide ChatToClaude.ParseDataURI, ChatToClaude.TrimSuffix;
    SuffixOf(mediaType);
    if text == "data:" + mediaType + ";base64," + data {
      var head := mediaType + ";base64";
      assert text == "data:" + head + "," + data;
      HeadOf(head, data);
    } else {
      HeadOf(mediaType, data);
    }
  }

  lemma ParsedIsMedia(text: string, mediaType: string, data: string)
    requires ChatToClaude.ParseDataURI(text) == Some((mediaType, data))
    ensures IsMedia(text, mediaType, data)
  {
    hide ChatToClaude.IndexOf;
    var content := text[5..];
    var i := ChatToClaude.IndexOf(content, ',');
    var head := content[..i];
    assert text == "data:" + head + "," + data;
    if |head| >= 7 && head[|head| - 7..] == ";base64" {
      assert head == mediaType + ";base64";
      assert text == "data:" + mediaType + ";base64," + data;
    }
  }

  /** A text is taken for media exactly if it is a data URI, and is then sent as one block of its type and content, opened
      and closed at once. */
  lemma MediaTold(s: ChatToClaude.State, text: string, mediaType: string, data: string)
    ensures ChatToClaude.ParseDataURI(text) == Some((mediaType, data)) <==> IsMedia(text, mediaType, data)
    ensures IsMedia(text, mediaType, data) ==>
              ChatToClaude.TextStep(s, text).out ==
              [BlockStart(s.nextIndex, Some(Media(|mediaType| >= 6 && mediaType[..6] == "image/", mediaType, data))), BlockStop(s.nextIndex)]
  {
    hide ChatToClaude.ParseDataURI, IsMedia;
    if ChatToClaude.ParseDataURI(text) == Some((mediaType, data)) {
      ParsedIsMedia(text, mediaType, data);
    }
    if IsMedia(text, mediaType, data) {
      MediaParses(text, mediaType, data);
    }
  }

  // ---- Chat -> Responses ----

  /** The ids and models that events carry are these. */
  predicate Named(out: seq<ResponsesGrammar.Sent>, id: string, model: string) {
    forall i :: 0 <= i < |out| ==>
      && (out[i].Created? ==> out[i] == ResponsesGrammar.Created(id, model))
      && (out[i].Completed? ==> out[i].id == id && out[i].model == model)
  }

  lemma NamedConcat(a: seq<ResponsesGrammar.Sent>, b: seq<ResponsesGrammar.Sent>, id: string, model: string)
    requires Named(a, id, model) && Named(b, id, model)
    ensures Named(a + b, id, model)
  {
  }

  predicate Plain(out: seq<ResponsesGrammar.Sent>) {
    forall i :: 0 <= i < |out| ==> !out[i].Created? && !out[i].Completed?
  }

  lemma {:induction false} ClosesPlain(s: ChatToResponses.State, order: seq<int>)
    ensures Plain(ChatToResponses.ToolCloses(s, order))
    decreases |order|
  {
    if order != [] {
      ClosesPlain(s, order[1..]);
    }
  }

  /** `model` is what the state would name, this chunk's model included. */
  predicate WouldName(s: ChatToResponses.State, c: Chunk, model: string) {
    s.model == model && (s.requestedModel != "" ==> model == s.requestedModel) && (model == "" ==> c.model == "")
  }

  lemma CreatedNamed(c: Chunk, s: ChatToResponses.State, model: string)
    requires WouldName(s, c, model)
    ensures var a := ChatToResponses.EnsureCreated(c, s);
            && Named(a.out, s.responseId, model) && WouldName(a.s, c, model)
            && a.s.responseId == s.responseId && a.s.requestedModel == s.requestedModel
  {
  }

  lemma PlainNamed(a: seq<ResponsesGrammar.Sent>, b: seq<ResponsesGrammar.Sent>, id: string, model: string)
    requires Named(a, id, model) && Plain(b)
    ensures Named(a + b, id, model)
  {
  }

  lemma TextPlain(s: ChatToResponses.State, t: string)
    ensures var r := ChatToResponses.TextStep(s, t);
            Plain(r.out) && r.s.model == s.model && r.s.responseId == s.responseId && r.s.requestedModel == s.requestedModel
  {
  }

  lemma ToolPlain(s: ChatToResponses.State, td: ToolDelta)
    ensures var r := ChatToResponses.ToolStep(s, td);
            Plain(r.out) && r.s.model == s.model && r.s.responseId == s.responseId && r.s.requestedModel == s.requestedModel
  {
    hide ChatToResponses.ItemIdOf;
  }

  lemma TextClosePlain(s: ChatToResponses.State)
    ensures Plain(ChatToResponses.TextClose(s))
  {
  }

  lemma FinishNamed(c: Chunk, s: ChatToResponses.State, order: seq<int>, model: string)
    requires WouldName(s, c, model)
    ensures var r := ChatToResponses.FinishStep(c, s, order);
            && Named(r.out, s.responseId, model) && WouldName(r.s, c, model)
            && r.s.responseId == s.responseId && r.s.requestedModel == s.requestedModel
  {
    hide ChatToResponses.EnsureCreated, ChatToResponses.ToolCloses, ChatToResponses.TextClose, ChatToResponses.Reported;
    CreatedNamed(c, s, model);
    var a := ChatToResponses.EnsureCreated(c, s);
    ClosesPlain(a.s, order);
    TextClosePlain(a.s);
    PlainNamed(a.out, ChatToResponses.TextClose(a.s), s.responseId, model);
    var out := a.out + ChatToResponses.TextClose(a.s);
    PlainNamed(out, ChatToResponses.ToolCloses(a.s, order), s.responseId, model);
    NamedConcat(out + ChatToResponses.ToolCloses(a.s, order), ChatToResponses.CompletedEvents(a.s), s.responseId, model);
  }

  lemma ItemNamed(c: Chunk, s: ChatToResponses.State, it: Item, order: seq<int>, model: string)
    requires WouldName(s, c, model)
    ensures var r := ChatToResponses.ItemStep(c, s, it, order);
            && Named(r.out, s.responseId, model) && WouldName(r.s, c, model)
            && r.s.responseId == s.responseId && r.s.requestedModel == s.requestedModel
  {
    hide ChatToResponses.EnsureCreated, ChatToResponses.FinishStep, ChatToResponses.TextStep, ChatToResponses.ToolStep, Named;
    CreatedNamed(c, s, model);
    var a := ChatToResponses.EnsureCreated(c, s);
    match it
    case Finish(_) => FinishNamed(c, s, order, model);
    case Content(t) =>
      TextPlain(a.s, t);
      PlainNamed(a.out, ChatToResponses.TextStep(a.s, t).out, s.responseId, model);
    case Tool(td) =>
      ToolPlain(a.s, td);
      PlainNamed(a.out, ChatToResponses.ToolStep(a.s, td).out, s.responseId, model);
    case _ => NothingNamed(s.responseId, model);
  }

  lemma {:induction false} ItemsNamed(c: Chunk, s: ChatToResponses.State, items: seq<Item>, order: seq<int>, model: string)
    requires WouldName(s, c, model)
    ensures var r := ChatToResponses.ItemsRun(c, s, items, order);
            && Named(r.out, s.responseId, model) && WouldName(r.s, c, model)
            && r.s.responseId == s.responseId && r.s.requestedModel == s.requestedModel
    decreases items
  {
    hide ChatToResponses.ItemStep, WouldName, Named;
    if items == [] {
      NothingNamed(s.responseId, model);
    } else {
      ItemNamed(c, s, items[0], order, model);
      var a := ChatToResponses.ItemStep(c, s, items[0], order);
      ItemsNamed(c, a.s, items[1..], order, model);
      NamedConcat(a.out, ChatToResponses.ItemsRun(c, a.s, items[1..], order).out, s.responseId, model);
    }
  }

  lemma NothingNamed(id: string, model: string)
    ensures Named([], id, model)
  {
  }

  /** The state keeps the first model named. */
  predicate KeepsModel(s: ChatToResponses.State, id: string, requested: string, model: string) {
    s.responseId == id && s.requestedModel == requested && s.model == model && (requested != "" ==> model == requested)
  }

  lemma UsageNamed(s: ChatToResponses.State, c: Chunk, id: string, requested: string, model: string)
    requires KeepsModel(s, id, requested, model)
    ensures var u := ChatToResponses.UsageStep(c, ChatToResponses.WithModel(c, s));
            var now := if model != "" then model else c.model;
            Named(u.out, id, now) && KeepsModel(u.s, id, requested, now) && WouldName(u.s, c, now)
  {
    hide ChatToResponses.SentUsage;
  }

  lemma ChunkNamed(s: ChatToResponses.State, c: Chunk, order: seq<int>, id: string, requested: string, model: string)
    requires KeepsModel(s, id, requested, model)
    ensures var r := ChatToResponses.MapStep(s, c, order);
            var now := if model != "" then model else c.model;
            Named(r.out, id, now) && KeepsModel(r.s, id, requested, now)
  {
    hide ChatToResponses.ItemsRun, ChatToResponses.UsageStep, ChatToResponses.WithModel, Items, Named;
    var now := if model != "" then model else c.model;
    var u := ChatToResponses.UsageStep(c, ChatToResponses.WithModel(c, s));
    UsageNamed(s, c, id, requested, model);
    ItemsNamed(c, u.s, Items(c), order, now);
    NamedConcat(u.out, ChatToResponses.ItemsRun(c, u.s, Items(c), order).out, id, now);
  }

  lemma {:induction false} ResponsesSnoc(s: ChatToResponses.State, chunks: seq<Chunk>, orders: seq<seq<int>>, c: Chunk, order: seq<int>)
    requires |orders| == |chunks|
    ensures ChatToResponses.Run(s, chunks + [c], orders + [order]).s
         == ChatToResponses.MapStep(ChatToResponses.Run(s, chunks, orders).s, c, order).s
    decreases chunks
  {
    hide ChatToResponses.MapStep;
    if chunks == [] {
      assert [] + [c] == [c] && [c][1..] == [] && [] + [order] == [order] && [order][1..] == [];
    } else {
      assert (chunks + [c])[1..] == chunks[1..] + [c] && (orders + [order])[1..] == orders[1..] + [order];
      assert (chunks + [c])[0] == chunks[0] && (orders + [order])[0] == orders[0];
      ResponsesSnoc(ChatToResponses.MapStep(s, chunks[0], orders[0]).s, chunks[1..], orders[1..], c, order);
    }
  }

  lemma {:induction false} ModelKept(id: string, messageId: string, requested: string, chunks: seq<Chunk>, orders: seq<seq<int>>, n: nat)
    requires |orders| == |chunks| && n <= |chunks|
    ensures KeepsModel(ChatToResponses.Run(ChatToResponses.Initial(id, messageId, requested), chunks[..n], orders[..n]).s, id, requested,
                       FirstModel(requested, chunks[..n]))
    decreases n
  {
    hide ChatToResponses.MapStep, KeepsModel, FirstModel, ChatToResponses.Run;
    var s0 := ChatToResponses.Initial(id, messageId, requested);
    if n == 0 {
      assert chunks[..0] == [] && orders[..0] == [];
      StartsKeeping(id, messageId, requested);
    } else {
      ModelKept(id, messageId, requested, chunks, orders, n - 1);
      assert chunks[..n] == chunks[..n - 1] + [chunks[n - 1]] && orders[..n] == orders[..n - 1] + [orders[n - 1]];
      ResponsesSnoc(s0, chunks[..n - 1], orders[..n - 1], chunks[n - 1], orders[n - 1]);
      ChunkNamed(ChatToResponses.Run(s0, chunks[..n - 1], orders[..n - 1]).s, chunks[n - 1], orders[n - 1], id, requested,
                 FirstModel(requested, chunks[..n - 1]));
      FirstModelSnoc(requested, chunks[..n - 1], chunks[n - 1]);
    }
  }

  lemma StartsKeeping(id: string, messageId: string, requested: string)
    ensures KeepsModel(ChatToResponses.Run(ChatToResponses.Initial(id, messageId, requested), [], []).s, id, requested, FirstModel(requested, []))
  {
  }

  /** response.created and response.completed carry the response's id, and the model asked for or the first that was
      named up to then. */
  lemma ResponseNamed(id: string, messageId: string, requested: string, chunks: seq<Chunk>, orders: seq<seq<int>>)
    requires |orders| == |chunks|
    ensures var s0 := ChatToResponses.Initial(id, messageId, requested);
            && (forall i :: 0 <= i < |chunks| ==>
                  Named(ChatToResponses.MapStep(ChatToResponses.Run(s0, chunks[..i], orders[..i]).s, chunks[i], orders[i]).out, id,
                        FirstModel(requested, chunks[..i + 1])))
            && Named(ChatToResponses.FlushStep(ChatToResponses.Run(s0, chunks, orders).s).out, id, FirstModel(requested, chunks))
  {
    hide ChatToResponses.MapStep, KeepsModel, FirstModel, ChatToResponses.Run, Named;
    var s0 := ChatToResponses.Initial(id, messageId, requested);
    forall i | 0 <= i < |chunks|
      ensures Named(ChatToResponses.MapStep(ChatToResponses.Run(s0, chunks[..i], orders[..i]).s, chunks[i], orders[i]).out, id,
                    FirstModel(requested, chunks[..i + 1])) {
      ModelKept(id, messageId, requested, chunks, orders, i);
      ChunkNamed(ChatToResponses.Run(s0, chunks[..i], orders[..i]).s, chunks[i], orders[i], id, requested, FirstModel(requested, chunks[..i]));
      assert chunks[..i + 1] == chunks[..i] + [chunks[i]];
      FirstModelSnoc(requested, chunks[..i], chunks[i]);
    }
    ModelKept(id, messageId, requested, chunks, orders, |chunks|);
    assert chunks[..|chunks|] == chunks && orders[..|orders|] == orders;
    FlushNamed(ChatToResponses.Run(s0, chunks, orders).s, id, requested, FirstModel(requested, chunks));
  }

  lemma FlushNamed(s: ChatToResponses.State, id: string, requested: string, model: string)
    requires KeepsModel(s, id, requested, model)
    ensures Named(ChatToResponses.FlushStep(s).out, id, model)
  {
    hide ChatToResponses.SentUsage;
  }

  /** A new call is announced under its own id, as an item whose id is made from it, and its text comes with that item. */
  lemma CallItems(s: ChatToResponses.State, td: ToolDelta)
    requires td.Key() !in s.tools && td.id != ""
    ensures var out := ChatToResponses.ToolStep(s, td).out;
            && |out| == (if td.args == "" then 1 else 2)
            && out[0] == ResponsesGrammar.ItemAdded(s.next, ResponsesGrammar.NewCall("fc-" + td.id, td.id, td.name))
            && (td.args != "" ==> out[1] == ResponsesGrammar.ArgsDelta("fc-" + td.id, s.next, td.args))
  {
  }

  // ---- chunks of Chat streams ----

  predicate RoleChunk(c: Chunk) {
    && |c.choices| == 1 && c.choices[0] == Choice(Some(Delta("assistant", "", "", [])), None) && c.usage.None?
  }

  predicate NoRole(c: Chunk) {
    forall i :: 0 <= i < |c.choices| && c.choices[i].delta.Some? ==> c.choices[i].delta.value.role == ""
  }

  /** All chunks carry this id and model; the first gives the role if `first` holds, and no other does. */
  predicate Enveloped(out: seq<Chunk>, id: string, model: string, first: bool) {
    && (first ==> out != [] && RoleChunk(out[0]))
    && (forall i :: 0 <= i < |out| ==> out[i].id == id && out[i].model == model)
    && (forall i :: (if first then 1 else 0) <= i < |out| ==> NoRole(out[i]))
  }

  // ---- Anthropic -> Chat ----

  /** The last id a message_start gave, or the mapper's own. */
  function ClaudeId(id: string, es: seq<ClaudeEvent>): string {
    if es == [] then id
    else
      var last := es[|es| - 1];
      if last.MessageStart? && last.message.Some? && last.message.value.id != "" then last.message.value.id else ClaudeId(id, es[..|es| - 1])
  }

  /** The model asked for, or else the last one a message_start named. */
  function ClaudeModel(requested: string, es: seq<ClaudeEvent>): string {
    if requested != "" || es == [] then requested
    else
      var last := es[|es| - 1];
      if last.MessageStart? && last.message.Some? && last.message.value.model != "" then last.message.value.model
      else ClaudeModel(requested, es[..|es| - 1])
  }

  lemma {:induction false} ClaudeSnoc(s: ClaudeToChat.State, es: seq<ClaudeEvent>, e: ClaudeEvent)
    ensures ClaudeToChat.Run(s, es + [e]).s == ClaudeToChat.MapStep(ClaudeToChat.Run(s, es).s, e).s
    decreases es
  {
    hide ClaudeToChat.MapStep;
    if es == [] {
      assert [] + [e] == [e] && [e][1..] == [];
    } else {
      assert (es + [e])[1..] == es[1..] + [e] && (es + [e])[0] == es[0];
      ClaudeSnoc(ClaudeToChat.MapStep(s, es[0]).s, es[1..], e);
    }
  }

  lemma StartStep(s: ClaudeToChat.State, m: Option<Message>)
    ensures var r := ClaudeToChat.MapStep(s, MessageStart(m));
            && r.s.requestedModel == s.requestedModel
            && r.s.responseId == (if m.Some? && m.value.id != "" then m.value.id else s.responseId)
            && r.s.model == (if m.None? then s.model else if s.requestedModel != "" then s.requestedModel
                             else if m.value.model != "" then m.value.model else s.model)
            && Enveloped(r.out, r.s.responseId, r.s.model, true)
  {
    hide ClaudeToChat.Merge;
  }

  lemma ClaudeStep(s: ClaudeToChat.State, e: ClaudeEvent)
    ensures var r := ClaudeToChat.MapStep(s, e);
            var start := e.MessageStart? && e.message.Some?;
            && r.s.requestedModel == s.requestedModel
            && r.s.responseId == (if start && e.message.value.id != "" then e.message.value.id else s.responseId)
            && r.s.model == (if !start then s.model else if s.requestedModel != "" then s.requestedModel
                             else if e.message.value.model != "" then e.message.value.model else s.model)
            && Enveloped(r.out, r.s.responseId, r.s.model, e.MessageStart?)
  {
    hide ClaudeToChat.Merge, ClaudeToChat.Ready;
    if e.MessageStart? {
      hide ClaudeToChat.MapStep, Enveloped;
      StartStep(s, e.message);
    }
  }

  lemma {:induction false} ClaudeState(id: string, requested: string, es: seq<ClaudeEvent>)
    ensures var s := ClaudeToChat.Run(ClaudeToChat.Initial(id, requested), es).s;
            s.responseId == ClaudeId(id, es) && s.requestedModel == requested && s.model == ClaudeModel(requested, es)
    decreases |es|
  {
    hide ClaudeToChat.MapStep, Enveloped;
    if es != [] {
      var p, last := es[..|es| - 1], es[|es| - 1];
      ClaudeState(id, requested, p);
      assert es == p + [last];
      ClaudeSnoc(ClaudeToChat.Initial(id, requested), p, last);
      ClaudeStep(ClaudeToChat.Run(ClaudeToChat.Initial(id, requested), p).s, last);
    }
  }

  /** Every chunk sent for an event carries the id and model known by then, and each message_start, and nothing
      else, gives the role. */
  lemma ChatNamedForClaude(id: string, requested: string, es: seq<ClaudeEvent>, i: nat)
    requires i < |es|
    ensures var s := ClaudeToChat.Run(ClaudeToChat.Initial(id, requested), es[..i]).s;
            Enveloped(ClaudeToChat.MapStep(s, es[i]).out, ClaudeId(id, es[..i + 1]), ClaudeModel(requested, es[..i + 1]), es[i].MessageStart?)
  {
    hide ClaudeToChat.MapStep, Enveloped, ClaudeToChat.Run, ClaudeId, ClaudeModel;
    var s0 := ClaudeToChat.Initial(id, requested);
    ClaudeState(id, requested, es[..i]);
    ClaudeState(id, requested, es[..i + 1]);
    assert es[..i + 1] == es[..i] + [es[i]];
    ClaudeSnoc(s0, es[..i], es[i]);
    ClaudeStep(ClaudeToChat.Run(s0, es[..i]).s, es[i]);
  }

  // ---- usage ----

  /** The prompt count: of the last message_start, or of a later message_delta that has one. */
  function PromptSeen(es: seq<ClaudeEvent>): int {
    if es == [] then 0
    else
      var p, last := es[..|es| - 1], es[|es| - 1];
      match last
      case MessageStart(Some(m)) => m.usage.input
      case MessageDelta(_, Some(u)) => if u.input > 0 then u.input else PromptSeen(p)
      case _ => PromptSeen(p)
  }

  /** The completion count comes from message_delta only. */
  function CompletionSeen(es: seq<ClaudeEvent>): int {
    if es == [] then 0
    else
      var p, last := es[..|es| - 1], es[|es| - 1];
      match last
      case MessageStart(Some(_)) => 0
      case MessageDelta(_, Some(u)) => u.output
      case _ => CompletionSeen(p)
  }

  /** Cached tokens, if there were any. */
  function CachedSeen(es: seq<ClaudeEvent>): Option<int> {
    if es == [] then None
    else
      var p, last := es[..|es| - 1], es[|es| - 1];
      match last
      case MessageStart(Some(m)) => if m.usage.cacheRead > 0 then Some(m.usage.cacheRead) else None
      case MessageDelta(_, Some(u)) => if u.cacheRead > 0 then Some(u.cacheRead) else CachedSeen(p)
      case _ => CachedSeen(p)
  }

  function UsageSeen(es: seq<ClaudeEvent>): Usage {
    Usage(PromptSeen(es), CompletionSeen(es), PromptSeen(es) + CompletionSeen(es),
          if CachedSeen(es).Some? then Some(PromptDetails(CachedSeen(es).value, 0, 0)) else None, None)
  }

  /** A message_delta has given usage. */
  predicate Reporting(es: seq<ClaudeEvent>) {
    exists i :: 0 <= i < |es| && es[i].MessageDelta? && es[i].usage.Some?
  }

  /** What the mapper holds of usage. */
  predicate HoldsUsage(s: ClaudeToChat.State, es: seq<ClaudeEvent>) {
    && s.usageFromDelta == Reporting(es)
    && (if s.usage.Some? then s.usage.value == UsageSeen(es) else UsageSeen(es) == Usage(0, 0, 0, None, None))
    && (Reporting(es) ==> s.usage.Some?)
  }

  lemma SeenSnoc(es: seq<ClaudeEvent>, e: ClaudeEvent)
    ensures PromptSeen(es + [e]) == match e
              case MessageStart(Some(m)) => m.usage.input
              case MessageDelta(_, Some(u)) => if u.input > 0 then u.input else PromptSeen(es)
              case _ => PromptSeen(es)
    ensures CompletionSeen(es + [e]) == match e
              case MessageStart(Some(_)) => 0
              case MessageDelta(_, Some(u)) => u.output
              case _ => CompletionSeen(es)
    ensures CachedSeen(es + [e]) == match e
              case MessageStart(Some(m)) => if m.usage.cacheRead > 0 then Some(m.usage.cacheRead) else None
              case MessageDelta(_, Some(u)) => if u.cacheRead > 0 then Some(u.cacheRead) else CachedSeen(es)
              case _ => CachedSeen(es)
    ensures Reporting(es + [e]) <==> Reporting(es) || (e.MessageDelta? && e.usage.Some?)
  {
    var all := es + [e];
    assert all[..|all| - 1] == es && all[|all| - 1] == e;
    if i :| 0 <= i < |es| && es[i].MessageDelta? && es[i].usage.Some? {
      assert all[i] == es[i];
    }
    if e.MessageDelta? && e.usage.Some? {
      assert all[|es|] == e;
    }
  }

  lemma UsageHeld(s: ClaudeToChat.State, es: seq<ClaudeEvent>, e: ClaudeEvent)
    requires HoldsUsage(s, es)
    ensures HoldsUsage(ClaudeToChat.MapStep(s, e).s, es + [e])
  {
    hide Reporting, PromptSeen, CompletionSeen, CachedSeen;
    SeenSnoc(es, e);
  }

  lemma {:induction false} UsageState(id: string, requested: string, es: seq<ClaudeEvent>)
    ensures HoldsUsage(ClaudeToChat.Run(ClaudeToChat.Initial(id, requested), es).s, es)
    decreases |es|
  {
    hide ClaudeToChat.MapStep, HoldsUsage;
    if es == [] {
      NoUsageYet(id, requested);
    } else {
      var p, last := es[..|es| - 1], es[|es| - 1];
      UsageState(id, requested, p);
      assert es == p + [last];
      ClaudeSnoc(ClaudeToChat.Initial(id, requested), p, last);
      UsageHeld(ClaudeToChat.Run(ClaudeToChat.Initial(id, requested), p).s, p, last);
    }
  }

  lemma NoUsageYet(id: string, requested: string)
    ensures HoldsUsage(ClaudeToChat.Run(ClaudeToChat.Initial(id, requested), []).s, [])
  {
  }

  /** A message_delta with a stop reason or usage sends one chunk, any other one none. It has a finish reason exactly if
      there is a stop reason, and all usage seen so far exactly if a message_delta has given some. */
  lemma DeltaReports(id: string, requested: string, es: seq<ClaudeEvent>, i: nat)
    requires i < |es| && es[i].MessageDelta?
    ensures var out := ClaudeToChat.MapStep(ClaudeToChat.Run(ClaudeToChat.Initial(id, requested), es[..i]).s, es[i]).out;
            && |out| == (if es[i].stopReason != "" || es[i].usage.Some? then 1 else 0)
            && (out != [] ==>
                  && (Finishes(out[0]) <==> es[i].stopReason != "")
                  && out[0].usage == if Reporting(es[..i + 1]) then Some(UsageSeen(es[..i + 1])) else None)
  {
    hide ClaudeToChat.Run, UsageSeen, Reporting;
    var s := ClaudeToChat.Run(ClaudeToChat.Initial(id, requested), es[..i]).s;
    UsageState(id, requested, es[..i]);
    UsageHeld(s, es[..i], es[i]);
    assert es[..i + 1] == es[..i] + [es[i]];
    hide HoldsUsage, ClaudeToChat.Merge;
    DeltaSends(s, es[i], es[..i + 1]);
  }

  lemma DeltaSends(s: ClaudeToChat.State, e: ClaudeEvent, seen: seq<ClaudeEvent>)
    requires e.MessageDelta? && HoldsUsage(ClaudeToChat.MapStep(s, e).s, seen)
    ensures var out := ClaudeToChat.MapStep(s, e).out;
            && |out| == (if e.stopReason != "" || e.usage.Some? then 1 else 0)
            && (out != [] ==>
                  && (Finishes(out[0]) <==> e.stopReason != "")
                  && out[0].usage == if Reporting(seen) then Some(UsageSeen(seen)) else None)
  {
    hide UsageSeen, Reporting, ClaudeToChat.Merge;
  }

  // ---- Responses -> Chat ----

  function ResponseId(id: string, es: seq<Responses.Event>): string {
    if es == [] then id
    else
      var last := es[|es| - 1];
      if last.Created? && last.id != "" then last.id else ResponseId(id, es[..|es| - 1])
  }

  function ResponseModel(requested: string, es: seq<Responses.Event>): string {
    if requested != "" || es == [] then requested
    else
      var last := es[|es| - 1];
      if last.Created? && last.model != "" then last.model else ResponseModel(requested, es[..|es| - 1])
  }

  /** Events that give the role if none did before. Text does not. */
  predicate GivesRole(e: Responses.Event) {
    e.Created? || (e.ReasoningDelta? && e.text != "") || Responses.Announces(e)
  }

  predicate RoleGiven(es: seq<Responses.Event>) {
    exists i :: 0 <= i < |es| && GivesRole(es[i])
  }

  lemma RoleGivenSnoc(es: seq<Responses.Event>, e: Responses.Event)
    ensures RoleGiven(es + [e]) <==> RoleGiven(es) || GivesRole(e)
  {
    hide GivesRole;
    var all := es + [e];
    assert forall i :: 0 <= i < |es| ==> all[i] == es[i];
    assert all[|es|] == e;
  }

  /** The same sender, with the same role given or not. */
  predicate SameSender(s: ResponsesToChat.State, t: ResponsesToChat.State) {
    t.responseId == s.responseId && t.model == s.model && t.requestedModel == s.requestedModel && t.roleSent == s.roleSent
  }

  lemma AddedSends(s: ResponsesToChat.State, e: Responses.Event)
    requires e.ItemAdded?
    ensures var r := ResponsesToChat.AddedStep(s, e);
            && !r.failed && r.s.responseId == s.responseId && r.s.model == s.model && r.s.requestedModel == s.requestedModel
            && r.s.roleSent == (s.roleSent || Responses.Announces(e))
            && Enveloped(r.out, s.responseId, s.model, Responses.Announces(e) && !s.roleSent)
  {
    hide Responses.Trim, Responses.CallId, ResponsesToChat.TakePending, ResponsesToChat.EnsureTool, Responses.Announces;
    if Responses.Announces(e) {
      var (s1, idx) := ResponsesToChat.EnsureTool(s, e, Responses.CallId(e, s.nextTool));
      EntersCall(s, e, Responses.CallId(e, s.nextTool));
      TakesOnly(s1.(sawTool := true), e);
    }
  }

  lemma KeyKeeps(s: ResponsesToChat.State, e: Responses.Event, callId: string)
    requires e.ItemAdded? && callId != ""
    ensures var (t, key) := ResponsesToChat.KeyFor(s, e, callId); key.Some? && SameSender(s, t)
  {
    hide Responses.Trim, SameSender;
    var key := ResponsesToChat.CallKey(Responses.Trim(callId));
    SendsSame(s, key);
    if e.outputIndex.Some? {
      assert ResponsesToChat.KeyFor(s, e, callId) == (s, Some(ResponsesToChat.OutKey(e.outputIndex.value)));
    } else if Responses.Trim(e.itemId) != "" {
      assert ResponsesToChat.KeyFor(s, e, callId) == (s, Some(ResponsesToChat.ItemKey(Responses.Trim(e.itemId))));
    } else if e.item.id != "" {
      assert ResponsesToChat.KeyFor(s, e, callId) == (s, Some(ResponsesToChat.ItemKey(Responses.Trim(e.item.id))));
    } else if s.fallbackKey.Some? && s.fallbackKey.value != key {
      assert ResponsesToChat.KeyFor(s, e, callId) == (s.(ambiguous := true), Some(key));
    } else {
      assert ResponsesToChat.KeyFor(s, e, callId) == (s.(fallbackKey := Some(key)), Some(key));
    }
  }

  lemma SendsSame(s: ResponsesToChat.State, key: ResponsesToChat.Key)
    ensures SameSender(s, s) && SameSender(s, s.(ambiguous := true)) && SameSender(s, s.(fallbackKey := Some(key)))
  {
  }

  lemma EntersCall(s: ResponsesToChat.State, e: Responses.Event, callId: string)
    requires e.ItemAdded? && callId != ""
    ensures var (t, idx) := ResponsesToChat.EnsureTool(s, e, callId); idx.Some? && SameSender(s, t)
  {
    hide Responses.Trim, ResponsesToChat.KeyFor;
    KeyKeeps(s, e, callId);
  }

  lemma TakesOnly(s: ResponsesToChat.State, e: Responses.Event)
    requires e.ItemAdded?
    ensures SameSender(s, ResponsesToChat.TakePending(s, e).0)
  {
    hide ResponsesToChat.TakePending;
    ResponsesNamed.TakeFrame(s, e);
  }

  lemma FindKeeps(s: ResponsesToChat.State, out: Option<int>, id: string)
    ensures SameSender(s, ResponsesToChat.FindTool(s, out, id).0)
  {
    hide Responses.Trim, ResponsesToChat.Direct, ResponsesToChat.Fallback;
    var x := Responses.Trim(id);
    if ResponsesToChat.Direct(s, out, x).None? && ResponsesToChat.Fallback(s).Some? {
      var t := ResponsesToChat.FindTool(s, out, id).0;
      assert t == s.(outputToKey := t.outputToKey, itemToKey := t.itemToKey);
    }
  }

  lemma PutKeeps(s: ResponsesToChat.State, out: Option<int>, id: string, args: string)
    ensures SameSender(s, ResponsesToChat.PutPending(s, out, id, args))
  {
    hide Responses.Trim, ResponsesToChat.At;
  }

  lemma ArgsSend(s: ResponsesToChat.State, e: Responses.Event)
    requires e.ArgsDelta?
    ensures var r := ResponsesToChat.ArgsStep(s, e);
            !r.failed && SameSender(s, r.s) && Enveloped(r.out, s.responseId, s.model, false)
  {
    hide ResponsesToChat.FindTool, ResponsesToChat.PutPending;
    FindKeeps(s, e.outputIndex, e.itemId);
    PutKeeps(ResponsesToChat.FindTool(s, e.outputIndex, e.itemId).0, e.outputIndex, e.itemId, e.args);
  }

  lemma ResponseStep(s: ResponsesToChat.State, e: Responses.Event)
    requires !e.Failed?
    ensures var r := ResponsesToChat.MapStep(s, e);
            && !r.failed && r.s.requestedModel == s.requestedModel
            && r.s.responseId == (if e.Created? && e.id != "" then e.id else s.responseId)
            && r.s.model == (if !e.Created? then s.model else if s.requestedModel != "" then s.requestedModel
                             else if e.model != "" then e.model else s.model)
            && r.s.roleSent == (s.roleSent || GivesRole(e))
            && Enveloped(r.out, r.s.responseId, r.s.model, GivesRole(e) && !s.roleSent)
  {
    hide ResponsesToChat.AddedStep, ResponsesToChat.ArgsStep, Responses.ChatUsage, Responses.EndReason, Responses.Separator, Responses.Trim;
    if e.ItemAdded? {
      AddedSends(s, e);
    } else if e.ArgsDelta? {
      ArgsSend(s, e);
    }
  }

  lemma {:induction false} ResponseState(id: string, requested: string, es: seq<Responses.Event>)
    requires forall i :: 0 <= i < |es| ==> !es[i].Failed?
    ensures var r := ResponsesToChat.Run(ResponsesToChat.Initial(id, requested), es);
            && !r.failed && r.s.responseId == ResponseId(id, es) && r.s.requestedModel == requested
            && r.s.model == ResponseModel(requested, es) && r.s.roleSent == RoleGiven(es)
    decreases |es|
  {
    hide ResponsesToChat.MapStep, Enveloped, GivesRole;
    if es != [] {
      var p, last := es[..|es| - 1], es[|es| - 1];
      ResponseState(id, requested, p);
      assert es == p + [last];
      Streams.ResponsesRunSnoc(ResponsesToChat.Initial(id, requested), p, last);
      ResponseStep(ResponsesToChat.Run(ResponsesToChat.Initial(id, requested), p).s, last);
      RoleGivenSnoc(p, last);
    }
  }

  /** Every chunk sent for an event carries the id and model known by then; the first event that gives the role does so
      with the first chunk it sends, and no other chunk gives it. */
  lemma ChatNamedForResponses(id: string, requested: string, es: seq<Responses.Event>, i: nat)
    requires i < |es| && forall j :: 0 <= j <= i ==> !es[j].Failed?
    ensures var s := ResponsesToChat.Run(ResponsesToChat.Initial(id, requested), es[..i]).s;
            Enveloped(ResponsesToChat.MapStep(s, es[i]).out, ResponseId(id, es[..i + 1]), ResponseModel(requested, es[..i + 1]),
                      GivesRole(es[i]) && !RoleGiven(es[..i]))
  {
    hide ResponsesToChat.MapStep, Enveloped, ResponsesToChat.Run, ResponseId, ResponseModel, GivesRole, RoleGiven;
    var s0 := ResponsesToChat.Initial(id, requested);
    ResponseState(id, requested, es[..i]);
    ResponseState(id, requested, es[..i + 1]);
    assert es[..i + 1] == es[..i] + [es[i]];
    Streams.ResponsesRunSnoc(s0, es[..i], es[i]);
    ResponseStep(ResponsesToChat.Run(s0, es[..i]).s, es[i]);
  }
}
