/** The write loops that put two mappers in a row: every decoded event goes through the first,
    each Chat chunk it gives through the second, and a stream read to its end is flushed. */
module Streams {
  import opened Wire
  import Responses
  import ResponsesGrammar
  import ResponsesToChat
  import ChatToClaude
  import ClaudeToChat
  import ChatToResponses
  import ResponsesOutput

  /** A data line of the upstream stream, if it could be decoded. */
  type Line<T> = Option<T>

  /** The decoded events before the first bad line. */
  function Decoded<T>(lines: seq<Line<T>>): (es: seq<T>)
    ensures |es| <= |lines| && forall i :: 0 <= i < |es| ==> lines[i] == Some(es[i])
    ensures |es| < |lines| ==> lines[|es|].None?
  {
    if lines == [] || lines[0].None? then [] else [lines[0].value] + Decoded(lines[1..])
  }

  lemma {:induction false} DecodedSnoc<T>(lines: seq<Line<T>>, n: nat)
    requires n < |lines| && |Decoded(lines[..n])| == n
    ensures if lines[n].Some? then Decoded(lines[..n + 1]) == Decoded(lines[..n]) + [lines[n].value]
            else Decoded(lines[..n + 1]) == Decoded(lines[..n]) && Decoded(lines) == Decoded(lines[..n])
  {
    var a, b := Decoded(lines[..n]), Decoded(lines[..n + 1]);
    assert forall i :: 0 <= i < n ==> lines[..n][i] == lines[i] && lines[..n + 1][i] == lines[i];
    assert forall i :: 0 <= i < n ==> lines[i].Some?;
    assert lines[..n + 1][n] == lines[n];
    assert |b| >= n;
    assert |Decoded(lines)| >= n;
  }

  // ---- Responses -> Chat -> Anthropic ----

  /** Running a mapper over one list after another. */
  lemma {:induction false} ClaudeRunConcat(s: ChatToClaude.State, a: seq<Chunk>, b: seq<Chunk>)
    ensures var r := ChatToClaude.Run(s, a);
            ChatToClaude.Run(s, a + b) == ChatToClaude.After(r.out, ChatToClaude.Run(r.s, b))
    decreases a
  {
    hide ChatToClaude.MapStep;
    if a == [] {
      assert a + b == b;
    } else {
      assert (a + b)[1..] == a[1..] + b;
      ClaudeRunConcat(ChatToClaude.MapStep(s, a[0]).s, a[1..], b);
    }
  }

  lemma ClaudeRunOne(s: ChatToClaude.State, c: Chunk)
    ensures ChatToClaude.Run(s, [c]) == ChatToClaude.MapStep(s, c)
  {
    hide ChatToClaude.MapStep;
    var a := ChatToClaude.MapStep(s, c);
    assert ChatToClaude.Run(a.s, [c][1..]) == ChatToClaude.Step(a.s, []);
    assert a.out + [] == a.out;
  }

  method ForwardToClaude(mapper2: ChatToClaude.Mapper, chunks: seq<Chunk>) returns (sent: seq<ClaudeEvent>)
    requires mapper2.Valid()
    modifies mapper2
    ensures mapper2.Valid()
    ensures ChatToClaude.Step(mapper2.View(), sent) == ChatToClaude.Run(old(mapper2.View()), chunks)
  {
    hide ChatToClaude.MapStep, ChatToClaude.Run, ChatToClaude.DistinctTools;
    sent := [];
    ClaudeRunNone(mapper2.View());
    for i := 0 to |chunks|
      invariant mapper2.Valid()
      invariant ChatToClaude.Step(mapper2.View(), sent) == ChatToClaude.Run(old(mapper2.View()), chunks[..i])
    {
      ghost var s := mapper2.View();
      var events := mapper2.Map(chunks[i]);
      ClaudeRunConcat(old(mapper2.View()), chunks[..i], [chunks[i]]);
      ClaudeRunOne(s, chunks[i]);
      assert chunks[..i + 1] == chunks[..i] + [chunks[i]];
      sent := sent + events;
    }
    assert chunks[..|chunks|] == chunks;
  }

  lemma ClaudeRunNone(s: ChatToClaude.State)
    ensures ChatToClaude.Run(s, []) == ChatToClaude.Step(s, [])
  {
  }

  lemma ResponsesRunNone(s: ResponsesToChat.State)
    ensures ResponsesToChat.Run(s, []) == ResponsesToChat.Step(s, [], false)
  {
  }

  lemma {:induction false} ResponsesRunSnoc(s: ResponsesToChat.State, es: seq<Responses.Event>, e: Responses.Event)
    ensures var r := ResponsesToChat.Run(s, es);
            ResponsesToChat.Run(s, es + [e]) ==
              if r.failed then r
              else var a := ResponsesToChat.MapStep(r.s, e); ResponsesToChat.Step(a.s, r.out + a.out, a.failed)
    decreases es
  {
    hide ResponsesToChat.MapStep;
    if es == [] {
      assert [] + [e] == [e] && [e][1..] == [];
      var a := ResponsesToChat.MapStep(s, e);
      assert a.out + [] == a.out && [] + a.out == a.out;
    } else {
      assert (es + [e])[1..] == es[1..] + [e];
      ResponsesRunSnoc(ResponsesToChat.MapStep(s, es[0]).s, es[1..], e);
    }
  }

  lemma {:induction false} FailedRunStops(s: ResponsesToChat.State, a: seq<Responses.Event>, b: seq<Responses.Event>)
    requires ResponsesToChat.Run(s, a).failed
    ensures ResponsesToChat.Run(s, a + b) == ResponsesToChat.Run(s, a)
    decreases a
  {
    hide ResponsesToChat.MapStep;
    if a == [] {
    } else {
      assert (a + b)[1..] == a[1..] + b;
      if !ResponsesToChat.MapStep(s, a[0]).failed {
        FailedRunStops(ResponsesToChat.MapStep(s, a[0]).s, a[1..], b);
      }
    }
  }

  lemma {:induction false} DecodedPrefix<T>(lines: seq<Line<T>>, n: nat)
    requires n <= |Decoded(lines)|
    ensures Decoded(lines[..n]) == Decoded(lines)[..n]
  {
    var a, b := Decoded(lines[..n]), Decoded(lines);
    assert forall i :: 0 <= i < n ==> lines[..n][i] == lines[i] && lines[i].Some?;
    assert |a| == n;
  }

  /** What the client of a Responses upstream receives in Anthropic's protocol: the two conversions,
      one after the other, of the events before the first bad or failed one; the closing events
      only if there is no such event. */
  method WriteResponsesStreamAsClaude(freshChatID: string, freshMessageID: string, requested: string,
                                      lines: seq<Line<Responses.Event>>)
    returns (sent: seq<ClaudeEvent>, ok: bool)
    ensures var es := Decoded(lines);
            var chat := ResponsesToChat.Run(ResponsesToChat.Initial(freshChatID, requested), es);
            var s2 := ChatToClaude.Initial(freshMessageID, requested);
            && (ok <==> |es| == |lines| && !chat.failed)
            && sent == if ok then ChatToClaude.Converted(s2, chat.out) else ChatToClaude.Run(s2, chat.out).out
  {
    hide ResponsesToChat.MapStep, ResponsesToChat.Run, ChatToClaude.Run, ChatToClaude.FlushStep, ChatToClaude.DistinctTools, Decoded;
    var mapper1 := new ResponsesToChat.Mapper(freshChatID, requested);
    var mapper2 := new ChatToClaude.Mapper(freshMessageID, requested);
    ghost var s1, s2 := mapper1.View(), mapper2.View();
    ghost var es: seq<Responses.Event> := [];
    ghost var chat := ResponsesToChat.Step(s1, [], false);
    sent, ok := [], true;
    ResponsesRunNone(s1);
    ClaudeRunNone(s2);
    assert lines[..0] == [];
    NothingDecoded<Responses.Event>();
    for i := 0 to |lines|
      invariant mapper1 != mapper2 as object && mapper2.Valid()
      invariant es == Decoded(lines[..i]) && |es| == i
      invariant chat == ResponsesToChat.Run(s1, es) == ResponsesToChat.Step(mapper1.View(), chat.out, false)
      invariant ChatToClaude.Step(mapper2.View(), sent) == ChatToClaude.Run(s2, chat.out)
    {
      DecodedSnoc(lines, i);
      if lines[i].None? {
        ok := false;
        return;
      }
      var chunks, failed := mapper1.Map(lines[i].value);
      ResponsesRunSnoc(s1, es, lines[i].value);
      es := es + [lines[i].value];
      if failed {
        ok := false;
        FailureSendsNothing(chat.s, lines[i].value);
        assert chat.out + [] == chat.out;
        CutShort(s1, lines, i + 1);
        return;
      }
      var events := ForwardToClaude(mapper2, chunks);
      ClaudeRunConcat(s2, chat.out, chunks);
      sent := sent + events;
      chat := ResponsesToChat.Run(s1, es);
    }
    assert lines[..|lines|] == lines;
    var events := mapper2.Flush();
    sent := sent + events;
  }

  lemma NothingDecoded<T>()
    ensures Decoded<T>([]) == []
  {
  }

  lemma FailureSendsNothing(s: ResponsesToChat.State, e: Responses.Event)
    ensures ResponsesToChat.MapStep(s, e).failed ==> ResponsesToChat.MapStep(s, e).out == []
  {
    hide ResponsesToChat.AddedStep, ResponsesToChat.ArgsStep, ResponsesToChat.ReasoningStep;
    NeverFails(s, e);
  }

  lemma NeverFails(s: ResponsesToChat.State, e: Responses.Event)
    ensures e.ItemAdded? ==> !ResponsesToChat.AddedStep(s, e).failed
    ensures e.ArgsDelta? ==> !ResponsesToChat.ArgsStep(s, e).failed
    ensures e.ReasoningDelta? ==> !ResponsesToChat.ReasoningStep(s, e.text).failed
  {
  }

  lemma CutShort(s: ResponsesToChat.State, lines: seq<Line<Responses.Event>>, n: nat)
    requires n <= |lines| && |Decoded(lines[..n])| == n && ResponsesToChat.Run(s, Decoded(lines[..n])).failed
    ensures ResponsesToChat.Run(s, Decoded(lines)) == ResponsesToChat.Run(s, Decoded(lines[..n]))
  {
    hide ResponsesToChat.Run;
    LongerDecodes(lines, n);
    DecodedPrefix(lines, n);
    FailedRunStops(s, Decoded(lines)[..n], Decoded(lines)[n..]);
    assert Decoded(lines)[..n] + Decoded(lines)[n..] == Decoded(lines);
  }

  lemma LongerDecodes<T>(lines: seq<Line<T>>, n: nat)
    requires n <= |lines| && |Decoded(lines[..n])| == n
    ensures |Decoded(lines)| >= n
  {
    assert forall i :: 0 <= i < n ==> lines[..n][i] == lines[i] && lines[i].Some?;
  }

  // ---- Anthropic -> Chat -> Responses ----

  /** A sent event with its sequence_number. */
  datatype Numbered = Numbered(number: int, event: ResponsesGrammar.Sent)

  function Events(ns: seq<Numbered>): (es: seq<ResponsesGrammar.Sent>)
    ensures |es| == |ns| && forall i :: 0 <= i < |ns| ==> es[i] == ns[i].event
  {
    seq(|ns|, i requires 0 <= i < |ns| => ns[i].event)
  }

  /** The numbers are 0, 1, 2, ... */
  predicate InSequence(ns: seq<Numbered>) {
    forall i :: 0 <= i < |ns| ==> ns[i].number == i
  }

  class Sequencer {
    var next: int

    constructor ()
      ensures next == 0
    {
      next := 0;
    }

    method Rewrite(e: ResponsesGrammar.Sent) returns (n: Numbered)
      modifies this
      ensures n == Numbered(old(next), e) && next == old(next) + 1
    {
      n := Numbered(next, e);
      next := next + 1;
    }
  }

  method WriteEvents(sequencer: Sequencer, events: seq<ResponsesGrammar.Sent>, before: seq<Numbered>) returns (sent: seq<Numbered>)
    requires sequencer.next == |before| && InSequence(before)
    modifies sequencer
    ensures InSequence(sent) && sequencer.next == |sent| && Events(sent) == Events(before) + events
  {
    sent := before;
    for i := 0 to |events|
      invariant InSequence(sent) && sequencer.next == |sent| == |before| + i
      invariant Events(sent) == Events(before) + events[..i]
    {
      var n := sequencer.Rewrite(events[i]);
      sent := sent + [n];
      assert Events(sent) == Events(before) + events[..i] + [events[i]];
      assert events[..i + 1] == events[..i] + [events[i]];
    }
    assert events[..|events|] == events;
  }

  lemma {:induction false} ResponsesOrdersConcat(s: ChatToResponses.State, a: seq<Chunk>, ao: seq<seq<int>>, b: seq<Chunk>, bo: seq<seq<int>>)
    requires |ao| == |a| && |bo| == |b|
    ensures var r := ChatToResponses.Run(s, a, ao);
            && ChatToResponses.Run(s, a + b, ao + bo) == ChatToResponses.After(r.out, ChatToResponses.Run(r.s, b, bo))
            && (ResponsesOutput.OrdersFit(s, a + b, ao + bo) <==>
                ResponsesOutput.OrdersFit(s, a, ao) && ResponsesOutput.OrdersFit(r.s, b, bo))
    decreases a
  {
    hide ChatToResponses.MapStep, ChatToResponses.OrderFits;
    if a == [] {
      assert a + b == b && ao + bo == bo;
    } else {
      assert (a + b)[1..] == a[1..] + b && (ao + bo)[1..] == ao[1..] + bo;
      assert (a + b)[0] == a[0] && (ao + bo)[0] == ao[0];
      ResponsesOrdersConcat(ChatToResponses.MapStep(s, a[0], ao[0]).s, a[1..], ao[1..], b, bo);
    }
  }

  lemma OneOrder(s: ChatToResponses.State, c: Chunk, order: seq<int>)
    ensures ChatToResponses.Run(s, [c], [order]) == ChatToResponses.MapStep(s, c, order)
    ensures ResponsesOutput.OrdersFit(s, [c], [order]) <==> ChatToResponses.OrderFits(s, c, order)
  {
    hide ChatToResponses.MapStep, ChatToResponses.OrderFits;
    var a := ChatToResponses.MapStep(s, c, order);
    assert [c][1..] == [] && [order][1..] == [];
    assert ChatToResponses.Run(a.s, [], []) == ChatToResponses.Step(a.s, []);
    assert a.out + [] == a.out;
  }

  lemma NoOrder(s: ChatToResponses.State)
    ensures ChatToResponses.Run(s, [], []) == ChatToResponses.Step(s, []) && ResponsesOutput.OrdersFit(s, [], [])
  {
  }

  method ForwardToResponses(mapper2: ChatToResponses.Mapper, chunks: seq<Chunk>)
    returns (sent: seq<ResponsesGrammar.Sent>, ghost orders: seq<seq<int>>)
    requires mapper2.Valid()
    modifies mapper2
    ensures mapper2.Valid() && |orders| == |chunks|
    ensures ChatToResponses.Step(mapper2.View(), sent) == ChatToResponses.Run(old(mapper2.View()), chunks, orders)
    ensures ResponsesOutput.OrdersFit(old(mapper2.View()), chunks, orders)
  {
    hide ChatToResponses.MapStep, ChatToResponses.Run, ChatToResponses.OrderFits, ResponsesOutput.OrdersFit;
    sent, orders := [], [];
    NoOrder(mapper2.View());
    for i := 0 to |chunks|
      invariant mapper2.Valid() && |orders| == i
      invariant ChatToResponses.Step(mapper2.View(), sent) == ChatToResponses.Run(old(mapper2.View()), chunks[..i], orders)
      invariant ResponsesOutput.OrdersFit(old(mapper2.View()), chunks[..i], orders)
    {
      ghost var s := mapper2.View();
      ghost var order: seq<int>;
      var events;
      events, order := mapper2.Map(chunks[i]);
      ResponsesOrdersConcat(old(mapper2.View()), chunks[..i], orders, [chunks[i]], [order]);
      OneOrder(s, chunks[i], order);
      assert chunks[..i + 1] == chunks[..i] + [chunks[i]];
      sent, orders := sent + events, orders + [order];
    }
    assert chunks[..|chunks|] == chunks;
  }

  lemma {:induction false} ClaudeEventsConcat(s: ClaudeToChat.State, a: seq<ClaudeEvent>, b: seq<ClaudeEvent>)
    ensures var r := ClaudeToChat.Run(s, a);
            var t := ClaudeToChat.Run(r.s, b);
            ClaudeToChat.Run(s, a + b) == ClaudeToChat.Step(t.s, r.out + t.out)
    decreases a
  {
    hide ClaudeToChat.MapStep;
    if a == [] {
      assert a + b == b;
    } else {
      assert (a + b)[1..] == a[1..] + b && (a + b)[0] == a[0];
      ClaudeEventsConcat(ClaudeToChat.MapStep(s, a[0]).s, a[1..], b);
    }
  }

  lemma OneClaudeEvent(s: ClaudeToChat.State, e: ClaudeEvent)
    ensures ClaudeToChat.Run(s, [e]) == ClaudeToChat.MapStep(s, e)
  {
    hide ClaudeToChat.MapStep;
    var a := ClaudeToChat.MapStep(s, e);
    assert [e][1..] == [] && ClaudeToChat.Run(a.s, []) == ClaudeToChat.Step(a.s, []);
    assert a.out + [] == a.out;
  }

  lemma NoClaudeEvents(s: ClaudeToChat.State)
    ensures ClaudeToChat.Run(s, []) == ClaudeToChat.Step(s, [])
  {
  }

  /** What the client of an Anthropic upstream receives in the Responses protocol, numbered from 0. */
  method WriteAnthropicStreamAsResponses(freshChatID: string, freshResponseID: string, freshItemID: string, requested: string,
                                         lines: seq<Line<ClaudeEvent>>)
    returns (sent: seq<Numbered>, ok: bool, ghost orders: seq<seq<int>>)
    ensures InSequence(sent)
    ensures var es := Decoded(lines);
            var chunks := ClaudeToChat.Converted(ClaudeToChat.Initial(freshChatID, requested), es);
            var s2 := ChatToResponses.Initial(freshResponseID, freshItemID, requested);
            && (ok <==> |es| == |lines|)
            && |orders| == |chunks| && ResponsesOutput.OrdersFit(s2, chunks, orders)
            && Events(sent) == if ok then ChatToResponses.Converted(s2, chunks, orders) else ChatToResponses.Run(s2, chunks, orders).out
  {
    hide ClaudeToChat.MapStep, ClaudeToChat.Run, ChatToResponses.Run, ChatToResponses.FlushStep, ResponsesOutput.OrdersFit, Decoded;
    var mapper1 := new ClaudeToChat.Mapper(freshChatID, requested);
    var mapper2 := new ChatToResponses.Mapper(freshResponseID, freshItemID, requested);
    var sequencer := new Sequencer();
    ghost var s1, s2 := mapper1.View(), mapper2.View();
    ghost var es: seq<ClaudeEvent> := [];
    ghost var chat: seq<Chunk> := [];
    sent, ok, orders := [], true, [];
    NoClaudeEvents(s1);
    NoOrder(s2);
    assert lines[..0] == [];
    NothingDecoded<ClaudeEvent>();
    for i := 0 to |lines|
      invariant mapper2.Valid() && sequencer.next == |sent| && InSequence(sent)
      invariant es == Decoded(lines[..i]) && |es| == i
      invariant ClaudeToChat.Step(mapper1.View(), chat) == ClaudeToChat.Run(s1, es)
      invariant |orders| == |chat| && ResponsesOutput.OrdersFit(s2, chat, orders)
      invariant ChatToResponses.Step(mapper2.View(), Events(sent)) == ChatToResponses.Run(s2, chat, orders)
    {
      DecodedSnoc(lines, i);
      if lines[i].None? {
        ok := false;
        return;
      }
      ghost var v1, v2 := mapper1.View(), mapper2.View();
      var chunks := mapper1.Map(lines[i].value);
      ClaudeEventsConcat(s1, es, [lines[i].value]);
      OneClaudeEvent(v1, lines[i].value);
      es := es + [lines[i].value];
      ghost var more: seq<seq<int>>;
      var events;
      events, more := ForwardToResponses(mapper2, chunks);
      ResponsesOrdersConcat(s2, chat, orders, chunks, more);
      sent := WriteEvents(sequencer, events, sent);
      chat, orders := chat + chunks, orders + more;
    }
    assert lines[..|lines|] == lines;
    var events := mapper2.Flush();
    sent := WriteEvents(sequencer, events, sent);
  }

  // ---- which streams fail ----

  lemma StepFailsIff(s: ResponsesToChat.State, e: Responses.Event)
    ensures ResponsesToChat.MapStep(s, e).failed <==> e.Failed?
  {
    hide ResponsesToChat.AddedStep, ResponsesToChat.ArgsStep, ResponsesToChat.ReasoningStep;
    NeverFails(s, e);
  }

  /** Where the upstream reports a failure, the conversion stops: it fails there, and sends what the events before it gave
      and no more. Without such an event it does not fail. */
  lemma {:induction false} FailsIff(s: ResponsesToChat.State, es: seq<Responses.Event>, k: nat)
    requires k <= |es| && (forall i :: 0 <= i < k ==> !es[i].Failed?) && (k < |es| ==> es[k].Failed?)
    ensures var r, before := ResponsesToChat.Run(s, es), ResponsesToChat.Run(s, es[..k]);
            (r.failed <==> k < |es|) && r.out == before.out && !before.failed
    decreases k
  {
    hide ResponsesToChat.MapStep;
    if k > 0 {
      StepFailsIff(s, es[0]);
      assert es[..k][1..] == es[1..][..k - 1];
      FailsIff(ResponsesToChat.MapStep(s, es[0]).s, es[1..], k - 1);
    } else if es != [] {
      StepFailsIff(s, es[0]);
      FailureSendsNothing(s, es[0]);
    }
  }
}
