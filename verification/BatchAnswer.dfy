/** What the answer made from a whole response object says, told from its output list item by item and part by
    part, from the front. */
module BatchAnswer {
  import opened Wire
  import opened Responses
  import opened Batch

  // ---- texts in their order ----

  function Joined(ts: seq<string>): string {
    if ts == [] then "" else ts[0] + Joined(ts[1..])
  }

  lemma {:induction false} JoinedConcat(a: seq<string>, b: seq<string>)
    ensures Joined(a + b) == Joined(a) + Joined(b)
  {
    if a == [] {
      assert a + b == b;
    } else {
      assert (a + b)[1..] == a[1..] + b;
      JoinedConcat(a[1..], b);
    }
  }

  lemma JoinedOne(t: string)
    ensures Joined([t]) == t
  {
    assert [t][1..] == [] && t + "" == t;
  }

  /** The texts of the parts of one kind, or of all. */
  function PartTexts(ps: seq<Part>, kind: string): seq<string> {
    if ps == [] then []
    else (if kind == "" || ps[0].kind == kind then [ps[0].text] else []) + PartTexts(ps[1..], kind)
  }

  /** What the assistant's messages say. */
  function Spoken(os: seq<Output>): seq<string> {
    if os == [] then []
    else
      var o := os[0];
      (if o.kind == "message" && (o.role == "" || o.role == "assistant") then PartTexts(o.content, "output_text") else [])
      + Spoken(os[1..])
  }

  /** Whatever text there is. */
  function Anything(os: seq<Output>): seq<string> {
    if os == [] then [] else PartTexts(os[0].content, "") + Anything(os[1..])
  }

  /** The reasoning items' own texts, item by item. */
  function Details(os: seq<Output>): seq<string> {
    if os == [] then []
    else (if os[0].kind == "reasoning" then [Joined(PartTexts(os[0].content, "reasoning_text"))] else []) + Details(os[1..])
  }

  function Backwards(ts: seq<string>): seq<string> {
    if ts == [] then [] else Backwards(ts[1..]) + [ts[0]]
  }

  /** The parts of the summaries that are not blank. */
  function SummaryTexts(ps: seq<Part>): seq<string> {
    if ps == [] then []
    else (if ps[0].kind == "summary_text" && Trim(ps[0].text) != "" then [ps[0].text] else []) + SummaryTexts(ps[1..])
  }

  function Summaries(os: seq<Output>): seq<string> {
    if os == [] then [] else (if os[0].kind == "reasoning" then SummaryTexts(os[0].summary) else []) + Summaries(os[1..])
  }

  // ---- reading from the front and from the back ----

  lemma {:induction false} PartTextsSnoc(ps: seq<Part>, p: Part, kind: string)
    ensures PartTexts(ps + [p], kind) == PartTexts(ps, kind) + if kind == "" || p.kind == kind then [p.text] else []
  {
    if ps == [] {
      assert [p][1..] == [];
    } else {
      assert (ps + [p])[1..] == ps[1..] + [p] && (ps + [p])[0] == ps[0];
      PartTextsSnoc(ps[1..], p, kind);
      var first := if kind == "" || ps[0].kind == kind then [ps[0].text] else [];
      var more := if kind == "" || p.kind == kind then [p.text] else [];
      assert first + (PartTexts(ps[1..], kind) + more) == (first + PartTexts(ps[1..], kind)) + more;
    }
  }

  lemma {:induction false} PartsRead(ps: seq<Part>, kind: string)
    ensures TextOfParts(ps, kind) == Joined(PartTexts(ps, kind))
  {
    hide Joined;
    if ps == [] {
      JoinedNone();
    } else {
      var p, last := ps[..|ps| - 1], ps[|ps| - 1];
      assert ps == p + [last];
      PartsRead(p, kind);
      PartTextsSnoc(p, last, kind);
      JoinedMore(PartTexts(p, kind), last.text);
    }
  }

  lemma JoinedNone()
    ensures Joined([]) == ""
  {
  }

  lemma JoinedMore(ts: seq<string>, t: string)
    ensures Joined(ts + [t]) == Joined(ts) + t && Joined(ts) + "" == Joined(ts) && ts + [] == ts
  {
    JoinedConcat(ts, [t]);
    JoinedOne(t);
  }

  lemma {:induction false} SummarySnoc(ps: seq<Part>, p: Part)
    ensures SummaryTexts(ps + [p]) == SummaryTexts(ps) + if p.kind == "summary_text" && Trim(p.text) != "" then [p.text] else []
  {
    hide Trim;
    if ps == [] {
      assert [p][1..] == [];
    } else {
      assert (ps + [p])[1..] == ps[1..] + [p] && (ps + [p])[0] == ps[0];
      SummarySnoc(ps[1..], p);
      var first := if ps[0].kind == "summary_text" && Trim(ps[0].text) != "" then [ps[0].text] else [];
      var more := if p.kind == "summary_text" && Trim(p.text) != "" then [p.text] else [];
      assert first + (SummaryTexts(ps[1..]) + more) == (first + SummaryTexts(ps[1..])) + more;
    }
  }

  lemma {:induction false} SummaryRead(ps: seq<Part>)
    ensures SummaryText(ps) == Joined(SummaryTexts(ps))
  {
    hide Joined, Trim;
    if ps == [] {
      JoinedNone();
    } else {
      var p, last := ps[..|ps| - 1], ps[|ps| - 1];
      assert ps == p + [last];
      SummaryRead(p);
      SummarySnoc(p, last);
      JoinedMore(SummaryTexts(p), last.text);
    }
  }

  lemma {:induction false} SpokenConcat(a: seq<Output>, b: seq<Output>)
    ensures Spoken(a + b) == Spoken(a) + Spoken(b)
  {
    hide PartTexts, SummaryTexts, Joined;
    if a == [] {
      assert a + b == b;
    } else {
      assert (a + b)[1..] == a[1..] + b;
      SpokenConcat(a[1..], b);
    }
  }

  lemma {:induction false} AnythingConcat(a: seq<Output>, b: seq<Output>)
    ensures Anything(a + b) == Anything(a) + Anything(b)
  {
    hide PartTexts, SummaryTexts, Joined;
    if a == [] {
      assert a + b == b;
    } else {
      assert (a + b)[1..] == a[1..] + b;
      AnythingConcat(a[1..], b);
    }
  }

  lemma {:induction false} DetailsConcat(a: seq<Output>, b: seq<Output>)
    ensures Details(a + b) == Details(a) + Details(b)
  {
    hide PartTexts, SummaryTexts, Joined;
    if a == [] {
      assert a + b == b;
    } else {
      assert (a + b)[1..] == a[1..] + b;
      DetailsConcat(a[1..], b);
    }
  }

  lemma {:induction false} SummariesConcat(a: seq<Output>, b: seq<Output>)
    ensures Summaries(a + b) == Summaries(a) + Summaries(b)
  {
    hide PartTexts, SummaryTexts, Joined;
    if a == [] {
      assert a + b == b;
    } else {
      assert (a + b)[1..] == a[1..] + b;
      SummariesConcat(a[1..], b);
    }
  }

  lemma {:induction false} BackwardsSnoc(ts: seq<string>, t: string)
    ensures Backwards(ts + [t]) == [t] + Backwards(ts)
  {
    if ts == [] {
      assert [t][1..] == [];
    } else {
      assert (ts + [t])[1..] == ts[1..] + [t];
      BackwardsSnoc(ts[1..], t);
    }
  }

  lemma OneItem(o: Output)
    ensures Spoken([o]) == if o.kind == "message" && (o.role == "" || o.role == "assistant") then PartTexts(o.content, "output_text") else []
    ensures Anything([o]) == PartTexts(o.content, "")
    ensures Details([o]) == if o.kind == "reasoning" then [Joined(PartTexts(o.content, "reasoning_text"))] else []
    ensures Summaries([o]) == if o.kind == "reasoning" then SummaryTexts(o.summary) else []
  {
    hide PartTexts, SummaryTexts, Joined;
    assert [o][1..] == [];
  }

  lemma {:induction false} TextRead(os: seq<Output>)
    ensures MessageText(os) == Joined(Spoken(os)) && AnyText(os) == Joined(Anything(os))
  {
    hide Joined, PartTexts, TextOfParts, Spoken, Anything;
    if os == [] {
      JoinedNone();
      NoItems();
    } else {
      var p, last := os[..|os| - 1], os[|os| - 1];
      assert os == p + [last];
      TextRead(p);
      SpokenConcat(p, [last]);
      AnythingConcat(p, [last]);
      OneItem(last);
      PartsRead(last.content, "output_text");
      PartsRead(last.content, "");
      JoinedConcat(Spoken(p), Spoken([last]));
      JoinedConcat(Anything(p), Anything([last]));
      JoinedNone();
    }
  }

  lemma NoItems()
    ensures Spoken([]) == Anything([]) == Details([]) == Summaries([]) == Backwards([]) == []
  {
  }

  lemma ReasoningReadNext(p: seq<Output>, last: Output)
    requires last.kind == "reasoning" && ReasoningIn(p) == Joined(Backwards(Details(p))) + Joined(Summaries(p))
    ensures var os := p + [last]; ReasoningIn(os) == Joined(Backwards(Details(os))) + Joined(Summaries(os))
  {
    hide Joined, PartTexts, TextOfParts, SummaryTexts, SummaryText, Details, Summaries, Backwards;
    var os := p + [last];
    assert os[..|os| - 1] == p;
    DetailsConcat(p, [last]);
    SummariesConcat(p, [last]);
    OneItem(last);
    PartsRead(last.content, "reasoning_text");
    SummaryRead(last.summary);
    JoinedConcat(Summaries(p), Summaries([last]));
    var own := Joined(PartTexts(last.content, "reasoning_text"));
    BackwardsSnoc(Details(p), own);
    JoinedConcat([own], Backwards(Details(p)));
    JoinedOne(own);
    var d, s, t := Joined(Backwards(Details(p))), Joined(Summaries(p)), Joined(Summaries([last]));
    assert own + ((d + s) + t) == (own + d) + (s + t);
  }

  lemma OtherReadNext(p: seq<Output>, last: Output)
    requires last.kind != "reasoning"
    ensures ReasoningIn(p + [last]) == ReasoningIn(p)
    ensures Details(p + [last]) == Details(p) && Joined(Summaries(p + [last])) == Joined(Summaries(p))
  {
    hide Joined, PartTexts, TextOfParts, SummaryTexts, SummaryText, Details, Summaries;
    assert (p + [last])[..|p|] == p;
    DetailsConcat(p, [last]);
    SummariesConcat(p, [last]);
    OneItem(last);
    JoinedConcat(Summaries(p), Summaries([last]));
    JoinedNone();
    assert Details(p) + [] == Details(p);
  }

  lemma {:induction false} ReasoningRead(os: seq<Output>)
    ensures ReasoningIn(os) == Joined(Backwards(Details(os))) + Joined(Summaries(os))
  {
    if os == [] {
      JoinedNone();
      NoItems();
    } else {
      hide Joined, Details, Summaries, Backwards, ReasoningIn;
      var p, last := os[..|os| - 1], os[|os| - 1];
      assert os == p + [last];
      ReasoningRead(p);
      if last.kind == "reasoning" {
        ReasoningReadNext(p, last);
      } else {
        OtherReadNext(p, last);
      }
    }
  }

  // ---- calls ----

  /** A call item with a name that is not blank, as Chat has it. */
  function CallsIn(os: seq<Output>): seq<AnswerCall> {
    if os == [] then []
    else
      var o := os[0];
      (if o.kind == "function_call" && Trim(o.name) != ""
       then [AnswerCall(Trim(if Trim(o.callId) == "" then o.id else o.callId), Trim(o.name), o.args)] else [])
      + CallsIn(os[1..])
  }

  lemma {:induction false} CallsSnoc(os: seq<Output>, o: Output)
    ensures CallsIn(os + [o]) == CallsIn(os) + CallsIn([o])
  {
    hide Trim;
    if os == [] {
      assert [o][1..] == [];
    } else {
      assert (os + [o])[1..] == os[1..] + [o];
      CallsSnoc(os[1..], o);
    }
  }

  lemma {:induction false} CallsRead(os: seq<Output>)
    ensures CallsOf(os) == CallsIn(os)
  {
    hide Trim;
    if os != [] {
      var p, last := os[..|os| - 1], os[|os| - 1];
      assert os == p + [last];
      CallsRead(p);
      CallsSnoc(p, last);
      assert [last][1..] == [];
    }
  }

  lemma {:induction false} SomeCall(os: seq<Output>)
    ensures CallsIn(os) != [] <==> exists i :: 0 <= i < |os| && os[i].kind == "function_call" && Trim(os[i].name) != ""
  {
    hide Trim;
    if os != [] {
      SomeCall(os[1..]);
      assert forall i :: 0 <= i < |os| - 1 ==> os[1..][i] == os[i + 1];
      if i :| 0 <= i < |os| && os[i].kind == "function_call" && Trim(os[i].name) != "" && i > 0 {
        assert os[1..][i - 1] == os[i];
      }
    }
  }

  // ---- the answer ----

  /** For every object that is converted: the text is that of the assistant's messages in order, or all text there is
      when that is empty; the reasoning items' own texts come first, the last item's before the others', and
      their summaries after them in order; calls come in order; and what the reason is. */
  lemma AnswerTold(o: Object)
    ensures var a := AnswerOf(o);
            && a.text == (if Joined(Spoken(o.output)) != "" then Joined(Spoken(o.output)) else Joined(Anything(o.output)))
            && a.reasoning == Joined(Backwards(Details(o.output))) + Joined(Summaries(o.output))
            && a.calls == CallsIn(o.output)
            && (a.finish == "content_filter" <==> o.status == "incomplete" && o.incompleteReason.Some? && Trim(o.incompleteReason.value) == "content_filter")
            && (a.finish == "length" <==> o.status == "incomplete" && !(o.incompleteReason.Some? && Trim(o.incompleteReason.value) == "content_filter"))
            && (a.finish == "tool_calls" <==> o.status != "incomplete" && CallsIn(o.output) != [])
            && (a.finish == "stop" <==> o.status != "incomplete" && CallsIn(o.output) == [])
  {
    hide Joined, Spoken, Anything, Backwards, Details, Summaries, CallsIn, Trim, MessageText, AnyText, ReasoningIn, CallsOf;
    TextRead(o.output);
    ReasoningRead(o.output);
    CallsRead(o.output);
  }

  lemma {:induction false} NothingElse(ts: seq<string>)
    requires forall i :: 0 <= i < |ts| ==> ts[i] == ""
    ensures Joined(ts) == Joined(Backwards(ts)) == ""
  {
    if ts != [] {
      NothingElse(ts[1..]);
      JoinedMore(Backwards(ts[1..]), ts[0]);
    }
  }

  /** The own texts are in the order of their items when no more than one of them is not empty. */
  lemma {:induction false} OneDetail(ts: seq<string>, k: nat)
    requires k < |ts| && forall i :: 0 <= i < |ts| && i != k ==> ts[i] == ""
    ensures Joined(Backwards(ts)) == Joined(ts) == ts[k]
  {
    var rest := ts[1..];
    assert forall i :: 0 <= i < |rest| ==> rest[i] == ts[i + 1];
    JoinedMore(Backwards(rest), ts[0]);
    if k == 0 {
      NothingElse(rest);
      assert "" + ts[0] == ts[0] && ts[0] + "" == ts[0];
    } else {
      OneDetail(rest, k - 1);
      assert ts[k] + "" == ts[k] && "" + ts[k] == ts[k];
    }
  }

  /** Two steps of reasoning come out the other way round. */
  lemma LastDetailFirst()
    ensures var step := (t: string) => Output("reasoning", "", "", "", "", "", [Part("reasoning_text", t)], []);
            ReasoningIn([step("first"), step("second")]) == "secondfirst"
  {
    hide TextOfParts, SummaryText;
    var step := (t: string) => Output("reasoning", "", "", "", "", "", [Part("reasoning_text", t)], []);
    var os := [step("first"), step("second")];
    assert os[..1] == [os[0]] && os[..1][..0] == [];
    OneStep("first");
    OneStep("second");
    assert ReasoningIn(os[..1]) == "first" + (ReasoningIn([]) + "");
    assert ReasoningIn(os) == "second" + (ReasoningIn(os[..1]) + "");
    assert "second" + (("first" + ("" + "")) + "") == "secondfirst";
  }

  lemma OneStep(t: string)
    ensures TextOfParts([Part("reasoning_text", t)], "reasoning_text") == t && SummaryText([]) == ""
  {
    var ps := [Part("reasoning_text", t)];
    assert ps[..0] == [] && "" + t == t;
  }

  /** An object is converted exactly if it did not fail and its messages hold nothing but output text and refusals. */
  lemma ConvertedIff(o: Object)
    ensures Convertible(o) <==>
            && o.status != "failed" && !o.failed
            && forall i, j :: 0 <= i < |o.output| && o.output[i].kind == "message" && 0 <= j < |o.output[i].content| ==>
                 o.output[i].content[j].kind == "output_text" || o.output[i].content[j].kind == "refusal"
  {
    if Convertible(o) {
      forall i, j | 0 <= i < |o.output| && o.output[i].kind == "message" && 0 <= j < |o.output[i].content|
        ensures o.output[i].content[j].kind == "output_text" || o.output[i].content[j].kind == "refusal" {
        assert Supported(o.output[i]);
      }
    }
  }

  /** A collected object has all details of usage: those that were given, and zeros for the others; in Chat's terms
      only the prompt details can differ. */
  lemma DetailsFilled(u: Responses.Usage)
    ensures var f := Filled(u);
            && f.details == Some(if u.details.Some? then u.details.value else PromptDetails(0, 0, 0))
            && f.outputReasoning.Some? && f.completionReasoning.Some?
            && (u.outputReasoning.Some? ==> f.outputReasoning == u.outputReasoning)
            && (u.completionReasoning.Some? ==> f.completionReasoning == u.completionReasoning)
            && (u.outputReasoning.None? && u.completionReasoning.None? ==> f.outputReasoning == f.completionReasoning == Some(0))
            && ChatUsage(f) == ChatUsage(u).(details := f.details)
  {
  }

  /** How a terminal event of a stream ends the Chat stream. */
  lemma EndTold(body: Option<Body>, tools: bool)
    ensures var reason := EndReason(body, tools);
            var cut := body.Some? && Trim(body.value.status) == "incomplete";
            var filtered := body.Some? && body.value.incompleteReason.Some? && Trim(body.value.incompleteReason.value) == "content_filter";
            && (reason == "content_filter" <==> cut && filtered)
            && (reason == "length" <==> cut && !filtered)
            && (reason == "tool_calls" <==> !cut && tools)
            && (reason == "stop" <==> !cut && !tools)
  {
    hide Trim;
  }
}
