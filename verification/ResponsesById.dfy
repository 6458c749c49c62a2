/** Responses -> Chat for streams that give item ids: when that is enough for all argument text to reach its
    call, in Chat and on in Anthropic, and when it is not. */
module ResponsesById {
  import opened Wire
  import opened Meaning
  import opened Responses
  import opened ResponsesToChat
  import opened ResponsesKept
  import opened ResponsesNamed
  import BatchAgrees
  import ChatToClaude
  import ClaudeGrammar

  // ---- item ids are enough ----

  /** Every call has one item id, and all its events give it. */
  ghost predicate WithIds(es: seq<Event>, own: map<string, int>) {
    && (forall i :: 0 <= i < |es| && IsTool(es[i]) ==> ItemIdOf(es[i]) != "")
    && (forall x, y :: x in own && y in own && own[x] == own[y] ==> x == y)
  }

  /** Deltas give the output index too, or none of them does. */
  ghost predicate Uniform(es: seq<Event>) {
    || (forall i :: 0 <= i < |es| && AddsArgs(es[i]) ==> !Indexed(es[i]))
    || (forall i :: 0 <= i < |es| && AddsArgs(es[i]) ==> Indexed(es[i]))
  }

  lemma {:induction false} NoIndexNoText(es: seq<Event>, n: nat, k: int)
    requires n <= |es| && forall i :: 0 <= i < |es| && AddsArgs(es[i]) ==> !Indexed(es[i])
    ensures ArgsFor(es[..n], k) == ""
    decreases n
  {
    hide ArgsFor;
    if n == 0 {
      assert es[..0] == [];
      NoText(k);
    } else {
      NoIndexNoText(es, n - 1, k);
      MoreArgs(es, n - 1, k);
    }
  }

  /** Then nothing is lost. */
  lemma IdsAreEnough(es: seq<Event>, own: map<string, int>)
    requires AllPlaced(es, own) && WithIds(es, own) && Uniform(es)
    ensures NothingLost(es, own)
  {
    hide OpenedAt, ArgsFor, Trim, Slot;
    forall i | 0 <= i < |es| && AddsArgs(es[i]) && OpenedAt(es, own, Slot(es[i], own)) < |es| ensures Arrives(es, own, i) {
      var j := OpenedAt(es, own, Slot(es[i], own));
      SameItem(es, own, i, j);
      if j >= i && Indexed(es[j]) && !Indexed(es[i]) {
        NoIndexNoText(es, j, IndexOf(es[j]));
      }
    }
  }

  lemma SameItem(es: seq<Event>, own: map<string, int>, i: nat, j: nat)
    requires AllPlaced(es, own) && WithIds(es, own) && i < |es| && j < |es| && AddsArgs(es[i]) && Opens(es[j], own, Slot(es[i], own))
    ensures ItemIdOf(es[i]) == ItemIdOf(es[j]) != ""
  {
    hide Trim, Slot;
    PlacedAt(es, own, i);
    PlacedAt(es, own, j);
  }

  // ---- streams without any output index ----

  /** Tool events give an item id and nothing else. */
  predicate ById(e: Event) {
    IsTool(e) ==> !Indexed(e) && ItemIdOf(e) != "" && OtherId(e) in {"", ItemIdOf(e)}
  }

  ghost predicate AllById(es: seq<Event>) {
    forall i :: 0 <= i < |es| ==> ById(es[i])
  }

  ghost predicate IdsOnce(es: seq<Event>) {
    forall i, j :: 0 <= i < j < |es| && Announces(es[i]) && Announces(es[j]) ==> ItemIdOf(es[i]) != ItemIdOf(es[j])
  }

  function FirstIn<T(==)>(xs: seq<T>, x: T): (i: nat)
    requires x in xs
    ensures i < |xs| && xs[i] == x
  {
    if xs[0] == x then 0 else 1 + FirstIn(xs[1..], x)
  }

  function ItemIds(es: seq<Event>): (ids: seq<string>)
    ensures |ids| == |es| && forall i :: 0 <= i < |es| ==> ids[i] == ItemIdOf(es[i])
  {
    seq(|es|, i requires 0 <= i < |es| => ItemIdOf(es[i]))
  }

  /** An item id is numbered by the first event that gives it. */
  function Numbers(es: seq<Event>): map<string, int> {
    var ids := ItemIds(es);
    map id | id in ids :: FirstIn(ids, id)
  }

  lemma NumbersFit(es: seq<Event>)
    requires AllById(es) && IdsOnce(es)
    ensures var own := Numbers(es); AllPlaced(es, own) && SlotsOnce(es, own) && WithIds(es, own) && Uniform(es)
    ensures forall i :: 0 <= i < |es| && IsTool(es[i]) ==> ItemIdOf(es[i]) in Numbers(es) && Slot(es[i], Numbers(es)) == Numbers(es)[ItemIdOf(es[i])]
  {
    hide Trim, FirstIn, Announces, AddsArgs;
    var own := Numbers(es);
    forall i | 0 <= i < |es| ensures ItemIdOf(es[i]) in own && ById(es[i]) {
    }
    forall i | 0 <= i < |es| ensures Placed(es[i], own) {
      ByIdPlaced(es[i], own);
    }
  }

  lemma ByIdPlaced(e: Event, own: map<string, int>)
    requires ById(e) && ItemIdOf(e) in own
    ensures Placed(e, own) && (IsTool(e) ==> Slot(e, own) == own[ItemIdOf(e)])
  {
    hide Trim;
  }

  function Count(es: seq<Event>, n: nat): nat
    requires n <= |es|
  {
    if n == 0 then 0 else Count(es, n - 1) + (if Announces(es[n - 1]) then 1 else 0)
  }

  /** Where an announcement stands among the calls. */
  lemma {:induction false} StandsAt(es: seq<Event>, own: map<string, int>, n: nat)
    requires n <= |es|
    ensures |Opened(es[..n], own)| == Count(es, n)
    ensures forall i :: 0 <= i < n && Announces(es[i]) ==>
              Count(es, i) < Count(es, n)
              && Opened(es[..n], own)[Count(es, i)] == Announcement(Slot(es[i], own), CallId(es[i], Count(es, i)), Trim(es[i].item.name))
    decreases n
  {
    hide Trim, CallId, Slot;
    if n > 0 {
      StandsAt(es, own, n - 1);
      PrefixSnoc(es, n - 1);
      var h := es[..n - 1];
      assert (h + [es[n - 1]])[..|h|] == h;
    } else {
      assert es[..0] == [];
    }
  }

  lemma {:induction false} SentById(es: seq<Event>, own: map<string, int>, n: nat, id: string)
    requires n <= |es| && id in own
    requires forall i :: 0 <= i < |es| && AddsArgs(es[i]) ==> (Slot(es[i], own) == own[id] <==> ItemIdOf(es[i]) == id)
    ensures SentText(es, own, n, own[id]) == IdText(es[..n], id)
    decreases n
  {
    hide Trim, IdText, Slot;
    if n > 0 {
      SentById(es, own, n - 1, id);
      MoreIdText(es, n - 1, id);
    } else {
      assert es[..0] == [];
      NoIdText(id);
    }
  }

  lemma IdOnly(e: Event)
    requires e.ItemAdded? && Trim(e.item.id) != ""
    ensures forall n :: CallId(e, n) == CallId(e, 0)
  {
    hide Trim;
  }

  /** Calls in the order of their announcements, each with all the text sent with its item id. */
  ghost predicate CallsById(es: seq<Event>, calls: seq<Call>) {
    && |calls| == Count(es, |es|)
    && forall i :: 0 <= i < |es| && Announces(es[i]) ==>
         Count(es, i) < |calls|
         && calls[Count(es, i)] == Call(Count(es, i), CallId(es[i], 0), Trim(es[i].item.name), IdText(es, ItemIdOf(es[i])))
  }

  /** A stream that gives item ids only, each announced once, read in Chat: every call has all the text sent with
      its item id, early or late, in order. */
  lemma ChatSaysById(id: string, requested: string, es: seq<Event>, completed: bool, body: Option<Body>)
    requires AllById(es) && IdsOnce(es) && Open(es)
    ensures var chunks := Converted(Initial(id, requested), es + [Ended(completed, body)]);
            var v := OfChat(chunks);
            && v.text == TextOf(es) && v.reasoning == ReasoningOf(es)
            && CallsById(es, v.calls)
            && v.finish == Some(EndReason(body, Count(es, |es|) != 0))
            && ReportedUsage(chunks, false, None) == SentUsage(body)
  {
    hide *;
    var own := Numbers(es);
    NumbersFit(es);
    IdsAreEnough(es, own);
    ChatSaysNamed(id, requested, es, completed, body, own);
    assert es[..|es|] == es;
    StandsAt(es, own, |es|);
    var v := OfChat(Converted(Initial(id, requested), es + [Ended(completed, body)]));
    EachArrives(es, own, v.calls);
    ArriveById(es, own, v.calls);
  }

  lemma ArriveById(es: seq<Event>, own: map<string, int>, calls: seq<Call>)
    requires own == Numbers(es) && AllById(es) && IdsOnce(es) && CallsArrive(es, own, calls)
    requires forall j :: 0 <= j < |Opened(es, own)| ==> j < |calls| && calls[j].args == SentText(es, own, |es|, Opened(es, own)[j].index)
    ensures CallsById(es, calls)
  {
    hide Trim, CallId, Opened, Slot, ArrivedText, SentText, IdText, FirstIn, Numbers, ById, IsToolKind;
    NumbersFit(es);
    assert es[..|es|] == es;
    StandsAt(es, own, |es|);
    forall i | 0 <= i < |es| && Announces(es[i])
      ensures Count(es, i) < |calls|
      ensures calls[Count(es, i)] == Call(Count(es, i), CallId(es[i], 0), Trim(es[i].item.name), IdText(es, ItemIdOf(es[i]))) {
      AnnouncedItem(es[i]);
      IdOnly(es[i]);
      SentById(es, own, |es|, ItemIdOf(es[i]));
    }
  }

  lemma AnnouncedItem(e: Event)
    requires Announces(e)
    ensures e.ItemAdded? && ItemIdOf(e) == Trim(e.item.id)
  {
  }

  // ---- on to Anthropic ----

  /** Responses -> Chat -> Anthropic with calls named in different ways: a well-formed stream that has every
      call with the text that arrives at it. */
  lemma ClaudeSaysNamed(id1: string, id2: string, requested: string, es: seq<Event>, completed: bool, body: Option<Body>, own: map<string, int>)
    requires AllPlaced(es, own) && SlotsOnce(es, own) && Open(es)
    ensures var chunks := Converted(Initial(id1, requested), es + [Ended(completed, body)]);
            var sent := ChatToClaude.Converted(ChatToClaude.Initial(id2, requested), chunks);
            var w := OfClaude(sent);
            && sent != [] && ClaudeGrammar.WellFormed(sent)
            && w.reasoning == ReasoningOf(es)
            && exists calls :: CallsArrive(es, own, calls) && SameCalls(calls, w.calls)
  {
    hide *;
    var g := Told(es, own);
    ToldIsGood(es, own);
    SentAsTold(id1, requested, es, completed, body, own);
    ClaudeSaysAll(id1, id2, requested, g, completed, body, own);
    var w := OfClaude(ChatToClaude.Converted(ChatToClaude.Initial(id2, requested), Converted(Initial(id1, requested), es + [Ended(completed, body)])));
    var calls :| AllCalls(g, calls) && SameCalls(calls, w.calls);
    AllArrive(es, own, calls);
    ToldProse(es, own, |es|);
    assert g[..|es|] == g && es[..|es|] == es;
    SayAlike(es, g);
  }

  // ---- and when they are not ----

  const MIXED := [ArgsDelta(false, Some(0), "item", "{"), ArgsDelta(false, None, "item", "}"),
                  ItemAdded(Some(0), "", ItemInfo("function_call", "item", "call", "f"))]

  /** Early text with an item id only is lost when other early text of the call came with its index as well. */
  lemma MixedTextIsLost(id: string, requested: string, completed: bool, body: Option<Body>)
    ensures var v := OfChat(Converted(Initial(id, requested), MIXED + [Ended(completed, body)]));
            |v.calls| == 1 && v.calls[0].args == "{"
  {
    hide *;
    var own: map<string, int> := map["item" := 0];
    MixedFits(own);
    MixedText(own);
    ChatSaysNamed(id, requested, MIXED, completed, body, own);
    FirstCall(OfChat(Converted(Initial(id, requested), MIXED + [Ended(completed, body)])).calls, own);
  }

  lemma FirstCall(calls: seq<Call>, own: map<string, int>)
    requires CallsArrive(MIXED, own, calls) && |Opened(MIXED, own)| == 1 && Opened(MIXED, own)[0].index == 0
    requires ArrivedText(MIXED, own, 3, 0) == "{"
    ensures |calls| == 1 && calls[0].args == "{"
  {
    hide Opened, ArrivedText;
  }

  lemma PlainWords()
    ensures Trim("item") == "item" && Trim("call") == "call" && Trim("f") == "f" && Trim("") == ""
  {
    hide Trim;
    BatchAgrees.WordStays("item");
    BatchAgrees.WordStays("call");
    BatchAgrees.WordStays("f");
    BatchAgrees.WordStays("");
  }

  lemma MixedFits(own: map<string, int>)
    requires own == map["item" := 0]
    ensures AllPlaced(MIXED, own) && SlotsOnce(MIXED, own) && Open(MIXED)
    ensures |Opened(MIXED, own)| == 1 && Opened(MIXED, own)[0].index == 0
  {
    hide Trim, CallId, Opened;
    PlainWords();
    MixedOpens(own);
  }

  lemma MixedOpens(own: map<string, int>)
    requires Trim("f") == "f"
    ensures |Opened(MIXED, own)| == 1 && Opened(MIXED, own)[0].index == 0
  {
    hide Trim, CallId;
    assert MIXED[..2] == [MIXED[0], MIXED[1]] && MIXED[..2][..1] == [MIXED[0]] && [MIXED[0]][..0] == [];
    assert Opened([], own) == [];
    assert Opened([MIXED[0]], own) == [];
    assert Opened(MIXED[..2], own) == [];
  }

  lemma MixedText(own: map<string, int>)
    requires own == map["item" := 0]
    ensures ArrivedText(MIXED, own, 3, 0) == "{"
  {
    hide Trim, CallId, Arrives;
    PlainWords();
    MixedArrives(own);
    assert ArrivedText(MIXED, own, 0, 0) == "";
    assert ArrivedText(MIXED, own, 1, 0) == "" + "{";
    assert ArrivedText(MIXED, own, 2, 0) == "{" + "";
    assert ArrivedText(MIXED, own, 3, 0) == "{" + "";
  }

  lemma MixedArrives(own: map<string, int>)
    requires own == map["item" := 0]
    ensures Arrives(MIXED, own, 0) && !Arrives(MIXED, own, 1)
  {
    hide Trim, CallId, ArgsFor;
    PlainWords();
    assert Opens(MIXED[2], own, 0) && !Opens(MIXED[0], own, 0) && !Opens(MIXED[1], own, 0);
    assert OpenedAt(MIXED, own, 0) == 2;
    NoText(0);
    assert MIXED[..0] == [];
    MoreArgs(MIXED, 0, 0);
    MoreArgs(MIXED, 1, 0);
    assert ArgsFor(MIXED[..2], 0) == ("" + "{") + "";
  }
}
