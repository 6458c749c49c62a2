/** Streaming compared with collecting for streams that give item ids and no output index. */
module BatchById {
  import opened Collections
  import opened Wire
  import opened Responses
  import opened ResponsesKept
  import opened ResponsesNamed
  import opened ResponsesById
  import opened Batch
  import opened BatchAgrees
  import Meaning
  import ResponsesToChat

  // ---- collecting does not see the difference ----

  /** The same but for spaces around call ids. */
  ghost predicate SameAcc(a: Acc, b: Acc) {
    && b == a.(callIds := b.callIds) && b.callIds.Keys == a.callIds.Keys
    && forall x :: x in a.callIds ==> Trim(b.callIds[x]) == Trim(a.callIds[x])
  }

  /** Events that are collected alike. */
  predicate SameEvent(e: Event, t: Event) {
    match (e, t)
    case (ItemAdded(_, x, item), ItemAdded(k, y, other)) => y == x && other == item.(callId := other.callId) && Trim(other.callId) == Trim(item.callId)
    case (ArgsDelta(c, _, x, args), ArgsDelta(d, k, y, more)) => d == c && y == x && more == args
    case _ => t == e
  }

  lemma CollectSame(a: Acc, b: Acc, e: Event, t: Event)
    requires SameAcc(a, b) && SameEvent(e, t)
    ensures SameAcc(Collect(a, e), Collect(b, t))
  {
    hide Trim;
  }

  lemma TellCollects(es: seq<Event>, own: map<string, int>, i: nat)
    requires i < |es| && BatchOk(es[i]) && (AddsArgs(es[i]) ==> Arrives(es, own, i))
    ensures SameEvent(es[i], TellAt(es, own, i)) && BatchOk(TellAt(es, own, i))
  {
    hide Trim, Arrives, Slot;
    if Announces(es[i]) {
      CallIdTrimmed(es[i], |Opened(es[..i], own)|);
    }
  }

  /** All text of such a stream arrives. */
  lemma AllTextArrives(es: seq<Event>)
    requires AllById(es) && IdsOnce(es)
    ensures forall i :: 0 <= i < |es| && AddsArgs(es[i]) ==> Arrives(es, Numbers(es), i)
  {
    var own := Numbers(es);
    NumbersFit(es);
    IdsAreEnough(es, own);
    hide Slot, Numbers, AllById, IdsOnce, OpenedAt, Reaches, Taken;
    forall i | 0 <= i < |es| && AddsArgs(es[i]) ensures Arrives(es, own, i) {
      if OpenedAt(es, own, Slot(es[i], own)) == |es| {
      }
    }
  }

  lemma {:induction false} SameCollected(es: seq<Event>, own: map<string, int>, n: nat)
    requires n <= |es| && AllBatchOk(es) && forall i :: 0 <= i < |es| && AddsArgs(es[i]) ==> Arrives(es, own, i)
    ensures SameAcc(Collected(es[..n]), Collected(Told(es, own)[..n]))
    decreases n
  {
    hide Collect, Arrives, TellAt, BatchOk, SameAcc, Trim;
    if n > 0 {
      SameCollected(es, own, n - 1);
      PrefixSnoc(es, n - 1);
      PrefixSnoc(Told(es, own), n - 1);
      CollectedSnoc(es[..n - 1], es[n - 1]);
      CollectedSnoc(Told(es, own)[..n - 1], Told(es, own)[n - 1]);
      TellCollects(es, own, n - 1);
      CollectSame(Collected(es[..n - 1]), Collected(Told(es, own)[..n - 1]), es[n - 1], Told(es, own)[n - 1]);
    } else {
      assert es[..0] == [] && Told(es, own)[..0] == [];
      NothingCollected();
    }
  }

  lemma NothingCollected()
    ensures SameAcc(Collected([]), Collected([]))
  {
  }

  lemma {:induction false} SameNamed(a: Acc, b: Acc, order: seq<string>)
    requires SameAcc(a, b)
    ensures NamedOnly(a, order) == NamedOnly(b, order)
    decreases |order|
  {
    hide Trim;
    if order != [] {
      SameNamed(a, b, order[..|order| - 1]);
    }
  }

  lemma SameCallsAt(a: Acc, b: Acc, xs: seq<string>)
    requires SameAcc(a, b)
    ensures CallsAt(a, xs) == CallsAt(b, xs)
  {
    hide Trim;
    forall i | 0 <= i < |xs| ensures CallAt(a, xs[i]) == CallAt(b, xs[i]) {
    }
  }

  lemma SameAnswer(a: Acc, b: Acc, order: seq<string>)
    requires SameAcc(a, b)
    ensures AnswerOf(ObjectOf(a, order)) == AnswerOf(ObjectOf(b, order))
    ensures Convertible(ObjectOf(a, order)) <==> Convertible(ObjectOf(b, order))
  {
    SameNamed(a, b, order);
    SameCallsAt(a, b, NamedOnly(a, order));
    hide Trim, OutputText, ReasoningIn, CallsOf, CallsAt, NamedOnly, Filled, ChatUsage, CallOutputs, Convertible;
    ObjectSays(a, order);
    ObjectSays(b, order);
  }

  lemma SameEnded(a: Acc, b: Acc, body: Body)
    requires SameAcc(a, b)
    ensures SameAcc(Collect(a, Ended(true, Some(body))), Collect(b, Ended(true, Some(body))))
  {
    hide Trim;
  }

  // ---- early text ----

  /** No argument text comes before the announcement of its item. */
  ghost predicate NothingEarlyById(es: seq<Event>) {
    forall i :: 0 <= i < |es| && Announces(es[i]) ==> IdText(es[..i], ItemIdOf(es[i])) == ""
  }

  lemma {:induction false} EarlyAt(g: seq<Event>, n: nat, i: nat, k: int)
    requires i < n <= |g| && Announces(g[i]) && g[i].outputIndex == Some(k)
    requires forall j :: 0 <= j < n && j != i && Announces(g[j]) ==> g[j].outputIndex != Some(k)
    ensures EarlyArgs(g[..n], k) == ArgsFor(g[..i], k)
    decreases n
  {
    hide Trim, ArgsFor;
    PrefixSnoc(g, n - 1);
    Snoc(g[..n - 1], g[n - 1]);
    if i < n - 1 {
      EarlyAt(g, n - 1, i, k);
    }
  }

  /** What comes early for the announcement at `i`. */
  lemma EarlyOf(es: seq<Event>, i: nat)
    requires AllById(es) && IdsOnce(es) && i < |es| && Announces(es[i])
    ensures var own := Numbers(es);
            EarlyArgs(Told(es, own), Slot(es[i], own)) == IdText(es[..i], ItemIdOf(es[i]))
  {
    var own := Numbers(es);
    NumbersFit(es);
    hide Trim, CallId, TellAt, Numbers, Slot, ArgsFor, EarlyArgs, IdText, AllById, IdsOnce;
    var g, k := Told(es, own), Slot(es[i], own);
    forall j | 0 <= j < |es|
      ensures Announces(g[j]) <==> Announces(es[j])
      ensures Announces(es[j]) ==> g[j].ItemAdded? && g[j].outputIndex == Some(Slot(es[j], own)) {
      PlacedAt(es, own, j);
      TellFacts(es, own, j);
    }
    OpenedOnce(es, own, i);
    forall j | 0 <= j < |es| && j != i && Announces(g[j]) ensures g[j].outputIndex != Some(k) {
      OpenedOnce(es, own, j);
    }
    assert g[..|es|] == g;
    EarlyAt(g, |es|, i, k);
    ToldText(es, own, i, k);
    EarlyText(es, own, i, i);
    ByIdName(es, i);
  }

  lemma ByIdName(es: seq<Event>, i: nat)
    requires AllById(es) && i < |es| && Announces(es[i])
    ensures !Indexed(es[i]) && ItemIdOf(es[i]) != ""
  {
    hide Trim;
  }

  lemma NothingEarlyIff(es: seq<Event>)
    requires AllById(es) && IdsOnce(es)
    ensures NothingEarly(Told(es, Numbers(es))) <==> NothingEarlyById(es)
  {
    var own := Numbers(es);
    NumbersFit(es);
    hide Trim, CallId, Numbers, Slot, Announcements, EarlyArgs, IdText, AllById, IdsOnce, Told, Opened, Announces;
    var g := Told(es, own);
    ToldOpens(es, own, |es|);
    StandsAt(es, own, |es|);
    assert es[..|es|] == es && g[..|es|] == g;
    if NothingEarly(g) {
      forall i | 0 <= i < |es| && Announces(es[i]) ensures IdText(es[..i], ItemIdOf(es[i])) == "" {
        EarlyOf(es, i);
        assert Announcements(g)[Count(es, i)].index == Slot(es[i], own);
      }
    }
    if NothingEarlyById(es) {
      NoneOpened(own);
      forall j | 0 <= j < |Announcements(g)| ensures EarlyArgs(g, Announcements(g)[j].index) == "" {
        var i := OpenedBy(es, own, |es|, j);
        EarlyOf(es, i);
      }
    }
  }

  lemma NoneOpened(own: map<string, int>)
    ensures Opened([], own) == []
  {
  }

  lemma {:induction false} OpenedBy(es: seq<Event>, own: map<string, int>, n: nat, j: nat) returns (i: nat)
    requires 0 < n <= |es| && j < |Opened(es[..n], own)|
    ensures i < n && Announces(es[i]) && Opened(es[..n], own)[j].index == Slot(es[i], own)
    decreases n
  {
    hide Trim, CallId, Slot;
    PrefixSnoc(es, n - 1);
    var h := es[..n - 1];
    assert (h + [es[n - 1]])[..|h|] == h;
    if j < |Opened(h, own)| {
      i := OpenedBy(es, own, n - 1, j);
    } else {
      i := n - 1;
    }
  }

  // ---- the comparison ----

  lemma ToldBatchOk(es: seq<Event>)
    requires AllById(es) && IdsOnce(es) && AllBatchOk(es)
    ensures AllBatchOk(Told(es, Numbers(es)))
  {
    AllTextArrives(es);
    hide Arrives, TellAt, BatchOk, Numbers, AllById, IdsOnce;
    var own := Numbers(es);
    forall i | 0 <= i < |es| ensures BatchOk(Told(es, own)[i]) {
      TellCollects(es, own, i);
    }
  }

  lemma CollectedAlike(es: seq<Event>, b: Body)
    requires AllById(es) && IdsOnce(es) && AllBatchOk(es)
    ensures SameAcc(Collected(es + [Ended(true, Some(b))]), Collected(Told(es, Numbers(es)) + [Ended(true, Some(b))]))
  {
    var own := Numbers(es);
    AllTextArrives(es);
    hide *;
    SameCollected(es, own, |es|);
    assert es[..|es|] == es && Told(es, own)[..|es|] == Told(es, own);
    CollectedSnoc(es, Ended(true, Some(b)));
    CollectedSnoc(Told(es, own), Ended(true, Some(b)));
    SameEnded(Collected(es), Collected(Told(es, own)), b);
  }

  lemma SameKeys(a: Acc, b: Acc, order: seq<string>)
    requires SameAcc(a, b) && Enumerates(order, a.args)
    ensures Enumerates(order, b.args)
  {
  }

  lemma OneToOneIs(es: seq<Event>, own: map<string, int>)
    requires WithIds(es, own)
    ensures OneToOne(own)
  {
  }

  /** For a stream that gives item ids only, each announced once: collected first or streamed, the same text; the
      same calls up to order exactly when no argument text comes before its item; the same ending exactly
      when the status is plain; the same usage but for missing details. */
  lemma StreamingAgreesById(id: string, requested: string, es: seq<Event>, b: Body, order: seq<string>)
    requires AllById(es) && IdsOnce(es) && Open(es) && AllBatchOk(es)
    requires Enumerates(order, Collected(es + [Ended(true, Some(b))]).args)
    ensures var all := es + [Ended(true, Some(b))];
            var chunks := ResponsesToChat.Converted(ResponsesToChat.Initial(id, requested), all);
            var o := ObjectOf(Collected(all), order);
            var v, r := Meaning.OfChat(chunks), AnswerOf(o);
            && (Convertible(o) <==> b.status != "failed")
            && r.text == v.text
            && r.reasoning == ""
            && |r.calls| == |v.calls|
            && (multiset(r.calls) == multiset(PlainCalls(v.calls)) <==> NothingEarlyById(es))
            && (v.finish == Some(r.finish) <==> SameEnding(b))
            && (b.usage.Some? ==>
                  && Meaning.ReportedUsage(chunks, false, None).Some?
                  && r.usage == Meaning.ReportedUsage(chunks, false, None).value.(details := Filled(b.usage.value).details))
  {
    hide *;
    var own := Numbers(es);
    var g := Told(es, own);
    NumbersFit(es);
    OneToOneIs(es, own);
    ToldIsGood(es, own);
    ToldBatchOk(es);
    CollectedAlike(es, b);
    var a, c := Collected(es + [Ended(true, Some(b))]), Collected(g + [Ended(true, Some(b))]);
    SameKeys(a, c, order);
    SameAnswer(a, c, order);
    SentAsTold(id, requested, es, true, Some(b), own);
    StreamingAgrees(id, requested, g, b, own, order);
    NothingEarlyIff(es);
  }
}
