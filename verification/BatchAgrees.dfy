/** Streaming a Responses stream to Chat and collecting it first come to the same answer, but for
    argument text that was sent before its call was announced: collecting forgets it. */
module BatchAgrees {
  import opened Collections
  import opened Wire
  import opened Responses
  import opened ResponsesKept
  import opened Batch
  import Meaning
  import ResponsesToChat

  // ---- what is asked of the stream, beyond what streaming asks ----

  /** Only plain function calls, with a call id and a clean item id that their deltas repeat. */
  predicate BatchOk(e: Event) {
    && (e.ItemAdded? && IsToolKind(e.item.kind) ==>
          e.item.kind == "function_call" && Announces(e) && Trim(e.item.callId) != "" && Clean(e.item.id))
    && (AddsArgs(e) ==> !e.custom && Clean(e.itemId))
  }

  predicate Clean(id: string) {
    id != "" && Trim(id) == id
  }

  ghost predicate AllBatchOk(es: seq<Event>) {
    forall i :: 0 <= i < |es| ==> BatchOk(es[i])
  }

  /** Two item ids never share an output index. */
  ghost predicate OneToOne(own: map<string, int>) {
    forall x, y :: x in own && y in own && own[x] == own[y] ==> x == y
  }

  // ---- argument text before and after the announcement ----

  /** The item ids of the announced calls, in order. */
  function ItemIds(h: seq<Event>): seq<string> {
    if h == [] then []
    else
      var p, e := h[..|h| - 1], h[|h| - 1];
      if Announces(e) && e.outputIndex.Some? then ItemIds(p) + [e.item.id] else ItemIds(p)
  }

  /** The argument text sent for an index before its call was announced. */
  function EarlyArgs(h: seq<Event>, index: int): string {
    if h == [] then ""
    else
      var p, e := h[..|h| - 1], h[|h| - 1];
      if Announces(e) && e.outputIndex == Some(index) then ArgsFor(p, index) else EarlyArgs(p, index)
  }

  /** Call `j` as collected: under its own item id, without its early argument text. */
  ghost predicate Collects(h: seq<Event>, a: Acc, own: map<string, int>, j: nat)
    requires j < |ItemIds(h)| && j < |Announcements(h)|
  {
    var x, ann := ItemIds(h)[j], Announcements(h)[j];
    && x in own && own[x] == ann.index
    && x in a.args && x in a.names && x in a.callIds
    && Trim(a.callIds[x]) == ann.id && Trim(a.names[x]) == ann.name && ann.id != "" && ann.name != ""
    && ArgsFor(h, ann.index) == EarlyArgs(h, ann.index) + a.args[x]
  }

  ghost predicate Agrees(h: seq<Event>, a: Acc, own: map<string, int>) {
    && |ItemIds(h)| == |Announcements(h)|
    && (forall j :: 0 <= j < |ItemIds(h)| ==> Collects(h, a, own, j))
    && (forall x :: x in a.names ==> x in ItemIds(h))
    && (forall x :: x in a.callIds ==> x in a.names)
  }

  lemma IdsSnoc(h: seq<Event>, e: Event)
    ensures ItemIds(h + [e]) == if Announces(e) && e.outputIndex.Some? then ItemIds(h) + [e.item.id] else ItemIds(h)
  {
    Snoc(h, e);
  }

  lemma EarlySnoc(h: seq<Event>, e: Event, i: int)
    ensures EarlyArgs(h + [e], i) == if Announces(e) && e.outputIndex == Some(i) then ArgsFor(h, i) else EarlyArgs(h, i)
  {
    Snoc(h, e);
  }

  lemma CollectedSnoc(h: seq<Event>, e: Event)
    ensures Collected(h + [e]) == Collect(Collected(h), e)
  {
    Snoc(h, e);
  }

  lemma AddedAgrees(h: seq<Event>, e: Event, own: map<string, int>)
    requires Agrees(h, Collected(h), own) && OneToOne(own) && ToolOk(e, own) && BatchOk(e) && Announces(e)
    requires !IsAnn(Announcements(h), IndexOf(e))
    ensures Agrees(h + [e], Collected(h + [e]), own)
  {
    hide Trim, Collected, ItemIds, EarlyArgs, ArgsFor, Announcements, CallId;
    var a, b, i, x := Collected(h), Collected(h + [e]), e.outputIndex.value, e.item.id;
    var g := h + [e];
    CollectedSnoc(h, e);
    IdsSnoc(h, e);
    AnnSnoc(h, e);
    CallIdIsOwn(e);
    forall j | 0 <= j < |ItemIds(g)| ensures Collects(g, b, own, j) {
      ArgsSnoc(h, e, Announcements(g)[j].index);
      EarlySnoc(h, e, Announcements(g)[j].index);
      if j < |ItemIds(h)| {
        assert Collects(h, a, own, j);
        assert Announcements(h)[j].index != i;
        assert ArgsFor(h, Announcements(h)[j].index) + "" == ArgsFor(h, Announcements(h)[j].index);
      } else {
        assert ArgsFor(h, i) + "" == ArgsFor(h, i);
      }
    }
    assert ItemIds(g)[|ItemIds(h)|] == x;
    forall y | y in b.names ensures y in ItemIds(g) {
      if y != x {
        assert y in ItemIds(h);
      }
    }
  }

  lemma CallIdIsOwn(e: Event)
    requires e.ItemAdded? && Trim(e.item.callId) != ""
    ensures CallId(e, 0) == Trim(e.item.callId)
  {
  }

  lemma ArgsAgree(h: seq<Event>, e: Event, own: map<string, int>)
    requires Agrees(h, Collected(h), own) && OneToOne(own) && ToolOk(e, own) && BatchOk(e) && AddsArgs(e)
    ensures Agrees(h + [e], Collected(h + [e]), own)
  {
    hide Trim, Collected, ItemIds, EarlyArgs, ArgsFor, Announcements, CallId;
    var a, b, g := Collected(h), Collected(h + [e]), h + [e];
    CollectedSnoc(h, e);
    IdsSnoc(h, e);
    AnnSnoc(h, e);
    forall j | 0 <= j < |ItemIds(g)| ensures Collects(g, b, own, j) {
      var k := Announcements(g)[j].index;
      assert Collects(h, a, own, j);
      ArgsSnoc(h, e, k);
      EarlySnoc(h, e, k);
      if k == e.outputIndex.value {
        assert ItemIds(h)[j] == e.itemId;
        assert EarlyArgs(h, k) + a.args[e.itemId] + e.args == EarlyArgs(h, k) + (a.args[e.itemId] + e.args);
      } else {
        assert ItemIds(h)[j] != e.itemId;
        assert ArgsFor(h, k) + "" == ArgsFor(h, k);
      }
    }
  }

  lemma OtherAgrees(h: seq<Event>, e: Event, own: map<string, int>)
    requires Agrees(h, Collected(h), own) && BatchOk(e) && !Announces(e) && !AddsArgs(e)
    ensures Agrees(h + [e], Collected(h + [e]), own)
  {
    hide Trim, Collected, ItemIds, EarlyArgs, ArgsFor, Announcements, CallId;
    var a, b, g := Collected(h), Collected(h + [e]), h + [e];
    CollectedSnoc(h, e);
    IdsSnoc(h, e);
    AnnSnoc(h, e);
    assert b.args == a.args && b.names == a.names && b.callIds == a.callIds;
    forall j | 0 <= j < |ItemIds(g)| ensures Collects(g, b, own, j) {
      var k := Announcements(g)[j].index;
      assert Collects(h, a, own, j);
      ArgsSnoc(h, e, k);
      EarlySnoc(h, e, k);
      assert ArgsFor(h, k) + "" == ArgsFor(h, k);
    }
  }

  lemma EventAgrees(h: seq<Event>, e: Event, own: map<string, int>)
    requires Agrees(h, Collected(h), own) && OneToOne(own) && ToolOk(e, own) && BatchOk(e)
    requires Announces(e) ==> !IsAnn(Announcements(h), IndexOf(e))
    ensures Agrees(h + [e], Collected(h + [e]), own)
  {
    hide Agrees, Collected, Announces, BatchOk, ToolOk, IsAnn;
    if Announces(e) {
      AddedAgrees(h, e, own);
    } else if AddsArgs(e) {
      ArgsAgree(h, e, own);
    } else {
      OtherAgrees(h, e, own);
    }
  }

  lemma {:induction false} RunAgrees(es: seq<Event>, own: map<string, int>)
    requires Consistent(es, own) && AnnouncedOnce(es) && AllBatchOk(es) && OneToOne(own)
    ensures Agrees(es, Collected(es), own)
  {
    hide Collected, ToolOk, BatchOk, Announces, Announcements, OneToOne, IndexOf, ItemIds;
    if es == [] {
      StartAgrees(own);
    } else {
      var p, e := es[..|es| - 1], es[|es| - 1];
      assert p + [e] == es && forall i :: 0 <= i < |p| ==> p[i] == es[i];
      RunAgrees(p, own);
      if Announces(e) && IsAnn(Announcements(p), IndexOf(e)) {
        AnnHasSource(p, IndexOf(e));
        assert false;
      }
      EventAgrees(p, e, own);
    }
  }

  lemma StartAgrees(own: map<string, int>)
    ensures Agrees([], Collected([]), own)
  {
  }

  // ---- the calls, whatever order the map yields them in ----

  function CallAt(a: Acc, x: string): AnswerCall {
    AnswerCall(Trim(Entry(a.callIds, x)), Trim(Entry(a.names, x)), Entry(a.args, x))
  }

  function CallsAt(a: Acc, xs: seq<string>): (r: seq<AnswerCall>)
    ensures |r| == |xs| && forall i :: 0 <= i < |r| ==> r[i] == CallAt(a, xs[i])
  {
    seq(|xs|, i requires 0 <= i < |xs| => CallAt(a, xs[i]))
  }

  predicate HasName(a: Acc, x: string) {
    Trim(Entry(a.names, x)) != ""
  }

  function NamedOnly(a: Acc, order: seq<string>): seq<string> {
    if order == [] then []
    else
      var last := order[|order| - 1];
      NamedOnly(a, order[..|order| - 1]) + (if HasName(a, last) then [last] else [])
  }

  lemma {:induction false} NamedCalls(a: Acc, order: seq<string>)
    ensures CallsOf(CallOutputs(a, order)) == CallsAt(a, NamedOnly(a, order))
  {
    hide CallOf, HasName, CallAt;
    if order != [] {
      var p, last := order[..|order| - 1], order[|order| - 1];
      NamedCalls(a, p);
      var os := CallOutputs(a, order);
      assert os[..|os| - 1] == CallOutputs(a, p);
      LastNamed(a, last);
      if HasName(a, last) {
        assert CallsAt(a, NamedOnly(a, p) + [last]) == CallsAt(a, NamedOnly(a, p)) + [CallAt(a, last)];
      }
    }
  }

  lemma LastNamed(a: Acc, x: string)
    ensures IsCall(CallOutput(a, x)) <==> HasName(a, x)
    ensures CallOf(CallOutput(a, x)) == CallAt(a, x)
  {
  }

  lemma {:induction false} NamedOnlyFacts(a: Acc, order: seq<string>)
    requires Distinct(order)
    ensures Distinct(NamedOnly(a, order))
    ensures forall x :: x in NamedOnly(a, order) <==> x in order && HasName(a, x)
  {
    hide HasName;
    if order != [] {
      var p, last := order[..|order| - 1], order[|order| - 1];
      assert order == p + [last];
      NamedOnlyFacts(a, p);
      assert last !in p;
    }
  }

  lemma {:induction false} CountOnce(xs: seq<string>, x: string)
    requires Distinct(xs)
    ensures multiset(xs)[x] == if x in xs then 1 else 0
  {
    if xs != [] {
      var p, last := xs[..|xs| - 1], xs[|xs| - 1];
      assert xs == p + [last];
      CountOnce(p, x);
      assert last !in p;
    }
  }

  /** Two lists without repetition and with the same members are rearrangements of each other. */
  lemma Rearranged(xs: seq<string>, ys: seq<string>)
    requires Distinct(xs) && Distinct(ys) && forall x :: x in xs <==> x in ys
    ensures multiset(xs) == multiset(ys)
  {
    forall x ensures multiset(xs)[x] == multiset(ys)[x] {
      CountOnce(xs, x);
      CountOnce(ys, x);
    }
  }

  function Except<T>(ys: seq<T>, k: nat): seq<T>
    requires k < |ys|
  {
    ys[..k] + ys[k + 1..]
  }

  lemma Without<T>(ys: seq<T>, k: nat)
    requires k < |ys|
    ensures multiset(ys) == multiset(Except(ys, k)) + multiset{ys[k]}
  {
    assert ys == ys[..k] + [ys[k]] + ys[k + 1..];
  }

  lemma CallsWithout(a: Acc, ys: seq<string>, k: nat)
    requires k < |ys|
    ensures multiset(CallsAt(a, ys)) == multiset(CallsAt(a, Except(ys, k))) + multiset{CallAt(a, ys[k])}
  {
    hide CallAt;
    Without(CallsAt(a, ys), k);
    assert Except(CallsAt(a, ys), k) == CallsAt(a, Except(ys, k));
  }

  lemma SameRest(xs: seq<string>, ys: seq<string>, i: nat, k: nat)
    requires i < |xs| && k < |ys| && xs[i] == ys[k] && multiset(xs) == multiset(ys)
    ensures multiset(Except(xs, i)) == multiset(Except(ys, k))
  {
    hide Except;
    Without(xs, i);
    Without(ys, k);
    assert multiset(Except(xs, i)) == multiset(xs) - multiset{xs[i]};
    assert multiset(Except(ys, k)) == multiset(ys) - multiset{xs[i]};
  }

  lemma {:induction false} CallsRearranged(a: Acc, xs: seq<string>, ys: seq<string>)
    requires multiset(xs) == multiset(ys)
    ensures multiset(CallsAt(a, xs)) == multiset(CallsAt(a, ys))
    decreases |xs|
  {
    hide CallAt;
    if xs == [] {
      assert |multiset(ys)| == 0;
    } else {
      assert xs[0] in multiset(ys);
      var k :| 0 <= k < |ys| && ys[k] == xs[0];
      SameRest(xs, ys, 0, k);
      CallsRearranged(a, Except(xs, 0), Except(ys, k));
      CallsWithout(a, xs, 0);
      CallsWithout(a, ys, k);
    }
  }

  // ---- the two readings compared ----

  /** A Chat call as an answer has it. */
  function Plain(c: Meaning.Call): AnswerCall {
    AnswerCall(c.id, c.name, c.args)
  }

  function PlainCalls(cs: seq<Meaning.Call>): (r: seq<AnswerCall>)
    ensures |r| == |cs| && forall i :: 0 <= i < |r| ==> r[i] == Plain(cs[i])
  {
    seq(|cs|, i requires 0 <= i < |cs| => Plain(cs[i]))
  }

  /** No argument text comes before the call it belongs to. */
  ghost predicate NothingEarly(es: seq<Event>) {
    forall j :: 0 <= j < |Announcements(es)| ==> EarlyArgs(es, Announcements(es)[j].index) == ""
  }

  lemma IdsDistinct(h: seq<Event>, a: Acc, own: map<string, int>)
    requires Agrees(h, a, own)
    requires forall i, j :: 0 <= i < j < |Announcements(h)| ==> Announcements(h)[i].index != Announcements(h)[j].index
    ensures Distinct(ItemIds(h))
  {
    hide ItemIds, Announcements, EarlyArgs, ArgsFor, Trim;
    forall i, j | 0 <= i < j < |ItemIds(h)| ensures ItemIds(h)[i] != ItemIds(h)[j] {
      assert Collects(h, a, own, i) && Collects(h, a, own, j);
    }
  }

  lemma {:induction false} IndicesDistinct(es: seq<Event>)
    requires AnnouncedOnce(es)
    ensures forall i, j :: 0 <= i < j < |Announcements(es)| ==> Announcements(es)[i].index != Announcements(es)[j].index
  {
    hide CallId, Trim, IsToolKind;
    if es != [] {
      var p, e := es[..|es| - 1], es[|es| - 1];
      assert forall i :: 0 <= i < |p| ==> p[i] == es[i];
      IndicesDistinct(p);
      if Announces(e) && e.outputIndex.Some? {
        NewIndex(p, e);
      }
    }
  }

  lemma NewIndex(p: seq<Event>, e: Event)
    requires AnnouncedOnce(p + [e]) && Announces(e) && e.outputIndex.Some?
    ensures forall j :: 0 <= j < |Announcements(p)| ==> Announcements(p)[j].index != e.outputIndex.value
  {
    hide Announcements, Trim, IsToolKind;
    forall j | 0 <= j < |Announcements(p)| ensures Announcements(p)[j].index != e.outputIndex.value {
      var index := Announcements(p)[j].index;
      assert IsAnn(Announcements(p), index);
      AnnHasSource(p, index);
      var i :| 0 <= i < |p| && Announces(p[i]) && IndexOf(p[i]) == index;
      assert (p + [e])[i] == p[i] && (p + [e])[|p|] == e;
    }
  }

  /** What is collected for call `j`: the name and id streaming gives it, and the argument text
      it gives it but for what came early. */
  lemma CallCollected(es: seq<Event>, own: map<string, int>, calls: seq<Meaning.Call>, j: nat)
    requires Consistent(es, own) && AnnouncedOnce(es) && AllBatchOk(es) && OneToOne(own) && AllCalls(es, calls)
    requires j < |calls|
    ensures j < |ItemIds(es)|
    ensures var c := CallAt(Collected(es), ItemIds(es)[j]);
            && HasName(Collected(es), ItemIds(es)[j])
            && c.id == calls[j].id && c.name == calls[j].name
            && calls[j].args == EarlyArgs(es, Announcements(es)[j].index) + c.args
  {
    hide Consistent, AnnouncedOnce, AllBatchOk, OneToOne, Collected, ItemIds, EarlyArgs, ArgsFor, Announcements, Trim;
    RunAgrees(es, own);
    assert Collects(es, Collected(es), own, j);
  }

  lemma CallsMatch(es: seq<Event>, own: map<string, int>, calls: seq<Meaning.Call>)
    requires Consistent(es, own) && AnnouncedOnce(es) && AllBatchOk(es) && OneToOne(own) && AllCalls(es, calls)
    ensures NothingEarly(es) ==> PlainCalls(calls) == CallsAt(Collected(es), ItemIds(es))
  {
    hide Consistent, AnnouncedOnce, AllBatchOk, OneToOne, Collected, ItemIds, EarlyArgs, Announcements, CallAt, HasName, ArgsFor;
    RunAgrees(es, own);
    assert |ItemIds(es)| == |calls|;
    if NothingEarly(es) {
      forall j | 0 <= j < |calls| ensures PlainCalls(calls)[j] == CallsAt(Collected(es), ItemIds(es))[j] {
        CallCollected(es, own, calls, j);
        var c := CallAt(Collected(es), ItemIds(es)[j]);
        assert "" + c.args == c.args;
      }
    }
  }

  lemma OrderMembers(es: seq<Event>, own: map<string, int>, order: seq<string>)
    requires Consistent(es, own) && AnnouncedOnce(es) && AllBatchOk(es) && OneToOne(own)
    requires Enumerates(order, Collected(es).args)
    ensures multiset(CallsAt(Collected(es), NamedOnly(Collected(es), order))) == multiset(CallsAt(Collected(es), ItemIds(es)))
    ensures |NamedOnly(Collected(es), order)| == |Announcements(es)|
  {
    hide Consistent, AllBatchOk, OneToOne, Collected, EarlyArgs, Announcements, ItemIds, NamedOnly, CallAt, HasName, Distinct, AnnouncedOnce;
    var a, ids := Collected(es), ItemIds(es);
    RunAgrees(es, own);
    IndicesDistinct(es);
    IdsDistinct(es, a, own);
    OnceEach(order, a);
    NamedOnlyFacts(a, order);
    forall x ensures x in NamedOnly(a, order) <==> x in ids {
      NamedIsAnnounced(es, a, own, x);
    }
    Rearranged(NamedOnly(a, order), ids);
    CallsRearranged(a, NamedOnly(a, order), ids);
    assert |multiset(NamedOnly(a, order))| == |multiset(ids)|;
  }

  lemma OnceEach(order: seq<string>, a: Acc)
    requires Enumerates(order, a.args)
    ensures Distinct(order) && forall x :: x in order <==> x in a.args
  {
  }

  lemma NamedIsAnnounced(es: seq<Event>, a: Acc, own: map<string, int>, x: string)
    requires Agrees(es, a, own)
    ensures x in a.args && HasName(a, x) <==> x in ItemIds(es)
  {
    hide ItemIds, EarlyArgs, ArgsFor, Announcements;
    if x in ItemIds(es) {
      var j :| 0 <= j < |ItemIds(es)| && ItemIds(es)[j] == x;
      assert Collects(es, a, own, j);
    } else {
      assert x !in a.names;
      assert TrimRight("") == "";
    }
  }

  // ---- the object, part by part ----

  lemma {:induction false} CallsHaveNoText(a: Acc, order: seq<string>, pre: seq<Output>)
    ensures var os := pre + CallOutputs(a, order);
            && MessageText(os) == MessageText(pre) && AnyText(os) == AnyText(pre) && ReasoningIn(os) == ReasoningIn(pre)
            && CallsOf(os) == CallsOf(pre) + CallsOf(CallOutputs(a, order))
    decreases |order|
  {
    hide MessageText, AnyText, ReasoningIn, CallsOf, CallOutput;
    var os, cs := pre + CallOutputs(a, order), CallOutputs(a, order);
    if order == [] {
      assert os == pre;
      NoCalls();
      assert CallsOf(pre) + [] == CallsOf(pre);
    } else {
      var p, k := order[..|order| - 1], order[|order| - 1];
      assert cs == CallOutputs(a, p) + [CallOutput(a, k)];
      assert os == pre + CallOutputs(a, p) + [CallOutput(a, k)];
      CallsHaveNoText(a, p, pre);
      AppendCall(a, k, pre + CallOutputs(a, p));
      AppendCall(a, k, CallOutputs(a, p));
      assert CallsOf(pre) + CallsOf(CallOutputs(a, p)) + CallsOf([CallOutput(a, k)])
          == CallsOf(pre) + (CallsOf(CallOutputs(a, p)) + CallsOf([CallOutput(a, k)]));
    }
  }

  lemma NoCalls()
    ensures CallsOf([]) == []
  {
  }

  lemma AppendCall(a: Acc, k: string, xs: seq<Output>)
    ensures var os := xs + [CallOutput(a, k)];
            && MessageText(os) == MessageText(xs) && AnyText(os) == AnyText(xs) && ReasoningIn(os) == ReasoningIn(xs)
            && CallsOf(os) == CallsOf(xs) + CallsOf([CallOutput(a, k)])
  {
    hide CallOf, Trim, IsCall;
    var o := CallOutput(a, k);
    var os := xs + [o];
    assert os[..|os| - 1] == xs && os[|os| - 1] == o;
    assert [o][..0] == [];
    assert TextOfParts(o.content, "") == "";
    assert MessageText(xs) + "" == MessageText(xs) && AnyText(xs) + "" == AnyText(xs);
    assert CallsOf([o]) == [] + (if IsCall(o) then [CallOf(o)] else []);
  }

  lemma ObjectSays(a: Acc, order: seq<string>)
    ensures var o := ObjectOf(a, order);
            && OutputText(o.output) == a.text && ReasoningIn(o.output) == ""
            && CallsOf(o.output) == CallsAt(a, NamedOnly(a, order))
            && (Convertible(o) <==> a.status != "failed")
  {
    hide CallsAt, NamedOnly, CallOutput;
    var pre := if a.text != "" then [MessageOf(a.text)] else [];
    CallsHaveNoText(a, order, pre);
    NamedCalls(a, order);
    MessageSays(a.text);
    assert [] + CallsAt(a, NamedOnly(a, order)) == CallsAt(a, NamedOnly(a, order));
    CallsSupported(a, order);
  }

  lemma CallsSupported(a: Acc, order: seq<string>)
    ensures forall i :: 0 <= i < |ObjectOf(a, order).output| ==> Supported(ObjectOf(a, order).output[i])
  {
  }

  lemma MessageSays(t: string)
    ensures MessageText([MessageOf(t)]) == t && CallsOf([MessageOf(t)]) == [] && ReasoningIn([MessageOf(t)]) == ""
    ensures MessageText([]) == "" && AnyText([]) == "" && CallsOf([]) == [] && ReasoningIn([]) == ""
  {
    var os, ps := [MessageOf(t)], [Part("output_text", t)];
    assert os[..0] == [] && ps[..0] == [];
    assert TextOfParts(ps, "output_text") == "" + t;
    assert MessageText(os) == "" + t;
  }

  // ---- how much argument text there is ----

  function Total(cs: seq<AnswerCall>): nat {
    if cs == [] then 0 else |cs[0].args| + Total(cs[1..])
  }

  lemma {:induction false} TotalWithout(cs: seq<AnswerCall>, k: nat)
    requires k < |cs|
    ensures Total(cs) == Total(Except(cs, k)) + |cs[k].args|
  {
    if k == 0 {
      assert Except(cs, 0) == cs[1..];
    } else {
      TotalWithout(cs[1..], k - 1);
      assert Except(cs, k)[1..] == Except(cs[1..], k - 1) && Except(cs, k)[0] == cs[0];
    }
  }

  lemma {:induction false} TotalRearranged(a: seq<AnswerCall>, b: seq<AnswerCall>)
    requires multiset(a) == multiset(b)
    ensures Total(a) == Total(b)
    decreases |a|
  {
    if a == [] {
      assert |multiset(b)| == 0;
    } else {
      assert a[0] in multiset(b);
      var k :| 0 <= k < |b| && b[k] == a[0];
      Without(a, 0);
      Without(b, k);
      assert multiset(Except(a, 0)) == multiset(a) - multiset{a[0]} && multiset(Except(b, k)) == multiset(b) - multiset{a[0]};
      TotalRearranged(Except(a, 0), Except(b, k));
      TotalWithout(a, 0);
      TotalWithout(b, k);
    }
  }

  /** `a` has at least the argument text of `b`, call by call, and more only at a `grown` one. */
  lemma {:induction false} TotalGrows(a: seq<AnswerCall>, b: seq<AnswerCall>)
    requires |a| == |b| && forall j :: 0 <= j < |a| ==> |a[j].args| >= |b[j].args|
    ensures Total(a) >= Total(b)
    ensures forall j :: 0 <= j < |a| && |a[j].args| > |b[j].args| ==> Total(a) > Total(b)
  {
    if a != [] {
      assert forall j :: 0 <= j < |a[1..]| ==> a[1..][j] == a[j + 1] && b[1..][j] == b[j + 1];
      TotalGrows(a[1..], b[1..]);
      forall j | 0 <= j < |a| && |a[j].args| > |b[j].args| ensures Total(a) > Total(b) {
        if j > 0 { assert a[1..][j - 1] == a[j]; }
      }
    }
  }

  /** The calls are the same, up to their order, exactly when no argument text came early. */
  lemma CallsAgree(es: seq<Event>, own: map<string, int>, calls: seq<Meaning.Call>, order: seq<string>)
    requires Consistent(es, own) && AnnouncedOnce(es) && AllBatchOk(es) && OneToOne(own) && AllCalls(es, calls)
    requires Enumerates(order, Collected(es).args)
    ensures var got := CallsAt(Collected(es), NamedOnly(Collected(es), order));
            && |got| == |calls|
            && (multiset(PlainCalls(calls)) == multiset(got) <==> NothingEarly(es))
  {
    hide Consistent, AnnouncedOnce, AllBatchOk, OneToOne, Collected, ItemIds, EarlyArgs, Announcements, NamedOnly, CallAt, HasName, Enumerates, Total, ArgsFor;
    var a := Collected(es);
    var got, mine := CallsAt(a, NamedOnly(a, order)), CallsAt(a, ItemIds(es));
    OrderMembers(es, own, order);
    CallsMatch(es, own, calls);
    assert |calls| == |Announcements(es)|;
    RunAgrees(es, own);
    if !NothingEarly(es) {
      var j :| 0 <= j < |Announcements(es)| && EarlyArgs(es, Announcements(es)[j].index) != "";
      forall i | 0 <= i < |calls| ensures |PlainCalls(calls)[i].args| == |EarlyArgs(es, Announcements(es)[i].index)| + |mine[i].args| {
        CallCollected(es, own, calls, i);
      }
      TotalGrows(PlainCalls(calls), mine);
      assert |PlainCalls(calls)[j].args| > |mine[j].args|;
      if multiset(PlainCalls(calls)) == multiset(got) {
        TotalRearranged(PlainCalls(calls), mine);
      }
    }
  }

  // ---- the result ----

  /** The finish reasons are the same: the whole-object reading takes the status as it stands and has
      no reason for its being incomplete. */
  predicate SameEnding(b: Body) {
    Trim(b.status) == "incomplete" ==>
      b.status == "incomplete" && !(b.incompleteReason.Some? && Trim(b.incompleteReason.value) == "content_filter")
  }

  lemma EndCollected(es: seq<Event>, b: Body)
    ensures var e, a := Collected(es), Collected(es + [Ended(true, Some(b))]);
            a == e.(status := if b.status != "" then b.status else e.status,
                    usage := if b.usage.Some? then b.usage.value else e.usage)
  {
    hide Collected;
    CollectedSnoc(es, Ended(true, Some(b)));
  }

  lemma {:induction false} OpenCollected(es: seq<Event>)
    requires Open(es)
    ensures var a := Collected(es); a.text == TextOf(es) && a.status == "completed" && a.usage == NO_USAGE
  {
    if es != [] {
      OpenCollected(es[..|es| - 1]);
      assert TextOf(es[..|es| - 1]) + "" == TextOf(es[..|es| - 1]);
    }
  }

  lemma LetterIsNoSpace(c: char)
    requires 'a' <= c <= 'z'
    ensures !IsSpace(c)
  {
  }

  lemma WordStays(w: string)
    requires w == "" || ('a' <= w[0] <= 'z' && 'a' <= w[|w| - 1] <= 'z')
    ensures Trim(w) == w
  {
    hide IsSpace;
    if w != "" {
      LetterIsNoSpace(w[0]);
      LetterIsNoSpace(w[|w| - 1]);
    }
  }

  lemma FilledUsage(u: Responses.Usage)
    ensures ChatUsage(Filled(u)) == ChatUsage(u).(details := Filled(u).details)
  {
  }

  lemma EndingsAgree(o: Object, b: Body, tools: bool)
    requires o.status == (if b.status != "" then b.status else "completed") && o.incompleteReason.None?
    requires tools <==> CallsOf(o.output) != []
    ensures EndReason(Some(b), tools) == AnswerReason(o) <==> SameEnding(b)
  {
    hide Trim, CallsOf;
    WordStays("incomplete");
    WordStays("");
  }

  /** Reading a Responses stream event by event, and collecting it into an object that is then
      converted: the same text; the same calls up to order exactly when no argument text came before its
      call; the same ending exactly when the status is plain; the same usage but for missing details. The
      collected answer never has any reasoning. */
  lemma StreamingAgrees(id: string, requested: string, es: seq<Event>, b: Body, own: map<string, int>, order: seq<string>)
    requires Consistent(es, own) && AnnouncedOnce(es) && Open(es) && AllBatchOk(es) && OneToOne(own)
    requires Enumerates(order, Collected(es + [Ended(true, Some(b))]).args)
    ensures NeverFailed(es + [Ended(true, Some(b))])
    ensures var all := es + [Ended(true, Some(b))];
            var chunks := ResponsesToChat.Converted(ResponsesToChat.Initial(id, requested), all);
            var o := ObjectOf(Collected(all), order);
            var v, r := Meaning.OfChat(chunks), AnswerOf(o);
            && (Convertible(o) <==> b.status != "failed")
            && r.text == v.text
            && r.reasoning == ""
            && |r.calls| == |v.calls|
            && (multiset(r.calls) == multiset(PlainCalls(v.calls)) <==> NothingEarly(es))
            && (v.finish == Some(r.finish) <==> SameEnding(b))
            && (b.usage.Some? ==>
                  && Meaning.ReportedUsage(chunks, false, None).Some?
                  && r.usage == Meaning.ReportedUsage(chunks, false, None).value.(details := Filled(b.usage.value).details))
  {
    hide Consistent, AnnouncedOnce, AllBatchOk, OneToOne, Collected, NamedOnly, CallsAt, Enumerates, NothingEarly, PlainCalls,
         ResponsesToChat.Run, Meaning.HearChunks, Meaning.ReportedUsage, TextOf, ReasoningOf, Announcements, AllCalls, EndReason,
         ChatUsage, Filled, AnswerReason, SameEnding, OutputText, ReasoningIn, CallsOf, Convertible, Trim;
    var all := es + [Ended(true, Some(b))];
    var chunks := ResponsesToChat.Converted(ResponsesToChat.Initial(id, requested), all);
    var v := Meaning.OfChat(chunks);
    ChatSaysAll(id, requested, es, true, Some(b), own);
    EndCollected(es, b);
    OpenCollected(es);
    SameEntries(Collected(es), Collected(all), order);
    ObjectSays(Collected(all), order);
    CallsAgree(es, own, v.calls, order);
    var o := ObjectOf(Collected(all), order);
    SameCount(es, v.calls);
    EndingsAgree(o, b, Announcements(es) != []);
    if b.usage.Some? { FilledUsage(b.usage.value); }
  }

  const EARLY := [ArgsDelta(false, Some(0), "i", "early"), ItemAdded(Some(0), "i", ItemInfo("function_call", "i", "c", "f"))]

  const CUT_OFF := Body("incomplete", Some("content_filter"), None)

  /** Argument text before its call, and an answer cut off by the content filter: collected first, the call
      has lost the text, and the reason is another one. */
  lemma EarlyTextIsForgotten(id: string, requested: string, order: seq<string>)
    requires Enumerates(order, Collected(EARLY + [Ended(true, Some(CUT_OFF))]).args)
    ensures var all := EARLY + [Ended(true, Some(CUT_OFF))];
            var v := Meaning.OfChat(ResponsesToChat.Converted(ResponsesToChat.Initial(id, requested), all));
            var r := AnswerOf(ObjectOf(Collected(all), order));
            multiset(r.calls) != multiset(PlainCalls(v.calls)) && v.finish != Some(r.finish)
  {
    hide Collected, Enumerates, PlainCalls, AnswerOf, ObjectOf, ResponsesToChat.Converted, ResponsesToChat.Initial, Meaning.OfChat;
    EarlyIsEarly();
    StreamingAgrees(id, requested, EARLY, CUT_OFF, map["i" := 0], order);
  }

  lemma EarlyIsEarly()
    ensures Consistent(EARLY, map["i" := 0]) && AnnouncedOnce(EARLY) && Open(EARLY) && AllBatchOk(EARLY) && OneToOne(map["i" := 0])
    ensures !NothingEarly(EARLY) && !SameEnding(CUT_OFF)
  {
    hide Trim, Announcements, ArgsFor, EarlyArgs, CallId;
    PlainWords();
    EarlyTold();
  }

  lemma PlainWords()
    ensures Trim("i") == "i" && Trim("c") == "c" && Trim("f") == "f"
    ensures Trim("incomplete") == "incomplete" && Trim("content_filter") == "content_filter"
  {
    hide Trim;
    WordStays("i");
    WordStays("c");
    WordStays("f");
    WordStays("incomplete");
    WordStays("content_filter");
  }

  lemma EarlyTold()
    ensures |Announcements(EARLY)| == 1 && Announcements(EARLY)[0].index == 0 && EarlyArgs(EARLY, 0) == "early"
  {
    hide CallId, Trim;
    PlainWords();
    var p := [EARLY[0]];
    assert EARLY[..1] == p && p[..0] == [];
    assert ArgsFor([], 0) == "" && Announcements([]) == [];
    assert ArgsFor(p, 0) == "early" && Announcements(p) == [];
  }

  lemma SameCount(es: seq<Event>, calls: seq<Meaning.Call>)
    requires AllCalls(es, calls)
    ensures |calls| == |Announcements(es)|
  {
  }

  lemma SameEntries(a: Acc, b: Acc, order: seq<string>)
    requires b == a.(status := b.status, usage := b.usage)
    ensures CallsAt(b, NamedOnly(b, order)) == CallsAt(a, NamedOnly(a, order))
  {
    SameNamed(a, b, order);
  }

  lemma {:induction false} SameNamed(a: Acc, b: Acc, order: seq<string>)
    requires b.names == a.names
    ensures NamedOnly(b, order) == NamedOnly(a, order)
  {
    hide Trim;
    if order != [] { SameNamed(a, b, order[..|order| - 1]); }
  }
}
