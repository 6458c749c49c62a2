/** Responses -> Chat when tool events name their call in different ways, by output index, by item id, or by
    both: such a stream reads in Chat like one that always gives the index, less the argument text that
    cannot be told to belong to its call. */
module ResponsesNamed {
  import opened Wire
  import opened Meaning
  import opened Responses
  import opened ResponsesToChat
  import opened ResponsesKept
  import IndexLookup
  import ModelIndex
  import RoundTrip

  // ---- which call an event is about ----

  predicate IsTool(e: Event) {
    Announces(e) || AddsArgs(e)
  }

  /** The other item id an announcement without an index may carry, on the event itself. */
  function OtherId(e: Event): string {
    if e.ItemAdded? && e.outputIndex.None? then Trim(e.itemId) else ""
  }

  predicate Indexed(e: Event) {
    (e.ItemAdded? || e.ArgsDelta?) && e.outputIndex.Some?
  }

  /** Calls are numbered by their output index, or, if they have none, by any other number: `own` says which call
      an item id stands for. All names of an event stand for one call, and it has at least one. */
  predicate Placed(e: Event, own: map<string, int>) {
    IsTool(e) ==>
      && (ItemIdOf(e) != "" ==> ItemIdOf(e) in own && own[ItemIdOf(e)] == Slot(e, own))
      && (OtherId(e) != "" ==> OtherId(e) in own && own[OtherId(e)] == Slot(e, own))
      && (Indexed(e) || ItemIdOf(e) != "" || OtherId(e) != "")
  }

  function Slot(e: Event, own: map<string, int>): int {
    if Indexed(e) then IndexOf(e)
    else if ItemIdOf(e) in own then own[ItemIdOf(e)]
    else if OtherId(e) in own then own[OtherId(e)]
    else 0
  }

  ghost predicate AllPlaced(es: seq<Event>, own: map<string, int>) {
    forall i :: 0 <= i < |es| ==> Placed(es[i], own)
  }

  /** No call is announced twice. */
  ghost predicate SlotsOnce(es: seq<Event>, own: map<string, int>) {
    forall i, j :: 0 <= i < j < |es| && Announces(es[i]) && Announces(es[j]) ==> Slot(es[i], own) != Slot(es[j], own)
  }

  predicate Opens(e: Event, own: map<string, int>, k: int) {
    Announces(e) && Slot(e, own) == k
  }

  /** Where call `k` is announced, or the end. */
  function OpenedAt(es: seq<Event>, own: map<string, int>, k: int): (j: nat)
    ensures j <= |es|
    ensures j < |es| ==> Opens(es[j], own, k)
    ensures forall i :: 0 <= i < j ==> !Opens(es[i], own, k)
  {
    if es == [] then 0
    else if Opens(es[0], own, k) then 0
    else
      var j := OpenedAt(es[1..], own, k);
      assert forall i :: 1 <= i < |es| ==> es[i] == es[1..][i - 1];
      1 + j
  }

  /** The text sent with an item id. */
  function IdText(h: seq<Event>, id: string): string {
    if h == [] then ""
    else
      var e := h[|h| - 1];
      IdText(h[..|h| - 1], id) + (if e.ArgsDelta? && Trim(e.itemId) == id then e.args else "")
  }

  // ---- which text arrives ----

  /** A name that both the announcement and a later delta give. */
  predicate Reaches(a: Event, d: Event) {
    || (Indexed(a) && Indexed(d))
    || (ItemIdOf(d) != "" && ItemIdOf(d) in {ItemIdOf(a), OtherId(a)})
  }

  /** Text that came early is kept twice, by index and by item id, and taken from one place only: by
      index if there is any under it, else by the item's id. */
  predicate Taken(before: seq<Event>, a: Event, d: Event) {
    if Indexed(a) && ArgsFor(before, IndexOf(a)) != "" then Indexed(d)
    else ItemIdOf(d) != "" && ItemIdOf(d) == ItemIdOf(a)
  }

  /** The text of the delta at `i` reaches its call. */
  predicate Arrives(es: seq<Event>, own: map<string, int>, i: nat)
    requires i < |es|
  {
    var j := OpenedAt(es, own, Slot(es[i], own));
    if j == |es| then true
    else if j < i then Reaches(es[j], es[i])
    else Taken(es[..j], es[j], es[i])
  }

  /** The text that arrives at call `k` with the first `n` events, and all that was sent for it. */
  function ArrivedText(es: seq<Event>, own: map<string, int>, n: nat, k: int): string
    requires n <= |es|
  {
    if n == 0 then ""
    else
      var e := es[n - 1];
      ArrivedText(es, own, n - 1, k) + (if AddsArgs(e) && Slot(e, own) == k && Arrives(es, own, n - 1) then e.args else "")
  }

  function SentText(es: seq<Event>, own: map<string, int>, n: nat, k: int): string
    requires n <= |es|
  {
    if n == 0 then ""
    else
      var e := es[n - 1];
      SentText(es, own, n - 1, k) + (if AddsArgs(e) && Slot(e, own) == k then e.args else "")
  }

  /** The calls, in order of their announcements. */
  function Opened(h: seq<Event>, own: map<string, int>): seq<Announcement> {
    if h == [] then []
    else
      var p, e := h[..|h| - 1], h[|h| - 1];
      Opened(p, own) + (if Announces(e) then [Announcement(Slot(e, own), CallId(e, |Opened(p, own)|), Trim(e.item.name))] else [])
  }

  // ---- the stream that always gives the index ----

  function TellAt(es: seq<Event>, own: map<string, int>, i: nat): Event
    requires i < |es|
  {
    var e := es[i];
    if Announces(e) then ItemAdded(Some(Slot(e, own)), e.itemId, e.item.(callId := CallId(e, |Opened(es[..i], own)|)))
    else if AddsArgs(e) then
      if Arrives(es, own, i) then ArgsDelta(e.custom, Some(Slot(e, own)), e.itemId, e.args)
      else ArgsDelta(e.custom, e.outputIndex, e.itemId, "")
    else e
  }

  function Told(es: seq<Event>, own: map<string, int>): (r: seq<Event>)
    ensures |r| == |es| && forall i :: 0 <= i < |es| ==> r[i] == TellAt(es, own, i)
  {
    seq(|es|, i requires 0 <= i < |es| => TellAt(es, own, i))
  }

  lemma TrimTwice(s: string)
    ensures Trim(Trim(s)) == Trim(s)
  {
    hide Trim, IsSpace;
    TrimEnds(s);
    IndexLookup.Trimmed(Trim(s));
  }

  lemma TrimEnds(s: string)
    ensures Trim(s) == "" || (!IsSpace(Trim(s)[0]) && !IsSpace(Trim(s)[|Trim(s)| - 1]))
  {
  }

  /** An id that is made from a number has no spaces around it. */
  lemma CallIdTrimmed(e: Event, n: int)
    requires e.ItemAdded?
    ensures Trim(CallId(e, n)) == CallId(e, n)
  {
    hide Trim, IsSpace, Decimal;
    TrimTwice(e.item.callId);
    TrimTwice(e.item.id);
    if Trim(e.item.callId) == "" && Trim(e.item.id) == "" {
      var d := Decimal(if e.outputIndex.Some? then e.outputIndex.value else n);
      LastDigit(if e.outputIndex.Some? then e.outputIndex.value else n);
      NoSpaces();
      IndexLookup.Trimmed("generated_tool_call_" + d);
    }
  }

  lemma NoSpaces()
    ensures !IsSpace('g') && forall c :: '0' <= c <= '9' ==> !IsSpace(c)
  {
    forall c | '0' <= c <= '9' ensures !IsSpace(c) {
      ModelIndex.DigitIsNoSpace(c);
    }
  }

  lemma {:induction false} LastDigit(n: int)
    ensures '0' <= Decimal(n)[|Decimal(n)| - 1] <= '9'
    decreases n < 0, if n < 0 then -n else n
  {
    if n < 0 {
      LastDigit(-n);
    } else if n >= 10 {
      assert "0123456789"[n % 10] in "0123456789";
    }
  }

  /** An event of the told stream keeps what it announces and says, and names its call by index. */
  lemma TellFacts(es: seq<Event>, own: map<string, int>, i: nat)
    requires i < |es| && Placed(es[i], own)
    ensures var e, t := es[i], TellAt(es, own, i);
            && ToolOk(t, own)
            && (Announces(t) <==> Announces(e))
            && (Announces(e) ==> t.outputIndex == Some(Slot(e, own)) && IndexOf(t) == Slot(e, own) && ItemIdOf(t) == ItemIdOf(e)
                                 && Trim(t.item.name) == Trim(e.item.name)
                                 && forall n :: CallId(t, n) == CallId(e, |Opened(es[..i], own)|))
            && (AddsArgs(t) <==> AddsArgs(e) && Arrives(es, own, i))
            && (AddsArgs(t) ==> t.outputIndex == Some(Slot(e, own)) && IndexOf(t) == Slot(e, own) && t.itemId == e.itemId && t.args == e.args)
            && (!IsTool(e) ==> t == e)
            && (t.Ended? <==> e.Ended?) && (t.Failed? <==> e.Failed?)
  {
    hide Arrives, Trim, Opened, CallId;
    var e := es[i];
    if Announces(e) {
      var id := CallId(e, |Opened(es[..i], own)|);
      CallIdTrimmed(e, |Opened(es[..i], own)|);
      GivenId(TellAt(es, own, i));
    }
  }

  lemma GivenId(e: Event)
    requires e.ItemAdded? && Trim(e.item.callId) != ""
    ensures forall n :: CallId(e, n) == Trim(e.item.callId)
  {
    hide Trim;
  }

  lemma PrefixSnoc<T>(xs: seq<T>, i: nat)
    requires i < |xs|
    ensures xs[..i + 1] == xs[..i] + [xs[i]]
  {
  }

  /** The told stream announces the same calls. */
  lemma {:induction false} ToldOpens(es: seq<Event>, own: map<string, int>, i: nat)
    requires AllPlaced(es, own) && i <= |es|
    ensures Announcements(Told(es, own)[..i]) == Opened(es[..i], own)
    decreases i
  {
    hide Placed, TellAt, Trim, CallId;
    if i > 0 {
      var h, g := es[..i - 1], Told(es, own)[..i - 1];
      ToldOpens(es, own, i - 1);
      PrefixSnoc(es, i - 1);
      PrefixSnoc(Told(es, own), i - 1);
      TellFacts(es, own, i - 1);
      AnnSnoc(g, Told(es, own)[i - 1]);
      assert (h + [es[i - 1]])[..|h|] == h;
    } else {
      assert Told(es, own)[..0] == [] && es[..0] == [];
    }
  }

  lemma {:induction false} OpenedHas(es: seq<Event>, own: map<string, int>, i: nat, k: int)
    requires i <= |es|
    ensures IsAnn(Opened(es[..i], own), k) <==> exists j :: 0 <= j < i && Opens(es[j], own, k)
    decreases i
  {
    hide Opens, CallId, Trim;
    if i > 0 {
      var h, e := es[..i - 1], es[i - 1];
      OpenedHas(es, own, i - 1, k);
      PrefixSnoc(es, i - 1);
      assert (h + [e])[..|h|] == h;
      var p, q := Opened(h, own), Opened(es[..i], own);
      OpenedMore(es, own, i - 1, k);
    } else {
      assert es[..0] == [];
    }
  }

  lemma OpenedMore(es: seq<Event>, own: map<string, int>, i: nat, k: int)
    requires i < |es|
    ensures IsAnn(Opened(es[..i + 1], own), k) <==> Opens(es[i], own, k) || IsAnn(Opened(es[..i], own), k)
  {
    hide CallId, Trim;
    PrefixSnoc(es, i);
    var h := es[..i];
    assert (h + [es[i]])[..|h|] == h;
    var p, q := Opened(h, own), Opened(es[..i + 1], own);
    if IsAnn(p, k) {
      var j :| 0 <= j < |p| && p[j].index == k;
      assert q[j].index == k;
    }
    if Opens(es[i], own, k) {
      assert q[|p|].index == k;
    }
  }

  /** Calls of the told stream are open where they are announced. */
  lemma ToldIsOpen(es: seq<Event>, own: map<string, int>, i: nat, k: int)
    requires AllPlaced(es, own) && i <= |es|
    ensures IsAnn(Announcements(Told(es, own)[..i]), k) <==> OpenedAt(es, own, k) < i
  {
    hide Placed, TellAt, Trim, CallId, Opens, IsAnn, Opened;
    ToldOpens(es, own, i);
    OpenedHas(es, own, i, k);
  }

  lemma OpenedOnce(es: seq<Event>, own: map<string, int>, j: nat)
    requires SlotsOnce(es, own) && j < |es| && Announces(es[j])
    ensures OpenedAt(es, own, Slot(es[j], own)) == j
  {
    hide Slot, OpenedAt;
    var k := Slot(es[j], own);
    assert Opens(es[j], own, k);
    var i := OpenedAt(es, own, k);
  }

  // ---- texts of the told stream ----

  lemma IdTextSnoc(h: seq<Event>, e: Event, id: string)
    ensures IdText(h + [e], id) == IdText(h, id) + if e.ArgsDelta? && Trim(e.itemId) == id then e.args else ""
  {
    assert (h + [e])[..|h|] == h;
  }

  /** The text under an index of the told stream is the text that arrives at the call. */
  lemma {:induction false} ToldText(es: seq<Event>, own: map<string, int>, i: nat, k: int)
    requires AllPlaced(es, own) && i <= |es|
    ensures ArgsFor(Told(es, own)[..i], k) == ArrivedText(es, own, i, k)
    decreases i
  {
    hide Placed, TellAt, Trim, CallId, Arrives, ArgsFor;
    if i > 0 {
      var g, t := Told(es, own)[..i - 1], Told(es, own)[i - 1];
      ToldText(es, own, i - 1, k);
      PrefixSnoc(Told(es, own), i - 1);
      TellFacts(es, own, i - 1);
      ArgsSnoc(g, t, k);
      ToldDelta(es, own, i - 1, k);
    } else {
      NoText(k);
    }
  }

  lemma NoText(k: int)
    ensures ArgsFor([], k) == ""
  {
  }

  lemma ToldDelta(es: seq<Event>, own: map<string, int>, i: nat, k: int)
    requires i < |es|
    ensures var t, e := TellAt(es, own, i), es[i];
            (if t.ArgsDelta? && t.outputIndex == Some(k) then t.args else "")
            == (if AddsArgs(e) && Slot(e, own) == k && Arrives(es, own, i) then e.args else "")
  {
    hide Arrives, Trim, CallId, Slot;
  }

  /** What is taken for call `a` of the first events. */
  function EarlyUpTo(es: seq<Event>, i: nat, n: nat, k: int): string
    requires n <= i < |es|
  {
    if Indexed(es[i]) && ArgsFor(es[..i], k) != "" then ArgsFor(es[..n], k)
    else if ItemIdOf(es[i]) != "" then IdText(es[..n], ItemIdOf(es[i]))
    else ""
  }

  lemma EarlyNone(es: seq<Event>, i: nat, k: int)
    requires i < |es|
    ensures EarlyUpTo(es, i, 0, k) == ""
  {
    hide ArgsFor, IdText, ItemIdOf;
    assert es[..0] == [];
    NoText(k);
    NoIdText(ItemIdOf(es[i]));
  }

  lemma EarlySnoc(es: seq<Event>, i: nat, n: nat, k: int)
    requires n < i < |es|
    ensures var a, e := es[i], es[n];
            EarlyUpTo(es, i, n + 1, k) == EarlyUpTo(es, i, n, k) +
            if Indexed(a) && ArgsFor(es[..i], k) != "" then if e.ArgsDelta? && e.outputIndex == Some(k) then e.args else ""
            else if ItemIdOf(a) != "" then if e.ArgsDelta? && Trim(e.itemId) == ItemIdOf(a) then e.args else "" else ""
  {
    hide ArgsFor, IdText, ItemIdOf, Trim;
    if Indexed(es[i]) && ArgsFor(es[..i], k) != "" {
      MoreArgs(es, n, k);
    } else if ItemIdOf(es[i]) != "" {
      MoreIdText(es, n, ItemIdOf(es[i]));
    }
  }

  /** What is taken for a call when it is announced is what arrives early. */
  lemma {:induction false} EarlyText(es: seq<Event>, own: map<string, int>, i: nat, n: nat)
    requires AllPlaced(es, own) && SlotsOnce(es, own) && n <= i < |es| && Announces(es[i])
    ensures ArrivedText(es, own, n, Slot(es[i], own)) == EarlyUpTo(es, i, n, Slot(es[i], own))
    decreases n
  {
    hide *;
    var k := Slot(es[i], own);
    if n > 0 {
      OpenedOnce(es, own, i);
      EarlyText(es, own, i, n - 1);
      ArrivedSnoc(es, own, n - 1, k);
      EarlyOne(es, own, i, n - 1);
      EarlySnoc(es, i, n - 1, k);
    } else {
      NoneArrived(es, own, k);
      EarlyNone(es, i, k);
    }
  }

  lemma MoreArgs(es: seq<Event>, n: nat, k: int)
    requires n < |es|
    ensures ArgsFor(es[..n + 1], k) == ArgsFor(es[..n], k) + if es[n].ArgsDelta? && es[n].outputIndex == Some(k) then es[n].args else ""
  {
    hide *;
    PrefixSnoc(es, n);
    ArgsSnoc(es[..n], es[n], k);
  }

  lemma MoreIdText(es: seq<Event>, n: nat, id: string)
    requires n < |es|
    ensures IdText(es[..n + 1], id) == IdText(es[..n], id) + if es[n].ArgsDelta? && Trim(es[n].itemId) == id then es[n].args else ""
  {
    hide *;
    PrefixSnoc(es, n);
    IdTextSnoc(es[..n], es[n], id);
  }

  lemma ArrivedSnoc(es: seq<Event>, own: map<string, int>, n: nat, k: int)
    requires n < |es|
    ensures ArrivedText(es, own, n + 1, k) ==
            ArrivedText(es, own, n, k) + if AddsArgs(es[n]) && Slot(es[n], own) == k && Arrives(es, own, n) then es[n].args else ""
  {
    hide Arrives, Slot;
  }

  lemma NoneArrived(es: seq<Event>, own: map<string, int>, k: int)
    ensures ArrivedText(es, own, 0, k) == ""
  {
  }

  lemma NoIdText(id: string)
    ensures IdText([], id) == ""
  {
  }

  lemma EarlyOne(es: seq<Event>, own: map<string, int>, i: nat, n: nat)
    requires AllPlaced(es, own) && n < i < |es| && Announces(es[i]) && OpenedAt(es, own, Slot(es[i], own)) == i
    ensures var k, a, e := Slot(es[i], own), es[i], es[n];
            (if AddsArgs(e) && Slot(e, own) == k && Arrives(es, own, n) then e.args else "") ==
            if Indexed(a) && ArgsFor(es[..i], k) != "" then if e.ArgsDelta? && e.outputIndex == Some(k) then e.args else ""
            else if ItemIdOf(a) != "" then if e.ArgsDelta? && Trim(e.itemId) == ItemIdOf(a) then e.args else "" else ""
  {
    hide Trim, CallId, ArgsFor, OpenedAt;
    assert Placed(es[i], own) && Placed(es[n], own);
  }

  /** Two histories with the same prose. */
  ghost predicate ProseAlike(h: seq<Event>, g: seq<Event>) {
    TextOf(h) == TextOf(g) && ReasoningOf(h) == ReasoningOf(g) && PartEnded(h) == PartEnded(g)
  }

  lemma ProseMore(h: seq<Event>, g: seq<Event>, e: Event, t: Event)
    requires ProseAlike(h, g) && (t == e || (e.ItemAdded? && t.ItemAdded?) || (e.ArgsDelta? && t.ArgsDelta?))
    ensures ProseAlike(h + [e], g + [t])
  {
    hide Separator;
    Snoc(h, e);
    Snoc(g, t);
  }

  /** Prose is told as it is. */
  lemma {:induction false} ToldProse(es: seq<Event>, own: map<string, int>, i: nat)
    requires AllPlaced(es, own) && i <= |es|
    ensures ProseAlike(es[..i], Told(es, own)[..i])
    decreases i
  {
    hide *;
    if i > 0 {
      ToldProse(es, own, i - 1);
      PrefixSnoc(es, i - 1);
      PrefixSnoc(Told(es, own), i - 1);
      SameProse(es, own, i - 1);
      ProseMore(es[..i - 1], Told(es, own)[..i - 1], es[i - 1], Told(es, own)[i - 1]);
    } else {
      assert Told(es, own)[..0] == [] && es[..0] == [];
      NoProse();
    }
  }

  lemma NoProse()
    ensures ProseAlike([], [])
  {
  }

  lemma SayAlike(h: seq<Event>, g: seq<Event>)
    requires ProseAlike(h, g)
    ensures TextOf(h) == TextOf(g) && ReasoningOf(h) == ReasoningOf(g)
  {
  }

  lemma SameProse(es: seq<Event>, own: map<string, int>, i: nat)
    requires i < |es|
    ensures TellAt(es, own, i) == es[i] || (es[i].ItemAdded? && TellAt(es, own, i).ItemAdded?) || (es[i].ArgsDelta? && TellAt(es, own, i).ArgsDelta?)
  {
    hide Arrives, Trim, CallId, Slot, Opened;
  }

  // ---- the two runs ----

  /** The key a call is kept under in the mapper. */
  function KeyAt(a: Event): Key
    requires a.ItemAdded?
  {
    if a.outputIndex.Some? then OutKey(a.outputIndex.value)
    else if Trim(a.itemId) != "" then ItemKey(Trim(a.itemId))
    else ItemKey(Trim(a.item.id))
  }

  /** An announcement's names lead to the number its call has in the told stream. */
  predicate Bound(a: Event, own: map<string, int>, s: State, t: State)
    requires a.ItemAdded?
  {
    && KeyAt(a) in s.toolIndex && OutKey(Slot(a, own)) in t.toolIndex && s.toolIndex[KeyAt(a)] == t.toolIndex[OutKey(Slot(a, own))]
    && (a.outputIndex.Some? ==> a.outputIndex.value in s.outputToKey && s.outputToKey[a.outputIndex.value] == KeyAt(a))
    && (ItemIdOf(a) != "" ==> ItemIdOf(a) in s.itemToKey && s.itemToKey[ItemIdOf(a)] == KeyAt(a))
  }

  predicate FromKey(es: seq<Event>, i: nat, key: Key)
    requires i <= |es|
  {
    exists j :: 0 <= j < i && Announces(es[j]) && KeyAt(es[j]) == key
  }

  predicate FromIndex(es: seq<Event>, i: nat, k: int)
    requires i <= |es|
  {
    exists j :: 0 <= j < i && Announces(es[j]) && es[j].outputIndex == Some(k)
  }

  predicate FromItem(es: seq<Event>, i: nat, id: string)
    requires i <= |es|
  {
    id != "" && exists j :: 0 <= j < i && Announces(es[j]) && ItemIdOf(es[j]) == id
  }

  ghost predicate Keyed(es: seq<Event>, own: map<string, int>, i: nat, s: State, t: State)
    requires i <= |es|
  {
    && (forall j :: 0 <= j < i && Announces(es[j]) ==> Bound(es[j], own, s, t))
    && (forall key :: key in s.toolIndex ==> FromKey(es, i, key))
    && (forall k :: k in s.outputToKey ==> FromIndex(es, i, k))
    && (forall id :: id in s.itemToKey ==> FromItem(es, i, id))
    && s.nextTool == |Opened(es[..i], own)| && s.fallbackKey.None?
  }

  /** Text kept aside for calls not announced yet. */
  ghost predicate Pended(es: seq<Event>, own: map<string, int>, i: nat, s: State)
    requires i <= |es|
  {
    && (forall k :: OpenedAt(es, own, k) >= i ==> At(s.pendingOutput, k) == ArgsFor(es[..i], k))
    && (forall id :: id != "" && id in own && OpenedAt(es, own, own[id]) >= i ==> At(s.pendingItem, id) == IdText(es[..i], id))
  }

  predicate SameElse(s: State, t: State) {
    t == s.(toolIndex := t.toolIndex, outputToKey := t.outputToKey, itemToKey := t.itemToKey,
            pendingItem := t.pendingItem, pendingOutput := t.pendingOutput, fallbackKey := t.fallbackKey, ambiguous := t.ambiguous)
  }

  ghost predicate Alike(es: seq<Event>, own: map<string, int>, i: nat, s: State, t: State)
    requires i <= |es|
  {
    && SameElse(s, t) && KeysOk(Told(es, own)[..i], t, own) && PendingOk(Told(es, own)[..i], t, own)
    && Keyed(es, own, i, s, t) && Pended(es, own, i, s)
  }

  /** The announcement of the call of a later event: its names lead to the call's number. */
  lemma LooksByIndex(es: seq<Event>, own: map<string, int>, i: nat, s: State, t: State, k: int)
    requires SlotsOnce(es, own) && i <= |es| && Keyed(es, own, i, s, t)
    ensures var j := OpenedAt(es, own, k);
            var found := if j < i && Indexed(es[j]) then Some(t.toolIndex[OutKey(k)]) else None;
            Look(s.outputToKey, s.toolIndex, k) == found && LookKey(s.toolIndex, OutKey(k)) == found
  {
    hide Trim, CallId, OpenedAt, Opened, Keyed, SlotsOnce, FromIndex, FromKey;
    var j := OpenedAt(es, own, k);
    if k in s.outputToKey {
      var x := IndexSource(es, own, i, s, t, k);
      OpenedOnce(es, own, x);
    }
    if OutKey(k) in s.toolIndex {
      var x := KeySource(es, own, i, s, t, OutKey(k));
      OpenedOnce(es, own, x);
    }
    if j < i {
      BoundAt(es, own, i, s, t, j);
    }
  }

  lemma BoundAt(es: seq<Event>, own: map<string, int>, i: nat, s: State, t: State, j: nat)
    requires i <= |es| && Keyed(es, own, i, s, t) && j < i && Announces(es[j])
    ensures Bound(es[j], own, s, t)
  {
  }

  lemma IndexSource(es: seq<Event>, own: map<string, int>, i: nat, s: State, t: State, k: int) returns (x: nat)
    requires i <= |es| && Keyed(es, own, i, s, t) && k in s.outputToKey
    ensures x < i && Announces(es[x]) && es[x].outputIndex == Some(k)
  {
    hide Bound, FromKey, FromItem, Opened;
    assert FromIndex(es, i, k);
    x :| 0 <= x < i && Announces(es[x]) && es[x].outputIndex == Some(k);
  }

  lemma KeySource(es: seq<Event>, own: map<string, int>, i: nat, s: State, t: State, key: Key) returns (x: nat)
    requires i <= |es| && Keyed(es, own, i, s, t) && key in s.toolIndex
    ensures x < i && Announces(es[x]) && KeyAt(es[x]) == key
  {
    hide Bound, FromIndex, FromItem, Opened, KeyAt;
    assert FromKey(es, i, key);
    x :| 0 <= x < i && Announces(es[x]) && KeyAt(es[x]) == key;
  }

  lemma ItemSource(es: seq<Event>, own: map<string, int>, i: nat, s: State, t: State, id: string) returns (x: nat)
    requires i <= |es| && Keyed(es, own, i, s, t) && id in s.itemToKey
    ensures x < i && Announces(es[x]) && ItemIdOf(es[x]) == id != ""
  {
    hide Bound, FromIndex, FromKey, Announces, Opened, ItemIdOf;
    assert FromItem(es, i, id);
    x :| 0 <= x < i && Announces(es[x]) && ItemIdOf(es[x]) == id;
  }

  lemma LooksByItem(es: seq<Event>, own: map<string, int>, i: nat, s: State, t: State, id: string)
    requires AllPlaced(es, own) && SlotsOnce(es, own) && i <= |es| && Keyed(es, own, i, s, t) && id in own && id != ""
    ensures var j := OpenedAt(es, own, own[id]);
            Look(s.itemToKey, s.toolIndex, id) == if j < i && ItemIdOf(es[j]) == id then Some(t.toolIndex[OutKey(own[id])]) else None
  {
    hide Trim, CallId, OpenedAt, Opened, Keyed, SlotsOnce, FromKey, FromIndex;
    var j := OpenedAt(es, own, own[id]);
    if id in s.itemToKey {
      var x := ItemSource(es, own, i, s, t, id);
      assert Placed(es[x], own);
      OpenedOnce(es, own, x);
    }
    if j < i {
      BoundAt(es, own, i, s, t, j);
    }
  }

  lemma LooksByItemKey(es: seq<Event>, own: map<string, int>, i: nat, s: State, t: State, id: string)
    requires AllPlaced(es, own) && SlotsOnce(es, own) && i <= |es| && Keyed(es, own, i, s, t) && id in own && id != ""
    ensures var j := OpenedAt(es, own, own[id]);
            LookKey(s.toolIndex, ItemKey(id)) ==
            if j < i && KeyAt(es[j]) == ItemKey(id) then Some(t.toolIndex[OutKey(own[id])]) else None
  {
    hide Trim, CallId, OpenedAt, Opened, Keyed, SlotsOnce, FromItem, FromIndex;
    var j := OpenedAt(es, own, own[id]);
    if ItemKey(id) in s.toolIndex {
      var x := KeySource(es, own, i, s, t, ItemKey(id));
      KeyIsName(es[x], own, id);
      OpenedOnce(es, own, x);
    }
    if j < i {
      BoundAt(es, own, i, s, t, j);
    }
  }

  lemma KeyIsName(a: Event, own: map<string, int>, id: string)
    requires Announces(a) && Placed(a, own) && id in own && id != ""
    ensures KeyAt(a) == ItemKey(id) ==> Slot(a, own) == own[id]
    ensures KeyAt(a) == ItemKey(id) <==> !Indexed(a) && (OtherId(a) == id || (OtherId(a) == "" && ItemIdOf(a) == id))
  {
    hide Trim;
  }

  /** A delta finds its call exactly if the call has been announced with a name that the delta gives. */
  lemma FindsByName(es: seq<Event>, own: map<string, int>, i: nat, s: State, t: State)
    requires AllPlaced(es, own) && SlotsOnce(es, own) && i < |es| && AddsArgs(es[i]) && Keyed(es, own, i, s, t) && s.fallbackKey.None?
    ensures var e, k := es[i], Slot(es[i], own);
            var j := OpenedAt(es, own, k);
            FindTool(s, e.outputIndex, e.itemId) ==
            if j < i && Reaches(es[j], e) then (s, Some(t.toolIndex[OutKey(k)])) else (s, None)
  {
    hide Trim, CallId, OpenedAt, Opened, Keyed, Slot, Look, LookKey, KeyAt, SlotsOnce, AllPlaced;
    var e, k := es[i], Slot(es[i], own);
    var j := OpenedAt(es, own, k);
    var id := Trim(e.itemId);
    DeltaNames(es, own, i);
    if e.outputIndex.Some? {
      LooksByIndex(es, own, i, s, t, k);
    }
    if id != "" {
      LooksByItem(es, own, i, s, t, id);
      LooksByItemKey(es, own, i, s, t, id);
    }
    if j < i && id != "" {
      PlacedAt(es, own, j);
      KeyIsName(es[j], own, id);
    }
  }

  lemma DeltaNames(es: seq<Event>, own: map<string, int>, i: nat)
    requires AllPlaced(es, own) && i < |es| && AddsArgs(es[i])
    ensures var e, k := es[i], Slot(es[i], own);
            && (e.outputIndex.Some? ==> e.outputIndex.value == k)
            && (Trim(e.itemId) != "" ==> Trim(e.itemId) in own && own[Trim(e.itemId)] == k)
            && ItemIdOf(e) == Trim(e.itemId)
  {
    hide Trim;
    assert Placed(es[i], own);
  }

  lemma PlacedAt(es: seq<Event>, own: map<string, int>, i: nat)
    requires AllPlaced(es, own) && i < |es|
    ensures Placed(es[i], own)
  {
  }

  // ---- one event in both runs ----

  /** Both send the same, and stay alike. */
  ghost predicate SameStep(es: seq<Event>, own: map<string, int>, i: nat, a: Step, b: Step)
    requires i < |es|
  {
    !a.failed && !b.failed && a.out == b.out && Alike(es, own, i + 1, a.s, b.s)
  }

  lemma SourcesMore(es: seq<Event>, i: nat)
    requires i < |es|
    ensures forall key :: FromKey(es, i, key) ==> FromKey(es, i + 1, key)
    ensures forall k :: FromIndex(es, i, k) ==> FromIndex(es, i + 1, k)
    ensures forall id :: FromItem(es, i, id) ==> FromItem(es, i + 1, id)
  {
    hide KeyAt, ItemIdOf, Trim;
    forall key | FromKey(es, i, key) ensures FromKey(es, i + 1, key) {
      var j :| 0 <= j < i && Announces(es[j]) && KeyAt(es[j]) == key;
      assert 0 <= j < i + 1;
    }
    forall k | FromIndex(es, i, k) ensures FromIndex(es, i + 1, k) {
      var j :| 0 <= j < i && Announces(es[j]) && es[j].outputIndex == Some(k);
      assert 0 <= j < i + 1;
    }
    forall id | FromItem(es, i, id) ensures FromItem(es, i + 1, id) {
      var j :| 0 <= j < i && Announces(es[j]) && ItemIdOf(es[j]) == id;
      assert 0 <= j < i + 1;
    }
  }

  lemma OpenedSame(es: seq<Event>, own: map<string, int>, i: nat)
    requires i < |es|
    ensures |Opened(es[..i + 1], own)| == |Opened(es[..i], own)| + if Announces(es[i]) then 1 else 0
  {
    hide CallId, Trim, Slot;
    PrefixSnoc(es, i);
    assert (es[..i] + [es[i]])[..|es[..i]|] == es[..i];
  }

  lemma KeyedMore(es: seq<Event>, own: map<string, int>, i: nat, s: State, t: State, s': State, t': State)
    requires i < |es| && !Announces(es[i]) && Keyed(es, own, i, s, t)
    requires s'.toolIndex == s.toolIndex && s'.outputToKey == s.outputToKey && s'.itemToKey == s.itemToKey && s'.nextTool == s.nextTool
    requires s'.fallbackKey == s.fallbackKey && t'.toolIndex == t.toolIndex
    ensures Keyed(es, own, i + 1, s', t')
  {
    hide CallId, Trim, Slot, FromKey, FromIndex, FromItem, Opened, Bound;
    SourcesMore(es, i);
    OpenedSame(es, own, i);
    forall j | 0 <= j < i + 1 && Announces(es[j]) ensures Bound(es[j], own, s', t') {
      BoundAt(es, own, i, s, t, j);
      BoundSame(es[j], own, s, t, s', t');
    }
  }

  lemma BoundSame(a: Event, own: map<string, int>, s: State, t: State, s': State, t': State)
    requires Announces(a) && Bound(a, own, s, t)
    requires s'.toolIndex == s.toolIndex && s'.outputToKey == s.outputToKey && s'.itemToKey == s.itemToKey && t'.toolIndex == t.toolIndex
    ensures Bound(a, own, s', t')
  {
  }

  /** What a delta adds to the texts told from the events. */
  lemma TextsMore(es: seq<Event>, own: map<string, int>, i: nat)
    requires i < |es|
    ensures forall k :: ArgsFor(es[..i + 1], k) ==
                        ArgsFor(es[..i], k) + if es[i].ArgsDelta? && es[i].outputIndex == Some(k) then es[i].args else ""
    ensures forall id :: IdText(es[..i + 1], id) ==
                         IdText(es[..i], id) + if es[i].ArgsDelta? && Trim(es[i].itemId) == id then es[i].args else ""
  {
    hide ArgsFor, IdText, Trim;
    forall k ensures ArgsFor(es[..i + 1], k) == ArgsFor(es[..i], k) + if es[i].ArgsDelta? && es[i].outputIndex == Some(k) then es[i].args else "" {
      MoreArgs(es, i, k);
    }
    forall id ensures IdText(es[..i + 1], id) == IdText(es[..i], id) + if es[i].ArgsDelta? && Trim(es[i].itemId) == id then es[i].args else "" {
      MoreIdText(es, i, id);
    }
  }

  lemma PendedOutput(es: seq<Event>, own: map<string, int>, i: nat, s: State, k: int)
    requires i <= |es| && Pended(es, own, i, s) && OpenedAt(es, own, k) >= i
    ensures At(s.pendingOutput, k) == ArgsFor(es[..i], k)
  {
  }

  lemma PendedItem(es: seq<Event>, own: map<string, int>, i: nat, s: State, id: string)
    requires i <= |es| && Pended(es, own, i, s) && id != "" && id in own && OpenedAt(es, own, own[id]) >= i
    ensures At(s.pendingItem, id) == IdText(es[..i], id)
  {
  }

  lemma IsPended(es: seq<Event>, own: map<string, int>, i: nat, s: State)
    requires i <= |es| && forall k :: OpenedAt(es, own, k) >= i ==> At(s.pendingOutput, k) == ArgsFor(es[..i], k)
    requires forall id :: id != "" && id in own && OpenedAt(es, own, own[id]) >= i ==> At(s.pendingItem, id) == IdText(es[..i], id)
    ensures Pended(es, own, i, s)
  {
  }

  lemma PendedSame(es: seq<Event>, own: map<string, int>, i: nat, s: State, s': State)
    requires AllPlaced(es, own) && i < |es| && Pended(es, own, i, s) && s'.pendingOutput == s.pendingOutput && s'.pendingItem == s.pendingItem
    requires AddsArgs(es[i]) ==> OpenedAt(es, own, Slot(es[i], own)) <= i
    ensures Pended(es, own, i + 1, s')
  {
    hide ArgsFor, IdText, Trim, OpenedAt, Slot, AllPlaced, Pended, At;
    TextsMore(es, own, i);
    if AddsArgs(es[i]) { DeltaNames(es, own, i); }
    forall x: string ensures x + "" == x { }
    forall k | OpenedAt(es, own, k) >= i + 1 ensures At(s'.pendingOutput, k) == ArgsFor(es[..i + 1], k) {
      PendedOutput(es, own, i, s, k);
    }
    forall id | id != "" && id in own && OpenedAt(es, own, own[id]) >= i + 1 ensures At(s'.pendingItem, id) == IdText(es[..i + 1], id) {
      PendedItem(es, own, i, s, id);
    }
    IsPended(es, own, i + 1, s');
  }

  lemma PendedPut(es: seq<Event>, own: map<string, int>, i: nat, s: State)
    requires AllPlaced(es, own) && i < |es| && Pended(es, own, i, s) && AddsArgs(es[i])
    ensures Pended(es, own, i + 1, PutPending(s, es[i].outputIndex, es[i].itemId, es[i].args))
  {
    hide ArgsFor, IdText, Trim, OpenedAt, Slot, AllPlaced, Pended;
    var e := es[i];
    var t := PutPending(s, e.outputIndex, e.itemId, e.args);
    TextsMore(es, own, i);
    forall x: string ensures x + "" == x { }
    forall k | OpenedAt(es, own, k) >= i + 1 ensures At(t.pendingOutput, k) == ArgsFor(es[..i + 1], k) {
      PendedOutput(es, own, i, s, k);
    }
    forall id | id != "" && id in own && OpenedAt(es, own, own[id]) >= i + 1 ensures At(t.pendingItem, id) == IdText(es[..i + 1], id) {
      PendedItem(es, own, i, s, id);
    }
    IsPended(es, own, i + 1, t);
  }

  lemma NumberOf(g: seq<Event>, t: State, own: map<string, int>, k: int)
    requires KeysOk(g, t, own) && IsAnn(Announcements(g), k)
    ensures OutKey(k) in t.toolIndex && 0 <= t.toolIndex[OutKey(k)] < |Announcements(g)|
    ensures Announcements(g)[t.toolIndex[OutKey(k)]].index == k
  {
    hide Announcements;
  }

  lemma ArgsStepOf(s: State, e: Event, r: (State, Option<int>))
    requires AddsArgs(e) && FindTool(s, e.outputIndex, e.itemId) == r
    ensures MapStep(s, e) ==
            if r.1.Some? then Step(r.0, [ToolChunk(r.0, ToolDelta(r.1, "", "", e.args))], false)
            else Step(PutPending(r.0, e.outputIndex, e.itemId, e.args), [], false)
  {
    hide FindTool, PutPending;
  }

  lemma NoArgsStep(s: State, e: Event)
    requires e.ArgsDelta? && e.args == ""
    ensures MapStep(s, e) == Step(s, [], false)
  {
  }

  lemma SameChunk(s: State, t: State, td: ToolDelta)
    requires SameElse(s, t)
    ensures ToolChunk(s, td) == ToolChunk(t, td) && RoleIfNeeded(s) == RoleIfNeeded(t)
  {
  }

  /** The told stream's side of an argument delta. */
  ghost predicate ToldWell(es: seq<Event>, own: map<string, int>, i: nat, t: State, b: Step)
    requires i < |es|
  {
    && !b.failed && KeysOk(Told(es, own)[..i + 1], b.s, own) && PendingOk(Told(es, own)[..i + 1], b.s, own)
    && b.s == t.(pendingItem := b.s.pendingItem, pendingOutput := b.s.pendingOutput)
  }

  lemma ToldLost(es: seq<Event>, own: map<string, int>, i: nat, t: State)
    requires i < |es| && AddsArgs(es[i]) && !Arrives(es, own, i)
    requires KeysOk(Told(es, own)[..i], t, own) && PendingOk(Told(es, own)[..i], t, own)
    ensures var b := MapStep(t, TellAt(es, own, i)); ToldWell(es, own, i, t, b) && b.out == []
  {
    hide KeysOk, PendingOk, MapStep, TellAt, Arrives, Trim;
    var g, e := Told(es, own)[..i], TellAt(es, own, i);
    PrefixSnoc(Told(es, own), i);
    LostDelta(es, own, i);
    NoArgsStep(t, e);
    KeysSame(g, t, t, own, e);
    PendingElse(g, t, own, e);
  }

  lemma ToldToOpen(es: seq<Event>, own: map<string, int>, i: nat, t: State)
    requires AllPlaced(es, own) && i < |es| && AddsArgs(es[i]) && Arrives(es, own, i) && OpenedAt(es, own, Slot(es[i], own)) < i
    requires KeysOk(Told(es, own)[..i], t, own) && PendingOk(Told(es, own)[..i], t, own)
    ensures var k, b := Slot(es[i], own), MapStep(t, TellAt(es, own, i));
            && ToldWell(es, own, i, t, b)
            && OutKey(k) in t.toolIndex && b.out == [ToolChunk(t, ToolDelta(Some(t.toolIndex[OutKey(k)]), "", "", es[i].args))]
  {
    hide *;
    var g, e, k := Told(es, own)[..i], TellAt(es, own, i), Slot(es[i], own);
    PlacedAt(es, own, i);
    TellFacts(es, own, i);
    NotBoth(e);
    PrefixSnoc(Told(es, own), i);
    ToldIsOpen(es, own, i, k);
    FindsAnnounced(g, t, own, e);
    NumberOf(g, t, own, k);
    var j :| 0 <= j < |Announcements(g)| && Announcements(g)[j].index == k && FindTool(t, e.outputIndex, e.itemId) == (t, Some(j));
    IndicesAreDistinct(g, t, own);
    ArgsStepOf(t, e, (t, Some(j)));
    KeysSame(g, t, t, own, e);
    PendingArgs(g, t, own, e);
    IsToldWell(es, own, i, t, MapStep(t, e));
  }

  lemma IsToldWell(es: seq<Event>, own: map<string, int>, i: nat, t: State, b: Step)
    requires i < |es| && !b.failed && KeysOk(Told(es, own)[..i + 1], b.s, own) && PendingOk(Told(es, own)[..i + 1], b.s, own)
    requires b.s == t.(pendingItem := b.s.pendingItem, pendingOutput := b.s.pendingOutput)
    ensures ToldWell(es, own, i, t, b)
  {
  }

  lemma ToldEarly(es: seq<Event>, own: map<string, int>, i: nat, t: State)
    requires AllPlaced(es, own) && i < |es| && AddsArgs(es[i]) && Arrives(es, own, i) && OpenedAt(es, own, Slot(es[i], own)) >= i
    requires KeysOk(Told(es, own)[..i], t, own) && PendingOk(Told(es, own)[..i], t, own)
    ensures var b := MapStep(t, TellAt(es, own, i)); ToldWell(es, own, i, t, b) && b.out == []
  {
    hide *;
    var g, e, k := Told(es, own)[..i], TellAt(es, own, i), Slot(es[i], own);
    PlacedAt(es, own, i);
    TellFacts(es, own, i);
    NotBoth(e);
    PrefixSnoc(Told(es, own), i);
    ToldIsOpen(es, own, i, k);
    MissesUnannounced(g, t, own, e);
    ArgsStepOf(t, e, (t, None));
    PutFrame(t, e);
    KeysSame(g, t, PutPending(t, e.outputIndex, e.itemId, e.args), own, e);
    PendingArgs(g, t, own, e);
    IsToldWell(es, own, i, t, MapStep(t, e));
  }

  lemma ToldArgs(es: seq<Event>, own: map<string, int>, i: nat, t: State)
    requires AllPlaced(es, own) && i < |es| && AddsArgs(es[i])
    requires KeysOk(Told(es, own)[..i], t, own) && PendingOk(Told(es, own)[..i], t, own)
    ensures var e, k, b := es[i], Slot(es[i], own), MapStep(t, TellAt(es, own, i));
            && !b.failed && KeysOk(Told(es, own)[..i + 1], b.s, own) && PendingOk(Told(es, own)[..i + 1], b.s, own)
            && b.s == t.(pendingItem := b.s.pendingItem, pendingOutput := b.s.pendingOutput)
            && (if OpenedAt(es, own, k) < i && Arrives(es, own, i)
                then OutKey(k) in t.toolIndex && b.out == [ToolChunk(t, ToolDelta(Some(t.toolIndex[OutKey(k)]), "", "", e.args))]
                else b.out == [])
  {
    hide KeysOk, PendingOk, MapStep, TellAt, Arrives, Slot, AllPlaced, OpenedAt, ToolChunk, AddsArgs;
    NotBoth(es[i]);
    if !Arrives(es, own, i) {
      ToldLost(es, own, i, t);
    } else if OpenedAt(es, own, Slot(es[i], own)) < i {
      ToldToOpen(es, own, i, t);
    } else {
      ToldEarly(es, own, i, t);
    }
  }

  lemma LostDelta(es: seq<Event>, own: map<string, int>, i: nat)
    requires i < |es| && AddsArgs(es[i]) && !Arrives(es, own, i)
    ensures TellAt(es, own, i).ArgsDelta? && TellAt(es, own, i).args == "" && !Announces(TellAt(es, own, i))
  {
    hide Arrives, Slot;
  }

  lemma ArrivesOf(es: seq<Event>, own: map<string, int>, i: nat)
    requires i < |es|
    ensures var j := OpenedAt(es, own, Slot(es[i], own)); j < i ==> (Arrives(es, own, i) <==> Reaches(es[j], es[i]))
  {
    hide Reaches, Taken, Slot, OpenedAt;
  }

  lemma AlikeParts(es: seq<Event>, own: map<string, int>, i: nat, s: State, t: State)
    requires i <= |es| && Alike(es, own, i, s, t)
    ensures SameElse(s, t) && KeysOk(Told(es, own)[..i], t, own) && PendingOk(Told(es, own)[..i], t, own)
    ensures Keyed(es, own, i, s, t) && Pended(es, own, i, s) && s.fallbackKey.None? && t.fallbackKey.None? && s.nextTool == t.nextTool
  {
    NoFallback(Told(es, own)[..i], t, own);
    hide KeysOk, PendingOk, Keyed, Pended;
  }

  lemma ArgsAlike(es: seq<Event>, own: map<string, int>, i: nat, s: State, t: State)
    requires AllPlaced(es, own) && SlotsOnce(es, own) && i < |es| && AddsArgs(es[i]) && Alike(es, own, i, s, t)
    ensures SameStep(es, own, i, MapStep(s, es[i]), MapStep(t, TellAt(es, own, i)))
  {
    hide *;
    AlikeParts(es, own, i, s, t);
    FindsByName(es, own, i, s, t);
    NotBoth(es[i]);
    if OpenedAt(es, own, Slot(es[i], own)) < i && Reaches(es[OpenedAt(es, own, Slot(es[i], own))], es[i]) {
      ArgsFound(es, own, i, s, t);
    } else {
      ArgsMissed(es, own, i, s, t);
    }
  }

  lemma ArgsFound(es: seq<Event>, own: map<string, int>, i: nat, s: State, t: State)
    requires AllPlaced(es, own) && i < |es| && AddsArgs(es[i]) && es[i].ArgsDelta? && !Announces(es[i]) && Alike(es, own, i, s, t)
    requires var k := Slot(es[i], own);
             OpenedAt(es, own, k) < i && Reaches(es[OpenedAt(es, own, k)], es[i])
             && FindTool(s, es[i].outputIndex, es[i].itemId) == (s, Some(t.toolIndex[OutKey(k)]))
    ensures SameStep(es, own, i, MapStep(s, es[i]), MapStep(t, TellAt(es, own, i)))
  {
    hide *;
    AlikeParts(es, own, i, s, t);
    var e, k := es[i], Slot(es[i], own);
    ToldArgs(es, own, i, t);
    ArrivesOf(es, own, i);
    var b := MapStep(t, TellAt(es, own, i));
    var n := t.toolIndex[OutKey(k)];
    ArgsStepOf(s, e, (s, Some(n)));
    SameChunk(s, t, ToolDelta(Some(n), "", "", e.args));
    KeyedMore(es, own, i, s, t, s, b.s);
    PendedSame(es, own, i, s, s);
    SameMaps(s, t, s, b.s);
    IsSameStep(es, own, i, MapStep(s, e), b);
  }

  lemma ArgsMissed(es: seq<Event>, own: map<string, int>, i: nat, s: State, t: State)
    requires AllPlaced(es, own) && i < |es| && AddsArgs(es[i]) && es[i].ArgsDelta? && !Announces(es[i]) && Alike(es, own, i, s, t)
    requires var k := Slot(es[i], own);
             !(OpenedAt(es, own, k) < i && Reaches(es[OpenedAt(es, own, k)], es[i]))
             && FindTool(s, es[i].outputIndex, es[i].itemId) == (s, None)
    ensures SameStep(es, own, i, MapStep(s, es[i]), MapStep(t, TellAt(es, own, i)))
  {
    hide *;
    AlikeParts(es, own, i, s, t);
    var e := es[i];
    ToldArgs(es, own, i, t);
    ArrivesOf(es, own, i);
    var b := MapStep(t, TellAt(es, own, i));
    var s' := PutPending(s, e.outputIndex, e.itemId, e.args);
    ArgsStepOf(s, e, (s, None));
    PutFrame(s, e);
    KeyedMore(es, own, i, s, t, s', b.s);
    PendedPut(es, own, i, s);
    SameMaps(s, t, s', b.s);
    IsSameStep(es, own, i, MapStep(s, e), b);
  }

  lemma NotBoth(e: Event)
    requires AddsArgs(e)
    ensures !Announces(e) && e.ArgsDelta?
  {
  }

  lemma SameMaps(s: State, t: State, s': State, t': State)
    requires SameElse(s, t)
    requires s' == s.(pendingItem := s'.pendingItem, pendingOutput := s'.pendingOutput)
    requires t' == t.(pendingItem := t'.pendingItem, pendingOutput := t'.pendingOutput)
    ensures SameElse(s', t')
  {
  }

  lemma IsSameStep(es: seq<Event>, own: map<string, int>, i: nat, a: Step, b: Step)
    requires i < |es| && !a.failed && !b.failed && a.out == b.out && SameElse(a.s, b.s)
    requires KeysOk(Told(es, own)[..i + 1], b.s, own) && PendingOk(Told(es, own)[..i + 1], b.s, own)
    requires Keyed(es, own, i + 1, a.s, b.s) && Pended(es, own, i + 1, a.s)
    ensures SameStep(es, own, i, a, b)
  {
  }

  lemma NoFallback(g: seq<Event>, t: State, own: map<string, int>)
    requires KeysOk(g, t, own)
    ensures t.fallbackKey.None? && t.nextTool == |Announcements(g)|
  {
  }

  // ---- an announcement ----

  /** A new call has been entered under its key and its names. */
  function Began(s: State, e: Event, key: Key): State
    requires e.ItemAdded?
  {
    s.(toolIndex := s.toolIndex[key := s.nextTool], nextTool := s.nextTool + 1,
       outputToKey := if e.outputIndex.Some? then s.outputToKey[e.outputIndex.value := key] else s.outputToKey,
       itemToKey := if ItemIdOf(e) != "" then s.itemToKey[ItemIdOf(e) := key] else s.itemToKey, sawTool := true)
  }

  lemma AddedStepOf(s: State, e: Event, key: Key)
    requires Announces(e) && KeyFor(s, e, CallId(e, s.nextTool)) == (s, Some(key)) && key !in s.toolIndex
    ensures var (v, args) := TakePending(Began(s, e, key), e);
            var w := v.(roleSent := true);
            MapStep(s, e) == Step(w, RoleIfNeeded(v) + [ToolChunk(w, ToolDelta(Some(s.nextTool), CallId(e, s.nextTool), Trim(e.item.name), args))], false)
  {
    hide Trim, CallId, KeyFor, TakePending, RoleIfNeeded;
  }

  lemma TakeFrame(s: State, e: Event)
    requires e.ItemAdded?
    ensures var t := TakePending(s, e).0;
            t == s.(pendingItem := t.pendingItem, pendingOutput := t.pendingOutput)
  {
    hide Trim, At;
    var x := Trim(e.item.id);
    var s1 := if e.outputIndex.Some? then s.(pendingOutput := s.pendingOutput - {e.outputIndex.value}) else s;
    if EarlyByIndex(s, e) == "" && x != "" {
      assert TakePending(s, e).0 == s1.(pendingItem := s1.pendingItem - {x});
    } else {
      assert TakePending(s, e).0 == s1;
    }
  }

  function EarlyByIndex(s: State, e: Event): string
    requires e.ItemAdded?
  {
    if e.outputIndex.Some? then At(s.pendingOutput, e.outputIndex.value) else ""
  }

  lemma TakenText(s: State, e: Event)
    requires e.ItemAdded?
    ensures TakePending(s, e).1 == if EarlyByIndex(s, e) != "" then EarlyByIndex(s, e)
                                   else if Trim(e.item.id) != "" then At(s.pendingItem, Trim(e.item.id)) else ""
  {
    hide Trim, At;
    var x := Trim(e.item.id);
    if EarlyByIndex(s, e) == "" && x != "" {
      assert TakePending(s, e).1 == At(s.pendingItem, x);
    }
  }

  lemma DropOther<K>(m: map<K, string>, x: K, k: K)
    requires k != x
    ensures At(m - {x}, k) == At(m, k)
  {
  }

  /** Text kept for other calls stays. */
  lemma LeavesOutput(s: State, e: Event, k: int)
    requires e.ItemAdded? && e.outputIndex != Some(k)
    ensures At(TakePending(s, e).0.pendingOutput, k) == At(s.pendingOutput, k)
  {
    hide Trim, At;
    if e.outputIndex.Some? {
      var x := e.outputIndex.value;
      DropOther(s.pendingOutput, x, k);
      var s1 := s.(pendingOutput := s.pendingOutput - {x});
      var id := Trim(e.item.id);
      if At(s.pendingOutput, x) == "" && id != "" {
        assert TakePending(s, e).0 == s1.(pendingItem := s1.pendingItem - {id});
      } else {
        assert TakePending(s, e).0 == s1;
      }
    }
  }

  lemma LeavesItem(s: State, e: Event, id: string)
    requires e.ItemAdded? && Trim(e.item.id) != id
    ensures At(TakePending(s, e).0.pendingItem, id) == At(s.pendingItem, id)
  {
    hide Trim, At;
    var x := Trim(e.item.id);
    DropOther(s.pendingItem, x, id);
    var byIndex := EarlyByIndex(s, e);
    var s1 := if e.outputIndex.Some? then s.(pendingOutput := s.pendingOutput - {e.outputIndex.value}) else s;
    if byIndex == "" && x != "" {
      assert TakePending(s, e).0 == s1.(pendingItem := s1.pendingItem - {x});
    } else {
      assert TakePending(s, e).0 == s1;
    }
  }

  lemma KeyForNamed(s: State, e: Event, own: map<string, int>, id: string)
    requires Announces(e) && Placed(e, own)
    ensures KeyFor(s, e, id) == (s, Some(KeyAt(e)))
  {
    hide Trim;
    TrimmedIsNot(e.item.id);
  }

  lemma TrimmedIsNot(s: string)
    ensures Trim(s) != "" ==> s != ""
  {
  }

  lemma SameKeySameSlot(a: Event, b: Event, own: map<string, int>)
    requires Announces(a) && Announces(b) && Placed(a, own) && Placed(b, own) && KeyAt(a) == KeyAt(b)
    ensures Slot(a, own) == Slot(b, own)
  {
    hide Trim;
  }

  lemma NewKey(es: seq<Event>, own: map<string, int>, i: nat, s: State, t: State)
    requires AllPlaced(es, own) && SlotsOnce(es, own) && i < |es| && Announces(es[i]) && Keyed(es, own, i, s, t)
    ensures KeyAt(es[i]) !in s.toolIndex
  {
    hide Keyed, KeyAt, Slot, AllPlaced, SlotsOnce, OpenedAt, Trim;
    if KeyAt(es[i]) in s.toolIndex {
      var x := KeySource(es, own, i, s, t, KeyAt(es[i]));
      PlacedAt(es, own, x);
      PlacedAt(es, own, i);
      SameKeySameSlot(es[x], es[i], own);
      OpenedOnce(es, own, x);
      OpenedOnce(es, own, i);
    }
  }

  /** The maps after an announcement. */
  predicate Grown(a: Event, key: Key, s: State, t: State) {
    && t.toolIndex == s.toolIndex[key := s.nextTool] && t.nextTool == s.nextTool + 1
    && t.outputToKey == (if Indexed(a) then s.outputToKey[IndexOf(a) := key] else s.outputToKey)
    && t.itemToKey == (if ItemIdOf(a) != "" then s.itemToKey[ItemIdOf(a) := key] else s.itemToKey)
  }

  lemma OldBound(a: Event, b: Event, own: map<string, int>, s: State, t: State, s': State, t': State)
    requires Announces(a) && Announces(b) && Placed(a, own) && Placed(b, own) && Slot(a, own) != Slot(b, own)
    requires Bound(a, own, s, t) && Grown(b, KeyAt(b), s, s') && t'.toolIndex == t.toolIndex[OutKey(Slot(b, own)) := s.nextTool]
    ensures Bound(a, own, s', t')
  {
    hide Trim;
    if KeyAt(a) == KeyAt(b) { SameKeySameSlot(a, b, own); }
  }

  lemma NewBound(b: Event, own: map<string, int>, s: State, s': State, t': State)
    requires Announces(b) && Placed(b, own) && Grown(b, KeyAt(b), s, s')
    requires OutKey(Slot(b, own)) in t'.toolIndex && t'.toolIndex[OutKey(Slot(b, own))] == s.nextTool
    ensures Bound(b, own, s', t')
  {
    hide Trim;
  }

  lemma NewSources(es: seq<Event>, i: nat)
    requires i < |es| && Announces(es[i])
    ensures FromKey(es, i + 1, KeyAt(es[i]))
    ensures Indexed(es[i]) ==> FromIndex(es, i + 1, IndexOf(es[i]))
    ensures ItemIdOf(es[i]) != "" ==> FromItem(es, i + 1, ItemIdOf(es[i]))
  {
    hide KeyAt, ItemIdOf, Trim;
  }

  lemma KeyedAdd(es: seq<Event>, own: map<string, int>, i: nat, s: State, t: State, s': State, t': State)
    requires AllPlaced(es, own) && SlotsOnce(es, own) && i < |es| && Announces(es[i]) && Keyed(es, own, i, s, t)
    requires Grown(es[i], KeyAt(es[i]), s, s') && t'.toolIndex == t.toolIndex[OutKey(Slot(es[i], own)) := s.nextTool]
    requires s'.fallbackKey == s.fallbackKey
    ensures Keyed(es, own, i + 1, s', t')
  {
    hide Trim, CallId, Slot, KeyAt, FromKey, FromIndex, FromItem, Opened, Bound, OpenedAt, AllPlaced, SlotsOnce, ItemIdOf;
    SourcesMore(es, i);
    NewSources(es, i);
    OpenedSame(es, own, i);
    PlacedAt(es, own, i);
    NewBound(es[i], own, s, s', t');
    OpenedOnce(es, own, i);
    forall j | 0 <= j < i + 1 && Announces(es[j]) ensures Bound(es[j], own, s', t') {
      if j < i {
        BoundAt(es, own, i, s, t, j);
        PlacedAt(es, own, j);
        OpenedOnce(es, own, j);
        OldBound(es[j], es[i], own, s, t, s', t');
      }
    }
  }

  lemma PendedTake(es: seq<Event>, own: map<string, int>, i: nat, s: State, u: State)
    requires AllPlaced(es, own) && SlotsOnce(es, own) && i < |es| && Announces(es[i]) && Pended(es, own, i, s)
    requires u.pendingOutput == s.pendingOutput && u.pendingItem == s.pendingItem
    ensures Pended(es, own, i + 1, TakePending(u, es[i]).0)
  {
    hide ArgsFor, IdText, Trim, OpenedAt, AllPlaced, SlotsOnce, Pended, TakePending, At;
    TextsMore(es, own, i);
    PlacedAt(es, own, i);
    OpenedOnce(es, own, i);
    var t := TakePending(u, es[i]).0;
    forall x: string ensures x + "" == x { }
    forall k | OpenedAt(es, own, k) >= i + 1 ensures At(t.pendingOutput, k) == ArgsFor(es[..i + 1], k) {
      PendedOutput(es, own, i, s, k);
      LeavesOutput(u, es[i], k);
    }
    forall id | id != "" && id in own && OpenedAt(es, own, own[id]) >= i + 1 ensures At(t.pendingItem, id) == IdText(es[..i + 1], id) {
      PendedItem(es, own, i, s, id);
      LeavesItem(u, es[i], id);
    }
    IsPended(es, own, i + 1, t);
  }

  /** The text taken for a new call is that which arrives early. */
  lemma TakesEarly(es: seq<Event>, own: map<string, int>, i: nat, s: State, u: State)
    requires AllPlaced(es, own) && SlotsOnce(es, own) && i < |es| && Announces(es[i]) && Pended(es, own, i, s)
    requires u.pendingOutput == s.pendingOutput && u.pendingItem == s.pendingItem
    ensures TakePending(u, es[i]).1 == ArrivedText(es, own, i, Slot(es[i], own))
  {
    hide ArgsFor, IdText, Trim, OpenedAt, AllPlaced, SlotsOnce, Pended, TakePending, At, ArrivedText;
    PlacedAt(es, own, i);
    OpenedOnce(es, own, i);
    TakenText(u, es[i]);
    EarlyText(es, own, i, i);
    if Indexed(es[i]) {
      PendedOutput(es, own, i, s, IndexOf(es[i]));
    }
    if ItemIdOf(es[i]) != "" {
      PendedItem(es, own, i, s, ItemIdOf(es[i]));
    }
  }

  /** What the step for a new call sends and changes. */
  ghost predicate Adds(s: State, e: Event, key: Key, r: Step)
    requires e.ItemAdded?
  {
    var (v, args) := TakePending(Began(s, e, key), e);
    r == Step(v.(roleSent := true),
              RoleIfNeeded(s) + [ToolChunk(s, ToolDelta(Some(s.nextTool), CallId(e, s.nextTool), Trim(e.item.name), args))], false)
  }

  lemma AddedAdds(s: State, e: Event, key: Key)
    requires Announces(e) && KeyFor(s, e, CallId(e, s.nextTool)) == (s, Some(key)) && key !in s.toolIndex
    ensures Adds(s, e, key, MapStep(s, e))
  {
    hide Trim, CallId, KeyFor, TakePending, MapStep, Began, RoleIfNeeded, ToolChunk;
    AddedStepOf(s, e, key);
    TakeFrame(Began(s, e, key), e);
    SendsAsBefore(s, e, key, TakePending(Began(s, e, key), e).0,
                  ToolDelta(Some(s.nextTool), CallId(e, s.nextTool), Trim(e.item.name), TakePending(Began(s, e, key), e).1));
  }

  lemma SendsAsBefore(s: State, e: Event, key: Key, v: State, td: ToolDelta)
    requires e.ItemAdded?
    requires v == Began(s, e, key).(pendingItem := v.pendingItem, pendingOutput := v.pendingOutput)
    ensures RoleIfNeeded(v) == RoleIfNeeded(s) && ToolChunk(v.(roleSent := true), td) == ToolChunk(s, td)
  {
    hide Trim;
  }

  lemma AddedAlike(es: seq<Event>, own: map<string, int>, i: nat, s: State, t: State)
    requires AllPlaced(es, own) && SlotsOnce(es, own) && i < |es| && Announces(es[i]) && Alike(es, own, i, s, t)
    ensures SameStep(es, own, i, MapStep(s, es[i]), MapStep(t, TellAt(es, own, i)))
  {
    hide *;
    var e, e', k := es[i], TellAt(es, own, i), Slot(es[i], own);
    AlikeParts(es, own, i, s, t);
    PlacedAt(es, own, i);
    TellFacts(es, own, i);
    AnnouncesItem(e);
    AnnouncesItem(e');
    RealAdds(es, own, i, s, t);
    ToldAdds(es, own, i, t);
    var a, b := MapStep(s, e), MapStep(t, e');
    AddsAlike(es, own, i, s, t, a, b);
    AddsMaps(es, own, i, s, t, a, b);
    AddsPended(es, own, i, s, a);
    IsSameStep(es, own, i, a, b);
  }

  lemma AnnouncesItem(e: Event)
    requires Announces(e)
    ensures e.ItemAdded?
  {
  }

  lemma RealAdds(es: seq<Event>, own: map<string, int>, i: nat, s: State, t: State)
    requires AllPlaced(es, own) && SlotsOnce(es, own) && i < |es| && Announces(es[i]) && es[i].ItemAdded? && Keyed(es, own, i, s, t)
    ensures Adds(s, es[i], KeyAt(es[i]), MapStep(s, es[i]))
  {
    hide *;
    PlacedAt(es, own, i);
    NewKey(es, own, i, s, t);
    KeyForNamed(s, es[i], own, CallId(es[i], s.nextTool));
    AddedAdds(s, es[i], KeyAt(es[i]));
  }

  lemma KeyForIndexed(s: State, e: Event, id: string)
    requires e.ItemAdded? && e.outputIndex.Some?
    ensures KeyFor(s, e, id) == (s, Some(OutKey(e.outputIndex.value)))
  {
  }

  lemma ToldAdds(es: seq<Event>, own: map<string, int>, i: nat, t: State)
    requires AllPlaced(es, own) && SlotsOnce(es, own) && i < |es| && Announces(es[i]) && TellAt(es, own, i).ItemAdded?
    requires KeysOk(Told(es, own)[..i], t, own) && PendingOk(Told(es, own)[..i], t, own)
    ensures var e', k, b := TellAt(es, own, i), Slot(es[i], own), MapStep(t, TellAt(es, own, i));
            && Adds(t, e', OutKey(k), b)
            && TakePending(Began(t, e', OutKey(k)), e').1 == ArrivedText(es, own, i, k)
            && KeysOk(Told(es, own)[..i + 1], b.s, own) && PendingOk(Told(es, own)[..i + 1], b.s, own)
  {
    hide *;
    var g, e', k := Told(es, own)[..i], TellAt(es, own, i), Slot(es[i], own);
    PlacedAt(es, own, i);
    TellFacts(es, own, i);
    PrefixSnoc(Told(es, own), i);
    OpenedOnce(es, own, i);
    ToldIsOpen(es, own, i, k);
    NotKeyed(g, t, own, k);
    KeyForIndexed(t, e', CallId(e', t.nextTool));
    AddedAdds(t, e', OutKey(k));
    var u := Began(t, e', OutKey(k));
    BeganParts(t, e', OutKey(k));
    SamePending(g, t, u, own);
    TakesPending(g, u, own, e');
    ToldText(es, own, i, k);
    var b := MapStep(t, e');
    AddsParts(t, e', OutKey(k), b);
    SamePending(g + [e'], TakePending(u, e').0, b.s, own);
    KeysGrow(g, t, b.s, own, e');
  }

  lemma BeganParts(s: State, e: Event, key: Key)
    requires e.ItemAdded?
    ensures var u := Began(s, e, key);
            && u.pendingOutput == s.pendingOutput && u.pendingItem == s.pendingItem
            && u.toolIndex == s.toolIndex[key := s.nextTool] && u.nextTool == s.nextTool + 1 && u.fallbackKey == s.fallbackKey
            && (e.outputIndex.Some? ==> u.outputToKey == s.outputToKey[IndexOf(e) := key])
            && (e.outputIndex.None? ==> u.outputToKey == s.outputToKey)
            && (ItemIdOf(e) == "" ==> u.itemToKey == s.itemToKey)
            && (ItemIdOf(e) != "" ==> u.itemToKey == s.itemToKey[ItemIdOf(e) := key])
            && ItemIdOf(e) == Trim(e.item.id)
            && u == s.(toolIndex := u.toolIndex, nextTool := u.nextTool, outputToKey := u.outputToKey, itemToKey := u.itemToKey, sawTool := true)
  {
    hide Trim;
  }

  lemma AddsParts(s: State, e: Event, key: Key, r: Step)
    requires e.ItemAdded? && Adds(s, e, key, r)
    ensures var u := Began(s, e, key);
            var v := TakePending(u, e).0;
            && r.s.pendingOutput == v.pendingOutput && r.s.pendingItem == v.pendingItem
            && r.s.toolIndex == u.toolIndex && r.s.outputToKey == u.outputToKey && r.s.itemToKey == u.itemToKey
            && r.s.nextTool == u.nextTool && r.s.fallbackKey == u.fallbackKey
            && r.s == u.(pendingItem := r.s.pendingItem, pendingOutput := r.s.pendingOutput, roleSent := true)
            && !r.failed
            && r.out == RoleIfNeeded(s) + [ToolChunk(s, ToolDelta(Some(s.nextTool), CallId(e, s.nextTool), Trim(e.item.name), TakePending(u, e).1))]
  {
    hide Trim, CallId, TakePending, ToolChunk, RoleIfNeeded, Began;
    TakeFrame(Began(s, e, key), e);
  }

  lemma BeganGrows(s: State, e: Event, key: Key, t: State)
    requires e.ItemAdded?
    requires var u := Began(s, e, key);
             t.toolIndex == u.toolIndex && t.outputToKey == u.outputToKey && t.itemToKey == u.itemToKey && t.nextTool == u.nextTool
    ensures Grown(e, key, s, t)
  {
    hide Trim;
  }

  /** Both send the same. */
  lemma AddsAlike(es: seq<Event>, own: map<string, int>, i: nat, s: State, t: State, a: Step, b: Step)
    requires AllPlaced(es, own) && SlotsOnce(es, own) && i < |es| && Announces(es[i]) && es[i].ItemAdded? && Alike(es, own, i, s, t)
    requires TellAt(es, own, i).ItemAdded?
    requires Adds(s, es[i], KeyAt(es[i]), a) && Adds(t, TellAt(es, own, i), OutKey(Slot(es[i], own)), b)
    requires TakePending(Began(t, TellAt(es, own, i), OutKey(Slot(es[i], own))), TellAt(es, own, i)).1 == ArrivedText(es, own, i, Slot(es[i], own))
    ensures !a.failed && !b.failed && a.out == b.out
  {
    hide *;
    var e, e' := es[i], TellAt(es, own, i);
    var u := Began(s, e, KeyAt(e));
    AlikeParts(es, own, i, s, t);
    PlacedAt(es, own, i);
    TellFacts(es, own, i);
    BeganParts(s, e, KeyAt(e));
    TakesEarly(es, own, i, s, u);
    OpenedCount(es, own, i, s, t);
    AddsParts(s, e, KeyAt(e), a);
    AddsParts(t, e', OutKey(Slot(e, own)), b);
    SameChunk(s, t, ToolDelta(Some(s.nextTool), CallId(e, s.nextTool), Trim(e.item.name), TakePending(u, e).1));
  }

  lemma OpenedCount(es: seq<Event>, own: map<string, int>, i: nat, s: State, t: State)
    requires i <= |es| && Keyed(es, own, i, s, t)
    ensures s.nextTool == |Opened(es[..i], own)|
  {
  }

  lemma AddsMaps(es: seq<Event>, own: map<string, int>, i: nat, s: State, t: State, a: Step, b: Step)
    requires AllPlaced(es, own) && SlotsOnce(es, own) && i < |es| && Announces(es[i]) && es[i].ItemAdded? && Alike(es, own, i, s, t)
    requires TellAt(es, own, i).ItemAdded?
    requires Adds(s, es[i], KeyAt(es[i]), a) && Adds(t, TellAt(es, own, i), OutKey(Slot(es[i], own)), b)
    ensures SameElse(a.s, b.s) && Keyed(es, own, i + 1, a.s, b.s)
  {
    hide *;
    var e, e', k := es[i], TellAt(es, own, i), Slot(es[i], own);
    AlikeParts(es, own, i, s, t);
    BeganParts(s, e, KeyAt(e));
    BeganParts(t, e', OutKey(k));
    AddsParts(s, e, KeyAt(e), a);
    AddsParts(t, e', OutKey(k), b);
    BeganGrows(s, e, KeyAt(e), a.s);
    KeyedAdd(es, own, i, s, t, a.s, b.s);
    BothBegan(s, t, Began(s, e, KeyAt(e)), Began(t, e', OutKey(k)), a.s, b.s);
  }

  lemma BothBegan(s: State, t: State, u: State, v: State, s': State, t': State)
    requires SameElse(s, t) && s.nextTool == t.nextTool
    requires u == s.(toolIndex := u.toolIndex, nextTool := s.nextTool + 1, outputToKey := u.outputToKey, itemToKey := u.itemToKey, sawTool := true)
    requires v == t.(toolIndex := v.toolIndex, nextTool := t.nextTool + 1, outputToKey := v.outputToKey, itemToKey := v.itemToKey, sawTool := true)
    requires s' == u.(pendingItem := s'.pendingItem, pendingOutput := s'.pendingOutput, roleSent := true)
    requires t' == v.(pendingItem := t'.pendingItem, pendingOutput := t'.pendingOutput, roleSent := true)
    ensures SameElse(s', t')
  {
  }

  lemma AddsPended(es: seq<Event>, own: map<string, int>, i: nat, s: State, a: Step)
    requires AllPlaced(es, own) && SlotsOnce(es, own) && i < |es| && Announces(es[i]) && es[i].ItemAdded? && Pended(es, own, i, s)
    requires Adds(s, es[i], KeyAt(es[i]), a)
    ensures Pended(es, own, i + 1, a.s)
  {
    hide *;
    BeganParts(s, es[i], KeyAt(es[i]));
    AddsParts(s, es[i], KeyAt(es[i]), a);
    PendedTake(es, own, i, s, Began(s, es[i], KeyAt(es[i])));
    PendedAs(es, own, i + 1, TakePending(Began(s, es[i], KeyAt(es[i])), es[i]).0, a.s);
  }

  lemma PendedAs(es: seq<Event>, own: map<string, int>, i: nat, s: State, t: State)
    requires i <= |es| && Pended(es, own, i, s) && t.pendingOutput == s.pendingOutput && t.pendingItem == s.pendingItem
    ensures Pended(es, own, i, t)
  {
  }

  // ---- all other events, and runs ----

  lemma ReasoningSame(s: State, t: State, text: string)
    requires SameElse(s, t)
    ensures var a, b := ReasoningStep(s, text), ReasoningStep(t, text); !a.failed && !b.failed && a.out == b.out && SameElse(a.s, b.s)
  {
    hide Separator;
  }

  lemma CreatedSame(s: State, t: State, id: string, model: string)
    requires SameElse(s, t)
    ensures var a, b := MapStep(s, Created(id, model)), MapStep(t, Created(id, model)); !a.failed && !b.failed && a.out == b.out && SameElse(a.s, b.s)
  {
  }

  lemma ElseSame(s: State, t: State, e: Event)
    requires SameElse(s, t) && !Announces(e) && !AddsArgs(e) && !e.Ended? && !e.Failed?
    ensures var a, b := MapStep(s, e), MapStep(t, e); !a.failed && !b.failed && a.out == b.out && SameElse(a.s, b.s)
  {
    hide Trim, AddedStep, ArgsStep, ReasoningStep, RoleIfNeeded;
    NothingFor(s, e);
    NothingFor(t, e);
    if e.ReasoningDelta? {
      ReasoningSame(s, t, e.text);
    } else if e.Created? {
      CreatedSame(s, t, e.id, e.model);
    }
  }

  lemma ElseAlike(es: seq<Event>, own: map<string, int>, i: nat, s: State, t: State)
    requires AllPlaced(es, own) && i < |es| && !IsTool(es[i]) && !es[i].Ended? && !es[i].Failed? && Alike(es, own, i, s, t)
    ensures SameStep(es, own, i, MapStep(s, es[i]), MapStep(t, TellAt(es, own, i)))
  {
    var e := es[i];
    assert !Announces(e) && !AddsArgs(e);
    hide *;
    AlikeParts(es, own, i, s, t);
    PlacedAt(es, own, i);
    TellFacts(es, own, i);
    PrefixSnoc(Told(es, own), i);
    ElseSame(s, t, e);
    ProseFrame(s, e);
    ProseFrame(t, e);
    var a, b, g := MapStep(s, e), MapStep(t, e), Told(es, own)[..i];
    KeysSame(g, t, b.s, own, e);
    PendingElse(g, t, own, e);
    SamePending(g + [e], t, b.s, own);
    KeyedMore(es, own, i, s, t, a.s, b.s);
    PendedSame(es, own, i, s, a.s);
    IsSameStep(es, own, i, a, b);
  }

  lemma StepAlike(es: seq<Event>, own: map<string, int>, i: nat, s: State, t: State)
    requires AllPlaced(es, own) && SlotsOnce(es, own) && i < |es| && !es[i].Ended? && !es[i].Failed? && Alike(es, own, i, s, t)
    ensures SameStep(es, own, i, MapStep(s, es[i]), MapStep(t, TellAt(es, own, i)))
  {
    hide Alike, SameStep, MapStep, TellAt, AllPlaced, SlotsOnce, Announces, AddsArgs;
    if Announces(es[i]) {
      AddedAlike(es, own, i, s, t);
    } else if AddsArgs(es[i]) {
      ArgsAlike(es, own, i, s, t);
    } else {
      ElseAlike(es, own, i, s, t);
    }
  }

  lemma {:induction false} RunAlike(es: seq<Event>, own: map<string, int>, i: nat, s: State, t: State)
    requires AllPlaced(es, own) && SlotsOnce(es, own) && Open(es) && i <= |es| && Alike(es, own, i, s, t)
    ensures var a, b := Run(s, es[i..]), Run(t, Told(es, own)[i..]);
            !a.failed && !b.failed && a.out == b.out && SameElse(a.s, b.s)
    decreases |es| - i
  {
    hide KeysOk, PendingOk, Keyed, Pended, MapStep, TellAt, AllPlaced, SlotsOnce;
    var rest, more := es[i..], Told(es, own)[i..];
    if i < |es| {
      StepAlike(es, own, i, s, t);
      assert rest[0] == es[i] && rest[1..] == es[i + 1..] && more[0] == TellAt(es, own, i) && more[1..] == Told(es, own)[i + 1..];
      RunAlike(es, own, i + 1, MapStep(s, es[i]).s, MapStep(t, TellAt(es, own, i)).s);
    }
  }

  lemma StartAlike(es: seq<Event>, own: map<string, int>, s: State)
    requires s == Initial(s.responseId, s.requestedModel)
    ensures Alike(es, own, 0, s, s)
  {
    hide Told;
    assert Told(es, own)[..0] == [] && es[..0] == [];
  }

  // ---- what the stream says in Chat ----

  lemma ToldIsGood(es: seq<Event>, own: map<string, int>)
    requires AllPlaced(es, own) && SlotsOnce(es, own) && Open(es)
    ensures Consistent(Told(es, own), own) && AnnouncedOnce(Told(es, own)) && Open(Told(es, own))
  {
    hide Placed, TellAt, ToolOk, Announces, Slot, SlotsOnce;
    var g := Told(es, own);
    forall i | 0 <= i < |es|
      ensures ToolOk(g[i], own) && !g[i].Ended? && !g[i].Failed? && (Announces(g[i]) <==> Announces(es[i]))
      ensures Announces(es[i]) ==> IndexOf(g[i]) == Slot(es[i], own) {
      TellFacts(es, own, i);
    }
    forall i, j | 0 <= i < j < |es| && Announces(g[i]) && Announces(g[j]) ensures IndexOf(g[i]) != IndexOf(g[j]) {
      OpenedOnce(es, own, i);
      OpenedOnce(es, own, j);
    }
  }

  /** With its terminal event, the stream is sent as the told one would be. */
  lemma SentAsTold(id: string, requested: string, es: seq<Event>, completed: bool, body: Option<Body>, own: map<string, int>)
    requires AllPlaced(es, own) && SlotsOnce(es, own) && Open(es)
    ensures Converted(Initial(id, requested), es + [Ended(completed, body)])
         == Converted(Initial(id, requested), Told(es, own) + [Ended(completed, body)])
  {
    hide Alike, MapStep, AllPlaced, SlotsOnce, Told;
    var s0 := Initial(id, requested);
    StartAlike(es, own, s0);
    RunAlike(es, own, 0, s0, s0);
    assert es[0..] == es && Told(es, own)[0..] == Told(es, own);
    RunConcat(s0, es, [Ended(completed, body)]);
    RunConcat(s0, Told(es, own), [Ended(completed, body)]);
    var a, b := Run(s0, es).s, Run(s0, Told(es, own)).s;
    RunEnd(a, completed, body);
    RunEnd(b, completed, body);
    EndSame(a, b, completed, body);
  }

  lemma EndSame(s: State, t: State, completed: bool, body: Option<Body>)
    requires SameElse(s, t)
    ensures MapStep(s, Ended(completed, body)).out == MapStep(t, Ended(completed, body)).out
  {
    hide EndReason, ChatUsage;
  }

  /** The calls in order, each with the text that arrives at it. */
  ghost predicate CallsArrive(es: seq<Event>, own: map<string, int>, calls: seq<Call>) {
    var ann := Opened(es, own);
    && |calls| == |ann|
    && forall j :: 0 <= j < |ann| ==> calls[j] == Call(j, ann[j].id, ann[j].name, ArrivedText(es, own, |es|, ann[j].index))
  }

  lemma AllArrive(es: seq<Event>, own: map<string, int>, calls: seq<Call>)
    requires AllPlaced(es, own) && AllCalls(Told(es, own), calls)
    ensures CallsArrive(es, own, calls)
  {
    hide Told, Announcements, Opened, ArgsFor, ArrivedText;
    assert Told(es, own)[..|es|] == Told(es, own) && es[..|es|] == es;
    ToldOpens(es, own, |es|);
    forall k ensures ArgsFor(Told(es, own), k) == ArrivedText(es, own, |es|, k) {
      ToldText(es, own, |es|, k);
    }
  }

  /** Every delta for a call that is announced reaches it. */
  ghost predicate NothingLost(es: seq<Event>, own: map<string, int>) {
    forall i :: 0 <= i < |es| && AddsArgs(es[i]) && OpenedAt(es, own, Slot(es[i], own)) < |es| ==> Arrives(es, own, i)
  }

  ghost predicate LosesNone(es: seq<Event>, own: map<string, int>, n: nat, k: int)
    requires n <= |es|
  {
    forall i :: 0 <= i < n && AddsArgs(es[i]) && Slot(es[i], own) == k ==> Arrives(es, own, i)
  }

  lemma {:induction false} ArrivedIsSent(es: seq<Event>, own: map<string, int>, n: nat, k: int)
    requires n <= |es|
    ensures |ArrivedText(es, own, n, k)| <= |SentText(es, own, n, k)|
    ensures ArrivedText(es, own, n, k) == SentText(es, own, n, k) <==> LosesNone(es, own, n, k)
    decreases n
  {
    hide *;
    if n > 0 {
      ArrivedIsSent(es, own, n - 1, k);
      ArrivedSnoc(es, own, n - 1, k);
      SentSnoc(es, own, n - 1, k);
      LosesSnoc(es, own, n - 1, k);
      OneMore(ArrivedText(es, own, n - 1, k), SentText(es, own, n - 1, k),
              if AddsArgs(es[n - 1]) && Slot(es[n - 1], own) == k then es[n - 1].args else "", Arrives(es, own, n - 1));
    } else {
      NoneArrived(es, own, k);
      NoneSent(es, own, k);
    }
  }

  lemma SentSnoc(es: seq<Event>, own: map<string, int>, n: nat, k: int)
    requires n < |es|
    ensures SentText(es, own, n + 1, k) == SentText(es, own, n, k) + if AddsArgs(es[n]) && Slot(es[n], own) == k then es[n].args else ""
  {
    hide Slot;
  }

  lemma NoneSent(es: seq<Event>, own: map<string, int>, k: int)
    ensures SentText(es, own, 0, k) == "" && LosesNone(es, own, 0, k)
  {
  }

  lemma LosesSnoc(es: seq<Event>, own: map<string, int>, n: nat, k: int)
    requires n < |es|
    ensures LosesNone(es, own, n + 1, k) <==>
            LosesNone(es, own, n, k) && (AddsArgs(es[n]) && Slot(es[n], own) == k ==> Arrives(es, own, n))
    ensures AddsArgs(es[n]) ==> es[n].ArgsDelta? && es[n].args != ""
  {
    hide Slot, Arrives;
  }

  /** What one more piece of text does, of which all or nothing arrives. */
  lemma OneMore(a: string, b: string, t: string, arrives: bool)
    requires |a| <= |b|
    ensures var a' := if arrives then a + t else a + "";
            |a'| <= |b + t| && (a' == b + t <==> a == b && (t != "" ==> arrives))
  {
    if arrives {
      SameEnd(a, b, t);
    } else {
      assert a + "" == a && |b + t| == |b| + |t|;
      assert t == "" ==> b + t == b;
    }
  }

  lemma SameEnd(a: string, b: string, t: string)
    ensures a + t == b + t <==> a == b
  {
    if a + t == b + t {
      assert |a| == |b|;
      assert a == (a + t)[..|a|] && b == (b + t)[..|b|];
    }
  }

  lemma LosesNoneIff(es: seq<Event>, own: map<string, int>)
    ensures NothingLost(es, own) <==> forall j :: 0 <= j < |Opened(es, own)| ==> LosesNone(es, own, |es|, Opened(es, own)[j].index)
  {
    hide Arrives, Slot, OpenedAt, Opened;
    assert es[..|es|] == es;
    forall k ensures IsAnn(Opened(es, own), k) <==> OpenedAt(es, own, k) < |es| {
      OpenedIff(es, own, k);
    }
    if NothingLost(es, own) {
      forall j | 0 <= j < |Opened(es, own)| ensures LosesNone(es, own, |es|, Opened(es, own)[j].index) {
        assert IsAnn(Opened(es, own), Opened(es, own)[j].index);
      }
    }
    if forall j :: 0 <= j < |Opened(es, own)| ==> LosesNone(es, own, |es|, Opened(es, own)[j].index) {
      forall i | 0 <= i < |es| && AddsArgs(es[i]) && OpenedAt(es, own, Slot(es[i], own)) < |es| ensures Arrives(es, own, i) {
        var j :| 0 <= j < |Opened(es, own)| && Opened(es, own)[j].index == Slot(es[i], own);
      }
    }
  }

  lemma OpenedIff(es: seq<Event>, own: map<string, int>, k: int)
    ensures IsAnn(Opened(es, own), k) <==> OpenedAt(es, own, k) < |es|
  {
    hide Opens, Opened, IsAnn;
    assert es[..|es|] == es;
    OpenedHas(es, own, |es|, k);
  }

  /** A stream whose tool events name their calls by index, by item id or by both, read in Chat: all text and
      reasoning, and the calls in order, each with the text that arrives at it; this is all the text sent
      for them if and only if nothing is lost. */
  lemma ChatSaysNamed(id: string, requested: string, es: seq<Event>, completed: bool, body: Option<Body>, own: map<string, int>)
    requires AllPlaced(es, own) && SlotsOnce(es, own) && Open(es)
    ensures var chunks := Converted(Initial(id, requested), es + [Ended(completed, body)]);
            var v := OfChat(chunks);
            var ann := Opened(es, own);
            && v.text == TextOf(es) && v.reasoning == ReasoningOf(es)
            && CallsArrive(es, own, v.calls)
            && (NothingLost(es, own) <==> forall j :: 0 <= j < |ann| ==> v.calls[j].args == SentText(es, own, |es|, ann[j].index))
            && v.finish == Some(EndReason(body, ann != []))
            && ReportedUsage(chunks, false, None) == SentUsage(body)
  {
    hide *;
    var g := Told(es, own);
    ToldIsGood(es, own);
    SentAsTold(id, requested, es, completed, body, own);
    ChatSaysAll(id, requested, g, completed, body, own);
    var v := OfChat(Converted(Initial(id, requested), es + [Ended(completed, body)]));
    AllArrive(es, own, v.calls);
    ToldProse(es, own, |es|);
    ToldOpens(es, own, |es|);
    assert g[..|es|] == g && es[..|es|] == es;
    SayAlike(es, g);
    LosesNoneIff(es, own);
    EachArrives(es, own, v.calls);
  }

  lemma EachArrives(es: seq<Event>, own: map<string, int>, calls: seq<Call>)
    requires CallsArrive(es, own, calls)
    ensures |calls| == |Opened(es, own)|
    ensures forall j :: 0 <= j < |calls| ==>
              (calls[j].args == SentText(es, own, |es|, Opened(es, own)[j].index) <==> LosesNone(es, own, |es|, Opened(es, own)[j].index))
  {
    hide Opened, ArrivedText, SentText, LosesNone;
    forall j | 0 <= j < |calls|
      ensures calls[j].args == SentText(es, own, |es|, Opened(es, own)[j].index) <==> LosesNone(es, own, |es|, Opened(es, own)[j].index) {
      ArrivedIsSent(es, own, |es|, Opened(es, own)[j].index);
    }
  }
}
