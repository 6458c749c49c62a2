/** Responses -> Chat for calls that are announced without any number: while there is one such call it gets all
    argument text that comes, and remembers the numbers that come with it; from the second on, only what
    gives one of these numbers still reaches the first. */
module ResponsesBare {
  import opened Wire
  import opened Meaning
  import opened Responses
  import opened ResponsesToChat
  import opened ResponsesKept
  import ResponsesById
  import opened N = ResponsesNamed

  function Count(es: seq<Event>, n: nat): nat
    requires n <= |es|
  {
    ResponsesById.Count(es, n)
  }

  /** Calls are announced without an index or an item id. */
  ghost predicate AllBare(es: seq<Event>) {
    forall i :: 0 <= i < |es| && Announces(es[i]) ==> es[i].outputIndex.None? && Trim(es[i].itemId) == "" && es[i].item.id == ""
  }

  function IdAt(es: seq<Event>, i: nat): string
    requires i < |es| && es[i].ItemAdded?
  {
    CallId(es[i], Count(es, i))
  }

  ghost predicate OwnCallIds(es: seq<Event>) {
    forall i, j :: 0 <= i < j < |es| && Announces(es[i]) && Announces(es[j]) ==> IdAt(es, i) != IdAt(es, j)
  }

  // ---- the numbers the only call remembers ----

  datatype Numbers = Numbers(indices: set<int>, items: set<string>)

  predicate Known(p: Numbers, e: Event) {
    e.ArgsDelta? && ((e.outputIndex.Some? && e.outputIndex.value in p.indices) || (Trim(e.itemId) != "" && Trim(e.itemId) in p.items))
  }

  /** Those of text that could be for no other call and had no number known yet. */
  function Remembered(es: seq<Event>, n: nat): Numbers
    requires n <= |es|
  {
    if n == 0 then Numbers({}, {})
    else
      var p, e := Remembered(es, n - 1), es[n - 1];
      if AddsArgs(e) && Count(es, n - 1) == 1 && !Known(p, e)
      then Numbers(if e.outputIndex.Some? then p.indices + {e.outputIndex.value} else p.indices,
                   if Trim(e.itemId) != "" then p.items + {Trim(e.itemId)} else p.items)
      else p
  }

  /** The delta at `i` reaches the first call; no other call gets any. */
  predicate GetsThrough(es: seq<Event>, i: nat)
    requires i < |es|
  {
    Count(es, i) == 1 || (Count(es, i) > 1 && Known(Remembered(es, i), es[i]))
  }

  function TextThrough(es: seq<Event>, n: nat): string
    requires n <= |es|
  {
    if n == 0 then ""
    else TextThrough(es, n - 1) + (if AddsArgs(es[n - 1]) && GetsThrough(es, n - 1) then es[n - 1].args else "")
  }

  // ---- the same stream with an index everywhere ----

  function Numbered(es: seq<Event>, i: nat): Event
    requires i < |es|
  {
    var e := es[i];
    if Announces(e) then ItemAdded(Some(Count(es, i)), e.itemId, e.item.(callId := IdAt(es, i)))
    else if AddsArgs(e) then ArgsDelta(e.custom, Some(0), "", if GetsThrough(es, i) then e.args else "")
    else e
  }

  function Numbering(es: seq<Event>): (r: seq<Event>)
    ensures |r| == |es| && forall i :: 0 <= i < |es| ==> r[i] == Numbered(es, i)
  {
    seq(|es|, i requires 0 <= i < |es| => Numbered(es, i))
  }

  lemma NumberedFacts(es: seq<Event>, i: nat)
    requires AllBare(es) && i < |es|
    ensures var e, t := es[i], Numbered(es, i);
            && ToolOk(t, map[])
            && (Announces(t) <==> Announces(e))
            && (Announces(e) ==> t.outputIndex == Some(Count(es, i)) && ItemIdOf(t) == "" && Trim(t.item.name) == Trim(e.item.name)
                                 && forall n :: CallId(t, n) == IdAt(es, i))
            && (AddsArgs(t) <==> AddsArgs(e) && GetsThrough(es, i))
            && (AddsArgs(t) ==> t.outputIndex == Some(0) && t.args == e.args)
            && (AddsArgs(e) ==> t.ArgsDelta? && !Announces(t) && (!GetsThrough(es, i) ==> t.args == ""))
            && (!IsTool(e) ==> t == e)
            && (t.Ended? <==> e.Ended?) && (t.Failed? <==> e.Failed?)
  {
    hide GetsThrough, Trim, CallId;
    NoSpace();
    var e := es[i];
    if Announces(e) {
      CallIdTrimmed(e, Count(es, i));
      GivenId(Numbered(es, i));
    }
  }

  lemma NoSpace()
    ensures Trim("") == ""
  {
  }

  lemma NumberedSnoc(es: seq<Event>, i: nat)
    requires AllBare(es) && i < |es|
    ensures Announcements(Numbering(es)[..i + 1]) ==
            Announcements(Numbering(es)[..i])
            + if Announces(es[i]) then [Announcement(Count(es, i), IdAt(es, i), Trim(es[i].item.name))] else []
  {
    hide Trim, CallId, Numbered, AllBare, Announcements;
    NumberedFacts(es, i);
    PrefixSnoc(Numbering(es), i);
    AnnSnoc(Numbering(es)[..i], Numbering(es)[i]);
  }

  lemma {:induction false} NumberedOpens(es: seq<Event>, i: nat)
    requires AllBare(es) && i <= |es|
    ensures var ann := Announcements(Numbering(es)[..i]);
            |ann| == Count(es, i) && forall j :: 0 <= j < |ann| ==> ann[j].index == j
    decreases i
  {
    hide Trim, CallId, Numbered, AllBare, Announcements, Numbering;
    if i > 0 {
      NumberedOpens(es, i - 1);
      NumberedSnoc(es, i - 1);
    } else {
      assert Numbering(es)[..0] == [];
      NoneOpen();
    }
  }

  lemma NoneOpen()
    ensures Announcements([]) == []
  {
  }

  lemma {:induction false} NumberedStands(es: seq<Event>, i: nat, j: nat)
    requires AllBare(es) && j < i <= |es| && Announces(es[j])
    ensures var ann := Announcements(Numbering(es)[..i]);
            Count(es, j) < |ann| && ann[Count(es, j)] == Announcement(Count(es, j), IdAt(es, j), Trim(es[j].item.name))
    decreases i
  {
    hide Trim, CallId, Numbered, AllBare, Announcements, Numbering, Count;
    NumberedSnoc(es, i - 1);
    NumberedOpens(es, i - 1);
    if j < i - 1 {
      NumberedStands(es, i - 1, j);
    }
  }

  lemma {:induction false} NumberedText(es: seq<Event>, i: nat, k: int)
    requires AllBare(es) && i <= |es|
    ensures ArgsFor(Numbering(es)[..i], k) == if k == 0 then TextThrough(es, i) else ""
    decreases i
  {
    hide Trim, CallId, Numbered, AllBare, ArgsFor, GetsThrough;
    if i > 0 {
      NumberedText(es, i - 1, k);
      NumberedDelta(es, i - 1, k);
      PrefixSnoc(Numbering(es), i - 1);
      ArgsSnoc(Numbering(es)[..i - 1], Numbering(es)[i - 1], k);
    } else {
      assert Numbering(es)[..0] == [];
      NoText(k);
    }
  }

  lemma NumberedDelta(es: seq<Event>, i: nat, k: int)
    requires i < |es|
    ensures var t, e := Numbered(es, i), es[i];
            (if t.ArgsDelta? && t.outputIndex == Some(k) then t.args else "")
            == (if k == 0 && AddsArgs(e) && GetsThrough(es, i) then e.args else "")
  {
    hide GetsThrough, Trim, CallId;
  }

  lemma {:induction false} NumberedProse(es: seq<Event>, i: nat)
    requires AllBare(es) && i <= |es|
    ensures ProseAlike(es[..i], Numbering(es)[..i])
    decreases i
  {
    hide *;
    if i > 0 {
      NumberedProse(es, i - 1);
      SameKind(es, i - 1);
      PrefixSnoc(es, i - 1);
      PrefixSnoc(Numbering(es), i - 1);
      ProseMore(es[..i - 1], Numbering(es)[..i - 1], es[i - 1], Numbering(es)[i - 1]);
    } else {
      assert Numbering(es)[..0] == [] && es[..0] == [];
      NoProse();
    }
  }

  lemma SameKind(es: seq<Event>, i: nat)
    requires i < |es|
    ensures Numbered(es, i) == es[i] || (es[i].ItemAdded? && Numbered(es, i).ItemAdded?) || (es[i].ArgsDelta? && Numbered(es, i).ArgsDelta?)
  {
    hide GetsThrough, Trim, CallId;
  }

  // ---- the two runs ----

  predicate IsCall(es: seq<Event>, i: nat, key: Key)
    requires i <= |es|
  {
    exists j :: 0 <= j < i && Announces(es[j]) && key == CallKey(IdAt(es, j))
  }

  /** The calls under their call ids, the first of them as the last resort. */
  ghost predicate BareCalls(es: seq<Event>, i: nat, s: State)
    requires i <= |es|
  {
    && s.nextTool == Count(es, i) && s.ambiguous == (Count(es, i) > 1)
    && (s.fallbackKey.Some? <==> Count(es, i) > 0)
    && (s.fallbackKey.Some? ==> s.fallbackKey.value in s.toolIndex && s.toolIndex[s.fallbackKey.value] == 0)
    && (forall key :: key in s.toolIndex ==> IsCall(es, i, key))
  }

  /** The mapper after `i` events. */
  ghost predicate BareState(es: seq<Event>, i: nat, s: State)
    requires i <= |es|
  {
    && BareCalls(es, i, s)
    && Remembers(s.outputToKey, Remembered(es, i).indices, s.fallbackKey)
    && Remembers(s.itemToKey, Remembered(es, i).items, s.fallbackKey)
  }

  /** The keys `ks`, all for the first call. */
  ghost predicate Remembers<K>(m: map<K, Key>, ks: set<K>, first: Option<Key>) {
    m.Keys == ks && forall k :: k in m ==> Some(m[k]) == first
  }

  lemma RemembersOne<K>(m: map<K, Key>, ks: set<K>, first: Option<Key>, k: K)
    requires Remembers(m, ks, first) && first.Some?
    ensures Remembers(m[k := first.value], ks + {k}, first)
  {
  }

  lemma LooksUp<K>(m: map<K, Key>, ks: set<K>, first: Option<Key>, tools: map<Key, int>, k: K)
    requires Remembers(m, ks, first) && (first.Some? ==> first.value in tools && tools[first.value] == 0)
    ensures Look(m, tools, k) == if k in ks then Some(0) else None
  {
    if k in m {
      assert Some(m[k]) == first;
    }
  }

  ghost predicate Alike(es: seq<Event>, i: nat, s: State, t: State)
    requires i <= |es|
  {
    && SameElse(s, t) && KeysOk(Numbering(es)[..i], t, map[]) && PendingOk(Numbering(es)[..i], t, map[])
    && BareState(es, i, s)
  }

  lemma KeysAreCalls(es: seq<Event>, i: nat, s: State, key: Key)
    requires i <= |es| && BareState(es, i, s) && key in s.toolIndex
    ensures key.CallKey?
  {
    hide Trim, CallId, Remembered, Count;
    assert IsCall(es, i, key);
  }

  /** Numbers lead to the first call. */
  lemma DirectIs(es: seq<Event>, i: nat, s: State)
    requires i < |es| && AddsArgs(es[i]) && BareState(es, i, s)
    ensures var e := es[i];
            Direct(s, e.outputIndex, Trim(e.itemId)) == if Known(Remembered(es, i), e) then Some(0) else None
  {
    var e, p := es[i], Remembered(es, i);
    BareFacts(es, i, s);
    hide Trim, CallId, IsCall, Remembered, Count, BareState, Remembers, Look;
    if e.outputIndex.Some? {
      LooksUp(s.outputToKey, p.indices, s.fallbackKey, s.toolIndex, e.outputIndex.value);
      if OutKey(e.outputIndex.value) in s.toolIndex { KeysAreCalls(es, i, s, OutKey(e.outputIndex.value)); }
    }
    LooksUp(s.itemToKey, p.items, s.fallbackKey, s.toolIndex, Trim(e.itemId));
    if ItemKey(Trim(e.itemId)) in s.toolIndex { KeysAreCalls(es, i, s, ItemKey(Trim(e.itemId))); }
  }

  lemma BareFacts(es: seq<Event>, i: nat, s: State)
    requires i <= |es| && BareState(es, i, s)
    ensures Remembers(s.outputToKey, Remembered(es, i).indices, s.fallbackKey) && Remembers(s.itemToKey, Remembered(es, i).items, s.fallbackKey)
    ensures s.fallbackKey.Some? ==> s.fallbackKey.value in s.toolIndex && s.toolIndex[s.fallbackKey.value] == 0
    ensures s.nextTool == Count(es, i) && s.ambiguous == (Count(es, i) > 1) && (s.fallbackKey.Some? <==> Count(es, i) > 0)
  {
    hide Trim, CallId, IsCall, Remembered, Count, Remembers;
  }

  /** Nothing is remembered before there is a call. */
  lemma {:induction false} NoneKnown(es: seq<Event>, i: nat)
    requires i <= |es| && Count(es, i) == 0
    ensures Remembered(es, i) == Numbers({}, {})
    decreases i
  {
    hide Trim, Known;
    if i > 0 {
      NoneKnown(es, i - 1);
    }
  }

  /** A delta finds the first call, or none. */
  lemma FindsFirst(es: seq<Event>, i: nat, s: State)
    requires i < |es| && AddsArgs(es[i]) && BareState(es, i, s)
    ensures var r := FindTool(s, es[i].outputIndex, es[i].itemId);
            var e, p := es[i], Remembered(es, i);
            && r.1 == (if GetsThrough(es, i) then Some(0) else None)
            && (Known(p, e) || Count(es, i) != 1 ==> r.0 == s)
            && (!Known(p, e) && Count(es, i) == 1 ==> s.fallbackKey.Some? && r.0 == Binds(s, e))
  {
    var e, known, c := es[i], Known(Remembered(es, i), es[i]), Count(es, i);
    DirectIs(es, i, s);
    BareFacts(es, i, s);
    if c == 0 {
      NoneKnown(es, i);
      assert !known;
    }
    assert GetsThrough(es, i) <==> c == 1 || (c > 1 && known);
    assert e.ArgsDelta?;
    hide *;
    FindsBy(s, e, known);
  }

  /** The last resort remembers the event's numbers. */
  function Binds(s: State, e: Event): State
    requires e.ArgsDelta? && s.fallbackKey.Some?
  {
    s.(outputToKey := if e.outputIndex.Some? then s.outputToKey[e.outputIndex.value := s.fallbackKey.value] else s.outputToKey,
       itemToKey := if Trim(e.itemId) != "" then s.itemToKey[Trim(e.itemId) := s.fallbackKey.value] else s.itemToKey)
  }

  lemma FindsBy(s: State, e: Event, known: bool)
    requires e.ArgsDelta? && Direct(s, e.outputIndex, Trim(e.itemId)) == if known then Some(0) else None
    requires s.fallbackKey.Some? ==> s.fallbackKey.value in s.toolIndex && s.toolIndex[s.fallbackKey.value] == 0
    ensures FindTool(s, e.outputIndex, e.itemId) ==
            if known then (s, Some(0))
            else if !s.ambiguous && s.fallbackKey.Some? then (Binds(s, e), Some(0))
            else (s, None)
  {
    hide Trim, Direct;
  }

  lemma CallsMore(es: seq<Event>, i: nat)
    requires i < |es|
    ensures forall key :: IsCall(es, i, key) ==> IsCall(es, i + 1, key)
    ensures Count(es, i + 1) == Count(es, i) + if Announces(es[i]) then 1 else 0
    ensures !AddsArgs(es[i]) || Count(es, i) != 1 || Known(Remembered(es, i), es[i]) ==> Remembered(es, i + 1) == Remembered(es, i)
  {
    hide Trim, CallId, Known;
    forall key | IsCall(es, i, key) ensures IsCall(es, i + 1, key) {
      var j :| 0 <= j < i && Announces(es[j]) && key == CallKey(IdAt(es, j));
      assert 0 <= j < i + 1;
    }
  }

  lemma BareParts(es: seq<Event>, i: nat, s: State)
    requires i <= |es|
    ensures BareState(es, i, s) <==>
            && BareCalls(es, i, s)
            && Remembers(s.outputToKey, Remembered(es, i).indices, s.fallbackKey)
            && Remembers(s.itemToKey, Remembered(es, i).items, s.fallbackKey)
  {
    hide BareCalls, Remembered, Remembers;
  }

  lemma SameCallsHeld(es: seq<Event>, i: nat, s: State, t: State)
    requires i < |es| && !Announces(es[i]) && BareCalls(es, i, s)
    requires t.nextTool == s.nextTool && t.ambiguous == s.ambiguous && t.fallbackKey == s.fallbackKey && t.toolIndex == s.toolIndex
    ensures BareCalls(es, i + 1, t)
  {
    CallsMore(es, i);
    hide Trim, CallId, IsCall, Count;
  }

  lemma SameBare(es: seq<Event>, i: nat, s: State, t: State)
    requires i < |es| && !Announces(es[i]) && BareState(es, i, s) && Remembered(es, i + 1) == Remembered(es, i)
    requires t.nextTool == s.nextTool && t.ambiguous == s.ambiguous && t.fallbackKey == s.fallbackKey && t.toolIndex == s.toolIndex
    requires t.outputToKey == s.outputToKey && t.itemToKey == s.itemToKey
    ensures BareState(es, i + 1, t)
  {
    hide *;
    BareParts(es, i, s);
    SameCallsHeld(es, i, s, t);
    BareParts(es, i + 1, t);
  }

  lemma BindsMaps(s: State, e: Event)
    requires e.ArgsDelta? && s.fallbackKey.Some?
    ensures e.outputIndex.Some? ==> Binds(s, e).outputToKey == s.outputToKey[e.outputIndex.value := s.fallbackKey.value]
    ensures e.outputIndex.None? ==> Binds(s, e).outputToKey == s.outputToKey
    ensures Trim(e.itemId) != "" ==> Binds(s, e).itemToKey == s.itemToKey[Trim(e.itemId) := s.fallbackKey.value]
    ensures Trim(e.itemId) == "" ==> Binds(s, e).itemToKey == s.itemToKey
    ensures Binds(s, e) == s.(outputToKey := Binds(s, e).outputToKey, itemToKey := Binds(s, e).itemToKey)
  {
    hide Trim;
  }

  /** The numbers that come with text for the only call are remembered. */
  lemma RemembersMore(es: seq<Event>, i: nat, s: State, t: State)
    requires i < |es| && AddsArgs(es[i]) && es[i].ArgsDelta? && BareState(es, i, s) && Count(es, i) == 1 && !Known(Remembered(es, i), es[i])
    requires s.fallbackKey.Some?
    requires t.nextTool == s.nextTool && t.ambiguous == s.ambiguous && t.fallbackKey == s.fallbackKey && t.toolIndex == s.toolIndex
    requires t.outputToKey == Binds(s, es[i]).outputToKey && t.itemToKey == Binds(s, es[i]).itemToKey
    ensures BareState(es, i + 1, t)
  {
    BindsMaps(s, es[i]);
    var e, p, q := es[i], Remembered(es, i), Remembered(es, i + 1);
    assert q == Numbers(if e.outputIndex.Some? then p.indices + {e.outputIndex.value} else p.indices,
                        if Trim(e.itemId) != "" then p.items + {Trim(e.itemId)} else p.items);
    NotBoth(e);
    hide *;
    BareParts(es, i, s);
    SameCallsHeld(es, i, s, t);
    if e.outputIndex.Some? { RemembersOne(s.outputToKey, p.indices, s.fallbackKey, e.outputIndex.value); }
    if Trim(e.itemId) != "" { RemembersOne(s.itemToKey, p.items, s.fallbackKey, Trim(e.itemId)); }
    BareParts(es, i + 1, t);
  }

  // ---- one event in both runs ----

  ghost predicate SameStep(es: seq<Event>, i: nat, a: Step, b: Step)
    requires i < |es|
  {
    !a.failed && !b.failed && a.out == b.out && Alike(es, i + 1, a.s, b.s)
  }

  lemma AlikeParts(es: seq<Event>, i: nat, s: State, t: State)
    requires i <= |es|
    ensures Alike(es, i, s, t) <==>
            SameElse(s, t) && KeysOk(Numbering(es)[..i], t, map[]) && PendingOk(Numbering(es)[..i], t, map[]) && BareState(es, i, s)
  {
    hide SameElse, KeysOk, PendingOk, BareState, Numbering;
  }

  /** The numbered stream's side of an argument delta. */
  lemma NumberedArgs(es: seq<Event>, i: nat, t: State)
    requires AllBare(es) && i < |es| && AddsArgs(es[i])
    requires KeysOk(Numbering(es)[..i], t, map[]) && PendingOk(Numbering(es)[..i], t, map[])
    ensures var b := MapStep(t, Numbered(es, i));
            && !b.failed && KeysOk(Numbering(es)[..i + 1], b.s, map[]) && PendingOk(Numbering(es)[..i + 1], b.s, map[]) && b.s == t
            && b.out == if GetsThrough(es, i) then [ToolChunk(t, ToolDelta(Some(0), "", "", es[i].args))] else []
  {
    var c := Count(es, i);
    assert GetsThrough(es, i) ==> c > 0;
    hide *;
    var g, e := Numbering(es)[..i], Numbered(es, i);
    NumberedFacts(es, i);
    NumberedOpens(es, i);
    PrefixSnoc(Numbering(es), i);
    if GetsThrough(es, i) {
      NotBoth(e);
      FirstIsOpen(Announcements(g));
      FindsAnnounced(g, t, map[], e);
      var j :| 0 <= j < |Announcements(g)| && Announcements(g)[j].index == 0 && FindTool(t, e.outputIndex, e.itemId) == (t, Some(j));
      ArgsStepOf(t, e, (t, Some(0)));
      IndexIs(e, 0);
      PendingArgs(g, t, map[], e);
    } else {
      NoArgsStep(t, e);
      EmptyAddsNone(e);
      PendingElse(g, t, map[], e);
    }
    KeysSame(g, t, t, map[], e);
  }

  lemma FirstIsOpen(ann: seq<Announcement>)
    requires |ann| > 0 && ann[0].index == 0
    ensures IsAnn(ann, 0)
  {
  }

  lemma IndexIs(e: Event, k: int)
    requires e.ArgsDelta? && e.outputIndex == Some(k)
    ensures IndexOf(e) == k
  {
  }

  lemma EmptyAddsNone(e: Event)
    requires e.ArgsDelta? && e.args == ""
    ensures !AddsArgs(e)
  {
  }

  /** What a delta that found `n`, or none, does. */
  lemma ArgsKeep(s: State, e: Event, r: State, n: Option<int>)
    requires AddsArgs(e) && FindTool(s, e.outputIndex, e.itemId) == (r, n)
    requires r == s.(outputToKey := r.outputToKey, itemToKey := r.itemToKey)
    ensures var a := MapStep(s, e);
            && !a.failed && a.s == r.(pendingItem := a.s.pendingItem, pendingOutput := a.s.pendingOutput)
            && a.out == if n.Some? then [ToolChunk(s, ToolDelta(n, "", "", e.args))] else []
  {
    hide FindTool, PutPending, AddsArgs, MapStep;
    ArgsStepOf(s, e, (r, n));
    NotBoth(e);
    PutFrame(r, e);
    SameSender(s, r, ToolDelta(n, "", "", e.args));
  }

  ghost predicate KeepsBare(es: seq<Event>, i: nat, s: State, a: Step)
    requires i < |es| && es[i].ArgsDelta?
  {
    && !a.failed && BareState(es, i + 1, a.s)
    && a.s == s.(outputToKey := a.s.outputToKey, itemToKey := a.s.itemToKey, pendingItem := a.s.pendingItem, pendingOutput := a.s.pendingOutput)
    && a.out == if GetsThrough(es, i) then [ToolChunk(s, ToolDelta(Some(0), "", "", es[i].args))] else []
  }

  lemma KnownKeeps(es: seq<Event>, i: nat, s: State, n: Option<int>)
    requires i < |es| && AddsArgs(es[i]) && es[i].ArgsDelta? && BareState(es, i, s) && (Known(Remembered(es, i), es[i]) || Count(es, i) != 1)
    requires FindTool(s, es[i].outputIndex, es[i].itemId) == (s, n) && n == if GetsThrough(es, i) then Some(0) else None
    ensures KeepsBare(es, i, s, MapStep(s, es[i]))
  {
    CallsMore(es, i);
    hide BareState, Remembered, Known, Count, GetsThrough, FindTool, MapStep, AddsArgs, ToolChunk;
    NotBoth(es[i]);
    ArgsKeep(s, es[i], s, n);
    SameBare(es, i, s, MapStep(s, es[i]).s);
  }

  lemma BoundKeeps(es: seq<Event>, i: nat, s: State)
    requires i < |es| && AddsArgs(es[i]) && es[i].ArgsDelta? && BareState(es, i, s) && !Known(Remembered(es, i), es[i]) && Count(es, i) == 1
    requires s.fallbackKey.Some? && FindTool(s, es[i].outputIndex, es[i].itemId) == (Binds(s, es[i]), Some(0))
    ensures KeepsBare(es, i, s, MapStep(s, es[i]))
  {
    OneGetsThrough(es, i);
    hide BareState, Remembered, Known, Count, GetsThrough, FindTool, MapStep, AddsArgs, ToolChunk, Binds;
    BindsMaps(s, es[i]);
    ArgsKeep(s, es[i], Binds(s, es[i]), Some(0));
    RemembersMore(es, i, s, MapStep(s, es[i]).s);
  }

  lemma ArgsKeepBare(es: seq<Event>, i: nat, s: State)
    requires AllBare(es) && i < |es| && AddsArgs(es[i]) && es[i].ArgsDelta? && BareState(es, i, s)
    ensures KeepsBare(es, i, s, MapStep(s, es[i]))
  {
    FindsFirst(es, i, s);
    hide *;
    var (r, n) := FindTool(s, es[i].outputIndex, es[i].itemId);
    if Known(Remembered(es, i), es[i]) || Count(es, i) != 1 {
      KnownKeeps(es, i, s, n);
    } else {
      OneGetsThrough(es, i);
      BoundKeeps(es, i, s);
    }
  }

  lemma KeptParts(es: seq<Event>, i: nat, s: State, a: Step)
    requires i < |es| && es[i].ArgsDelta? && KeepsBare(es, i, s, a)
    ensures !a.failed && BareState(es, i + 1, a.s)
    ensures a.s == s.(outputToKey := a.s.outputToKey, itemToKey := a.s.itemToKey, pendingItem := a.s.pendingItem, pendingOutput := a.s.pendingOutput)
    ensures a.out == if GetsThrough(es, i) then [ToolChunk(s, ToolDelta(Some(0), "", "", es[i].args))] else []
  {
    hide BareState, GetsThrough, ToolChunk;
  }

  lemma SameSender(s: State, r: State, td: ToolDelta)
    ensures r.responseId == s.responseId && r.model == s.model ==> ToolChunk(r, td) == ToolChunk(s, td)
  {
  }

  lemma ArgsAlike(es: seq<Event>, i: nat, s: State, t: State)
    requires AllBare(es) && i < |es| && AddsArgs(es[i]) && Alike(es, i, s, t)
    ensures SameStep(es, i, MapStep(s, es[i]), MapStep(t, Numbered(es, i)))
  {
    AlikeParts(es, i, s, t);
    hide *;
    NotBoth(es[i]);
    ArgsKeepBare(es, i, s);
    KeptParts(es, i, s, MapStep(s, es[i]));
    NumberedArgs(es, i, t);
    var a, b := MapStep(s, es[i]), MapStep(t, Numbered(es, i));
    SameChunk(s, t, ToolDelta(Some(0), "", "", es[i].args));
    StillSame(s, t, a.s);
    AlikeParts(es, i + 1, a.s, b.s);
    IsSame(es, i, a, b);
  }

  lemma OneGetsThrough(es: seq<Event>, i: nat)
    requires i < |es| && Count(es, i) == 1
    ensures GetsThrough(es, i)
  {
  }

  lemma StillSame(s: State, t: State, u: State)
    requires SameElse(s, t)
    requires u == s.(outputToKey := u.outputToKey, itemToKey := u.itemToKey, pendingItem := u.pendingItem, pendingOutput := u.pendingOutput)
    ensures SameElse(u, t)
  {
  }

  // ---- an announcement ----

  lemma KeyForBare(s: State, e: Event, id: string)
    requires e.ItemAdded? && e.outputIndex.None? && Trim(e.itemId) == "" && e.item.id == "" && id != "" && Trim(id) == id
    requires s.fallbackKey != Some(CallKey(id))
    ensures KeyFor(s, e, id) == (if s.fallbackKey.Some? then s.(ambiguous := true) else s.(fallbackKey := Some(CallKey(id))), Some(CallKey(id)))
  {
    hide Trim;
  }

  lemma BareKey(es: seq<Event>, i: nat, s: State)
    requires AllBare(es) && OwnCallIds(es) && i < |es| && Announces(es[i]) && es[i].ItemAdded? && BareState(es, i, s)
    ensures var key := CallKey(IdAt(es, i));
            && KeyFor(s, es[i], CallId(es[i], s.nextTool)) ==
               (if s.fallbackKey.Some? then s.(ambiguous := true) else s.(fallbackKey := Some(key)), Some(key))
            && key !in s.toolIndex && CallId(es[i], s.nextTool) == IdAt(es, i)
  {
    BareFacts(es, i, s);
    CallIdTrimmed(es[i], Count(es, i));
    NewCall(es, i, s);
    BareEvent(es, i);
    hide Trim, CallId, Remembered, Count, BareState, KeyFor, AllBare, OwnCallIds, Announces;
    KeyForBare(s, es[i], IdAt(es, i));
  }

  lemma BareEvent(es: seq<Event>, i: nat)
    requires AllBare(es) && i < |es| && Announces(es[i])
    ensures es[i].ItemAdded? && es[i].outputIndex.None? && Trim(es[i].itemId) == "" && es[i].item.id == ""
  {
    hide Trim;
  }

  lemma NewCall(es: seq<Event>, i: nat, s: State)
    requires OwnCallIds(es) && i < |es| && Announces(es[i]) && BareState(es, i, s)
    ensures CallKey(IdAt(es, i)) !in s.toolIndex
  {
    NotACall(es, i);
    hide Trim, CallId, Remembered, Count, IsCall, Announces, OwnCallIds;
  }

  lemma NotACall(es: seq<Event>, i: nat)
    requires OwnCallIds(es) && i < |es| && Announces(es[i])
    ensures !IsCall(es, i, CallKey(IdAt(es, i)))
  {
    hide Trim, CallId, Count;
  }

  /** The first call stays the last resort, a second one makes it ambiguous. */
  function LastResort(s: State, key: Key): Option<Key> {
    if s.fallbackKey.Some? then s.fallbackKey else Some(key)
  }

  function Entered(s: State, key: Key): State {
    s.(toolIndex := s.toolIndex[key := s.nextTool], nextTool := s.nextTool + 1, sawTool := true, roleSent := true,
       fallbackKey := LastResort(s, key), ambiguous := s.ambiguous || s.fallbackKey.Some?)
  }

  lemma EntersBare(s: State, e: Event, key: Key, id: string)
    requires Announces(e) && e.outputIndex.None? && e.item.id == "" && Trim("") == "" && CallId(e, s.nextTool) == id
    requires KeyFor(s, e, id) == (if s.fallbackKey.Some? then s.(ambiguous := true) else s.(fallbackKey := Some(key)), Some(key))
    requires key !in s.toolIndex
    ensures MapStep(s, e) == Step(Entered(s, key),
                                  RoleIfNeeded(s) + [ToolChunk(s, ToolDelta(Some(s.nextTool), id, Trim(e.item.name), ""))], false)
  {
    hide Trim, CallId, KeyFor, TakePending;
    var u := if s.fallbackKey.Some? then s.(ambiguous := true) else s.(fallbackKey := Some(key));
    var v := u.(toolIndex := s.toolIndex[key := s.nextTool], nextTool := s.nextTool + 1);
    assert EnsureTool(s, e, id) == (v, Some(s.nextTool));
    TakesNothing(v.(sawTool := true), e);
  }

  lemma TakesNothing(s: State, e: Event)
    requires e.ItemAdded? && e.outputIndex.None? && e.item.id == "" && Trim("") == ""
    ensures TakePending(s, e) == (s, "")
  {
    hide Trim;
  }

  lemma BareStep(es: seq<Event>, i: nat, s: State)
    requires AllBare(es) && OwnCallIds(es) && i < |es| && Announces(es[i]) && es[i].ItemAdded? && BareState(es, i, s)
    ensures var e, key := es[i], CallKey(IdAt(es, i));
            MapStep(s, e) == Step(Entered(s, key),
                                  RoleIfNeeded(s) + [ToolChunk(s, ToolDelta(Some(Count(es, i)), IdAt(es, i), Trim(e.item.name), ""))], false)
  {
    hide *;
    BareKey(es, i, s);
    BareFacts(es, i, s);
    BareEvent(es, i);
    NoSpace();
    EntersBare(s, es[i], CallKey(IdAt(es, i)), IdAt(es, i));
  }

  lemma EnteredParts(s: State, key: Key)
    ensures var t := Entered(s, key);
            && t.nextTool == s.nextTool + 1 && t.ambiguous == (s.ambiguous || s.fallbackKey.Some?)
            && t.fallbackKey == LastResort(s, key)
            && t.toolIndex == s.toolIndex[key := s.nextTool] && t.outputToKey == s.outputToKey && t.itemToKey == s.itemToKey
  {
  }

  lemma EntersKeys(es: seq<Event>, i: nat, tools: map<Key, int>, key: Key, more: map<Key, int>)
    requires i < |es| && Announces(es[i]) && es[i].ItemAdded? && key == CallKey(IdAt(es, i))
    requires (forall k :: k in more ==> k == key || k in tools) && forall k :: k in tools ==> IsCall(es, i, k)
    ensures forall k :: k in more ==> IsCall(es, i + 1, k)
  {
    CallsMore(es, i);
    IsThisCall(es, i);
    hide *;
    forall k | k in more ensures IsCall(es, i + 1, k) {
      if k != key { assert k in tools && IsCall(es, i, k); }
    }
  }

  lemma EntersCall(es: seq<Event>, i: nat, s: State, t: State)
    requires i < |es| && Announces(es[i]) && es[i].ItemAdded? && BareCalls(es, i, s)
    requires var key := CallKey(IdAt(es, i));
             && key !in s.toolIndex && t.nextTool == s.nextTool + 1 && t.ambiguous == (s.ambiguous || s.fallbackKey.Some?)
             && t.fallbackKey == LastResort(s, key) && t.toolIndex == s.toolIndex[key := s.nextTool]
    ensures BareCalls(es, i + 1, t)
  {
    hide *;
    var key := CallKey(IdAt(es, i));
    CountsOne(es, i);
    CallsHeld(es, i, s);
    EntersKeys(es, i, s.toolIndex, key, t.toolIndex);
    ResortStays(s, key, t.toolIndex);
    IsBareCalls(es, i + 1, t);
  }

  lemma ResortStays(s: State, key: Key, tools: map<Key, int>)
    requires key !in s.toolIndex && tools == s.toolIndex[key := s.nextTool] && (s.fallbackKey.None? ==> s.nextTool == 0)
    requires s.fallbackKey.Some? ==> s.fallbackKey.value in s.toolIndex && s.toolIndex[s.fallbackKey.value] == 0
    ensures LastResort(s, key).Some? && LastResort(s, key).value in tools && tools[LastResort(s, key).value] == 0
  {
  }

  lemma CountsOne(es: seq<Event>, i: nat)
    requires i < |es| && Announces(es[i])
    ensures Count(es, i + 1) == Count(es, i) + 1
  {
    hide Announces;
  }

  lemma CallsHeld(es: seq<Event>, i: nat, s: State)
    requires i <= |es| && BareCalls(es, i, s)
    ensures s.nextTool == Count(es, i) && s.ambiguous == (Count(es, i) > 1) && (s.fallbackKey.Some? <==> Count(es, i) > 0)
    ensures s.fallbackKey.Some? ==> s.fallbackKey.value in s.toolIndex && s.toolIndex[s.fallbackKey.value] == 0
    ensures forall key :: key in s.toolIndex ==> IsCall(es, i, key)
  {
    hide IsCall, Count;
  }

  lemma IsBareCalls(es: seq<Event>, i: nat, s: State)
    requires i <= |es|
    requires s.nextTool == Count(es, i) && s.ambiguous == (Count(es, i) > 1) && (s.fallbackKey.Some? <==> Count(es, i) > 0)
    requires s.fallbackKey.Some? ==> s.fallbackKey.value in s.toolIndex && s.toolIndex[s.fallbackKey.value] == 0
    requires forall key :: key in s.toolIndex ==> IsCall(es, i, key)
    ensures BareCalls(es, i, s)
  {
    hide IsCall, Count;
  }

  lemma IsThisCall(es: seq<Event>, i: nat)
    requires i < |es| && Announces(es[i]) && es[i].ItemAdded?
    ensures IsCall(es, i + 1, CallKey(IdAt(es, i)))
  {
    hide Trim, IdAt;
  }

  lemma BareEnters(es: seq<Event>, i: nat, s: State)
    requires AllBare(es) && OwnCallIds(es) && i < |es| && Announces(es[i]) && es[i].ItemAdded? && BareState(es, i, s)
    ensures BareState(es, i + 1, Entered(s, CallKey(IdAt(es, i))))
  {
    CallsMore(es, i);
    NothingBefore(es, i, s, CallKey(IdAt(es, i)));
    hide *;
    var key := CallKey(IdAt(es, i));
    var t := Entered(s, key);
    NoDelta(es[i]);
    NewCall(es, i, s);
    BareParts(es, i, s);
    EnteredParts(s, key);
    EntersCall(es, i, s, t);
    BareParts(es, i + 1, t);
  }

  /** The first call finds nothing remembered yet. */
  lemma NothingBefore(es: seq<Event>, i: nat, s: State, key: Key)
    requires i <= |es| && BareState(es, i, s)
    ensures var first := LastResort(s, key);
            && Remembers(s.outputToKey, Remembered(es, i).indices, first)
            && Remembers(s.itemToKey, Remembered(es, i).items, first)
  {
    BareFacts(es, i, s);
    if Count(es, i) == 0 {
      NoneKnown(es, i);
    }
    hide Trim, CallId, Remembered, Count, BareState;
    if s.fallbackKey.None? {
      assert s.outputToKey.Keys == {} && s.itemToKey.Keys == {};
    }
  }

  lemma NoDelta(e: Event)
    requires Announces(e)
    ensures !AddsArgs(e) && e.ItemAdded?
  {
  }

  lemma {:induction false} NothingYet(es: seq<Event>, i: nat)
    requires i <= |es| && Count(es, i) == 0
    ensures TextThrough(es, i) == ""
    decreases i
  {
    hide Trim, Remembered, Known;
    if i > 0 {
      NothingYet(es, i - 1);
    }
  }

  lemma NumberedAdds(es: seq<Event>, i: nat, t: State)
    requires AllBare(es) && i < |es| && Announces(es[i])
    requires KeysOk(Numbering(es)[..i], t, map[]) && PendingOk(Numbering(es)[..i], t, map[])
    ensures var e', c, b := Numbered(es, i), Count(es, i), MapStep(t, Numbered(es, i));
            && e'.ItemAdded? && Adds(t, e', OutKey(c), b)
            && TakePending(Began(t, e', OutKey(c)), e').1 == ""
            && KeysOk(Numbering(es)[..i + 1], b.s, map[]) && PendingOk(Numbering(es)[..i + 1], b.s, map[])
            && t.nextTool == c
  {
    hide *;
    var g, e', c := Numbering(es)[..i], Numbered(es, i), Count(es, i);
    NumberedFacts(es, i);
    NumberedOpens(es, i);
    PrefixSnoc(Numbering(es), i);
    NoDelta(e');
    NoFallback(g, t, map[]);
    NotIndexed(Announcements(g));
    ItemIndex(e', c);
    NotKeyed(g, t, map[], c);
    KeyForIndexed(t, e', CallId(e', t.nextTool));
    AddedAdds(t, e', OutKey(c));
    var u := Began(t, e', OutKey(c));
    BeganParts(t, e', OutKey(c));
    SamePending(g, t, u, map[]);
    TakesPending(g, u, map[], e');
    NumberedText(es, i, c);
    if c == 0 { NothingYet(es, i); }
    var b := MapStep(t, e');
    AddsParts(t, e', OutKey(c), b);
    SamePending(g + [e'], TakePending(u, e').0, b.s, map[]);
    KeysGrow(g, t, b.s, map[], e');
  }

  lemma ItemIndex(e: Event, k: int)
    requires e.ItemAdded? && e.outputIndex == Some(k)
    ensures IndexOf(e) == k
  {
  }

  lemma NotIndexed(ann: seq<Announcement>)
    requires forall j :: 0 <= j < |ann| ==> ann[j].index == j
    ensures !IsAnn(ann, |ann|)
  {
  }

  lemma AddedAlike(es: seq<Event>, i: nat, s: State, t: State)
    requires AllBare(es) && OwnCallIds(es) && i < |es| && Announces(es[i]) && Alike(es, i, s, t)
    ensures SameStep(es, i, MapStep(s, es[i]), MapStep(t, Numbered(es, i)))
  {
    AlikeParts(es, i, s, t);
    hide *;
    NoDelta(es[i]);
    var e, e', c, key := es[i], Numbered(es, i), Count(es, i), CallKey(IdAt(es, i));
    NumberedFacts(es, i);
    BareStep(es, i, s);
    BareEnters(es, i, s);
    NumberedAdds(es, i, t);
    BareFacts(es, i, s);
    var a, b := MapStep(s, e), MapStep(t, e');
    BeganParts(t, e', OutKey(c));
    AddsParts(t, e', OutKey(c), b);
    SameChunk(s, t, ToolDelta(Some(c), IdAt(es, i), Trim(e.item.name), ""));
    BothEntered(s, t, key, Began(t, e', OutKey(c)), b.s);
    AlikeParts(es, i + 1, a.s, b.s);
    IsSame(es, i, a, b);
  }

  lemma IsSame(es: seq<Event>, i: nat, a: Step, b: Step)
    requires i < |es| && !a.failed && !b.failed && a.out == b.out && Alike(es, i + 1, a.s, b.s)
    ensures SameStep(es, i, a, b)
  {
  }

  lemma BothEntered(s: State, t: State, key: Key, v: State, t': State)
    requires SameElse(s, t) && s.nextTool == t.nextTool
    requires v == t.(toolIndex := v.toolIndex, nextTool := t.nextTool + 1, outputToKey := v.outputToKey, itemToKey := v.itemToKey, sawTool := true)
    requires t' == v.(pendingItem := t'.pendingItem, pendingOutput := t'.pendingOutput, roleSent := true)
    ensures SameElse(Entered(s, key), t')
  {
    hide LastResort;
  }

  // ---- runs ----

  lemma ElseAlike(es: seq<Event>, i: nat, s: State, t: State)
    requires AllBare(es) && i < |es| && !IsTool(es[i]) && !es[i].Ended? && !es[i].Failed? && Alike(es, i, s, t)
    ensures SameStep(es, i, MapStep(s, es[i]), MapStep(t, Numbered(es, i)))
  {
    var e := es[i];
    assert !Announces(e) && !AddsArgs(e);
    AlikeParts(es, i, s, t);
    CallsMore(es, i);
    hide *;
    NumberedFacts(es, i);
    PrefixSnoc(Numbering(es), i);
    ElseSame(s, t, e);
    ProseFrame(s, e);
    ProseFrame(t, e);
    ElseKeeps(s, e);
    var a, b, g := MapStep(s, e), MapStep(t, e), Numbering(es)[..i];
    KeysSame(g, t, b.s, map[], e);
    PendingElse(g, t, map[], e);
    SamePending(g + [e], t, b.s, map[]);
    SameBare(es, i, s, a.s);
    AlikeParts(es, i + 1, a.s, b.s);
    IsSame(es, i, a, b);
  }

  lemma ElseKeeps(s: State, e: Event)
    requires !Announces(e) && !AddsArgs(e)
    ensures MapStep(s, e).s.ambiguous == s.ambiguous
  {
    hide Trim, AddedStep, ArgsStep, RoleIfNeeded, Separator, EndReason;
    NothingFor(s, e);
  }

  lemma StepAlike(es: seq<Event>, i: nat, s: State, t: State)
    requires AllBare(es) && OwnCallIds(es) && i < |es| && !es[i].Ended? && !es[i].Failed? && Alike(es, i, s, t)
    ensures SameStep(es, i, MapStep(s, es[i]), MapStep(t, Numbered(es, i)))
  {
    hide Alike, SameStep, MapStep, Numbered, AllBare, OwnCallIds, Announces, AddsArgs;
    if Announces(es[i]) {
      AddedAlike(es, i, s, t);
    } else if AddsArgs(es[i]) {
      ArgsAlike(es, i, s, t);
    } else {
      ElseAlike(es, i, s, t);
    }
  }

  lemma {:induction false} RunAlike(es: seq<Event>, i: nat, s: State, t: State)
    requires AllBare(es) && OwnCallIds(es) && Open(es) && i <= |es| && Alike(es, i, s, t)
    ensures var a, b := Run(s, es[i..]), Run(t, Numbering(es)[i..]);
            !a.failed && !b.failed && a.out == b.out && SameElse(a.s, b.s)
    decreases |es| - i
  {
    hide KeysOk, PendingOk, BareState, MapStep, Numbered, AllBare, OwnCallIds;
    var rest, more := es[i..], Numbering(es)[i..];
    if i < |es| {
      StepAlike(es, i, s, t);
      assert rest[0] == es[i] && rest[1..] == es[i + 1..] && more[0] == Numbered(es, i) && more[1..] == Numbering(es)[i + 1..];
      RunAlike(es, i + 1, MapStep(s, es[i]).s, MapStep(t, Numbered(es, i)).s);
    }
  }

  lemma StartAlike(es: seq<Event>, s: State)
    requires s == Initial(s.responseId, s.requestedModel)
    ensures Alike(es, 0, s, s)
  {
    hide Numbering;
    assert Numbering(es)[..0] == [];
  }

  lemma NumberingIsGood(es: seq<Event>)
    requires AllBare(es) && Open(es)
    ensures Consistent(Numbering(es), map[]) && AnnouncedOnce(Numbering(es)) && Open(Numbering(es))
  {
    hide Numbered, ToolOk, Announces, AllBare, Count;
    var g := Numbering(es);
    forall i | 0 <= i < |es|
      ensures ToolOk(g[i], map[]) && !g[i].Ended? && !g[i].Failed? && (Announces(g[i]) <==> Announces(es[i]))
      ensures Announces(es[i]) ==> IndexOf(g[i]) == Count(es, i) {
      NumberedFacts(es, i);
      if Announces(es[i]) {
        AnnouncedIndex(g[i], Count(es, i));
      }
    }
    forall i, j | 0 <= i < j < |es| && Announces(g[i]) && Announces(g[j]) ensures IndexOf(g[i]) != IndexOf(g[j]) {
      NumberedStands(es, j, i);
      NumberedOpens(es, j);
    }
  }

  lemma AnnouncedIndex(e: Event, k: int)
    requires Announces(e) && e.outputIndex == Some(k)
    ensures IndexOf(e) == k
  {
  }

  lemma SentAsNumbered(id: string, requested: string, es: seq<Event>, completed: bool, body: Option<Body>)
    requires AllBare(es) && OwnCallIds(es) && Open(es)
    ensures Converted(Initial(id, requested), es + [Ended(completed, body)])
         == Converted(Initial(id, requested), Numbering(es) + [Ended(completed, body)])
  {
    hide Alike, MapStep, AllBare, OwnCallIds, Numbering;
    var s0 := Initial(id, requested);
    StartAlike(es, s0);
    RunAlike(es, 0, s0, s0);
    assert es[0..] == es && Numbering(es)[0..] == Numbering(es);
    RunConcat(s0, es, [Ended(completed, body)]);
    RunConcat(s0, Numbering(es), [Ended(completed, body)]);
    var a, b := Run(s0, es).s, Run(s0, Numbering(es)).s;
    RunEnd(a, completed, body);
    RunEnd(b, completed, body);
    EndSame(a, b, completed, body);
  }

  /** The calls in order: the first has the text that gets through to it, the others none. */
  ghost predicate FirstGets(es: seq<Event>, calls: seq<Call>) {
    && |calls| == Count(es, |es|)
    && forall i :: 0 <= i < |es| && Announces(es[i]) ==>
         Count(es, i) < |calls|
         && calls[Count(es, i)] == Call(Count(es, i), IdAt(es, i), Trim(es[i].item.name), if Count(es, i) == 0 then TextThrough(es, |es|) else "")
  }

  /** A stream whose calls are announced without a number and under call ids of their own, read in Chat: the first
      call has the text that gets through. */
  lemma ChatSaysBare(id: string, requested: string, es: seq<Event>, completed: bool, body: Option<Body>)
    requires AllBare(es) && OwnCallIds(es) && Open(es)
    ensures var chunks := Converted(Initial(id, requested), es + [Ended(completed, body)]);
            var v := OfChat(chunks);
            && v.text == TextOf(es) && v.reasoning == ReasoningOf(es)
            && FirstGets(es, v.calls)
            && v.finish == Some(EndReason(body, Count(es, |es|) != 0))
            && ReportedUsage(chunks, false, None) == SentUsage(body)
  {
    hide *;
    var g := Numbering(es);
    NumberingIsGood(es);
    SentAsNumbered(id, requested, es, completed, body);
    ChatSaysAll(id, requested, g, completed, body, map[]);
    assert g[..|es|] == g && es[..|es|] == es;
    NumberedProse(es, |es|);
    SayAlike(es, g);
    NumberedOpens(es, |es|);
    FirstIs(es, OfChat(Converted(Initial(id, requested), es + [Ended(completed, body)])).calls);
  }

  lemma FirstIs(es: seq<Event>, calls: seq<Call>)
    requires AllBare(es) && AllCalls(Numbering(es), calls)
    ensures FirstGets(es, calls)
  {
    hide Numbering, Announcements, ArgsFor, Count, CallId, Trim, TextThrough, AllBare;
    assert Numbering(es)[..|es|] == Numbering(es);
    NumberedOpens(es, |es|);
    forall i | 0 <= i < |es| && Announces(es[i])
      ensures Count(es, i) < |calls|
      ensures calls[Count(es, i)] == Call(Count(es, i), IdAt(es, i), Trim(es[i].item.name), if Count(es, i) == 0 then TextThrough(es, |es|) else "") {
      NumberedStands(es, |es|, i);
      NumberedText(es, |es|, Count(es, i));
    }
  }

  /** All text that comes after the announcement at `a`. */
  function TextAfter(es: seq<Event>, a: nat, n: nat): string
    requires n <= |es|
  {
    if n <= a then "" else TextAfter(es, a, n - 1) + (if AddsArgs(es[n - 1]) then es[n - 1].args else "")
  }

  /** A single call that is announced without a number has all text that comes after it, whatever numbers that
      gives, and none that comes before. */
  lemma {:induction false} OnlyCallGetsAll(es: seq<Event>, a: nat, n: nat)
    requires n <= |es| && a < |es| && Announces(es[a]) && forall i :: 0 <= i < |es| && i != a ==> !Announces(es[i])
    ensures Count(es, n) == if n <= a then 0 else 1
    ensures TextThrough(es, n) == TextAfter(es, a, n)
    decreases n
  {
    hide Trim, Known;
    if n > 0 {
      OnlyCallGetsAll(es, a, n - 1);
    }
  }
}
