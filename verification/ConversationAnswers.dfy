/** When every call of a conversation is answered once at most. */
module ConversationAnswers {
  import opened Collections
  import opened ChatRequest
  import opened Conversation
  import opened ChatRequestFifo

  /** No result names a call that has been answered. */
  predicate NamedOnce(ms: seq<Message>) {
    forall n :: 0 <= n < |ms| && ms[n].role == "tool" && ms[n].callId != "" ==> ms[n].callId !in Targets(ms[..n])
  }

  /** Results name none of `ids`. */
  predicate NamesNone(ms: seq<Message>, ids: seq<string>) {
    forall n :: 0 <= n < |ms| && ms[n].role == "tool" ==> ms[n].callId !in ids
  }

  /** All calls have ids of their own, those of calls without one and of legacy calls included, and results do
      not name legacy calls. */
  predicate OwnIds(ms: seq<Message>) {
    Distinct(MadeIds(ms)) && NamesNone(ms, LegacyIds(ms))
  }

  lemma NamedSnoc(p: seq<Message>, m: Message)
    ensures NamedOnce(p + [m]) <==> NamedOnce(p) && (m.role == "tool" && m.callId != "" ==> m.callId !in Targets(p))
    ensures forall ids :: NamesNone(p + [m], ids) <==> NamesNone(p, ids) && (m.role == "tool" ==> m.callId !in ids)
  {
    hide Targets;
    var ms := p + [m];
    assert forall n :: 0 <= n < |p| ==> ms[n] == p[n] && ms[..n] == p[..n];
    assert ms[|p|] == m && ms[..|p|] == p;
  }

  lemma {:induction false} RemoveKeeps(xs: seq<string>, x: string)
    ensures forall y :: y in RemoveFirst(xs, x) ==> y in xs
  {
    if xs != [] {
      RemoveKeeps(xs[1..], x);
    }
  }

  lemma {:induction false} WaitingIsMade(ms: seq<Message>)
    ensures forall x :: x in Waiting(ms) ==> x in CallIds(ms)
  {
    hide RemoveFirst, NewIds;
    if ms != [] {
      var p, m := ms[..|ms| - 1], ms[|ms| - 1];
      WaitingIsMade(p);
      RemoveKeeps(Waiting(p), m.callId);
    }
  }

  lemma {:induction false} OpenIsMade(ms: seq<Message>)
    ensures forall name, x :: x in OpenLegacy(ms, name) ==> x in LegacyIds(ms)
  {
    hide LegacyId;
    if ms != [] {
      OpenIsMade(ms[..|ms| - 1]);
    }
  }

  lemma LegacyIdNotEmpty(n: nat)
    ensures LegacyId(n) != ""
  {
    assert |LegacyId(n)| > 0;
  }

  /** Results go to legacy calls or are counted as answers to others. */
  lemma {:induction false} TargetsKnown(ms: seq<Message>)
    ensures forall x :: x in Targets(ms) ==> x in AnsweredIds(ms) || x in LegacyIds(ms)
  {
    hide LegacyId, Waiting, OpenLegacy;
    if ms != [] {
      var p := ms[..|ms| - 1];
      TargetsKnown(p);
      OpenIsMade(p);
    }
  }

  lemma {:induction false} AnswersApart(ms: seq<Message>, legacy: seq<string>)
    requires NamesNone(ms, legacy) && "" !in legacy && forall x :: x in CallIds(ms) ==> x !in legacy
    ensures forall x :: x in AnsweredIds(ms) ==> x !in legacy
  {
    hide NewIds, Waiting, NamesNone;
    if ms != [] {
      var p, m := ms[..|ms| - 1], ms[|ms| - 1];
      assert p + [m] == ms;
      NamedSnoc(p, m);
      AnswersApart(p, legacy);
      WaitingIsMade(p);
    }
  }

  /** An open legacy call is not answered, and open for one function only. */
  ghost predicate OpenClean(ms: seq<Message>) {
    && (forall name, x :: x in OpenLegacy(ms, name) ==> x !in Targets(ms))
    && (forall a, b, x :: a != b && x in OpenLegacy(ms, a) ==> x !in OpenLegacy(ms, b))
  }

  lemma {:induction false} OnceEach(ms: seq<Message>, legacy: seq<string>)
    requires Distinct(CallIds(ms)) && Distinct(LegacyIds(ms)) && NoEarlyResult(ms) && NamedOnce(ms)
    requires NamesNone(ms, legacy) && "" !in legacy && forall x :: x in CallIds(ms) ==> x !in legacy
    requires forall x :: x in LegacyIds(ms) ==> x in legacy
    ensures Distinct(Targets(ms)) && OpenClean(ms)
  {
    hide CallIds, LegacyIds, NoEarlyResult, NamedOnce, NamesNone, LegacyId, AnsweredIds, OpenLegacy, Target, OpenClean, FreshIds, Distinct;
    if ms == [] {
      NoneDistinct<string>();
      NoneOpen();
    } else {
      var p, m := ms[..|ms| - 1], ms[|ms| - 1];
      assert p + [m] == ms;
      NamedSnoc(p, m);
      EarlySnoc(p, m);
      PartsDistinct(p, m);
      OnceEach(p, legacy);
      NewTarget(p, m, legacy);
      DistinctSnoc(Targets(p), Target(p, m));
      assert Targets(p) + [] == Targets(p);
      if m.role == "assistant" && m.legacy.Some? {
        NewLegacy(p, m, legacy);
      }
      OpenStep(p, m, legacy);
    }
  }

  lemma NoneOpen()
    ensures OpenClean([])
  {
  }

  /** A result goes to a call that is not answered, unless it names an answered one. */
  lemma NewTarget(p: seq<Message>, m: Message, legacy: seq<string>)
    requires Distinct(CallIds(p)) && NoEarlyResult(p) && OpenClean(p)
    requires NamesNone(p, legacy) && "" !in legacy && (forall x :: x in CallIds(p) ==> x !in legacy) && forall x :: x in LegacyIds(p) ==> x in legacy
    requires m.role == "tool" ==> m.callId !in legacy && (m.callId != "" ==> m.callId !in Targets(p))
    ensures Target(p, m) != "" ==> Target(p, m) !in Targets(p)
    ensures m.role == "tool" ==> Target(p, m) !in legacy
  {
    hide Distinct, NoEarlyResult, NamesNone, CallIds, LegacyIds, AnsweredIds, Targets, OpenLegacy, Waiting, Without;
    if m.role == "tool" && m.callId == "" && Waiting(p) != [] {
      var id := Waiting(p)[0];
      TargetsKnown(p);
      AnswersApart(p, legacy);
      WaitingIsUnanswered(p);
      WithoutFacts(CallIds(p), AnsweredIds(p));
      assert id in Waiting(p);
    } else if m.role == "function" && OpenLegacy(p, m.name) != [] {
      assert OpenLegacy(p, m.name)[0] in OpenLegacy(p, m.name);
    }
  }

  lemma LegacyMade(p: seq<Message>, m: Message)
    requires m.role == "assistant" && m.legacy.Some?
    ensures LegacyIds(p + [m]) == LegacyIds(p) + [LegacyId(Legacies(p) + 1)]
  {
    hide LegacyId;
    assert (p + [m])[..|p|] == p;
  }

  /** A legacy call gets an id that nothing has yet. */
  lemma NewLegacy(p: seq<Message>, m: Message, legacy: seq<string>)
    requires m.role == "assistant" && m.legacy.Some? && Distinct(LegacyIds(p + [m])) && (forall x :: x in LegacyIds(p + [m]) ==> x in legacy)
    requires NamesNone(p, legacy) && "" !in legacy && (forall x :: x in CallIds(p) ==> x !in legacy)
    ensures var id := LegacyId(Legacies(p) + 1); id !in LegacyIds(p) && id !in Targets(p)
  {
    hide Distinct, NamesNone, CallIds, AnsweredIds, Targets, Legacies, LegacyId, LegacyIds;
    var id := LegacyId(Legacies(p) + 1);
    LegacyMade(p, m);
    DistinctSnoc(LegacyIds(p), id);
    assert id in LegacyIds(p) + [id];
    TargetsKnown(p);
    AnswersApart(p, legacy);
  }

  lemma TargetFacts(p: seq<Message>, m: Message)
    ensures m.role != "tool" && m.role != "function" ==> Target(p, m) == ""
    ensures m.role == "function" && Target(p, m) != "" ==> Target(p, m) in OpenLegacy(p, m.name)
    ensures Targets(p + [m]) == Targets(p) + if Target(p, m) != "" then [Target(p, m)] else []
  {
    hide Waiting, OpenLegacy;
    assert (p + [m])[..|p|] == p;
  }

  lemma OpenStep(p: seq<Message>, m: Message, legacy: seq<string>)
    requires OpenClean(p) && (forall x :: x in LegacyIds(p) ==> x in legacy)
    requires m.role == "tool" ==> Target(p, m) !in legacy
    requires m.role == "assistant" && m.legacy.Some? ==> LegacyId(Legacies(p) + 1) !in LegacyIds(p) && LegacyId(Legacies(p) + 1) !in Targets(p)
    ensures OpenClean(p + [m])
  {
    hide LegacyId, OpenLegacy, LegacyIds, Targets, Target, Legacies;
    var ms := p + [m];
    OpenIsMade(p);
    forall name, x | x in OpenLegacy(ms, name) ensures x !in Targets(ms) {
      OpenNotTarget(p, m, name, x, legacy);
    }
    forall a, b, x | a != b && x in OpenLegacy(ms, a) ensures x !in OpenLegacy(ms, b) {
      OpenSnoc(p, m, a);
      OpenSnoc(p, m, b);
    }
  }

  /** The books of one function. */
  lemma OpenSnoc(p: seq<Message>, m: Message, name: string)
    ensures OpenLegacy(p + [m], name) ==
            if m.role == "assistant" && m.legacy.Some? && m.legacy.value.name == name then OpenLegacy(p, name) + [LegacyId(Legacies(p) + 1)]
            else if m.role == "function" && m.name == name then []
            else OpenLegacy(p, name)
  {
    hide LegacyId, Legacies;
    assert (p + [m])[..|p|] == p;
  }

  lemma OpenNotTarget(p: seq<Message>, m: Message, name: string, x: string, legacy: seq<string>)
    requires OpenClean(p) && x in OpenLegacy(p + [m], name)
    requires (forall y :: y in OpenLegacy(p, name) ==> y in LegacyIds(p)) && (forall y :: y in LegacyIds(p) ==> y in legacy)
    requires m.role == "tool" ==> Target(p, m) !in legacy
    requires m.role == "assistant" && m.legacy.Some? ==> LegacyId(Legacies(p) + 1) !in Targets(p)
    ensures x !in Targets(p + [m])
  {
    hide LegacyId, OpenLegacy, LegacyIds, Targets, Target, Legacies;
    OpenSnoc(p, m, name);
    TargetFacts(p, m);
    assert Targets(p) + [] == Targets(p);
  }

  lemma PartsDistinct(p: seq<Message>, m: Message)
    requires Distinct(CallIds(p + [m])) && Distinct(LegacyIds(p + [m]))
    ensures Distinct(CallIds(p)) && Distinct(LegacyIds(p))
    ensures forall x :: x in CallIds(p) ==> x in CallIds(p + [m])
    ensures forall x :: x in LegacyIds(p) ==> x in LegacyIds(p + [m])
  {
    hide NewIds, LegacyId, Distinct;
    var ms := p + [m];
    assert ms[..|p|] == p;
    DistinctParts(CallIds(p), CallIds(ms)[|CallIds(p)|..]);
    DistinctParts(LegacyIds(p), LegacyIds(ms)[|LegacyIds(p)|..]);
    assert CallIds(p) + CallIds(ms)[|CallIds(p)|..] == CallIds(ms);
    assert LegacyIds(p) + LegacyIds(ms)[|LegacyIds(p)|..] == LegacyIds(ms);
  }

  lemma {:induction false} LegacyNotEmpty(ms: seq<Message>)
    ensures "" !in LegacyIds(ms)
  {
    hide LegacyId;
    if ms != [] {
      LegacyNotEmpty(ms[..|ms| - 1]);
      LegacyIdNotEmpty(Legacies(ms[..|ms| - 1]) + 1);
    }
  }

  lemma {:induction false} OnceIsNamedOnce(ms: seq<Message>)
    requires Distinct(Targets(ms))
    ensures NamedOnce(ms)
  {
    hide NamedOnce, Waiting, OpenLegacy, Distinct;
    if ms == [] {
      NoneNamed();
    } else {
      var p, m := ms[..|ms| - 1], ms[|ms| - 1];
      assert p + [m] == ms;
      NamedSnoc(p, m);
      DistinctSnoc(Targets(p), Target(p, m));
      assert Targets(p) + [] == Targets(p);
      OnceIsNamedOnce(p);
    }
  }

  lemma NoneNamed()
    ensures NamedOnce([])
  {
  }

  /** With ids of their own and no result before its call, calls are answered once at most if and only if no
      result names a call that has been answered: first in, first out never does. */
  lemma AnsweredOnceIff(ms: seq<Message>)
    requires OwnIds(ms) && NoEarlyResult(ms)
    ensures Distinct(Targets(ms)) <==> NamedOnce(ms)
  {
    hide NamedOnce, NoEarlyResult, NamesNone, Distinct;
    MadeParts(ms);
    LegacyNotEmpty(ms);
    if NamedOnce(ms) {
      OnceEach(ms, LegacyIds(ms));
    }
    if Distinct(Targets(ms)) {
      OnceIsNamedOnce(ms);
    }
  }
}
