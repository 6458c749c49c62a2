/** The conversion of a Chat request keeps the books of the conversation, and matches results without an
    id first in, first out. */
module ChatRequestFifo {
  import opened Collections
  import opened ChatRequest
  import opened Conversation
  import Wire

  /** The state keeps the books of the messages so far. */
  ghost predicate Follows(s: State, ms: seq<Message>) {
    && s.generatedSeq == Generated(ms) && s.legacySeq == Legacies(ms) && s.pending == Waiting(ms)
    && forall name :: Legacy(s.legacy, name) == OpenLegacy(ms, name)
  }

  lemma CallsFollow(isObject: string -> bool, s: State, tcs: seq<ToolCall>)
    ensures var t := CallsStep(isObject, s, tcs);
            && t.pending == s.pending + NewIds(s.generatedSeq, tcs) && t.generatedSeq == s.generatedSeq + Unnamed(tcs)
            && t.legacySeq == s.legacySeq && t.legacy == s.legacy && t.systems == s.systems
    decreases |tcs|
  {
    hide GeneratedId, NormalArgs, NewIds;
    if tcs == [] {
      NoNewIds(s.generatedSeq);
      assert s.pending + [] == s.pending;
    } else {
      var p, last := tcs[..|tcs| - 1], tcs[|tcs| - 1];
      CallsFollow(isObject, s, p);
      NewIdsSnoc(s.generatedSeq, p, last);
      assert tcs == p + [last];
      var id := if last.id == "" then GeneratedId(s.generatedSeq + Unnamed(p) + 1) else last.id;
      assert s.pending + NewIds(s.generatedSeq, p) + [id] == s.pending + (NewIds(s.generatedSeq, p) + [id]);
    }
  }

  lemma NoNewIds(n: nat)
    ensures NewIds(n, []) == []
  {
  }

  lemma {:induction false} NewIdsSnoc(n: nat, tcs: seq<ToolCall>, tc: ToolCall)
    ensures NewIds(n, tcs + [tc]) == NewIds(n, tcs) + [if tc.id == "" then GeneratedId(n + Unnamed(tcs) + 1) else tc.id]
    decreases |tcs|
  {
    hide GeneratedId;
    if tcs == [] {
      assert [] + [tc] == [tc] && [tc][1..] == [];
    } else {
      assert (tcs + [tc])[1..] == tcs[1..] + [tc];
      var m := if tcs[0].id == "" then n + 1 else n;
      NewIdsSnoc(m, tcs[1..], tc);
      UnnamedTail(tcs);
    }
  }

  lemma {:induction false} UnnamedTail(tcs: seq<ToolCall>)
    requires tcs != []
    ensures Unnamed(tcs) == Unnamed(tcs[1..]) + if tcs[0].id == "" then 1 else 0
    decreases |tcs|
  {
    if |tcs| > 1 {
      var p := tcs[..|tcs| - 1];
      UnnamedTail(p);
      assert tcs[1..][..|tcs[1..]| - 1] == p[1..];
    }
  }

  lemma StepFollows(isObject: string -> bool, replay: bool, s: State, p: seq<Message>, m: Message)
    requires Follows(s, p)
    ensures var t := MessageStep(isObject, replay, s, m);
            && (t.None? <==> m.role == "function" && !LegacyMatched(p, m.name))
            && (t.Some? ==> Follows(t.value, p + [m]))
    ensures m.role == "tool" ==> ResultId(s, m) == Target(p, m)
  {
    hide CallsStep, LegacyStep, NormalArgs, RemoveFirst, NewIds, TextOf, ThoughtOf;
    hide Generated, Legacies, Waiting, OpenLegacy;
    BooksSnoc(p, m);
    if m.role == "assistant" {
      var s1 := s.(items := s.items + ThoughtOf(replay, m) + TextOf(m));
      CallsFollow(isObject, s1, m.calls);
      LegacyFollows(isObject, CallsStep(isObject, s1, m.calls), m.legacy);
    }
  }

  lemma BooksSnoc(p: seq<Message>, m: Message)
    ensures var ms := p + [m];
            && Generated(ms) == Generated(p) + (if m.role == "assistant" then Unnamed(m.calls) else 0)
            && Legacies(ms) == Legacies(p) + (if m.role == "assistant" && m.legacy.Some? then 1 else 0)
            && (m.role == "assistant" ==> Waiting(ms) == Waiting(p) + NewIds(Generated(p), m.calls))
            && (m.role == "tool" ==> Waiting(ms) == if m.callId != "" then RemoveFirst(Waiting(p), m.callId)
                                                    else if Waiting(p) != [] then Waiting(p)[1..] else Waiting(p))
            && (m.role != "assistant" && m.role != "tool" ==> Waiting(ms) == Waiting(p))
            && forall name :: OpenLegacy(ms, name) ==
                 if m.role == "assistant" && m.legacy.Some? && m.legacy.value.name == name then OpenLegacy(p, name) + [LegacyId(Legacies(p) + 1)]
                 else if m.role == "function" && m.name == name then []
                 else OpenLegacy(p, name)
  {
    hide RemoveFirst, NewIds, LegacyId;
    assert (p + [m])[..|p|] == p;
  }

  lemma LegacyFollows(isObject: string -> bool, s: State, fc: Wire.Option<ToolCall>)
    ensures var t := LegacyStep(isObject, s, fc);
            && t.pending == s.pending && t.generatedSeq == s.generatedSeq
            && t.legacySeq == s.legacySeq + (if fc.Some? then 1 else 0)
            && forall name :: Legacy(t.legacy, name) ==
                 Legacy(s.legacy, name) + if fc.Some? && fc.value.name == name then [LegacyId(s.legacySeq + 1)] else []
  {
    hide LegacyId, NormalArgs;
    assert forall name :: Legacy(s.legacy, name) + [] == Legacy(s.legacy, name);
  }

  /** The conversion fails exactly on a legacy result that does not have exactly one call, and otherwise keeps
      the books. */
  lemma {:induction false} FilledFollows(isObject: string -> bool, replay: bool, ms: seq<Message>)
    ensures Filled(isObject, replay, ms).Some? <==> LegacyOk(ms)
    ensures LegacyOk(ms) ==> Follows(Filled(isObject, replay, ms).value, ms)
  {
    hide MessageStep, Follows, LegacyMatched;
    if ms == [] {
      NothingFollows();
    } else {
      var p, m := ms[..|ms| - 1], ms[|ms| - 1];
      FilledFollows(isObject, replay, p);
      LegacySnoc(p, m);
      assert p + [m] == ms;
      if LegacyOk(p) {
        StepFollows(isObject, replay, Filled(isObject, replay, p).value, p, m);
      }
    }
  }

  lemma NothingFollows()
    ensures Follows(START, [])
  {
  }

  lemma LegacySnoc(p: seq<Message>, m: Message)
    ensures LegacyOk(p + [m]) <==> LegacyOk(p) && (m.role == "function" ==> LegacyMatched(p, m.name))
  {
    hide LegacyMatched;
    var ms := p + [m];
    assert forall n :: 0 <= n < |p| ==> ms[n] == p[n] && ms[..n] == p[..n];
    assert ms[|p|] == m && ms[..|p|] == p;
  }

  // ---- first in, first out ----

  /** The calls that results with and without an id went to. */
  function AnsweredIds(ms: seq<Message>): set<string> {
    if ms == [] then {}
    else
      var p := ms[..|ms| - 1];
      AnsweredIds(p) + (if ms[|ms| - 1].role == "tool" then {Target(p, ms[|ms| - 1])} else {})
  }

  /** Those of `ids` that are not in `done`. */
  function Without(ids: seq<string>, done: set<string>): seq<string> {
    if ids == [] then [] else (if ids[0] in done then [] else [ids[0]]) + Without(ids[1..], done)
  }

  lemma {:induction false} WithoutConcat(a: seq<string>, b: seq<string>, done: set<string>)
    ensures Without(a + b, done) == Without(a, done) + Without(b, done)
  {
    if a == [] {
      assert a + b == b;
    } else {
      assert (a + b)[1..] == a[1..] + b;
      WithoutConcat(a[1..], b, done);
    }
  }

  lemma {:induction false} WithoutNone(ids: seq<string>, done: set<string>)
    requires forall i :: 0 <= i < |ids| ==> ids[i] !in done
    ensures Without(ids, done) == ids
  {
    if ids != [] {
      WithoutNone(ids[1..], done);
    }
  }

  lemma {:induction false} WithoutFacts(ids: seq<string>, done: set<string>)
    ensures forall x :: x in Without(ids, done) <==> x in ids && x !in done
    ensures Distinct(ids) ==> Distinct(Without(ids, done))
  {
    if ids != [] {
      WithoutFacts(ids[1..], done);
      var w := Without(ids[1..], done);
      assert forall x :: x in ids <==> x == ids[0] || x in ids[1..];
      if Distinct(ids) {
        assert Distinct(ids[1..]) by {
          forall i, j | 0 <= i < j < |ids[1..]| ensures ids[1..][i] != ids[1..][j] {
            assert ids[i + 1] != ids[j + 1];
          }
        }
        assert ids[0] !in ids[1..];
      }
    }
  }

  /** Answering one more id takes its only occurrence out. */
  lemma {:induction false} AnswerOne(ids: seq<string>, done: set<string>, x: string)
    requires Distinct(ids)
    ensures Without(ids, done + {x}) == RemoveFirst(Without(ids, done), x)
  {
    if ids != [] {
      var rest := ids[1..];
      assert Distinct(rest) by {
        forall i, j | 0 <= i < j < |rest| ensures rest[i] != rest[j] {
          assert ids[i + 1] != ids[j + 1];
        }
      }
      AnswerOne(rest, done, x);
      WithoutFacts(rest, done);
      assert [] + Without(rest, done) == Without(rest, done) && [] + Without(rest, done + {x}) == Without(rest, done + {x});
      if ids[0] == x {
        assert x !in rest;
        RemoveNone(Without(rest, done), x);
        assert ([x] + Without(rest, done))[1..] == Without(rest, done);
      } else if ids[0] !in done {
        assert ([ids[0]] + Without(rest, done))[1..] == Without(rest, done);
      }
    }
  }

  lemma {:induction false} RemoveNone(xs: seq<string>, x: string)
    requires x !in xs
    ensures RemoveFirst(xs, x) == xs
  {
    if xs != [] {
      RemoveNone(xs[1..], x);
    }
  }

  /** A result does not come before its call: no call is made under an id that was answered already. */
  predicate NoEarlyResult(ms: seq<Message>) {
    forall n :: 0 <= n < |ms| && ms[n].role == "assistant" ==> FreshIds(ms[..n], ms[n])
  }

  predicate FreshIds(p: seq<Message>, m: Message) {
    forall x :: x in NewIds(Generated(p), m.calls) ==> x !in AnsweredIds(p)
  }

  lemma EarlySnoc(p: seq<Message>, m: Message)
    ensures NoEarlyResult(p + [m]) <==> NoEarlyResult(p) && (m.role == "assistant" ==> FreshIds(p, m))
  {
    hide FreshIds;
    var ms := p + [m];
    assert forall n :: 0 <= n < |p| ==> ms[n] == p[n] && ms[..n] == p[..n];
    assert ms[|p|] == m && ms[..|p|] == p;
  }

  /** The waiting calls are, in order, the calls made and not answered. */
  lemma {:induction false} WaitingIsUnanswered(ms: seq<Message>)
    requires Distinct(CallIds(ms)) && NoEarlyResult(ms)
    ensures Waiting(ms) == Without(CallIds(ms), AnsweredIds(ms))
  {
    hide NewIds, Without, RemoveFirst, NoEarlyResult, Target;
    if ms == [] {
      WithoutNone([], {});
    } else {
      var p, m := ms[..|ms| - 1], ms[|ms| - 1];
      var ids, done := CallIds(p), AnsweredIds(p);
      EarlySnoc(p, m);
      assert p + [m] == ms;
      if m.role == "assistant" {
        var more := NewIds(Generated(p), m.calls);
        DistinctParts(ids, more);
        WaitingIsUnanswered(p);
        WithoutConcat(ids, more, done);
        WithoutNone(more, done);
        assert done + {} == done;
      } else {
        assert ids + [] == ids;
        WaitingIsUnanswered(p);
        if m.role == "tool" {
          AnswerOne(ids, done, Target(p, m));
          ToolTakes(p, m);
        } else {
          assert done + {} == done;
        }
      }
    }
  }

  lemma ToolTakes(p: seq<Message>, m: Message)
    requires m.role == "tool"
    ensures Waiting(p + [m]) == RemoveFirst(Waiting(p), Target(p, m))
  {
    assert (p + [m])[..|p|] == p;
    if m.callId == "" && Waiting(p) == [] {
      assert RemoveFirst([], "") == [];
    }
  }

  /** ... and these are the calls the conversion has waiting. */
  lemma PendingIsUnanswered(isObject: string -> bool, replay: bool, ms: seq<Message>)
    requires LegacyOk(ms) && Distinct(CallIds(ms)) && NoEarlyResult(ms)
    ensures Filled(isObject, replay, ms).Some?
    ensures Filled(isObject, replay, ms).value.pending == Without(CallIds(ms), AnsweredIds(ms))
  {
    FilledFollows(isObject, replay, ms);
    WaitingIsUnanswered(ms);
  }

  /** A result without an id goes to the first call, in order, that no result has gone to yet. */
  lemma OldestFirst(isObject: string -> bool, replay: bool, ms: seq<Message>, m: Message)
    requires m.role == "tool" && m.callId == ""
    requires LegacyOk(ms) && Distinct(CallIds(ms)) && NoEarlyResult(ms)
    ensures Filled(isObject, replay, ms).Some?
    ensures var id := ResultId(Filled(isObject, replay, ms).value, m);
            var ids, done := CallIds(ms), AnsweredIds(ms);
            if forall i :: 0 <= i < |ids| ==> ids[i] in done then id == ""
            else exists i :: 0 <= i < |ids| && ids[i] == id && ids[i] !in done && forall j :: 0 <= j < i ==> ids[j] in done
  {
    hide Filled, CallIds, AnsweredIds, Without, NoEarlyResult;
    PendingIsUnanswered(isObject, replay, ms);
    FirstLeft(CallIds(ms), AnsweredIds(ms));
  }

  lemma {:induction false} FirstLeft(ids: seq<string>, done: set<string>)
    ensures if forall i :: 0 <= i < |ids| ==> ids[i] in done then Without(ids, done) == []
            else Without(ids, done) != []
                 && exists i :: 0 <= i < |ids| && ids[i] == Without(ids, done)[0] && ids[i] !in done && forall j :: 0 <= j < i ==> ids[j] in done
  {
    if ids != [] {
      FirstLeft(ids[1..], done);
      if ids[0] in done {
        if exists i :: 0 <= i < |ids[1..]| && ids[1..][i] !in done {
          var w := Without(ids[1..], done)[0];
          var i :| 0 <= i < |ids[1..]| && ids[1..][i] == w && ids[1..][i] !in done && forall j :: 0 <= j < i ==> ids[1..][j] in done;
          assert ids[i + 1] == w && forall j :: 0 < j < i + 1 ==> ids[j] == ids[1..][j - 1];
        } else {
          assert forall i :: 0 < i < |ids| ==> ids[i] == ids[1..][i - 1];
        }
      } else {
        assert ids[0] == Without(ids, done)[0];
      }
    }
  }
}
