/** The session as an object and as a machine are one: a method without interruption is a run of steps, and
    does the same to the table of waiters. */
module SessionView {
  import opened Collections
  import opened Wire
  import opened JobWaiter
  import opened JobSession
  import T = SessionTable

  /** The waiters in the table. */
  ghost function Table(s: Session): map<string, Waiter>
    requires Referenced(s)
  {
    map id | id in s.jobs :: s.waiters[s.jobs[id]]
  }

  /** No waiter is in the table twice. */
  ghost predicate Separate(s: Session) {
    forall a, b :: a in s.jobs && b in s.jobs && a != b ==> s.jobs[a] != s.jobs[b]
  }

  lemma {:induction false} RunSeparate(s: Session, actions: seq<Action>)
    requires Referenced(s) && Separate(s) && Runs(s, actions)
    ensures Referenced(After(s, actions)) && Separate(After(s, actions))
    decreases actions
  {
    hide Enabled, Next, Referenced;
    if actions != [] {
      StepRefers(s, actions[0]);
      StepSeparate(s, actions[0]);
      RunSeparate(Next(s, actions[0]), actions[1..]);
    }
  }

  lemma StepSeparate(s: Session, a: Action)
    requires Referenced(s) && Separate(s) && Enabled(s, a)
    ensures Separate(Next(s, a))
  {
    hide Fail, Take, Signal, Pipe, Conclude;
  }

  lemma BeginsAsObject(s: Session, c: nat)
    requires Referenced(s) && Enabled(s, Begin(c))
    ensures Referenced(Next(s, Begin(c))) && Table(Next(s, Begin(c))) == Table(s)[s.callers[c].id := Fresh(s.callers[c].stream)]
  {
    StepRefers(s, Begin(c));
  }

  lemma EndsAsObject(s: Session, c: nat)
    requires Referenced(s) && Enabled(s, End(c))
    ensures Referenced(Next(s, End(c))) && Table(Next(s, End(c))) == Table(s) - {s.callers[c].id}
  {
    StepRefers(s, End(c));
  }

  /** Of the table, only the job `id` has changed. */
  lemma OneChanged(s: Session, t: Session, id: string)
    requires Referenced(s) && Separate(s) && Referenced(t) && id in s.jobs && t.jobs == s.jobs
    requires forall v :: 0 <= v < |s.waiters| && v != s.jobs[id] ==> v < |t.waiters| && t.waiters[v] == s.waiters[v]
    ensures Table(t) == Table(s)[id := t.waiters[s.jobs[id]]]
  {
    hide Sane;
  }

  function CancelRun(s: Session, c: nat): seq<Action>
    requires IsCaller(s, c)
  {
    [FindToCancel(c)] + (if s.callers[c].id in s.jobs then [Cancel(c)] + [] else [])
  }

  lemma CancelsAsObject(s: Session, c: nat)
    requires Referenced(s) && Separate(s) && Enabled(s, FindToCancel(c))
    ensures Runs(s, CancelRun(s, c)) && Referenced(After(s, CancelRun(s, c)))
    ensures Table(After(s, CancelRun(s, c))) == T.Failing(Table(s), s.callers[c].id, "cascade job canceled")
  {
    hide Fail, Referenced, Runs, After;
    var id, s1 := s.callers[c].id, Next(s, FindToCancel(c));
    StepRefers(s, FindToCancel(c));
    RunsOne(s, FindToCancel(c), if id in s.jobs then [Cancel(c)] + [] else []);
    if id in s.jobs {
      CanCancel(s, c);
      var s2 := Next(s1, Cancel(c));
      StepRefers(s1, Cancel(c));
      RunsOne(s1, Cancel(c), []);
      RunsNone(s2);
      OneChanged(s, s2, id);
    } else {
      RunsNone(s1);
    }
  }

  lemma CanCancel(s: Session, c: nat)
    requires Referenced(s) && Enabled(s, FindToCancel(c)) && s.callers[c].id in s.jobs
    ensures Enabled(Next(s, FindToCancel(c)), Cancel(c))
  {
  }

  function ErrorRun(s: Session, id: string, e: string): seq<Action> {
    [ReadError(id, e)] + (if id in s.jobs then [Advance] + [] else [])
  }

  lemma ErrorsAsObject(s: Session, id: string, e: string)
    requires Referenced(s) && Separate(s) && Enabled(s, ReadError(id, e))
    ensures Runs(s, ErrorRun(s, id, e)) && Referenced(After(s, ErrorRun(s, id, e)))
    ensures Table(After(s, ErrorRun(s, id, e))) == T.Failing(Table(s), id, e)
  {
    hide Fail, Referenced, Runs, After;
    var s1 := Next(s, ReadError(id, e));
    StepRefers(s, ReadError(id, e));
    RunsOne(s, ReadError(id, e), if id in s.jobs then [Advance] + [] else []);
    if id in s.jobs {
      CanAdvance(s1);
      var s2 := Next(s1, Advance);
      StepRefers(s1, Advance);
      RunsOne(s1, Advance, []);
      RunsNone(s2);
      OneChanged(s, s2, id);
    } else {
      RunsNone(s1);
    }
  }

  lemma CanAdvance(s: Session)
    requires Referenced(s) && !s.reader.Idle?
    ensures s.reader.w < |s.waiters| == |s.got| == |s.seen|
    ensures Enabled(s, Advance) <==> !Blocked(s)
  {
  }

  /** A waiter with an error takes nothing more; for any other one, all four sections. */
  function ResultRun(s: Session, id: string, f: Frame): seq<Action>
    requires Referenced(s)
  {
    [Read(id, f)] + (if id !in s.jobs then []
                     else if s.waiters[s.jobs[id]].err.Some? then [Advance] + []
                     else [Advance] + ([Advance] + ([Advance] + ([Advance] + []))))
  }

  /** Text for the pipe that its caller does not read yet holds the reader. */
  predicate Flows(s: Session, id: string, f: Frame)
    requires Referenced(s)
  {
    id in s.jobs ==>
      var w := s.jobs[id];
      JobWaiter.ToPipe(s.waiters[w], f) ==> s.waiters[w].done || (s.seen[w].Some? && s.seen[w].value < 400)
  }

  lemma JobsIn(s: Session)
    requires Referenced(s)
    ensures |s.waiters| == |s.got| == |s.seen| && forall id :: id in s.jobs ==> s.jobs[id] < |s.waiters|
  {
  }

  lemma FeedsAsObject(s: Session, id: string, f: Frame)
    requires Referenced(s) && Separate(s) && Enabled(s, Read(id, f)) && Flows(s, id, f)
    ensures Runs(s, ResultRun(s, id, f)) && Referenced(After(s, ResultRun(s, id, f)))
    ensures Table(After(s, ResultRun(s, id, f))) == T.Feeding(Table(s), id, f)
  {
    hide Append, Referenced, Runs, After, ReaderStep, Separate;
    var s1 := Next(s, Read(id, f));
    JobsIn(s);
    StepRefers(s, Read(id, f));
    if id !in s.jobs {
      RunsOne(s, Read(id, f), []);
      RunsNone(s1);
    } else if s.waiters[s.jobs[id]].err.Some? {
      RunsOne(s, Read(id, f), [Advance] + []);
      var s2 := Refuses(s1);
      RunsOne(s1, Advance, []);
      RunsNone(s2);
      OneChanged(s, s2, id);
    } else {
      var s2, s3, s4, s5 := Delivers(s1);
      RunsOne(s, Read(id, f), [Advance] + ([Advance] + ([Advance] + ([Advance] + []))));
      RunsOne(s1, Advance, [Advance] + ([Advance] + ([Advance] + [])));
      RunsOne(s2, Advance, [Advance] + ([Advance] + []));
      RunsOne(s3, Advance, [Advance] + []);
      RunsOne(s4, Advance, []);
      RunsNone(s5);
      OneChanged(s, s5, id);
    }
  }

  lemma Refuses(s: Session) returns (t: Session)
    requires Referenced(s) && s.reader.Delivering? && s.reader.next == ToTake && s.waiters[s.reader.w].err.Some?
    ensures Enabled(s, Advance) && t == Next(s, Advance) && Referenced(t) && t.jobs == s.jobs && t.waiters == s.waiters
    ensures Append(s.waiters[s.reader.w], s.reader.f) == s.waiters[s.reader.w]
  {
    hide Referenced;
    CanAdvance(s);
    t := Next(s, Advance);
    StepRefers(s, Advance);
  }

  /** The four sections of a delivery, without interruption. */
  lemma Delivers(s: Session) returns (s2: Session, s3: Session, s4: Session, s5: Session)
    requires Referenced(s) && s.reader.Delivering? && s.reader.next == ToTake && s.waiters[s.reader.w].err.None?
    requires var v := s.waiters[s.reader.w];
             JobWaiter.ToPipe(v, s.reader.f) ==> v.done || (s.seen[s.reader.w].Some? && s.seen[s.reader.w].value < 400)
    ensures Enabled(s, Advance) && s2 == Next(s, Advance) && Enabled(s2, Advance) && s3 == Next(s2, Advance)
    ensures Enabled(s3, Advance) && s4 == Next(s3, Advance) && Enabled(s4, Advance) && s5 == Next(s4, Advance)
    ensures Referenced(s5) && s5.jobs == s.jobs && |s5.waiters| == |s.waiters|
    ensures s5.waiters[s.reader.w] == Append(s.waiters[s.reader.w], s.reader.f)
    ensures forall v :: 0 <= v < |s.waiters| && v != s.reader.w ==> s5.waiters[v] == s.waiters[v]
  {
    hide Referenced, Take, Signal, Pipe, Conclude, Append;
    var w, f := s.reader.w, s.reader.f;
    CanAdvance(s);
    Sections(s.waiters[w], f);
    s2 := Next(s, Advance);
    StepRefers(s, Advance);
    CanAdvance(s2);
    s3 := Next(s2, Advance);
    StepRefers(s2, Advance);
    CanAdvance(s3);
    s4 := Next(s3, Advance);
    StepRefers(s3, Advance);
    CanAdvance(s4);
    s5 := Next(s4, Advance);
    StepRefers(s4, Advance);
  }

  lemma Sections(v: Waiter, f: Frame)
    requires v.err.None?
    ensures Append(v, f) == (var a := Signal(Take(v, f));
                             var b := if JobWaiter.ToPipe(a, f) then Pipe(a, f.chunk) else a;
                             if f.final then Conclude(b) else b)
    ensures var a := Signal(Take(v, f)); (JobWaiter.ToPipe(a, f) <==> JobWaiter.ToPipe(v, f)) && a.done == v.done
  {
  }

  // ---- closing ----

  function Sweeps(order: seq<string>, e: string): seq<Action> {
    if order == [] then [] else [SweepOne(order[0], e)] + Sweeps(order[1..], e)
  }

  /** The waiters in the table have failed, the others are as they were, and the table is empty. */
  ghost predicate AllFailed(s: Session, t: Session, e: string)
    requires Referenced(s)
  {
    && t.jobs == map[] && t.closing.Sweeping? && |t.waiters| == |s.waiters|
    && forall w :: 0 <= w < |s.waiters| ==> t.waiters[w] == if InTable(s, w) then Fail(s.waiters[w], e) else s.waiters[w]
  }

  ghost predicate InTable(s: Session, w: nat) {
    exists id :: id in s.jobs && s.jobs[id] == w
  }

  /** In whatever order the table is swept, every job in it fails and nothing else changes. */
  lemma {:induction false} SweepsAsObject(s: Session, order: seq<string>, e: string)
    requires Referenced(s) && Separate(s) && s.closing.Sweeping? && Enumerates(order, s.jobs)
    ensures Runs(s, Sweeps(order, e)) && AllFailed(s, After(s, Sweeps(order, e)), e)
    decreases order
  {
    hide Fail, Runs, After, Referenced, Separate, AllFailed;
    if order == [] {
      RunsNone(s);
      NoneToSweep(s, e);
    } else {
      JobsIn(s);
      var step := SweepOne(order[0], e);
      StepRefers(s, step);
      StepSeparate(s, step);
      SweepsOn(s.jobs, order);
      SweepsAsObject(Next(s, step), order[1..], e);
      RunsOne(s, step, Sweeps(order[1..], e));
      SweepsOne(s, order[0], e, After(s, Sweeps(order, e)));
    }
  }

  lemma NoneToSweep(s: Session, e: string)
    requires Referenced(s) && s.closing.Sweeping? && s.jobs.Keys == {}
    ensures AllFailed(s, s, e)
  {
    hide Sane;
  }

  lemma SweepsOne(s: Session, id: string, e: string, t: Session)
    requires Referenced(s) && Separate(s) && Enabled(s, SweepOne(id, e)) && Referenced(Next(s, SweepOne(id, e)))
    requires AllFailed(Next(s, SweepOne(id, e)), t, e)
    ensures AllFailed(s, t, e)
  {
    hide Fail, Sane, Referenced;
    var s1 := Next(s, SweepOne(id, e));
    forall w | 0 <= w < |s.waiters| ensures InTable(s, w) <==> w == s.jobs[id] || InTable(s1, w) {
      if InTable(s, w) && w != s.jobs[id] {
        var x :| x in s.jobs && s.jobs[x] == w;
        assert x in s1.jobs && s1.jobs[x] == w;
      }
    }
    assert !InTable(s1, s.jobs[id]);
  }

  lemma SweepsOn<V>(m: map<string, V>, order: seq<string>)
    requires order != [] && Enumerates(order, m)
    ensures order[0] in m && Enumerates(order[1..], m - {order[0]})
  {
    var rest := order[1..];
    assert forall i :: 0 <= i < |rest| ==> rest[i] == order[i + 1];
    forall k | k in m - {order[0]} ensures k in rest {
      var i :| 0 <= i < |order| && order[i] == k;
      assert rest[i - 1] == k;
    }
  }
}
