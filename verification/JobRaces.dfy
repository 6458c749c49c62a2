/** What the interleaving of reader and caller can bring about: the two answers to one late error, text added to an
    answer that was complete, and a reader that is blocked for good. Each with its exact condition. */
module JobRaces {
  import opened Wire
  import opened JobWaiter
  import opened JobSession
  import opened JobAnswers

  // ---- runs that bring frames ----

  lemma {:induction false} RunsConcat(s: Session, a: seq<Action>, b: seq<Action>, id: string)
    requires Runs(s, a) && Runs(After(s, a), b)
    ensures Runs(s, a + b) && After(s, a + b) == After(After(s, a), b)
    ensures Addressed(s, a + b, id) == Addressed(s, a, id) + Addressed(After(s, a), b, id)
    decreases a
  {
    hide Enabled, Next, Here;
    if a == [] {
      assert a + b == b;
      assert [] + Addressed(s, b, id) == Addressed(s, b, id);
    } else {
      assert (a + b)[0] == a[0] && (a + b)[1..] == a[1..] + b;
      RunsConcat(Next(s, a[0]), a[1..], b, id);
      var t := Next(s, a[0]);
      assert Here(s, a[0], id) + (Addressed(t, a[1..], id) + Addressed(After(s, a), b, id))
          == Here(s, a[0], id) + Addressed(t, a[1..], id) + Addressed(After(s, a), b, id);
    }
  }

  /** One frame, read and delivered without interruption. */
  function Delivery(id: string, f: Frame): seq<Action> {
    [Read(id, f)] + ([Advance] + ([Advance] + ([Advance] + ([Advance] + []))))
  }

  /** The reader is free, and `w` can take frames under `id`. */
  predicate Ready(s: Session, id: string, w: nat) {
    && s.reader.Idle? && Unlocked(s) && id in s.jobs && s.jobs[id] == w < |s.waiters| == |s.got| == |s.seen|
    && s.waiters[w].err.None?
  }

  /** The pipe does not hold the frame back. */
  predicate Passes(s: Session, w: nat, f: Frame)
    requires w < |s.waiters| == |s.seen|
  {
    !JobWaiter.ToPipe(s.waiters[w], f) || s.waiters[w].done || (s.seen[w].Some? && s.seen[w].value < 400)
  }

  function Delivered(s: Session, w: nat, f: Frame): Session
    requires w < |s.waiters| == |s.got|
  {
    s.(waiters := s.waiters[w := Append(s.waiters[w], f)], got := s.got[w := s.got[w] + [f]])
  }

  lemma Delivers(s: Session, id: string, w: nat, f: Frame)
    requires Ready(s, id, w) && Passes(s, w, f)
    ensures Runs(s, Delivery(id, f)) && After(s, Delivery(id, f)) == Delivered(s, w, f)
    ensures Addressed(s, Delivery(id, f), id) == [f]
    ensures Ready(Delivered(s, w, f), id, w)
  {
    hide Runs, After, Addressed, Append, Take, Signal, Conclude, Pipe, Next, Enabled;
    var v := s.waiters[w];
    var s2, s3, s4, s5 := Sections(s, id, w, f);
    var s1 := Next(s, Read(id, f));
    SectionsAppend(v, f);
    SectionsOf(v, f);
    TakeKeeps(v, f);
    AppendKeeps(v, f);
    assert s5 == Delivered(s, w, f);
    NoSteps(s5, id);
    OneStep(s4, Advance, [], id);
    OneStep(s3, Advance, [Advance] + [], id);
    OneStep(s2, Advance, [Advance] + ([Advance] + []), id);
    OneStep(s1, Advance, [Advance] + ([Advance] + ([Advance] + [])), id);
    OneStep(s, Read(id, f), [Advance] + ([Advance] + ([Advance] + ([Advance] + []))), id);
    assert [f] + ([] + ([] + ([] + ([] + [])))) == [f];
  }

  lemma OneStep(s: Session, a: Action, rest: seq<Action>, id: string)
    requires Enabled(s, a) && Runs(Next(s, a), rest)
    ensures Runs(s, [a] + rest) && After(s, [a] + rest) == After(Next(s, a), rest)
    ensures Addressed(s, [a] + rest, id) == Here(s, a, id) + Addressed(Next(s, a), rest, id)
  {
    hide Enabled, Next, Here;
    assert ([a] + rest)[0] == a && ([a] + rest)[1..] == rest;
  }

  lemma NoSteps(s: Session, id: string)
    ensures Runs(s, []) && After(s, []) == s && Addressed(s, [], id) == []
  {
  }

  /** The states in between. */
  lemma Sections(s: Session, id: string, w: nat, f: Frame) returns (s2: Session, s3: Session, s4: Session, s5: Session)
    requires Ready(s, id, w) && Passes(s, w, f)
    ensures Enabled(s, Read(id, f))
    ensures var s1 := Next(s, Read(id, f)); Enabled(s1, Advance) && s2 == Next(s1, Advance)
    ensures Enabled(s2, Advance) && s3 == Next(s2, Advance)
    ensures Enabled(s3, Advance) && s4 == Next(s3, Advance)
    ensures Enabled(s4, Advance) && s5 == Next(s4, Advance)
    ensures var v := s.waiters[w];
            var b := Signal(Take(v, f));
            var c := if JobWaiter.ToPipe(b, f) then Pipe(b, f.chunk) else b;
            s5 == s.(waiters := s.waiters[w := if f.final then Conclude(c) else c], got := s.got[w := s.got[w] + [f]])
  {
    var v := s.waiters[w];
    var s1 := Next(s, Read(id, f));
    assert s1 == s.(reader := Delivering(w, f, ToTake));
    s2 := Next(s1, Advance);
    TakeKeeps(v, f);
    hide Take, Signal, Pipe, Conclude;
    assert s2 == s.(waiters := s.waiters[w := Take(v, f)], reader := Delivering(w, f, ToSignal));
    s3 := Next(s2, Advance);
    var b := Signal(Take(v, f));
    assert s3 == s.(waiters := s.waiters[w := b], reader := Delivering(w, f, Section.ToPipe));
    s4 := Next(s3, Advance);
    var c := if JobWaiter.ToPipe(b, f) then Pipe(b, f.chunk) else b;
    assert s4 == s.(waiters := s.waiters[w := c], reader := Delivering(w, f, ToFinish));
    s5 := Next(s4, Advance);
  }

  lemma AppendKeeps(v: Waiter, f: Frame)
    requires v.err.None?
    ensures Append(v, f).err.None? && Append(v, f).stream == v.stream
  {
  }

  lemma TakeKeeps(v: Waiter, f: Frame)
    ensures var b := Signal(Take(v, f)); b.stream == v.stream && b.done == v.done && b.err == v.err
    ensures Take(v, f).err == v.err
  {
  }

  /** One frame after the other. */
  function Deliveries(id: string, fs: seq<Frame>): seq<Action> {
    if fs == [] then [] else Delivery(id, fs[0]) + Deliveries(id, fs[1..])
  }

  /** The pipe holds none of the frames back: there is no text for it. */
  predicate NoneHeld(stream: bool, fs: seq<Frame>) {
    forall i :: 0 <= i < |fs| ==> !stream || fs[i].chunk == "" || (fs[i].final && fs[i].status >= 400)
  }

  lemma {:induction false} AllDelivered(s: Session, id: string, w: nat, fs: seq<Frame>)
    requires Ready(s, id, w) && NoneHeld(s.waiters[w].stream, fs)
    ensures var t := s.(waiters := s.waiters[w := AppendAll(s.waiters[w], fs)], got := s.got[w := s.got[w] + fs]);
            && Runs(s, Deliveries(id, fs)) && After(s, Deliveries(id, fs)) == t
            && Addressed(s, Deliveries(id, fs), id) == fs && Ready(t, id, w)
    decreases fs
  {
    hide Runs, After, Addressed, Append, Enabled, Next, Delivery;
    if fs == [] {
      NoSteps(s, id);
      assert s.got[w] + [] == s.got[w];
    } else {
      var f, rest := fs[0], fs[1..];
      Delivers(s, id, w, f);
      AppendKeeps(s.waiters[w], f);
      var t := Delivered(s, w, f);
      AllDelivered(t, id, w, rest);
      RunsConcat(s, Delivery(id, f), Deliveries(id, rest), id);
      assert [f] + rest == fs && s.got[w] + [f] + rest == s.got[w] + fs;
    }
  }

  /** A job begun and sent. */
  lemma Asked(callers: seq<Caller>, c: nat) returns (s: Session)
    requires AllStarting(callers) && c < |callers|
    ensures var id := callers[c].id;
            var a := [Begin(c)] + ([Send(c, true)] + []);
            && Runs(Start(callers), a) && After(Start(callers), a) == s && Addressed(Start(callers), a, id) == []
            && Ready(s, id, 0) && s.waiters == [Fresh(callers[c].stream)] && s.owner == [c] && s.got == [[]] && s.seen == [None]
            && |s.callers| == |callers| && s.callers[c] == callers[c].(stage := Waiting(0)) && s.closing.Open? && s.jobs == map[id := 0]
            && forall d :: 0 <= d < |callers| ==> s.callers[d].canceller.Quiet?
  {
    hide Runs, After, Addressed;
    var id := callers[c].id;
    var s0 := Start(callers);
    var s1 := Next(s0, Begin(c));
    s := Next(s1, Send(c, true));
    NoSteps(s, id);
    OneStep(s1, Send(c, true), [], id);
    OneStep(s0, Begin(c), [Send(c, true)] + [], id);
    var none: seq<Frame> := [];
    assert none + (none + none) == none;
  }

  // ---- a late error ----

  /** When no frame has text before an error at the end, its caller may look that late, and get the error. */
  lemma ErrorMaySeen(callers: seq<Caller>, c: nat, fs: seq<Frame>) returns (actions: seq<Action>)
    requires AllStarting(callers) && c < |callers| && callers[c].stream
    requires Closed(fs) && fs[|fs| - 1].status >= 400 && Chunks(fs[..|fs| - 1]) == ""
    ensures Runs(Start(callers), actions) && Addressed(Start(callers), actions, callers[c].id) == fs
    ensures var s := After(Start(callers), actions);
            |s.owner| == |s.waiters| == |s.seen| == 1 && s.owner[0] == c && ReplyOf(s, 0) == Replied(fs[|fs| - 1].status, Chunks(fs))
  {
    hide Runs, After, Addressed, Chunks, Next, Enabled, AppendAll;
    var id := callers[c].id;
    var s := Asked(callers, c);
    var a := [Begin(c)] + ([Send(c, true)] + []);
    NoText(fs[..|fs| - 1]);
    AllDelivered(s, id, 0, fs);
    ClosedFrames(true, fs);
    var t := s.(waiters := s.waiters[0 := AppendAll(s.waiters[0], fs)], got := s.got[0 := s.got[0] + fs]);
    var u := Looks(t, c, id);
    RunsConcat(s, Deliveries(id, fs), [Look(c)], id);
    RunsConcat(Start(callers), a, Deliveries(id, fs) + [Look(c)], id);
    actions := a + (Deliveries(id, fs) + [Look(c)]);
    assert [] + (fs + []) == fs;
    assert "" + fs[|fs| - 1].chunk == fs[|fs| - 1].chunk;
  }

  lemma Looks(t: Session, c: nat, id: string) returns (u: Session)
    requires IsCaller(t, c) && t.callers[c].stream && t.callers[c].stage == Waiting(0) && |t.waiters| == |t.seen| == 1
    requires t.waiters[0].first && t.seen[0].None?
    ensures Runs(t, [Look(c)]) && After(t, [Look(c)]) == u && u == t.(seen := [Some(t.waiters[0].status)]) && Addressed(t, [Look(c)], id) == []
  {
    u := Next(t, Look(c));
    assert Enabled(t, Look(c));
    assert Runs(u, []) && [Look(c)][1..] == [];
  }

  lemma {:induction false} NoText(fs: seq<Frame>)
    requires Chunks(fs) == ""
    ensures forall i :: 0 <= i < |fs| ==> fs[i].chunk == ""
  {
    if fs != [] {
      assert |Chunks(fs)| == |fs[0].chunk| + |Chunks(fs[1..])|;
      NoText(fs[1..]);
      assert forall i :: 1 <= i < |fs| ==> fs[i] == fs[1..][i - 1];
    }
  }

  /** Every answer to the streaming caller `c` has the status 200, whatever the run, if its frames are `fs` or the
      first of them. */
  ghost predicate AlwaysOk(callers: seq<Caller>, c: nat, fs: seq<Frame>)
    requires c < |callers|
  {
    forall actions, w ::
      Runs(Start(callers), actions) && Addressed(Start(callers), actions, callers[c].id) <= fs && Answered(After(Start(callers), actions), c, w)
      ==> ReplyOf(After(Start(callers), actions), w).status == 200
  }

  predicate Answered(s: Session, c: nat, w: nat) {
    w < |s.owner| == |s.waiters| == |s.seen| && s.owner[w] == c && ReplyOf(s, w).Replied?
  }

  /** In every interleaving a streaming job is answered with 200, if and only if its last frame does not say
      otherwise or some frame before it has text. */
  lemma AlwaysOkIff(callers: seq<Caller>, c: nat, fs: seq<Frame>)
    requires AllStarting(callers) && DistinctIds(callers) && c < |callers| && callers[c].stream && Closed(fs)
    ensures AlwaysOk(callers, c, fs) <==> fs[|fs| - 1].status < 400 || Chunks(fs[..|fs| - 1]) != ""
  {
    hide Runs, After, Addressed, ReplyOf, Chunks, HubStatus, HubBody, MayLook;
    StatusOfStream(fs);
    if fs[|fs| - 1].status < 400 || Chunks(fs[..|fs| - 1]) != "" {
      forall actions, w | Runs(Start(callers), actions) && Addressed(Start(callers), actions, callers[c].id) <= fs
                          && Answered(After(Start(callers), actions), c, w)
        ensures ReplyOf(After(Start(callers), actions), w).status == 200 {
        AnswerIsWhole(callers, actions, c, w, fs);
      }
    } else {
      var actions := ErrorMaySeen(callers, c, fs);
      assert Answered(After(Start(callers), actions), c, 0);
    }
  }

  // ---- text after the end ----

  /** A frame with text after the last one is added to an answer that was complete. */
  lemma LateFrameIsAdded(callers: seq<Caller>, c: nat, fs: seq<Frame>, g: Frame) returns (actions: seq<Action>, more: seq<Action>)
    requires AllStarting(callers) && c < |callers| && !callers[c].stream && Closed(fs) && g.chunk != ""
    ensures Runs(Start(callers), actions) && Runs(After(Start(callers), actions), more)
    ensures var s := After(Start(callers), actions);
            var t := After(s, more);
            && Addressed(Start(callers), actions, callers[c].id) == fs && Addressed(s, more, callers[c].id) == [g]
            && |s.waiters| == |t.waiters| == 1 && s.waiters[0].done && t.waiters[0].done
            && Waited(s.waiters[0]) == Body(Chunks(fs)) && Waited(t.waiters[0]) == Body(Chunks(fs) + g.chunk)
  {
    hide Runs, After, Addressed, Chunks, Next, Enabled, AppendAll;
    var id := callers[c].id;
    var s := Asked(callers, c);
    var a := [Begin(c)] + ([Send(c, true)] + []);
    AllDelivered(s, id, 0, fs);
    ClosedFrames(false, fs);
    var t := s.(waiters := s.waiters[0 := AppendAll(s.waiters[0], fs)], got := s.got[0 := s.got[0] + fs]);
    RunsConcat(Start(callers), a, Deliveries(id, fs), id);
    actions := a + Deliveries(id, fs);
    assert [] + fs == fs;
    more := Delivery(id, g);
    Delivers(t, id, 0, g);
  }

  // ---- a reader that is blocked ----

  predicate IsBlocked(s: Session) {
    !s.reader.Idle? && s.reader.w < |s.waiters| == |s.seen| == |s.got| && Blocked(s)
  }

  /** Blocked, and nobody is left who could finish its waiter or read its pipe. */
  ghost predicate Stuck(s: Session) {
    && IsBlocked(s)
    && (forall id :: id in s.jobs ==> s.jobs[id] != s.reader.w)
    && (forall c :: 0 <= c < |s.callers| && s.callers[c].canceller.Found? ==> s.callers[c].canceller.w != s.reader.w)
  }

  lemma StepStuck(s: Session, a: Action)
    requires Kept(s) && Stuck(s) && Enabled(s, a)
    ensures Stuck(Next(s, a)) && Next(s, a).reader == s.reader
  {
    hide Fail, Owned, NoneHangs;
    if a.Look? {
      assert Tabled(s, a.c);
    }
  }

  lemma {:induction false} StaysStuck(s: Session, actions: seq<Action>)
    requires Kept(s) && Stuck(s) && Runs(s, actions)
    ensures After(s, actions).reader == s.reader
    decreases actions
  {
    hide Kept, Stuck, Enabled, Next;
    if actions != [] {
      StepKeeps(s, actions[0]);
      StepStuck(s, actions[0]);
      StaysStuck(Next(s, actions[0]), actions[1..]);
    }
  }

  lemma Unblocks(s: Session)
    requires !s.reader.Idle? && s.reader.w < |s.waiters| == |s.seen| == |s.got| && s.waiters[s.reader.w].done
    requires s.reader.Delivering? && s.reader.next == Section.ToPipe
    ensures Runs(s, [Advance]) && After(s, [Advance]).reader != s.reader
  {
    assert Runs(Next(s, Advance), []) && [Advance][1..] == [];
    assert After(s, [Advance]) == Next(s, Advance);
  }

  lemma Canceled(s: Session, c: nat) returns (more: seq<Action>)
    requires IsBlocked(s) && IsCaller(s, c) && s.callers[c].canceller == Found(s.reader.w)
    ensures Runs(s, more) && After(s, more).reader != s.reader
  {
    hide Runs, After;
    var t := Next(s, Cancel(c));
    Unblocks(t);
    OneStep(s, Cancel(c), [Advance], "");
    more := [Cancel(c)] + [Advance];
  }

  lemma FoundAndCanceled(s: Session, c: nat) returns (more: seq<Action>)
    requires IsBlocked(s) && Unlocked(s) && IsCaller(s, c) && !s.callers[c].stage.Starting? && s.callers[c].canceller.Quiet?
    requires s.callers[c].id in s.jobs && s.jobs[s.callers[c].id] == s.reader.w
    ensures Runs(s, more) && After(s, more).reader != s.reader
  {
    hide Runs, After;
    var t := Next(s, FindToCancel(c));
    var rest := Canceled(t, c);
    OneStep(s, FindToCancel(c), rest, "");
    more := [FindToCancel(c)] + rest;
  }

  lemma Swept1(s: Session, id: string) returns (more: seq<Action>)
    requires IsBlocked(s) && s.closing.Sweeping? && id in s.jobs && s.jobs[id] == s.reader.w
    ensures Runs(s, more) && After(s, more).reader != s.reader
  {
    hide Runs, After;
    var t := Next(s, SweepOne(id, ""));
    Unblocks(t);
    OneStep(s, SweepOne(id, ""), [Advance], "");
    more := [SweepOne(id, "")] + [Advance];
  }

  /** As long as its job is in the table, the reader can be freed: by closing, or by cancelling the job. */
  lemma Freed(s: Session, id: string) returns (more: seq<Action>)
    requires Kept(s) && IsBlocked(s) && id in s.jobs && s.jobs[id] == s.reader.w
    ensures Runs(s, more) && After(s, more).reader != s.reader
  {
    hide Runs, After;
    if s.closing.Sweeping? {
      more := Swept1(s, id);
    } else {
      assert Owned(s, id);
      var c :| 0 <= c < |s.callers| && s.callers[c].id == id && HasWaiter(s.callers[c]);
      if s.callers[c].canceller.Quiet? {
        more := FoundAndCanceled(s, c);
      } else if s.callers[c].canceller.w == s.reader.w {
        more := Canceled(s, c);
      } else {
        var t := Next(s, Cancel(c));
        var rest := FoundAndCanceled(t, c);
        OneStep(s, Cancel(c), rest, "");
        more := [Cancel(c)] + rest;
      }
    }
  }

  /** In every run with distinct ids: a reader that waits for somebody to read the pipe of a job waits for good, and
      reads nothing for any other job, if and only if that job has left the table and no cancellation
      holds it. */
  lemma StuckIff(callers: seq<Caller>, actions: seq<Action>)
    requires AllStarting(callers) && DistinctIds(callers) && Runs(Start(callers), actions) && IsBlocked(After(Start(callers), actions))
    ensures var s := After(Start(callers), actions);
            (forall more :: Runs(s, more) ==> After(s, more).reader == s.reader) <==> Stuck(s)
  {
    var s := After(Start(callers), actions);
    assert !s.reader.Idle?;
    hide Runs, After, Kept, IsBlocked;
    StartKept(callers);
    RunKeeps(Start(callers), actions);
    if Stuck(s) {
      forall more | Runs(s, more) ensures After(s, more).reader == s.reader {
        StaysStuck(s, more);
      }
    } else if id :| id in s.jobs && s.jobs[id] == s.reader.w {
      var more := Freed(s, id);
    } else {
      var c :| 0 <= c < |s.callers| && s.callers[c].canceller.Found? && s.callers[c].canceller.w == s.reader.w;
      var more := Canceled(s, c);
    }
  }

  /** It happens when a streaming caller gives up between the first frame with text and its look: it leaves the
      table, its pipe stays open, and nobody reads it. */
  lemma GivingUpBlocks(callers: seq<Caller>, c: nat, f: Frame) returns (actions: seq<Action>)
    requires AllStarting(callers) && c < |callers| && callers[c].stream && f.chunk != "" && !(f.final && f.status >= 400)
    ensures Runs(Start(callers), actions) && Stuck(After(Start(callers), actions))
  {
    hide Runs, After, Addressed;
    var id := callers[c].id;
    var s := Asked(callers, c);
    var t := TakesAndLeaves(s, c, f);
    var s1 := Next(s, Read(id, f));
    var s2 := Next(s1, Advance);
    var s3 := Next(s2, Advance);
    var s4 := Next(s3, Abandon(c));
    NoSteps(t, id);
    OneStep(s4, End(c), [], id);
    OneStep(s3, Abandon(c), [End(c)] + [], id);
    OneStep(s2, Advance, [Abandon(c)] + ([End(c)] + []), id);
    OneStep(s1, Advance, [Advance] + ([Abandon(c)] + ([End(c)] + [])), id);
    var rest := [Read(id, f)] + ([Advance] + ([Advance] + ([Abandon(c)] + ([End(c)] + []))));
    OneStep(s, Read(id, f), [Advance] + ([Advance] + ([Abandon(c)] + ([End(c)] + []))), id);
    var a := [Begin(c)] + ([Send(c, true)] + []);
    RunsConcat(Start(callers), a, rest, id);
    actions := a + rest;
  }

  lemma TakesAndLeaves(s: Session, c: nat, f: Frame) returns (t: Session)
    requires IsCaller(s, c) && s.callers[c].stage == Waiting(0) && s.callers[c].stream && s.closing.Open?
    requires var id := s.callers[c].id; Ready(s, id, 0) && s.jobs == map[id := 0] && s.waiters == [Fresh(true)] && s.seen == [None]
    requires forall d :: 0 <= d < |s.callers| ==> s.callers[d].canceller.Quiet?
    requires f.chunk != "" && !(f.final && f.status >= 400)
    ensures var id := s.callers[c].id;
            && Enabled(s, Read(id, f)) && Enabled(Next(s, Read(id, f)), Advance)
            && Enabled(Next(Next(s, Read(id, f)), Advance), Advance)
            && var s3 := Next(Next(Next(s, Read(id, f)), Advance), Advance);
               Enabled(s3, Abandon(c)) && Enabled(Next(s3, Abandon(c)), End(c)) && t == Next(Next(s3, Abandon(c)), End(c))
    ensures Stuck(t)
  {
    var id := s.callers[c].id;
    var s1 := Next(s, Read(id, f));
    assert s1 == s.(reader := Delivering(0, f, ToTake));
    TakeKeeps(Fresh(true), f);
    hide Take, Signal;
    var s2 := Next(s1, Advance);
    assert s2 == s.(waiters := [Take(Fresh(true), f)], reader := Delivering(0, f, ToSignal));
    var s3 := Next(s2, Advance);
    assert s3 == s.(waiters := [Signal(Take(Fresh(true), f))], reader := Delivering(0, f, Section.ToPipe));
    t := Leaves(s3, c);
  }

  lemma Leaves(s: Session, c: nat) returns (t: Session)
    requires IsCaller(s, c) && s.callers[c].stage == Waiting(0) && s.jobs == map[s.callers[c].id := 0] && Unlocked(s)
    requires IsBlocked(s) && forall d :: 0 <= d < |s.callers| ==> s.callers[d].canceller.Quiet?
    ensures Enabled(s, Abandon(c)) && Enabled(Next(s, Abandon(c)), End(c)) && t == Next(Next(s, Abandon(c)), End(c))
    ensures Stuck(t)
  {
    t := Next(Next(s, Abandon(c)), End(c));
    assert t.jobs == map[];
  }
}
