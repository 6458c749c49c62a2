/** The jobs of one hub session: callers, the reader of the connection, cancellers and closers, step by
    step between locks, in every interleaving. A step is what a thread does while it holds a lock. */
module JobSession {
  import opened Wire
  import opened JobWaiter

  /** Where a call of ExecuteJob is; `w` is its waiter. */
  datatype Stage = Starting | Begun(w: nat) | Waiting(w: nat) | Leaving(w: nat) | Over

  /** A cancellation that has found the waiter and is about to fail it. */
  datatype Canceller = Quiet | Found(w: nat)

  datatype Caller = Caller(id: string, stream: bool, stage: Stage, canceller: Canceller)

  /** What the reader does next with the frame it is delivering. */
  datatype Section = ToTake | ToSignal | ToPipe | ToFinish

  datatype Reader = Idle | Delivering(w: nat, f: Frame, next: Section) | Failing(w: nat, e: string)

  /** closeWithReason: the closed flag, then failAllJobs under the jobs lock. */
  datatype Closing = Open | Flagged | Sweeping | Swept

  /** Of each waiter: the frames delivered to it, the caller it was made for, and the status that caller saw
      when it looked, which a streaming one does after the first frame. */
  datatype Session = Session(closing: Closing, jobs: map<string, nat>, waiters: seq<Waiter>, got: seq<seq<Frame>>,
                             owner: seq<nat>, seen: seq<Option<int>>, callers: seq<Caller>, reader: Reader)

  datatype Action =
    | Begin(c: nat)                    // beginJob
    | Send(c: nat, up: bool)           // SendJob; refused once closed
    | GiveUp(c: nat)                   // the context was done before sending
    | Look(c: nat)                     // a streaming caller, once there is a first frame: responseStatus
    | Wake(c: nat)                     // the waiter is done
    | Abandon(c: nat)                  // the context is done while waiting
    | End(c: nat)                      // endJob
    | FindToCancel(c: nat)             // cancelJob, the lookup
    | Cancel(c: nat)                   // cancelJob, the failure
    | Read(id: string, f: Frame)       // deliverResult, the lookup
    | ReadError(id: string, e: string) // deliverError, the lookup
    | Advance                          // the reader's next section
    | Flag                             // the first to close sets the flag
    | StartSweep                       // failAllJobs takes the jobs lock
    | SweepOne(id: string, e: string)
    | EndSweep

  /** The jobs lock is free. */
  predicate Unlocked(s: Session) {
    !s.closing.Sweeping?
  }

  predicate IsCaller(s: Session, c: nat) {
    c < |s.callers|
  }

  /** The pipe of a streaming job holds the reader until its caller reads, which it does unless it saw an error. */
  predicate Blocked(s: Session)
    requires !s.reader.Idle? && s.reader.w < |s.waiters| == |s.seen|
  {
    var w := s.reader.w;
    && s.reader.Delivering? && s.reader.next == Section.ToPipe && JobWaiter.ToPipe(s.waiters[w], s.reader.f)
    && !s.waiters[w].done && !(s.seen[w].Some? && s.seen[w].value < 400)
  }

  predicate Enabled(s: Session, a: Action) {
    match a
    case Begin(c) => IsCaller(s, c) && s.callers[c].stage.Starting? && Unlocked(s)
    case Send(c, _) => IsCaller(s, c) && s.callers[c].stage.Begun?
    case GiveUp(c) => IsCaller(s, c) && s.callers[c].stage.Begun?
    case Look(c) =>
      && IsCaller(s, c) && s.callers[c].stream && s.callers[c].stage.Waiting? && s.callers[c].stage.w < |s.waiters| == |s.seen|
      && s.waiters[s.callers[c].stage.w].first && s.seen[s.callers[c].stage.w].None?
    case Wake(c) => IsCaller(s, c) && s.callers[c].stage.Waiting? && s.callers[c].stage.w < |s.waiters| && s.waiters[s.callers[c].stage.w].done
    case Abandon(c) => IsCaller(s, c) && s.callers[c].stage.Waiting?
    case End(c) => IsCaller(s, c) && s.callers[c].stage.Leaving? && Unlocked(s)
    case FindToCancel(c) => IsCaller(s, c) && s.callers[c].canceller.Quiet? && !s.callers[c].stage.Starting? && Unlocked(s)
    case Cancel(c) => IsCaller(s, c) && s.callers[c].canceller.Found? && s.callers[c].canceller.w < |s.waiters|
    case Read(_, _) => s.reader.Idle? && Unlocked(s)
    case ReadError(_, _) => s.reader.Idle? && Unlocked(s)
    case Advance => !s.reader.Idle? && s.reader.w < |s.waiters| == |s.got| == |s.seen| && !Blocked(s)
    case Flag => s.closing.Open?
    case StartSweep => s.closing.Flagged?
    case SweepOne(id, _) => s.closing.Sweeping? && id in s.jobs && s.jobs[id] < |s.waiters|
    case EndSweep => s.closing.Sweeping? && s.jobs == map[]
  }

  function SetStage(s: Session, c: nat, stage: Stage): Session
    requires IsCaller(s, c)
  {
    s.(callers := s.callers[c := s.callers[c].(stage := stage)])
  }

  function SetCanceller(s: Session, c: nat, k: Canceller): Session
    requires IsCaller(s, c)
  {
    s.(callers := s.callers[c := s.callers[c].(canceller := k)])
  }

  function SetWaiter(s: Session, w: nat, v: Waiter): Session
    requires w < |s.waiters|
  {
    s.(waiters := s.waiters[w := v])
  }

  /** The reader's sections of appendChunk. */
  function ReaderStep(s: Session): Session
    requires Enabled(s, Advance)
  {
    var w := s.reader.w;
    var v := s.waiters[w];
    match s.reader
    case Failing(_, e) => SetWaiter(s, w, Fail(v, e)).(reader := Idle)
    case Delivering(_, f, ToTake) =>
      if v.err.Some? then s.(reader := Idle)
      else SetWaiter(s, w, Take(v, f)).(reader := Delivering(w, f, ToSignal))
    case Delivering(_, f, ToSignal) => SetWaiter(s, w, Signal(v)).(reader := Delivering(w, f, Section.ToPipe))
    case Delivering(_, f, ToPipe) =>
      SetWaiter(s, w, if JobWaiter.ToPipe(v, f) then Pipe(v, f.chunk) else v).(reader := Delivering(w, f, ToFinish))
    case Delivering(_, f, ToFinish) =>
      SetWaiter(s, w, if f.final then Conclude(v) else v).(reader := Idle, got := s.got[w := s.got[w] + [f]])
  }

  function Next(s: Session, a: Action): Session
    requires Enabled(s, a)
  {
    match a
    case Begin(c) =>
      var w := |s.waiters|;
      SetStage(s, c, Begun(w)).(jobs := s.jobs[s.callers[c].id := w], waiters := s.waiters + [Fresh(s.callers[c].stream)],
                                     got := s.got + [[]], owner := s.owner + [c], seen := s.seen + [None])
    case Send(c, up) =>
      var w := s.callers[c].stage.w;
      SetStage(s, c, if up && s.closing.Open? then Waiting(w) else Leaving(w))
    case GiveUp(c) => SetStage(s, c, Leaving(s.callers[c].stage.w))
    case Look(c) => s.(seen := s.seen[s.callers[c].stage.w := Some(s.waiters[s.callers[c].stage.w].status)])
    case Wake(c) => SetStage(s, c, Leaving(s.callers[c].stage.w))
    case Abandon(c) => SetStage(s, c, Leaving(s.callers[c].stage.w))
    case End(c) => SetStage(s, c, Over).(jobs := s.jobs - {s.callers[c].id})
    case FindToCancel(c) => if s.callers[c].id in s.jobs then SetCanceller(s, c, Found(s.jobs[s.callers[c].id])) else s
    case Cancel(c) =>
      var w := s.callers[c].canceller.w;
      SetWaiter(SetCanceller(s, c, Quiet), w, Fail(s.waiters[w], "cascade job canceled"))
    case Read(id, f) => if id in s.jobs then s.(reader := Delivering(s.jobs[id], f, ToTake)) else s
    case ReadError(id, e) => if id in s.jobs then s.(reader := Failing(s.jobs[id], e)) else s
    case Advance => ReaderStep(s)
    case Flag => s.(closing := Flagged)
    case StartSweep => s.(closing := Sweeping)
    case SweepOne(id, e) =>
      var w := s.jobs[id];
      SetWaiter(s, w, Fail(s.waiters[w], e)).(jobs := s.jobs - {id})
    case EndSweep => s.(closing := Swept)
  }

  /** A run: every action is possible when it is taken. */
  predicate Runs(s: Session, actions: seq<Action>)
    decreases actions
  {
    actions == [] || (Enabled(s, actions[0]) && Runs(Next(s, actions[0]), actions[1..]))
  }

  function After(s: Session, actions: seq<Action>): Session
    requires Runs(s, actions)
    decreases actions
  {
    if actions == [] then s else After(Next(s, actions[0]), actions[1..])
  }

  predicate AllStarting(callers: seq<Caller>) {
    forall c :: 0 <= c < |callers| ==> callers[c].stage.Starting? && callers[c].canceller.Quiet?
  }

  function Start(callers: seq<Caller>): Session {
    Session(Open, map[], [], [], [], [], callers, Idle)
  }

  predicate DistinctIds(callers: seq<Caller>) {
    forall c, d :: 0 <= c < d < |callers| ==> callers[c].id != callers[d].id
  }

  // ---- what every step keeps ----

  predicate HasWaiter(c: Caller) {
    c.stage.Begun? || c.stage.Waiting? || c.stage.Leaving?
  }

  /** References lead to waiters. */
  ghost predicate Referenced(s: Session) {
    && |s.got| == |s.owner| == |s.seen| == |s.waiters|
    && (forall id :: id in s.jobs ==> s.jobs[id] < |s.waiters|)
    && (forall c :: 0 <= c < |s.callers| && HasWaiter(s.callers[c]) ==> s.callers[c].stage.w < |s.waiters|)
    && (forall c :: 0 <= c < |s.callers| && s.callers[c].canceller.Found? ==> s.callers[c].canceller.w < |s.waiters|)
    && (!s.reader.Idle? ==> s.reader.w < |s.waiters|)
    && (forall w :: 0 <= w < |s.waiters| ==> Sane(s.waiters[w]))
  }

  /** The waiter of a caller that is not on its way out is in the table, or done. */
  ghost predicate Tabled(s: Session, c: nat)
    requires IsCaller(s, c)
  {
    var k := s.callers[c];
    (k.stage.Begun? || k.stage.Waiting?) && k.stage.w < |s.waiters| ==>
      (k.id in s.jobs && s.jobs[k.id] == k.stage.w) || s.waiters[k.stage.w].done
  }

  /** Table entries belong to callers that have not ended. */
  ghost predicate Owned(s: Session, id: string)
    requires id in s.jobs
  {
    exists c :: 0 <= c < |s.callers| && s.callers[c].id == id && HasWaiter(s.callers[c])
  }

  ghost predicate Kept(s: Session) {
    && Referenced(s) && DistinctIds(s.callers)
    && (forall c :: 0 <= c < |s.callers| ==> Tabled(s, c))
    && (forall id :: id in s.jobs ==> Owned(s, id))
    && (s.closing.Swept? ==> NoneHangs(s))
  }

  /** Every caller that waits has a waiter that is done. */
  predicate NoneHangs(s: Session) {
    forall c :: 0 <= c < |s.callers| ==> Served(s, c)
  }

  predicate Served(s: Session, c: nat)
    requires IsCaller(s, c)
  {
    var k := s.callers[c];
    k.stage.Waiting? && k.stage.w < |s.waiters| ==> s.waiters[k.stage.w].done
  }

  lemma StartKept(callers: seq<Caller>)
    requires AllStarting(callers) && DistinctIds(callers)
    ensures Kept(Start(callers))
  {
  }

  /** A step on one waiter that may make it done, and nothing else. */
  lemma WaiterStep(s: Session, t: Session, w: nat)
    requires Kept(s) && w < |s.waiters| == |t.waiters| == |t.got|
    requires t == s.(waiters := t.waiters, got := t.got, reader := t.reader)
    requires !t.reader.Idle? ==> t.reader.w < |t.waiters|
    requires forall v :: 0 <= v < |s.waiters| && v != w ==> t.waiters[v] == s.waiters[v]
    requires Sane(t.waiters[w]) && (s.waiters[w].done ==> t.waiters[w].done)
    ensures Kept(t)
  {
    forall c | 0 <= c < |t.callers| ensures Tabled(t, c) {
      assert Tabled(s, c);
    }
    forall id | id in t.jobs ensures Owned(t, id) {
      assert Owned(s, id);
    }
    if s.closing.Swept? {
      forall c | 0 <= c < |t.callers| ensures Served(t, c) {
        assert Served(s, c);
      }
    }
  }

  /** A caller moves on with the waiter it has; it waits only while the session is open. */
  lemma MoveStep(s: Session, c: nat, stage: Stage)
    requires Kept(s) && IsCaller(s, c) && HasWaiter(s.callers[c]) && !stage.Starting? && !stage.Over?
    requires stage.w == s.callers[c].stage.w
    requires stage.Begun? ==> s.callers[c].stage.Begun?
    requires stage.Waiting? ==> s.closing.Open? && s.callers[c].stage.Begun?
    ensures Kept(SetStage(s, c, stage))
  {
    var t := SetStage(s, c, stage);
    forall d | 0 <= d < |t.callers| ensures Tabled(t, d) {
      assert Tabled(s, d);
    }
    forall id | id in t.jobs ensures Owned(t, id) {
      assert Owned(s, id);
      var d :| 0 <= d < |s.callers| && s.callers[d].id == id && HasWaiter(s.callers[d]);
      assert t.callers[d].id == id && HasWaiter(t.callers[d]);
    }
    if s.closing.Swept? {
      forall d | 0 <= d < |t.callers| ensures Served(t, d) {
        assert Served(s, d);
      }
    }
  }

  lemma BeginStep(s: Session, c: nat)
    requires Kept(s) && Enabled(s, Begin(c))
    ensures Kept(Next(s, Begin(c)))
  {
    var t := Next(s, Begin(c));
    forall d | 0 <= d < |t.callers| ensures Tabled(t, d) {
      assert Tabled(s, d);
      assert d != c ==> t.callers[d].id != t.callers[c].id by {
        assert d != c ==> s.callers[if d < c then d else c].id != s.callers[if d < c then c else d].id;
      }
    }
    forall id | id in t.jobs ensures Owned(t, id) {
      if id == s.callers[c].id {
        assert t.callers[c].id == id && HasWaiter(t.callers[c]);
      } else {
        assert Owned(s, id);
        var d :| 0 <= d < |s.callers| && s.callers[d].id == id && HasWaiter(s.callers[d]);
        assert t.callers[d].id == id && HasWaiter(t.callers[d]);
      }
    }
    if s.closing.Swept? {
      forall d | 0 <= d < |t.callers| ensures Served(t, d) {
        assert Served(s, d);
      }
    }
  }

  lemma EndStep(s: Session, c: nat)
    requires Kept(s) && Enabled(s, End(c))
    ensures Kept(Next(s, End(c)))
  {
    var t := Next(s, End(c));
    forall d | 0 <= d < |t.callers| ensures Tabled(t, d) {
      assert Tabled(s, d);
      assert d != c ==> s.callers[if d < c then d else c].id != s.callers[if d < c then c else d].id;
    }
    forall id | id in t.jobs ensures Owned(t, id) {
      assert Owned(s, id);
      var d :| 0 <= d < |s.callers| && s.callers[d].id == id && HasWaiter(s.callers[d]);
      assert t.callers[d].id == id && HasWaiter(t.callers[d]);
    }
    if s.closing.Swept? {
      forall d | 0 <= d < |t.callers| ensures Served(t, d) {
        assert Served(s, d);
      }
    }
  }

  /** Only the closing phase changes. */
  lemma ClosingStep(s: Session, closing: Closing)
    requires Kept(s) && (closing.Swept? ==> s.jobs == map[])
    ensures Kept(s.(closing := closing))
  {
    var t := s.(closing := closing);
    forall d | 0 <= d < |t.callers| ensures Tabled(t, d) && (closing.Swept? ==> Served(t, d)) {
      assert Tabled(s, d);
    }
    forall id | id in t.jobs ensures Owned(t, id) {
      assert Owned(s, id);
    }
  }

  /** Only what has been seen changes. */
  lemma LookStep(s: Session, seen: seq<Option<int>>)
    requires Kept(s) && |seen| == |s.seen|
    ensures Kept(s.(seen := seen))
  {
    var t := s.(seen := seen);
    forall d | 0 <= d < |t.callers| ensures Tabled(t, d) && (s.closing.Swept? ==> Served(t, d)) {
      assert Tabled(s, d);
      assert s.closing.Swept? ==> Served(s, d);
    }
    forall id | id in t.jobs ensures Owned(t, id) {
      assert Owned(s, id);
    }
  }

  lemma SweepStep(s: Session, id: string, e: string)
    requires Kept(s) && Enabled(s, SweepOne(id, e))
    ensures Kept(Next(s, SweepOne(id, e)))
  {
    var t := Next(s, SweepOne(id, e));
    forall d | 0 <= d < |t.callers| ensures Tabled(t, d) {
      assert Tabled(s, d);
    }
    forall j | j in t.jobs ensures Owned(t, j) {
      assert Owned(s, j);
    }
  }

  /** Only a canceller or the reader changes what it has found. */
  lemma FoundStep(s: Session, t: Session)
    requires Kept(s) && t == s.(callers := t.callers, reader := t.reader) && |t.callers| == |s.callers|
    requires forall c :: 0 <= c < |s.callers| ==> t.callers[c] == s.callers[c].(canceller := t.callers[c].canceller)
    requires forall c :: 0 <= c < |t.callers| && t.callers[c].canceller.Found? ==> t.callers[c].canceller.w < |s.waiters|
    requires !t.reader.Idle? ==> t.reader.w < |s.waiters|
    ensures Kept(t)
  {
    forall d | 0 <= d < |t.callers| ensures Tabled(t, d) && (s.closing.Swept? ==> Served(t, d)) {
      assert Tabled(s, d);
      assert s.closing.Swept? ==> Served(s, d);
    }
    forall id | id in t.jobs ensures Owned(t, id) {
      assert Owned(s, id);
      var d :| 0 <= d < |s.callers| && s.callers[d].id == id && HasWaiter(s.callers[d]);
      assert t.callers[d].id == id && HasWaiter(t.callers[d]);
    }
  }

  lemma CancelStep(s: Session, c: nat)
    requires Kept(s) && Enabled(s, Cancel(c))
    ensures Kept(Next(s, Cancel(c)))
  {
    hide Kept, Referenced;
    ReferencedIn(s);
    var w := s.callers[c].canceller.w;
    var q := SetCanceller(s, c, Quiet);
    FoundStep(s, q);
    WaiterStep(q, Next(s, Cancel(c)), w);
  }

  lemma ReferencedIn(s: Session)
    requires Kept(s)
    ensures |s.got| == |s.owner| == |s.seen| == |s.waiters|
    ensures forall c :: 0 <= c < |s.callers| && s.callers[c].canceller.Found? ==> s.callers[c].canceller.w < |s.waiters|
    ensures !s.reader.Idle? ==> s.reader.w < |s.waiters|
    ensures forall w :: 0 <= w < |s.waiters| ==> Sane(s.waiters[w])
    ensures forall id :: id in s.jobs ==> s.jobs[id] < |s.waiters|
  {
  }

  lemma AdvanceStep(s: Session)
    requires Kept(s) && Enabled(s, Advance)
    ensures Kept(Next(s, Advance))
  {
    hide Kept, Referenced;
    ReferencedIn(s);
    WaiterStep(s, ReaderStep(s), s.reader.w);
  }

  /** Every step keeps all of it. */
  lemma StepKeeps(s: Session, a: Action)
    requires Kept(s) && Enabled(s, a)
    ensures Kept(Next(s, a))
  {
    hide Kept, ReaderStep;
    ReferencedIn(s);
    match a
    case Begin(c) => BeginStep(s, c);
    case Send(c, up) => MoveStep(s, c, if up && s.closing.Open? then Waiting(s.callers[c].stage.w) else Leaving(s.callers[c].stage.w));
    case GiveUp(c) => MoveStep(s, c, Leaving(s.callers[c].stage.w));
    case Look(c) => LookStep(s, Next(s, a).seen);
    case Wake(c) => MoveStep(s, c, Leaving(s.callers[c].stage.w));
    case Abandon(c) => MoveStep(s, c, Leaving(s.callers[c].stage.w));
    case End(c) => EndStep(s, c);
    case FindToCancel(c) => FoundStep(s, Next(s, a));
    case Cancel(c) => CancelStep(s, c);
    case Read(_, _) => FoundStep(s, Next(s, a));
    case ReadError(_, _) => FoundStep(s, Next(s, a));
    case Advance => AdvanceStep(s);
    case Flag => ClosingStep(s, Flagged);
    case StartSweep => ClosingStep(s, Sweeping);
    case SweepOne(id, e) => SweepStep(s, id, e);
    case EndSweep => ClosingStep(s, Swept);
  }

  lemma {:induction false} RunKeeps(s: Session, actions: seq<Action>)
    requires Kept(s) && Runs(s, actions)
    ensures Kept(After(s, actions))
    decreases actions
  {
    hide Kept, Enabled, Next;
    if actions != [] {
      StepKeeps(s, actions[0]);
      RunKeeps(Next(s, actions[0]), actions[1..]);
    }
  }

  // ---- the results ----

  /** No job is left hanging: in every interleaving, once the session has failed its jobs, a caller
      either has a waiter that is done, or has not sent its job yet and will be refused. When all
      callers are through, the table is empty. */
  lemma NoJobLeftHanging(callers: seq<Caller>, actions: seq<Action>)
    requires AllStarting(callers) && DistinctIds(callers) && Runs(Start(callers), actions)
    ensures var s := After(Start(callers), actions);
            && (s.closing.Swept? ==> forall c :: 0 <= c < |s.callers| && s.callers[c].stage.Waiting? ==> Enabled(s, Wake(c)))
            && (s.closing.Swept? ==> forall c, up :: 0 <= c < |s.callers| && s.callers[c].stage.Begun? ==> Next(s, Send(c, up)).callers[c].stage.Leaving?)
            && ((forall c :: 0 <= c < |s.callers| ==> s.callers[c].stage.Over?) ==> s.jobs == map[])
  {
    StartKept(callers);
    RunKeeps(Start(callers), actions);
    var s := After(Start(callers), actions);
    assert Kept(s);
    if s.closing.Swept? {
      forall c | 0 <= c < |s.callers| && s.callers[c].stage.Waiting? ensures Enabled(s, Wake(c)) {
        assert Served(s, c);
      }
    }
    if forall c :: 0 <= c < |s.callers| ==> s.callers[c].stage.Over? {
      assert forall id :: id in s.jobs ==> Owned(s, id);
      assert s.jobs.Keys == {};
    }
  }

  // ---- outcomes ----

  /** What happens to one waiter in a step: nothing, or one of its sections. */
  lemma WaiterMoves(s: Session, a: Action, w: nat)
    requires Referenced(s) && Enabled(s, a) && w < |s.waiters|
    ensures var t := Next(s, a);
            w < |t.waiters| && (t.waiters[w] == s.waiters[w] || exists op :: t.waiters[w] == Apply(s.waiters[w], op))
  {
    hide Fail, ReaderStep;
    var v := s.waiters[w];
    match a
    case Cancel(c) => assert Fail(v, "cascade job canceled") == Apply(v, FailOp("cascade job canceled"));
    case SweepOne(_, e) => assert Fail(v, e) == Apply(v, FailOp(e));
    case Advance => AdvanceMoves(s, w);
    case _ =>
  }

  lemma AdvanceMoves(s: Session, w: nat)
    requires Enabled(s, Advance) && w < |s.waiters|
    ensures var t := ReaderStep(s);
            w < |t.waiters| && (t.waiters[w] == s.waiters[w] || exists op :: t.waiters[w] == Apply(s.waiters[w], op))
  {
    hide Take, Fail, Pipe, Conclude, Signal;
    var v := s.waiters[w];
    match s.reader
    case Failing(_, e) => assert Fail(v, e) == Apply(v, FailOp(e));
    case Delivering(_, f, n) =>
      match n {
        case ToTake => assert Take(v, f) == Apply(v, TakeOp(f));
        case ToSignal => assert Signal(v) == Apply(v, SignalOp);
        case ToPipe => assert Pipe(v, f.chunk) == Apply(v, PipeOp(f.chunk));
        case ToFinish => assert Conclude(v) == Apply(v, FinishOp);
      }
  }

  lemma OneOp(w: Waiter, op: Op)
    ensures ApplyAll(w, [op]) == Apply(w, op)
  {
    hide Apply;
    assert ApplyAll(Apply(w, op), [op][1..]) == Apply(w, op);
  }

  /** Between any two points of any run, a waiter that is done keeps its error and its piped text, and one that
      failed keeps everything. */
  lemma {:induction false} OutcomeIsFixed(s: Session, actions: seq<Action>, w: nat)
    requires Kept(s) && Runs(s, actions) && w < |s.waiters| && s.waiters[w].done
    ensures var t := After(s, actions);
            w < |t.waiters| && t.waiters[w].done && t.waiters[w].err == s.waiters[w].err && t.waiters[w].piped == s.waiters[w].piped
            && (s.waiters[w].err.Some? ==> Waited(t.waiters[w]) == Waited(s.waiters[w]) && t.waiters[w].status == s.waiters[w].status)
    decreases actions
  {
    hide Enabled, Next, Apply, Referenced;
    if actions != [] {
      var t := Next(s, actions[0]);
      StepKeeps(s, actions[0]);
      WaiterMoves(s, actions[0], w);
      ReferencedIn(s);
      if t.waiters[w] != s.waiters[w] {
        var op :| t.waiters[w] == Apply(s.waiters[w], op);
        OutcomeStays(s.waiters[w], [op]);
        OneOp(s.waiters[w], op);
      }
      OutcomeIsFixed(t, actions[1..], w);
    }
  }

  // ---- frames are delivered as if nobody interrupted ----

  /** Appending a frame, up to before the given section. */
  function Partly(w: Waiter, f: Frame, next: Section): Waiter {
    match next
    case ToTake => w
    case ToSignal => Take(w, f)
    case ToPipe => Signal(Take(w, f))
    case ToFinish => if JobWaiter.ToPipe(w, f) then Pipe(Signal(Take(w, f)), f.chunk) else Signal(Take(w, f))
  }

  /** The waiter with the frames it got, and the part of the frame that is under way. */
  function Told(s: Session, w: nat): Waiter
    requires w < |s.waiters| == |s.got|
  {
    var v := AppendAll(Fresh(s.waiters[w].stream), s.got[w]);
    if s.reader.Delivering? && s.reader.w == w then Partly(v, s.reader.f, s.reader.next) else v
  }

  ghost predicate AsTold(s: Session) {
    |s.waiters| == |s.got| && forall w :: 0 <= w < |s.waiters| && s.waiters[w].err.None? ==> s.waiters[w] == Told(s, w)
  }

  lemma AppendOne(w: Waiter, fs: seq<Frame>, f: Frame)
    ensures AppendAll(w, fs + [f]) == Append(AppendAll(w, fs), f)
  {
    hide Append;
    AppendConcat(w, fs, [f]);
    var v := AppendAll(w, fs);
    assert AppendAll(Append(v, f), [f][1..]) == Append(v, f);
  }

  lemma SectionsAppend(w: Waiter, f: Frame)
    requires w.err.None?
    ensures Append(w, f) == (var b := Partly(w, f, ToFinish); if f.final then Conclude(b) else b)
    ensures Partly(w, f, ToSignal).err.None? && Partly(w, f, ToFinish).err.None?
    ensures Partly(w, f, ToSignal).stream == Partly(w, f, ToFinish).stream == w.stream
  {
  }

  lemma ToldNone(w: nat, s: Session)
    requires w < |s.waiters| == |s.got| && s.waiters[w] == Told(s, w) && s.waiters[w].err.None?
    ensures AppendAll(Fresh(s.waiters[w].stream), s.got[w]).err.None?
  {
    hide AppendAll;
  }

  lemma DeliverTold(s: Session, w: nat)
    requires AsTold(s) && Enabled(s, Advance) && s.reader.Delivering? && w < |s.waiters| && ReaderStep(s).waiters[w].err.None?
    ensures ReaderStep(s).waiters[w] == Told(ReaderStep(s), w)
  {
    hide AppendAll, Append, Partly, Take, Signal, Pipe, Conclude;
    TakesKeepNone(s.waiters[s.reader.w], s.reader.f);
    if w == s.reader.w {
      DeliverHere(s);
    }
  }

  lemma DeliverHere(s: Session)
    requires AsTold(s) && Enabled(s, Advance) && s.reader.Delivering? && ReaderStep(s).waiters[s.reader.w].err.None?
    ensures ReaderStep(s).waiters[s.reader.w] == Told(ReaderStep(s), s.reader.w)
  {
    hide AppendAll, Append, Partly, Take, Signal, Pipe, Conclude;
    var w, f := s.reader.w, s.reader.f;
    var start := Fresh(s.waiters[w].stream);
    TakesKeepNone(s.waiters[w], f);
    assert s.waiters[w] == Told(s, w) && s.waiters[w].err.None?;
    ToldNone(w, s);
    SectionsAppend(AppendAll(start, s.got[w]), f);
    SectionsOf(AppendAll(start, s.got[w]), f);
    AppendOne(start, s.got[w], f);
  }

  lemma TakesKeepNone(w: Waiter, f: Frame)
    ensures Take(w, f).err == w.err && Signal(w).err == w.err && Pipe(w, f.chunk).err == w.err && Conclude(w).err == w.err
    ensures Take(w, f).stream == w.stream && Signal(w).stream == w.stream && Pipe(w, f.chunk).stream == w.stream && Conclude(w).stream == w.stream
  {
  }

  lemma SectionsOf(w: Waiter, f: Frame)
    ensures Partly(w, f, ToTake) == w && Partly(w, f, ToSignal) == Take(w, f)
    ensures Partly(w, f, Section.ToPipe) == Signal(Take(w, f))
    ensures var b := Partly(w, f, Section.ToPipe);
            Partly(w, f, ToFinish) == if JobWaiter.ToPipe(b, f) then Pipe(b, f.chunk) else b
  {
  }

  lemma StepTold(s: Session, a: Action)
    requires AsTold(s) && Referenced(s) && Enabled(s, a)
    ensures AsTold(Next(s, a))
  {
    hide AppendAll, Append, Partly, Take, Signal, Pipe, Conclude, ReaderStep;
    var t := Next(s, a);
    assert |t.waiters| == |t.got| by { ReaderKeepsLengths(s); }
    forall w | 0 <= w < |t.waiters| && t.waiters[w].err.None? ensures t.waiters[w] == Told(t, w) {
      match a
      case Advance =>
        ReaderKeepsLengths(s);
        if s.reader.Delivering? { DeliverTold(s, w); } else { FailTold(s, w); }
      case Begin(c) =>
        if w == |s.waiters| { NothingTold(s.callers[c].stream); }
      case Cancel(c) => FailsSet(s.waiters[s.callers[c].canceller.w], "cascade job canceled");
      case SweepOne(id, e) => FailsSet(s.waiters[s.jobs[id]], e);
      case Read(id, f) => if id in s.jobs { SectionsOf(AppendAll(Fresh(s.waiters[w].stream), s.got[w]), f); }
      case _ =>
    }
  }

  lemma ReaderKeepsLengths(s: Session)
    ensures Enabled(s, Advance) ==> |ReaderStep(s).waiters| == |s.waiters| && |ReaderStep(s).got| == |s.got|
  {
  }

  lemma NothingTold(stream: bool)
    ensures AppendAll(Fresh(stream), []) == Fresh(stream)
  {
  }

  /** Failing a waiter leaves one without error only if it was done without one. */
  lemma FailsSet(v: Waiter, e: string)
    ensures Fail(v, e).err.None? ==> Fail(v, e) == v
  {
  }

  lemma FailTold(s: Session, w: nat)
    requires AsTold(s) && Enabled(s, Advance) && s.reader.Failing? && w < |s.waiters| && ReaderStep(s).waiters[w].err.None?
    ensures ReaderStep(s).waiters[w] == Told(ReaderStep(s), w)
  {
    hide AppendAll, Append, Partly, Fail;
    FailsSet(s.waiters[s.reader.w], s.reader.e);
  }

  lemma {:induction false} RunTold(s: Session, actions: seq<Action>)
    requires Kept(s) && AsTold(s) && Runs(s, actions)
    ensures AsTold(After(s, actions))
    decreases actions
  {
    hide AsTold, Enabled, Next;
    if actions != [] {
      StepKeeps(s, actions[0]);
      StepTold(s, actions[0]);
      RunTold(Next(s, actions[0]), actions[1..]);
    }
  }

  /** In every interleaving, a waiter without an error and not in the middle of a frame is what delivering
      its frames one after the other makes of it. */
  lemma DeliveredAsOne(callers: seq<Caller>, actions: seq<Action>, w: nat)
    requires AllStarting(callers) && DistinctIds(callers) && Runs(Start(callers), actions)
    requires var s := After(Start(callers), actions);
             w < |s.waiters| && s.waiters[w].err.None? && !(s.reader.Delivering? && s.reader.w == w)
    ensures var s := After(Start(callers), actions);
            w < |s.got| && s.waiters[w] == AppendAll(Fresh(s.waiters[w].stream), s.got[w])
  {
    StartKept(callers);
    RunTold(Start(callers), actions);
  }

  // ---- why ids must be distinct ----

  /** The session is closed for good, and the caller waits for a waiter that is not done. */
  predicate Hangs(s: Session, c: nat) {
    s.closing.Swept? && IsCaller(s, c) && s.callers[c].stage.Waiting? && !Enabled(s, Wake(c))
  }

  /** Nobody can reach a waiter any more but the caller that waits for it. */
  ghost predicate Forgotten(s: Session, w: nat) {
    Referenced(s) && w < |s.waiters| && !s.waiters[w].done && OutOfReach(s, w)
  }

  ghost predicate OutOfReach(s: Session, w: nat) {
    && (forall id :: id in s.jobs ==> s.jobs[id] != w)
    && (forall c :: 0 <= c < |s.callers| && s.callers[c].canceller.Found? ==> s.callers[c].canceller.w != w)
    && (!s.reader.Idle? ==> s.reader.w != w)
  }

  lemma StepRefers(s: Session, a: Action)
    requires Referenced(s) && Enabled(s, a)
    ensures Referenced(Next(s, a))
  {
    hide ReaderStep;
    if a.Advance? {
      AdvanceRefers(s);
    }
  }

  lemma AdvanceRefers(s: Session)
    requires Referenced(s) && Enabled(s, Advance)
    ensures Referenced(ReaderStep(s))
    ensures var t := ReaderStep(s);
            && t.jobs == s.jobs && t.callers == s.callers && |t.waiters| == |s.waiters| && (!t.reader.Idle? ==> t.reader.w == s.reader.w)
            && forall v :: 0 <= v < |s.waiters| && v != s.reader.w ==> t.waiters[v] == s.waiters[v]
  {
    AdvanceFrame(s);
    hide ReaderStep, Sane;
  }

  /** What the reader's next section touches. */
  lemma AdvanceFrame(s: Session)
    requires Enabled(s, Advance) && Sane(s.waiters[s.reader.w])
    ensures var t := ReaderStep(s);
            && t == s.(waiters := t.waiters, got := t.got, reader := t.reader) && |t.waiters| == |s.waiters| && |t.got| == |s.got|
            && (!t.reader.Idle? ==> t.reader.w == s.reader.w) && Sane(t.waiters[s.reader.w])
            && forall v :: 0 <= v < |s.waiters| && v != s.reader.w ==> t.waiters[v] == s.waiters[v]
  {
    SectionsSane(s.waiters[s.reader.w], if s.reader.Delivering? then s.reader.f else Frame("", false, 0),
                 if s.reader.Failing? then s.reader.e else "");
    hide Take, Signal, Pipe, Conclude, Fail, Sane;
  }

  lemma SectionsSane(v: Waiter, f: Frame, e: string)
    requires Sane(v)
    ensures Sane(Take(v, f)) && Sane(Signal(v)) && Sane(Pipe(v, f.chunk)) && Sane(Conclude(v)) && Sane(Fail(v, e))
  {
  }

  lemma StepForgets(s: Session, a: Action, w: nat)
    requires Forgotten(s, w) && Enabled(s, a)
    ensures Forgotten(Next(s, a), w)
  {
    hide ReaderStep, Fail;
    StepRefers(s, a);
    if a.Advance? {
      AdvanceRefers(s);
    }
  }

  lemma {:induction false} StaysForgotten(s: Session, actions: seq<Action>, w: nat)
    requires Forgotten(s, w) && Runs(s, actions)
    ensures Forgotten(After(s, actions), w)
    decreases actions
  {
    hide Forgotten, Enabled, Next;
    if actions != [] {
      StepForgets(s, actions[0], w);
      StaysForgotten(Next(s, actions[0]), actions[1..], w);
    }
  }

  /** Both jobs are sent under one id, the first before the second begins, and the session is closed. */
  function SecondTakesOver(c: nat, d: nat, id: string): seq<Action> {
    [Begin(c)] + ([Send(c, true)] + ([Begin(d)] + ([Flag] + ([StartSweep] + ([SweepOne(id, "closed")] + ([EndSweep] + []))))))
  }

  lemma TwoUnderOneId(callers: seq<Caller>, c: nat, d: nat) returns (t: Session)
    requires AllStarting(callers) && c < |callers| && d < |callers| && c != d && callers[c].id == callers[d].id
    ensures Enabled(Start(callers), Begin(c))
    ensures var s1 := Next(Start(callers), Begin(c)); Enabled(s1, Send(c, true))
    ensures var s2 := Next(Next(Start(callers), Begin(c)), Send(c, true)); Enabled(s2, Begin(d)) && t == Next(s2, Begin(d))
    ensures t.closing.Open? && t.reader.Idle? && t.jobs == map[callers[c].id := 1] && |t.waiters| == |t.got| == |t.owner| == |t.seen| == 2
    ensures t.waiters[0] == Fresh(callers[c].stream) && t.waiters[1] == Fresh(callers[d].stream)
    ensures |t.callers| == |callers| && t.callers[c].stage == Waiting(0) && t.callers[d].stage == Begun(1)
    ensures forall e :: 0 <= e < |callers| && e != c && e != d ==> t.callers[e] == callers[e]
    ensures forall e :: 0 <= e < |callers| ==> t.callers[e].canceller.Quiet?
  {
    var s1 := Next(Start(callers), Begin(c));
    assert s1.jobs == map[callers[c].id := 0] && s1.waiters == [Fresh(callers[c].stream)];
    var s2 := Next(s1, Send(c, true));
    t := Next(s2, Begin(d));
  }

  lemma SweepFindsOne(s: Session, id: string) returns (t: Session)
    requires s.closing.Open? && s.jobs == map[id := 1] && |s.waiters| == 2
    ensures Enabled(s, Flag)
    ensures var s1 := Next(s, Flag); Enabled(s1, StartSweep)
    ensures var s2 := Next(Next(s, Flag), StartSweep); Enabled(s2, SweepOne(id, "closed"))
    ensures var s3 := Next(Next(Next(s, Flag), StartSweep), SweepOne(id, "closed")); Enabled(s3, EndSweep) && t == Next(s3, EndSweep)
    ensures t == s.(closing := Swept, jobs := map[], waiters := s.waiters[1 := Fail(s.waiters[1], "closed")])
  {
    var s2 := Next(Next(s, Flag), StartSweep);
    var s3 := Next(s2, SweepOne(id, "closed"));
    assert s3.jobs == map[];
    t := Next(s3, EndSweep);
  }

  /** Of any two callers with one id, either can be left to wait for good: the other takes its place in the
      table, closing fails only the other, and nothing that happens later finishes the waiter. */
  lemma ReusedIdHangs(callers: seq<Caller>, c: nat, d: nat)
    requires AllStarting(callers) && c < |callers| && d < |callers| && c != d && callers[c].id == callers[d].id
    ensures var actions := SecondTakesOver(c, d, callers[c].id);
            && Runs(Start(callers), actions)
            && Hangs(After(Start(callers), actions), c) && After(Start(callers), actions).jobs == map[]
            && Forgotten(After(Start(callers), actions), After(Start(callers), actions).callers[c].stage.w)
  {
    hide Runs, After, Next;
    var id := callers[c].id;
    var s0 := Start(callers);
    var s3 := TwoUnderOneId(callers, c, d);
    var s7 := SweepFindsOne(s3, id);
    var s1 := Next(s0, Begin(c));
    var s2 := Next(s1, Send(c, true));
    var s4 := Next(s3, Flag);
    var s5 := Next(s4, StartSweep);
    var s6 := Next(s5, SweepOne(id, "closed"));
    RunsNone(s7);
    var r6 := [EndSweep] + [];
    var r5 := [SweepOne(id, "closed")] + r6;
    var r4 := [StartSweep] + r5;
    var r3 := [Flag] + r4;
    var r2 := [Begin(d)] + r3;
    RunsOne(s6, EndSweep, []);
    RunsOne(s5, SweepOne(id, "closed"), r6);
    RunsOne(s4, StartSweep, r5);
    RunsOne(s3, Flag, r4);
    RunsOne(s2, Begin(d), r3);
    RunsOne(s1, Send(c, true), r2);
    RunsOne(s0, Begin(c), [Send(c, true)] + r2);
    assert Referenced(s7);
  }

  /** No run of the callers leaves one of them hanging after the session is closed, if and only if their ids
      are distinct. */
  lemma NoneHangsIffDistinct(callers: seq<Caller>)
    requires AllStarting(callers)
    ensures (forall actions, c :: Runs(Start(callers), actions) ==> !Hangs(After(Start(callers), actions), c)) <==> DistinctIds(callers)
  {
    hide Runs, After, Enabled, Next;
    if DistinctIds(callers) {
      forall actions, c | Runs(Start(callers), actions) ensures !Hangs(After(Start(callers), actions), c) {
        NoJobLeftHanging(callers, actions);
      }
    } else {
      var c, d :| 0 <= c < d < |callers| && callers[c].id == callers[d].id;
      ReusedIdHangs(callers, c, d);
    }
  }

  lemma RunsNone(s: Session)
    ensures Runs(s, []) && After(s, []) == s
  {
  }

  lemma RunsOne(s: Session, a: Action, rest: seq<Action>)
    requires Enabled(s, a)
    ensures Runs(s, [a] + rest) <==> Runs(Next(s, a), rest)
    ensures Runs(s, [a] + rest) ==> After(s, [a] + rest) == After(Next(s, a), rest)
  {
    hide Enabled, Next;
    assert ([a] + rest)[0] == a && ([a] + rest)[1..] == rest;
  }
}
