/** From the frames on the connection to the caller's answer, through every interleaving: as long as the frames
    for a job are those of one well-ended answer, its outcome is fixed once it is there, and it is the
    error or exactly what the frames say. */
module JobAnswers {
  import opened Wire
  import opened JobWaiter
  import opened JobSession
  import JobWriter

  // ---- the frames for one caller ----

  /** A frame read under an id while a job has it; others are dropped. */
  function Here(s: Session, a: Action, id: string): seq<Frame> {
    if a.Read? && a.id == id && id in s.jobs then [a.f] else []
  }

  function Addressed(s: Session, actions: seq<Action>, id: string): seq<Frame>
    requires Runs(s, actions)
    decreases actions
  {
    if actions == [] then [] else Here(s, actions[0], id) + Addressed(Next(s, actions[0]), actions[1..], id)
  }

  /** The frames a waiter got, and the one on its way to it. */
  function Heard(s: Session, w: nat): seq<Frame>
    requires w < |s.got|
  {
    s.got[w] + if s.reader.Delivering? && s.reader.w == w then [s.reader.f] else []
  }

  /** Those of them that it has taken in. */
  function Taken(s: Session, w: nat): seq<Frame>
    requires w < |s.got|
  {
    s.got[w] + if s.reader.Delivering? && s.reader.w == w && !s.reader.next.ToTake? then [s.reader.f] else []
  }

  ghost predicate Fed(s: Session, w: nat, c: nat, frames: seq<Frame>)
    requires w < |s.waiters| == |s.got| && IsCaller(s, c)
  {
    && s.waiters[w].stream == s.callers[c].stream
    && (s.waiters[w].err.None? ==> Heard(s, w) <= frames && (s.callers[c].id in s.jobs ==> Heard(s, w) == frames))
  }

  /** `frames` are those read under the id of caller `c` so far. */
  ghost predicate Follows(s: Session, c: nat, frames: seq<Frame>) {
    && IsCaller(s, c) && |s.waiters| == |s.got| == |s.owner| == |s.seen|
    && (s.callers[c].stage.Starting? ==> frames == [] && s.callers[c].id !in s.jobs && c !in s.owner)
    && (forall id :: id in s.jobs ==> s.jobs[id] < |s.owner| && (s.owner[s.jobs[id]] == c <==> id == s.callers[c].id))
    && (forall w :: 0 <= w < |s.owner| && s.owner[w] == c ==> Fed(s, w, c, frames))
    && (forall v, w :: 0 <= v < w < |s.owner| && s.owner[v] == c ==> s.owner[w] != c)
  }

  /** An error never goes away, and streams stay streams. */
  lemma Same(s: Session, a: Action)
    requires Referenced(s) && Enabled(s, a)
    ensures var t := Next(s, a);
            && |t.waiters| >= |s.waiters| && |t.owner| >= |s.owner|
            && (forall w :: 0 <= w < |s.waiters| ==> t.waiters[w].stream == s.waiters[w].stream && (t.waiters[w].err.None? ==> s.waiters[w].err.None?))
            && (forall w :: 0 <= w < |s.owner| ==> t.owner[w] == s.owner[w])
            && |t.callers| == |s.callers|
            && (forall c :: 0 <= c < |s.callers| ==> t.callers[c].id == s.callers[c].id && t.callers[c].stream == s.callers[c].stream)
            && (forall c :: 0 <= c < |s.callers| && t.callers[c].stage.Starting? ==> s.callers[c].stage.Starting?)
  {
    hide Take, Signal, Pipe, Conclude;
    if a.Advance? {
      AdvanceSame(s);
    }
  }

  lemma AdvanceSame(s: Session)
    requires Enabled(s, Advance)
    ensures var t := ReaderStep(s);
            && t == s.(waiters := t.waiters, got := t.got, reader := t.reader) && |t.waiters| == |s.waiters| && |t.got| == |s.got|
            && (forall w :: 0 <= w < |s.waiters| ==> t.waiters[w].stream == s.waiters[w].stream && (t.waiters[w].err.None? ==> s.waiters[w].err.None?))
            && (forall w :: 0 <= w < |s.waiters| && t.waiters[w].err.None? ==> Heard(t, w) == Heard(s, w))
  {
    hide Take, Signal, Pipe, Conclude;
    TakesKeepNone(s.waiters[s.reader.w], if s.reader.Delivering? then s.reader.f else Frame("", false, 0));
    forall w | 0 <= w < |s.waiters| && ReaderStep(s).waiters[w].err.None? ensures Heard(ReaderStep(s), w) == Heard(s, w) {
      assert s.got[w] + [] == s.got[w];
    }
  }

  /** What one waiter hears in a step. */
  lemma StepHears(s: Session, a: Action, w: nat)
    requires Referenced(s) && Enabled(s, a) && w < |s.waiters| && Next(s, a).waiters[w].err.None?
    ensures w < |Next(s, a).got|
    ensures Heard(Next(s, a), w) == Heard(s, w) + if a.Read? && a.id in s.jobs && s.jobs[a.id] == w then [a.f] else []
  {
    hide ReaderStep, Fail;
    if a.Advance? {
      AdvanceSame(s);
    }
    assert Heard(s, w) + [] == Heard(s, w) && s.got[w] + [] == s.got[w];
  }

  lemma NewHears(s: Session, c: nat)
    requires Referenced(s) && Enabled(s, Begin(c))
    ensures Heard(Next(s, Begin(c)), |s.waiters|) == []
  {
  }

  lemma StepFed(s: Session, a: Action, c: nat, w: nat, frames: seq<Frame>)
    requires Referenced(s) && DistinctIds(s.callers) && Enabled(s, a) && Follows(s, c, frames) && w < |s.owner| && s.owner[w] == c
    ensures |Next(s, a).waiters| == |Next(s, a).got| && w < |Next(s, a).waiters|
    ensures Fed(Next(s, a), w, c, frames + Here(s, a, s.callers[c].id))
  {
    Same(s, a);
    NoSecondBegin(s, a, c);
    NoNewJob(s, a, c);
    StepRefers(s, a);
    var id, t := s.callers[c].id, Next(s, a);
    hide Enabled, Next, Heard, Referenced;
    assert Fed(s, w, c, frames) && frames + [] == frames;
    if t.waiters[w].err.None? {
      StepHears(s, a, w);
      assert Heard(s, w) + [] == Heard(s, w);
      assert a.Read? && a.id in s.jobs ==> (s.jobs[a.id] == w <==> a.id == id);
    }
  }

  lemma NoSecondBegin(s: Session, a: Action, c: nat)
    requires IsCaller(s, c) && !s.callers[c].stage.Starting? && Enabled(s, a)
    ensures a != Begin(c)
  {
  }

  lemma NewFed(s: Session, c: nat)
    requires Referenced(s) && Enabled(s, Begin(c))
    ensures var t := Next(s, Begin(c)); |t.waiters| == |t.got| && Fed(t, |s.waiters|, c, [])
  {
    NewHears(s, c);
  }

  /** Only its own caller enters an id. */
  lemma NoNewJob(s: Session, a: Action, c: nat)
    requires DistinctIds(s.callers) && Enabled(s, a) && IsCaller(s, c) && a != Begin(c)
    ensures s.callers[c].id in Next(s, a).jobs ==> s.callers[c].id in s.jobs && Next(s, a).jobs[s.callers[c].id] == s.jobs[s.callers[c].id]
  {
    hide ReaderStep, Fail;
    if a.Begin? {
      assert s.callers[if a.c < c then a.c else c].id != s.callers[if a.c < c then c else a.c].id;
    }
    if a.Advance? {
      AdvanceSame(s);
    }
  }

  lemma BeginFollows(s: Session, c: nat)
    requires Referenced(s) && Enabled(s, Begin(c)) && Follows(s, c, [])
    ensures Follows(Next(s, Begin(c)), c, [])
  {
    hide Heard, Fed;
    Same(s, Begin(c));
    StepRefers(s, Begin(c));
    StepOwners(s, Begin(c));
    NewFed(s, c);
    var t := Next(s, Begin(c));
    assert !t.callers[c].stage.Starting?;
    hide Next, Enabled;
  }

  lemma OtherFollows(s: Session, a: Action, c: nat, frames: seq<Frame>)
    requires Referenced(s) && DistinctIds(s.callers) && Enabled(s, a) && Follows(s, c, frames) && a != Begin(c)
    ensures Follows(Next(s, a), c, frames + Here(s, a, s.callers[c].id))
  {
    hide Heard, Fed;
    Same(s, a);
    StepRefers(s, a);
    StepOwners(s, a);
    NoNewJob(s, a, c);
    var t, more := Next(s, a), frames + Here(s, a, s.callers[c].id);
    forall w | 0 <= w < |t.owner| && t.owner[w] == c ensures Fed(t, w, c, more) {
      StepFed(s, a, c, w, frames);
    }
    hide Next, Enabled;
  }

  lemma StepFollows(s: Session, a: Action, c: nat, frames: seq<Frame>)
    requires Referenced(s) && DistinctIds(s.callers) && Enabled(s, a) && Follows(s, c, frames)
    ensures Follows(Next(s, a), c, frames + Here(s, a, s.callers[c].id))
  {
    if a == Begin(c) {
      NoneBefore(s, c, frames);
      BeginFollows(s, c);
    } else {
      hide Follows, Next, Enabled, Referenced, Here;
      OtherFollows(s, a, c, frames);
    }
  }

  lemma NoneBefore(s: Session, c: nat, frames: seq<Frame>)
    requires Enabled(s, Begin(c)) && Follows(s, c, frames)
    ensures frames == []
  {
  }

  /** A new waiter is its caller's, and the table only leads to it anew. */
  lemma StepOwners(s: Session, a: Action)
    requires Referenced(s) && Enabled(s, a)
    ensures var t := Next(s, a);
            && t.owner == (if a.Begin? then s.owner + [a.c] else s.owner)
            && (forall id :: id in t.jobs && !(a.Begin? && id == s.callers[a.c].id) ==> id in s.jobs && t.jobs[id] == s.jobs[id])
            && (a.Begin? ==> s.callers[a.c].id in t.jobs && t.jobs[s.callers[a.c].id] == |s.owner| && IsCaller(s, a.c))
  {
    hide ReaderStep, Fail;
    if a.Advance? {
      AdvanceSame(s);
    }
  }

  // ---- what a streaming caller sees ----

  /** Until its caller has looked, nothing goes through a pipe. */
  predicate NothingPiped(s: Session) {
    |s.seen| == |s.waiters| && forall w :: 0 <= w < |s.waiters| && s.seen[w].None? ==> s.waiters[w].piped == ""
  }

  lemma StepPipes(s: Session, a: Action)
    requires Referenced(s) && Enabled(s, a) && NothingPiped(s)
    ensures NothingPiped(Next(s, a))
  {
    hide ReaderStep, Take, Signal, Conclude, Fail;
    StepRefers(s, a);
    if a.Advance? {
      AdvanceSame(s);
      AdvancePipes(s);
    }
    forall w | 0 <= w < |s.waiters| && Next(s, a).seen[w].None? ensures Next(s, a).waiters[w].piped == "" {
      FailsPipe(s.waiters[w], if a.SweepOne? then a.e else "cascade job canceled");
    }
  }

  lemma FailsPipe(w: Waiter, e: string)
    ensures Fail(w, e).piped == w.piped
  {
  }

  lemma AdvancePipes(s: Session)
    requires Referenced(s) && Enabled(s, Advance) && NothingPiped(s)
    ensures NothingPiped(ReaderStep(s))
  {
    hide Referenced;
    SectionsPipe(s.waiters[s.reader.w], if s.reader.Delivering? then s.reader.f else Frame("", false, 0));
    FailsPipe(s.waiters[s.reader.w], if s.reader.Failing? then s.reader.e else "");
    hide Take, Signal, Conclude, Fail;
  }

  lemma SectionsPipe(w: Waiter, f: Frame)
    ensures Take(w, f).piped == w.piped && Signal(w).piped == w.piped && Conclude(w).piped == w.piped
    ensures w.done ==> Pipe(w, f.chunk).piped == w.piped
  {
  }

  /** Looking when the last of `k` frames has been taken in, the others having no text. */
  predicate LookedAt(fs: seq<Frame>, k: nat, status: int) {
    1 <= k <= |fs| && Chunks(fs[..k - 1]) == "" && status == StatusAfter(true, fs[..k])
  }

  lemma MoreLooked(a: seq<Frame>, b: seq<Frame>, k: nat, status: int)
    requires LookedAt(a, k, status) && a <= b
    ensures LookedAt(b, k, status)
  {
    hide Chunks, StatusAfter;
    assert b[..k] == a[..k] && b[..k - 1] == a[..k - 1];
  }

  ghost predicate SeenOk(s: Session, w: nat)
    requires w < |s.waiters| == |s.got| == |s.seen|
  {
    s.seen[w].Some? && s.waiters[w].err.None? && s.waiters[w].stream ==> exists k :: LookedAt(Taken(s, w), k, s.seen[w].value)
  }

  lemma PartlyFacts(v: Waiter, f: Frame, next: Section)
    requires v.err.None?
    ensures v.piped <= Partly(v, f, next).piped && v.piped <= Append(v, f).piped
    ensures !next.ToTake? ==> Partly(v, f, next).status == Append(v, f).status
    ensures Partly(v, f, next).done == v.done && Partly(v, f, next).stream == Append(v, f).stream == v.stream
  {
  }

  /** Frames of a well-ended answer, all but the last of them. */
  lemma OpenPart(fs: seq<Frame>, a: seq<Frame>, stream: bool)
    requires Closed(fs) && a <= fs && |a| < |fs|
    ensures var v := AppendAll(Fresh(stream), a);
            v.err.None? && !v.done && v.stream == stream && (stream ==> v.piped == Chunks(a))
  {
    hide AppendAll, Chunks;
    OpenFrames(Fresh(stream), a);
    var none := "";
    assert none + Chunks(a) == Chunks(a);
  }

  lemma LooksAt(s: Session, w: nat, fs: seq<Frame>)
    requires AsTold(s) && w < |s.waiters| && s.waiters[w].err.None? && s.waiters[w].stream && s.waiters[w].first && s.waiters[w].piped == ""
    requires Closed(fs) && Heard(s, w) <= fs
    ensures LookedAt(Taken(s, w), |Taken(s, w)|, s.waiters[w].status)
  {
    hide AppendAll, Append, Partly, Chunks, Closed;
    var g := s.got[w];
    var v := AppendAll(Fresh(true), g);
    assert s.waiters[w] == Told(s, w);
    if s.reader.Delivering? && s.reader.w == w && !s.reader.next.ToTake? {
      var f := s.reader.f;
      assert Taken(s, w) == g + [f] && (g + [f])[..|g|] == g && (g + [f])[..|g| + 1] == g + [f];
      OpenPart(fs, g, true);
      PartlyFacts(v, f, s.reader.next);
      AppendOne(Fresh(true), g, f);
    } else {
      SectionsOf(v, if s.reader.Delivering? then s.reader.f else Frame("", false, 0));
      assert Taken(s, w) == g;
      NothingTold(true);
      var p, last := g[..|g| - 1], g[|g| - 1];
      assert g == p + [last] && g[..|g|] == g;
      OpenPart(fs, p, true);
      PartlyFacts(AppendAll(Fresh(true), p), last, ToTake);
      AppendOne(Fresh(true), p, last);
    }
  }

  // ---- everything that holds of one caller's job ----

  ghost predicate Sound(s: Session, c: nat, frames: seq<Frame>) {
    && Kept(s) && AsTold(s) && NothingPiped(s) && Follows(s, c, frames)
    && forall w :: 0 <= w < |s.owner| && s.owner[w] == c ==> SeenOk(s, w)
  }

  lemma StepTakes(s: Session, a: Action, w: nat)
    requires Referenced(s) && Enabled(s, a) && w < |s.waiters| && Next(s, a).waiters[w].err.None?
    ensures w < |Next(s, a).got| && Taken(s, w) <= Taken(Next(s, a), w)
  {
    hide ReaderStep, Fail;
    if a.Advance? {
      AdvanceTakes(s, w);
    }
  }

  lemma AdvanceTakes(s: Session, w: nat)
    requires Enabled(s, Advance) && w < |s.waiters| && ReaderStep(s).waiters[w].err.None?
    ensures w < |ReaderStep(s).got| && Taken(s, w) <= Taken(ReaderStep(s), w)
  {
    hide Take, Signal, Pipe, Conclude, Fail;
  }

  lemma StepSees(s: Session, a: Action, c: nat, w: nat, frames: seq<Frame>, fs: seq<Frame>)
    requires Sound(s, c, frames) && Enabled(s, a) && w < |s.owner| && s.owner[w] == c && frames <= fs && Closed(fs)
    ensures var t := Next(s, a); w < |t.waiters| == |t.got| == |t.seen| && SeenOk(t, w)
  {
    hide AsTold, NothingPiped, Follows, Closed, Heard, Taken, Chunks;
    StepKeeps(s, a);
    ReferencedIn(s);
    ReferencedIn(Next(s, a));
    Same(s, a);
    var t := Next(s, a);
    assert SeenOk(s, w);
    if t.seen[w].Some? && t.waiters[w].err.None? && t.waiters[w].stream {
      StepTakes(s, a, w);
      SeenGrows(s, a, w);
      if s.seen[w].Some? {
        var k :| LookedAt(Taken(s, w), k, s.seen[w].value);
        MoreLooked(Taken(s, w), Taken(t, w), k, s.seen[w].value);
      } else {
        HeardWithin(s, c, w, frames, fs);
        LooksAt(s, w, fs);
        assert LookedAt(Taken(s, w), |Taken(s, w)|, t.seen[w].value);
        MoreLooked(Taken(s, w), Taken(t, w), |Taken(s, w)|, t.seen[w].value);
      }
    }
  }

  lemma HeardWithin(s: Session, c: nat, w: nat, frames: seq<Frame>, fs: seq<Frame>)
    requires Follows(s, c, frames) && NothingPiped(s) && w < |s.owner| && s.owner[w] == c && s.waiters[w].err.None? && s.seen[w].None? && frames <= fs
    ensures Heard(s, w) <= fs && s.waiters[w].piped == ""
  {
    assert Fed(s, w, c, frames);
  }

  /** A status is seen once, by looking. */
  lemma SeenGrows(s: Session, a: Action, w: nat)
    requires Referenced(s) && Enabled(s, a) && w < |s.seen|
    ensures w < |Next(s, a).seen|
    ensures s.seen[w].Some? ==> Next(s, a).seen[w] == s.seen[w]
    ensures s.seen[w].None? && Next(s, a).seen[w].Some? ==>
              Next(s, a).seen[w] == Some(s.waiters[w].status) && s.waiters[w].first && Next(s, a).waiters == s.waiters
  {
    hide ReaderStep, Fail;
    if a.Advance? {
      AdvanceSame(s);
    }
  }

  lemma StepSound(s: Session, a: Action, c: nat, frames: seq<Frame>, fs: seq<Frame>)
    requires Sound(s, c, frames) && Enabled(s, a) && frames <= fs && Closed(fs)
    ensures Sound(Next(s, a), c, frames + Here(s, a, s.callers[c].id))
  {
    hide AsTold, NothingPiped, Closed, Enabled, Next, Here, Follows, SeenOk;
    StepKeeps(s, a);
    var t := Next(s, a);
    assert Referenced(s) && Referenced(t) && DistinctIds(s.callers);
    StepTold(s, a);
    StepPipes(s, a);
    StepFollows(s, a, c, frames);
    forall w | 0 <= w < |t.owner| && t.owner[w] == c ensures SeenOk(t, w) {
      if w < |s.owner| {
        Same(s, a);
        StepSees(s, a, c, w, frames, fs);
      } else {
        NewUnseen(s, a, w);
      }
    }
  }

  lemma NewUnseen(s: Session, a: Action, w: nat)
    requires Referenced(s) && Enabled(s, a) && |s.owner| <= w < |Next(s, a).owner|
    ensures var t := Next(s, a); w < |t.waiters| == |t.got| == |t.seen| && SeenOk(t, w)
  {
    hide ReaderStep, Fail;
    if a.Advance? {
      AdvanceSame(s);
    }
  }

  lemma StartSound(callers: seq<Caller>, c: nat)
    requires AllStarting(callers) && DistinctIds(callers) && c < |callers|
    ensures Sound(Start(callers), c, [])
  {
    StartKept(callers);
  }

  lemma {:induction false} RunSound(s: Session, actions: seq<Action>, c: nat, frames: seq<Frame>, fs: seq<Frame>)
    requires Sound(s, c, frames) && Runs(s, actions) && frames + Addressed(s, actions, s.callers[c].id) <= fs && Closed(fs)
    ensures Sound(After(s, actions), c, frames + Addressed(s, actions, s.callers[c].id))
    ensures After(s, actions).callers[c].id == s.callers[c].id && After(s, actions).callers[c].stream == s.callers[c].stream
    decreases actions
  {
    hide AsTold, NothingPiped, Closed, Enabled, Next, Here, SeenOk, Follows, Kept;
    SoundCaller(s, c, frames);
    var id := s.callers[c].id;
    if actions == [] {
      assert frames + [] == frames;
    } else {
      var t := Next(s, actions[0]);
      var more := frames + Here(s, actions[0], id);
      assert more + Addressed(t, actions[1..], id) == frames + Addressed(s, actions, id);
      PrefixOf(frames, Addressed(s, actions, id), fs);
      Same(s, actions[0]);
      StepSound(s, actions[0], c, frames, fs);
      RunSound(t, actions[1..], c, more, fs);
    }
  }

  lemma PrefixOf(a: seq<Frame>, b: seq<Frame>, fs: seq<Frame>)
    requires a + b <= fs
    ensures a <= fs
  {
    assert forall i :: 0 <= i < |a| ==> (a + b)[i] == a[i];
  }

  lemma SoundCaller(s: Session, c: nat, frames: seq<Frame>)
    requires Sound(s, c, frames)
    ensures Referenced(s) && IsCaller(s, c)
  {
  }

  // ---- the answer ----

  datatype Reply = NotYet | Refused(err: string) | Replied(status: int, body: string)

  /** What the caller a waiter was made for gets: a streaming one by what it saw, others by what is there in
      the end. */
  function ReplyOf(s: Session, w: nat): Reply
    requires w < |s.waiters| == |s.seen|
  {
    var v := s.waiters[w];
    if !v.done then NotYet
    else if v.err.Some? then Refused(v.err.value)
    else if !v.stream then Replied(AnswerStatus(false, v.status), AnswerBody(v, v.status))
    else if s.seen[w].None? then NotYet
    else Replied(AnswerStatus(true, s.seen[w].value), AnswerBody(v, s.seen[w].value))
  }

  /** Done without an error, a waiter holds all frames. */
  lemma HoldsAll(s: Session, c: nat, w: nat, frames: seq<Frame>, fs: seq<Frame>)
    requires Sound(s, c, frames) && frames <= fs && Closed(fs) && w < |s.owner| && s.owner[w] == c
    requires s.waiters[w].done && s.waiters[w].err.None?
    ensures s.waiters[w] == AppendAll(Fresh(s.callers[c].stream), fs) && Taken(s, w) == fs
  {
    hide AppendAll, Append, Partly, Closed, Kept, NothingPiped, SeenOk;
    assert Fed(s, w, c, frames);
    assert s.waiters[w] == Told(s, w);
    var g, stream := s.got[w], s.callers[c].stream;
    var v := AppendAll(Fresh(stream), g);
    assert g <= Heard(s, w) <= fs;
    if |g| < |fs| {
      OpenPart(fs, g, stream);
      if s.reader.Delivering? && s.reader.w == w {
        PartlyFacts(v, s.reader.f, s.reader.next);
      }
      assert false;
    }
    assert g == fs && Heard(s, w) == g;
  }

  lemma Answers(s: Session, c: nat, w: nat, frames: seq<Frame>, fs: seq<Frame>) returns (k: nat)
    requires Sound(s, c, frames) && frames <= fs && Closed(fs) && w < |s.owner| && s.owner[w] == c && |s.waiters| == |s.seen| == |s.owner|
    requires ReplyOf(s, w).Replied?
    ensures MayLook(s.callers[c].stream, fs, k) && k <= |fs|
    ensures ReplyOf(s, w) == Replied(HubStatus(s.callers[c].stream, fs, k), HubBody(s.callers[c].stream, fs, k))
  {
    hide AppendAll, Closed, Chunks, Kept, AsTold, NothingPiped;
    HoldsAll(s, c, w, frames, fs);
    StreamKept(s, c, w, frames);
    if s.callers[c].stream {
      assert SeenOk(s, w);
      k :| LookedAt(fs, k, s.seen[w].value);
    } else {
      k := |fs|;
      assert fs[..k] == fs;
    }
  }

  lemma StreamKept(s: Session, c: nat, w: nat, frames: seq<Frame>)
    requires Follows(s, c, frames) && w < |s.owner| && s.owner[w] == c
    ensures s.waiters[w].stream == s.callers[c].stream
  {
    assert Fed(s, w, c, frames);
  }

  lemma PlainLooksLast(fs: seq<Frame>, k: nat)
    requires MayLook(false, fs, k)
    ensures k == |fs|
  {
  }

  /** In every run in which the frames for a job are those of a well-ended answer, its caller gets the error or
      the status and body that these frames make for some moment at which it may look. */
  lemma AnswerIsWhole(callers: seq<Caller>, actions: seq<Action>, c: nat, w: nat, fs: seq<Frame>)
    requires AllStarting(callers) && DistinctIds(callers) && Runs(Start(callers), actions) && c < |callers|
    requires Addressed(Start(callers), actions, callers[c].id) <= fs && Closed(fs)
    requires var s := After(Start(callers), actions);
             w < |s.owner| == |s.waiters| == |s.seen| && s.owner[w] == c && ReplyOf(s, w).Replied?
    ensures exists k: nat :: k <= |fs| && MayLook(callers[c].stream, fs, k)
                             && ReplyOf(After(Start(callers), actions), w) == Replied(HubStatus(callers[c].stream, fs, k), HubBody(callers[c].stream, fs, k))
    ensures var last := fs[|fs| - 1].status;
            var got := ReplyOf(After(Start(callers), actions), w).status;
            if callers[c].stream then got == 200 || got == last >= 400 else got == if last > 0 then last else 200
  {
    hide Sound, Closed, ReplyOf, HubStatus, HubBody, MayLook;
    var frames := Addressed(Start(callers), actions, callers[c].id);
    StartSound(callers, c);
    assert [] + frames == frames;
    RunSound(Start(callers), actions, c, [], fs);
    var k := Answers(After(Start(callers), actions), c, w, frames, fs);
    StatusOfPlain(fs);
    if callers[c].stream {
      ErrorIff(fs, k);
    } else {
      PlainLooksLast(fs, k);
    }
  }

  lemma {:induction false} RunGrows(s: Session, actions: seq<Action>, w: nat)
    requires Kept(s) && Runs(s, actions) && w < |s.waiters| == |s.seen| == |s.owner|
    ensures var t := After(s, actions);
            && w < |t.waiters| == |t.seen| == |t.owner| && t.owner[w] == s.owner[w] && t.waiters[w].stream == s.waiters[w].stream
            && (s.seen[w].Some? ==> t.seen[w] == s.seen[w])
    decreases actions
  {
    hide Kept, Enabled, Next;
    if actions != [] {
      ReferencedIn(s);
      assert Referenced(s) by { assert Kept(s); KeptRefers(s); }
      StepKeeps(s, actions[0]);
      KeptRefers(Next(s, actions[0]));
      SeenGrows(s, actions[0], w);
      Same(s, actions[0]);
      RunGrows(Next(s, actions[0]), actions[1..], w);
    }
  }

  lemma KeptRefers(s: Session)
    requires Kept(s)
    ensures Referenced(s)
  {
  }

  /** Between any two points of such a run, the outcome of a waiter that is done is fixed, its error, its text, its
      piped text and its status, and so is the answer once it is given. */
  lemma ReplyIsFixed(callers: seq<Caller>, actions: seq<Action>, more: seq<Action>, c: nat, w: nat, fs: seq<Frame>)
    requires AllStarting(callers) && DistinctIds(callers) && Runs(Start(callers), actions) && c < |callers|
    requires var s := After(Start(callers), actions);
             && Runs(s, more) && Addressed(Start(callers), actions, callers[c].id) + Addressed(s, more, callers[c].id) <= fs && Closed(fs)
             && w < |s.owner| == |s.waiters| == |s.seen| && s.owner[w] == c && s.waiters[w].done
    ensures var s := After(Start(callers), actions);
            var t := After(s, more);
            && w < |t.waiters| == |t.seen|
            && t.waiters[w].done && t.waiters[w].err == s.waiters[w].err && Waited(t.waiters[w]) == Waited(s.waiters[w])
            && t.waiters[w].piped == s.waiters[w].piped && t.waiters[w].status == s.waiters[w].status
            && (ReplyOf(s, w) != NotYet ==> ReplyOf(t, w) == ReplyOf(s, w))
  {
    hide Closed, Follows, AsTold, NothingPiped, Kept, Addressed, Runs, After;
    var id := callers[c].id;
    var s := After(Start(callers), actions);
    var a, b := Addressed(Start(callers), actions, id), Addressed(s, more, id);
    StartSound(callers, c);
    assert [] + a == a;
    PrefixOf(a, b, fs);
    RunSound(Start(callers), actions, c, [], fs);
    RunSound(s, more, c, a, fs);
    RunGrows(s, more, w);
    OutcomeIsFixed(s, more, w);
    if s.waiters[w].err.None? {
      HoldsAll(s, c, w, a, fs);
      HoldsAll(After(s, more), c, w, a + b, fs);
    }
  }

  /** From the handler on the spoke to the caller on the hub, through every interleaving: if finishing succeeded and
      the frames are what the connection brings, an answer's body is what the handler wrote, and its status is the
      one it set, but for a streaming answer whose text went ahead of it. */
  lemma WrittenIsRead(callers: seq<Caller>, actions: seq<Action>, c: nat, w: nat,
                      stream: bool, ops: seq<JobWriter.Op>, up1: bool, up2: bool)
    requires AllStarting(callers) && DistinctIds(callers) && Runs(Start(callers), actions) && c < |callers|
    requires (stream ==> callers[c].stream) && JobWriter.FinishStep(JobWriter.Done(JobWriter.Initial(stream), ops), up1, up2).1
    requires Addressed(Start(callers), actions, callers[c].id) <= JobWriter.FinishStep(JobWriter.Done(JobWriter.Initial(stream), ops), up1, up2).0.frames
    requires var s := After(Start(callers), actions);
             w < |s.owner| == |s.waiters| == |s.seen| && s.owner[w] == c && ReplyOf(s, w).Replied?
    ensures var reply := ReplyOf(After(Start(callers), actions), w);
            var text := JobWriter.Accepted(JobWriter.Initial(stream), ops);
            reply.body == text && reply.status == JobWriter.StatusGot(callers[c].stream, stream, text, JobWriter.StatusSet(ops))
  {
    hide Closed, ReplyOf, HubStatus, HubBody, MayLook, Addressed, Runs, After, JobWriter.FinishStep, JobWriter.Done, JobWriter.Accepted;
    var fs := JobWriter.FinishStep(JobWriter.Done(JobWriter.Initial(stream), ops), up1, up2).0.frames;
    JobWriter.FramesConserve(stream, ops, up1, up2);
    JobWriter.BodyArrives(callers[c].stream, stream, ops, up1, up2);
    JobWriter.StatusArrives(callers[c].stream, stream, ops, up1, up2);
    AnswerIsWhole(callers, actions, c, w, fs);
  }
}
