/** The spoke's publisher of metadata snapshots on one connection: publishes at once, again on every
    notification, and retries after a rejection or an encoding failure with a bounded budget. */
module MetadataPublisher {
  import opened Wire

  /** One retry after 1, 2 and 4 seconds. */
  const RETRIES: nat := 3

  /** What an attempt finds: a snapshot that cannot be encoded, or one that is written or not. */
  datatype Attempt = Unencodable | Encoded(body: string, up: bool)

  datatype State = State(dirty: bool, publishNow: bool, forceResend: bool, lastBody: Option<string>,
                         retries: nat, armed: bool, stopped: bool)

  const START := State(true, true, false, None, 0, false, false)

  function ScheduleRetry(s: State): State {
    if s.retries >= RETRIES then s.(armed := false) else s.(armed := true, retries := s.retries + 1)
  }

  /** A snapshot like the last one is sent again only when forced. */
  predicate Sends(s: State, a: Attempt) {
    a.Encoded? && a.up && (s.lastBody != Some(a.body) || s.forceResend)
  }

  function PublishStep(s0: State, a: Attempt): State {
    var s := s0.(publishNow := false);
    if a.Unencodable? then ScheduleRetry(s)
    else if s.lastBody == Some(a.body) && !s.forceResend then s.(dirty := false, forceResend := false)
    else if !a.up then s.(stopped := true)
    else s.(lastBody := Some(a.body), dirty := false, forceResend := false)
  }

  function NotifyStep(s: State): State {
    s.(dirty := true, retries := 0, armed := false, publishNow := true)
  }

  function RejectStep(s: State): State {
    ScheduleRetry(s.(dirty := true, forceResend := true))
  }

  function TimerStep(s: State): State {
    if s.dirty then s.(armed := false, publishNow := true) else s.(armed := false)
  }

  class Publisher {
    var dirty: bool
    var publishNow: bool
    var forceResend: bool
    var lastBody: Option<string>
    var retries: nat
    var armed: bool
    var stopped: bool

    ghost function View(): State
      reads this
    {
      State(dirty, publishNow, forceResend, lastBody, retries, armed, stopped)
    }

    constructor ()
      ensures View() == START
    {
      dirty, publishNow, forceResend, lastBody, retries, armed, stopped := true, true, false, None, 0, false, false;
    }

    method CancelTimer()
      modifies this`armed
      ensures !armed
    {
      armed := false;
    }

    method Schedule() returns (ok: bool)
      modifies this`armed, this`retries
      ensures View() == ScheduleRetry(old(View())) && ok == (old(retries) < RETRIES)
    {
      CancelTimer();
      if retries >= RETRIES {
        return false;
      }
      armed := true;
      retries := retries + 1;
      ok := true;
    }

    /** The publishing half of a turn of the loop. */
    method Publish(a: Attempt) returns (sent: bool)
      requires publishNow && !stopped
      modifies this
      ensures View() == PublishStep(old(View()), a) && sent == Sends(old(View()), a)
    {
      publishNow := false;
      sent := false;
      match a
      case Unencodable =>
        var _ := Schedule();
      case Encoded(body, up) =>
        if lastBody == Some(body) && !forceResend {
          dirty := false;
          forceResend := false;
          return;
        }
        if !up {
          stopped := true;
          return;
        }
        lastBody := Some(body);
        forceResend := false;
        sent := true;
        dirty := false;
    }

    method OnNotify()
      modifies this
      ensures View() == NotifyStep(old(View()))
    {
      dirty := true;
      retries := 0;
      CancelTimer();
      publishNow := true;
    }

    method OnReject()
      modifies this
      ensures View() == RejectStep(old(View()))
    {
      dirty := true;
      forceResend := true;
      var _ := Schedule();
    }

    method OnTimer()
      modifies this
      ensures View() == TimerStep(old(View()))
    {
      armed := false;
      if dirty {
        publishNow := true;
      }
    }
  }

  // ---- the publisher and what happens around it ----

  /** The two one-place channels, the snapshots sent, the attempts since the last notification was taken, and
      the ids of the snapshots the hub has rejected while they were the latest. */
  datatype World = World(pub: State, notified: bool, rejected: bool, sent: seq<string>, attempts: nat, refused: set<nat>)

  /** A connection starts with whatever an earlier one has left in the channels. */
  function First(notified: bool, rejected: bool): World {
    World(START, notified, rejected, [], 0, {})
  }

  datatype Event =
    | Publish(a: Attempt)
    | Changed              // NotifyMetadataChanged
    | HubRejects(id: nat)  // handleMetadataReject; ids count the snapshots sent, 0 is the last of an earlier connection
    | TakeNotify
    | TakeReject
    | Timer

  predicate Enabled(w: World, e: Event) {
    match e
    case Publish(_) => w.pub.publishNow && !w.pub.stopped
    case Changed => true
    case HubRejects(_) => true
    case TakeNotify => w.notified && !w.pub.publishNow && !w.pub.stopped
    case TakeReject => w.rejected && !w.pub.publishNow && !w.pub.stopped
    case Timer => w.pub.armed && !w.pub.publishNow && !w.pub.stopped
  }

  /** Only a rejection of the latest snapshot counts. */
  function Next(w: World, e: Event): World
    requires Enabled(w, e)
  {
    match e
    case Publish(a) =>
      var t := w.(pub := PublishStep(w.pub, a), attempts := w.attempts + 1);
      if Sends(w.pub, a) then t.(sent := w.sent + [a.body]) else t
    case Changed => w.(notified := true)
    case HubRejects(id) => if id == |w.sent| then w.(rejected := true, refused := w.refused + {id}) else w
    case TakeNotify => w.(pub := NotifyStep(w.pub), notified := false, attempts := 0)
    case TakeReject => w.(pub := RejectStep(w.pub), rejected := false)
    case Timer => w.(pub := TimerStep(w.pub))
  }

  predicate Runs(w: World, es: seq<Event>)
    decreases es
  {
    es == [] || (Enabled(w, es[0]) && Runs(Next(w, es[0]), es[1..]))
  }

  function After(w: World, es: seq<Event>): World
    requires Runs(w, es)
    decreases es
  {
    if es == [] then w else After(Next(w, es[0]), es[1..])
  }

  predicate Kept(w: World) {
    && w.attempts + (if w.pub.publishNow then 1 else 0) + (if w.pub.armed then 1 else 0) <= 1 + w.pub.retries <= 1 + RETRIES
    && w.pub.lastBody == (if w.sent == [] then None else Some(w.sent[|w.sent| - 1]))
    && (forall id :: id in w.refused ==> id <= |w.sent|)
  }

  lemma StepKeeps(w: World, e: Event)
    requires Kept(w) && Enabled(w, e)
    ensures Kept(Next(w, e))
  {
    hide PublishStep, Sends;
    if e.Publish? {
      PublishKeeps(w, e.a);
    }
  }

  lemma PublishKeeps(w: World, a: Attempt)
    requires Kept(w) && Enabled(w, Publish(a))
    ensures Kept(Next(w, Publish(a)))
  {
  }

  lemma {:induction false} RunKeeps(w: World, es: seq<Event>)
    requires Kept(w) && Runs(w, es)
    ensures Kept(After(w, es))
    decreases es
  {
    if es != [] {
      StepKeeps(w, es[0]);
      RunKeeps(Next(w, es[0]), es[1..]);
    }
  }

  /** In every interleaving, at most 1 + 3 attempts come between two notifications. */
  lemma AttemptsBounded(notified: bool, rejected: bool, es: seq<Event>)
    requires Runs(First(notified, rejected), es)
    ensures var w := After(First(notified, rejected), es);
            w.attempts <= 1 + RETRIES && (w.attempts == 1 + RETRIES ==> !w.pub.publishNow && !w.pub.armed)
  {
    RunKeeps(First(notified, rejected), es);
  }

  /** A rejection of the latest snapshot, taken while budget is left, has it sent again when the timer fires. */
  lemma RejectedIsResent(w: World, body: string)
    requires w.rejected && !w.pub.publishNow && !w.pub.stopped && w.pub.retries < RETRIES
    ensures Runs(w, [TakeReject, Timer, Publish(Encoded(body, true))])
    ensures After(w, [TakeReject, Timer, Publish(Encoded(body, true))]).sent == w.sent + [body]
  {
    var a := Publish(Encoded(body, true));
    var u := Next(w, TakeReject);
    var v := Next(u, Timer);
    RunsOne(v, a, []);
    RunsOne(u, Timer, [a] + []);
    RunsOne(w, TakeReject, [Timer] + ([a] + []));
    assert [TakeReject] + ([Timer] + ([a] + [])) == [TakeReject, Timer, a];
  }

  lemma RunsOne(w: World, e: Event, rest: seq<Event>)
    requires Enabled(w, e)
    ensures Runs(w, [e] + rest) <==> Runs(Next(w, e), rest)
    ensures Runs(w, [e] + rest) ==> After(w, [e] + rest) == After(Next(w, e), rest)
  {
    hide Enabled, Next;
    assert ([e] + rest)[0] == e && ([e] + rest)[1..] == rest;
  }

  // ---- which rejection it is ----

  predicate SendStep(w: World, e: Event) {
    e.Publish? && Sends(w.pub, e.a)
  }

  /** Was the last snapshot of a run sent while an older rejection waited in its channel? `before`: the answer
      before the run. */
  predicate LastOvertook(w: World, es: seq<Event>, before: bool)
    requires Runs(w, es)
    decreases es
  {
    if es == [] then before
    else LastOvertook(Next(w, es[0]), es[1..], if SendStep(w, es[0]) then w.rejected else before)
  }

  /** A rejection waits or has been taken exactly if the latest snapshot was rejected, or overtook an older
      rejection. */
  predicate Tied(w: World, overtook: bool) {
    w.sent != [] ==> (w.rejected || w.pub.forceResend <==> overtook || |w.sent| in w.refused)
  }

  lemma StepTies(w: World, e: Event, overtook: bool)
    requires Kept(w) && Tied(w, overtook) && Enabled(w, e)
    ensures Tied(Next(w, e), if SendStep(w, e) then w.rejected else overtook)
  {
  }

  lemma {:induction false} RunTies(w: World, es: seq<Event>, overtook: bool)
    requires Kept(w) && Tied(w, overtook) && Runs(w, es)
    ensures Kept(After(w, es)) && Tied(After(w, es), LastOvertook(w, es, overtook))
    decreases es
  {
    hide Kept, Tied, Enabled, Next, SendStep;
    if es != [] {
      StepKeeps(w, es[0]);
      StepTies(w, es[0], overtook);
      RunTies(Next(w, es[0]), es[1..], if SendStep(w, es[0]) then w.rejected else overtook);
    }
  }

  /** An unchanged snapshot is sent again only if the hub rejected it, or it was sent while an older rejection
      waited; and if so it is, as soon as the rejection has been taken. */
  lemma ResentIffRejected(notified: bool, rejected: bool, es: seq<Event>, body: string)
    requires var w := First(notified, rejected);
             Runs(w, es) && Enabled(After(w, es), Publish(Encoded(body, true)))
             && After(w, es).sent != [] && After(w, es).sent[|After(w, es).sent| - 1] == body
    ensures var w := After(First(notified, rejected), es);
            var due := |w.sent| in w.refused || LastOvertook(First(notified, rejected), es, false);
            && (Sends(w.pub, Encoded(body, true)) ==> due)
            && (due && !w.rejected ==> Sends(w.pub, Encoded(body, true)))
  {
    RunTies(First(notified, rejected), es, false);
  }

  // ---- snapshots sent again for nothing ----

  /** The latest snapshot is sent again though the hub never rejected it. */
  predicate SendsForNothing(w: World, e: Event) {
    SendStep(w, e) && w.sent != [] && e.a.body == w.sent[|w.sent| - 1] && |w.sent| !in w.refused
  }

  predicate ForNothingIn(w: World, es: seq<Event>)
    requires Runs(w, es)
    decreases es
  {
    es != [] && (SendsForNothing(w, es[0]) || ForNothingIn(Next(w, es[0]), es[1..]))
  }

  /** ... by the first step of the run that sends anything. */
  predicate NextForNothing(w: World, es: seq<Event>)
    requires Runs(w, es)
    decreases es
  {
    es != [] && (SendsForNothing(w, es[0]) || (!SendStep(w, es[0]) && NextForNothing(Next(w, es[0]), es[1..])))
  }

  predicate OvertakesIn(w: World, es: seq<Event>)
    requires Runs(w, es)
    decreases es
  {
    es != [] && ((SendStep(w, es[0]) && w.rejected) || OvertakesIn(Next(w, es[0]), es[1..]))
  }

  lemma ForNothing(w: World, e: Event, overtook: bool)
    requires Kept(w) && Tied(w, overtook) && Enabled(w, e) && SendsForNothing(w, e)
    ensures overtook && |w.sent| !in w.refused && !w.pub.stopped
  {
  }

  lemma {:induction false} NothingForNothing(w: World, es: seq<Event>, overtook: bool)
    requires Kept(w) && Tied(w, overtook) && Runs(w, es) && ForNothingIn(w, es)
    ensures overtook || OvertakesIn(w, es)
    decreases es
  {
    hide Kept, Tied, Enabled, Next, SendStep, SendsForNothing;
    if SendsForNothing(w, es[0]) {
      ForNothing(w, es[0], overtook);
    } else {
      StepKeeps(w, es[0]);
      StepTies(w, es[0], overtook);
      NothingForNothing(Next(w, es[0]), es[1..], if SendStep(w, es[0]) then w.rejected else overtook);
    }
  }

  /** As long as no snapshot is sent while a rejection waits, an unchanged one is only sent again if it was
      rejected itself. */
  lemma OnlyRejectedResent(notified: bool, rejected: bool, es: seq<Event>)
    requires Runs(First(notified, rejected), es) && !OvertakesIn(First(notified, rejected), es)
    ensures !ForNothingIn(First(notified, rejected), es)
  {
    if ForNothingIn(First(notified, rejected), es) {
      NothingForNothing(First(notified, rejected), es, false);
    }
  }

  lemma StaysQuiet(w: World, e: Event)
    requires Enabled(w, e) && !SendStep(w, e)
    ensures Next(w, e).sent == w.sent && w.refused <= Next(w, e).refused && (w.pub.stopped ==> Next(w, e).pub.stopped)
  {
  }

  lemma {:induction false} NextOnlyOvertaken(w: World, es: seq<Event>, overtook: bool)
    requires Kept(w) && Tied(w, overtook) && Runs(w, es) && NextForNothing(w, es)
    ensures overtook && |w.sent| !in w.refused && !w.pub.stopped
    decreases es
  {
    hide Kept, Tied, Enabled, Next, SendStep, SendsForNothing;
    if SendsForNothing(w, es[0]) {
      ForNothing(w, es[0], overtook);
    } else {
      StepKeeps(w, es[0]);
      StepTies(w, es[0], overtook);
      StaysQuiet(w, es[0]);
      NextOnlyOvertaken(Next(w, es[0]), es[1..], overtook);
    }
  }

  /** A step before a run that does. */
  lemma Before(w: World, e: Event, rest: seq<Event>)
    requires Enabled(w, e) && !SendStep(w, e) && Runs(Next(w, e), rest) && NextForNothing(Next(w, e), rest)
    ensures Runs(w, [e] + rest) && NextForNothing(w, [e] + rest)
  {
    hide Enabled, Next, SendStep;
    assert ([e] + rest)[0] == e && ([e] + rest)[1..] == rest;
  }

  predicate Ripe(w: World) {
    w.sent != [] && w.pub.lastBody == Some(w.sent[|w.sent| - 1]) && |w.sent| !in w.refused && !w.pub.stopped
  }

  /** Forced to send: once there is something to publish, the same is sent again. */
  lemma ForcedForNothing(w: World) returns (es: seq<Event>)
    requires Ripe(w) && w.pub.forceResend
    ensures Runs(w, es) && NextForNothing(w, es)
  {
    var again := Publish(Encoded(w.sent[|w.sent| - 1], true));
    es := [again];
    if w.pub.publishNow {
      assert Runs(Next(w, again), []);
    } else {
      var u := Next(w, Changed);
      var v := Next(u, TakeNotify);
      assert Runs(Next(v, again), []) && Runs(v, [again]) && NextForNothing(v, [again]);
      Before(u, TakeNotify, [again]);
      Before(w, Changed, [TakeNotify] + [again]);
      es := [Changed] + ([TakeNotify] + [again]);
    }
  }

  /** With a rejection waiting: it is taken first. */
  lemma WaitingForNothing(w: World) returns (es: seq<Event>)
    requires Ripe(w) && w.rejected && !w.pub.forceResend
    ensures Runs(w, es) && NextForNothing(w, es)
  {
    hide Runs, NextForNothing;
    var same := Publish(Encoded(w.sent[|w.sent| - 1], true));
    var u := if w.pub.publishNow then Next(w, same) else w;
    var rest := ForcedForNothing(Next(u, TakeReject));
    Before(u, TakeReject, rest);
    es := [TakeReject] + rest;
    if w.pub.publishNow {
      Before(w, same, es);
      es := [same] + es;
    }
  }

  /** After any run, the latest snapshot may yet be sent again for nothing if and only if it was sent while an
      older rejection waited, has not been rejected itself, and the connection still writes. */
  lemma ForNothingIff(notified: bool, rejected: bool, es: seq<Event>)
    requires Runs(First(notified, rejected), es) && After(First(notified, rejected), es).sent != []
    ensures var w := After(First(notified, rejected), es);
            (exists more :: Runs(w, more) && NextForNothing(w, more))
            <==> LastOvertook(First(notified, rejected), es, false) && |w.sent| !in w.refused && !w.pub.stopped
  {
    hide Runs, NextForNothing;
    var w, overtook := After(First(notified, rejected), es), LastOvertook(First(notified, rejected), es, false);
    RunTies(First(notified, rejected), es, false);
    if more :| Runs(w, more) && NextForNothing(w, more) {
      NextOnlyOvertaken(w, more, overtook);
    }
    if overtook && |w.sent| !in w.refused && !w.pub.stopped {
      var more: seq<Event>;
      if w.pub.forceResend {
        more := ForcedForNothing(w);
      } else {
        more := WaitingForNothing(w);
      }
    }
  }

  /** So a rejection may have a snapshot sent again that it is not about: after any run, one sent while a
      rejection waits may be sent twice. */
  lemma StaleRejectResends(notified: bool, rejected: bool, es: seq<Event>, body: string)
    requires Runs(First(notified, rejected), es)
    requires var w := After(First(notified, rejected), es);
             var e := Publish(Encoded(body, true));
             w.rejected && Enabled(w, e) && SendStep(w, e)
    ensures var v := Next(After(First(notified, rejected), es), Publish(Encoded(body, true)));
            exists more :: Runs(v, more) && NextForNothing(v, more)
  {
    hide Runs, NextForNothing;
    RunKeeps(First(notified, rejected), es);
    var v := Next(After(First(notified, rejected), es), Publish(Encoded(body, true)));
    var more := WaitingForNothing(v);
  }

  // ---- what the spoke still owes ----

  /** Finds the snapshot as it was sent last, or sends it. */
  predicate Settles(w: World, e: Event) {
    e.Publish? && e.a.Encoded? && (Sends(w.pub, e.a) || (w.sent != [] && w.sent[|w.sent| - 1] == e.a.body && !w.pub.forceResend))
  }

  /** A snapshot that is to be sent meets a connection that does not write. */
  predicate Breaks(w: World, e: Event) {
    e.Publish? && e.a.Encoded? && !Settles(w, e)
  }

  /** What a history says of its end: is a snapshot owed, did the connection break, what was found last, and do a
      notification and a rejection wait? */
  datatype History = History(owes: bool, broken: bool, found: Option<string>, notified: bool, rejected: bool)

  function Tell(w: World, e: Event, h: History): History {
    match e
    case Publish(a) =>
      History(h.owes && !Settles(w, e), h.broken || Breaks(w, e), if a.Encoded? then Some(a.body) else h.found, h.notified, h.rejected)
    case Changed => h.(notified := true)
    case HubRejects(id) => h.(rejected := h.rejected || id == |w.sent|)
    case TakeNotify => h.(owes := true, notified := false)
    case TakeReject => h.(owes := true, rejected := false)
    case Timer => h
  }

  function Told(w: World, es: seq<Event>, h: History): History
    requires Runs(w, es)
    decreases es
  {
    if es == [] then h else Told(Next(w, es[0]), es[1..], Tell(w, es[0], h))
  }

  /** The world is as its history tells. */
  predicate AsTold(w: World, h: History) {
    && h.owes == w.pub.dirty && h.broken == w.pub.stopped && h.notified == w.notified && h.rejected == w.rejected
    && (w.pub.publishNow || w.pub.armed ==> h.owes) && !(w.pub.publishNow && w.pub.armed)
    && (h.owes && !h.broken ==> w.pub.publishNow || w.pub.armed || w.pub.retries == RETRIES)
    && (!h.owes ==> w.sent != [] && h.found == Some(w.sent[|w.sent| - 1]))
  }

  lemma StepTells(w: World, e: Event, h: History)
    requires Kept(w) && Enabled(w, e) && AsTold(w, h)
    ensures AsTold(Next(w, e), Tell(w, e, h))
  {
  }

  lemma {:induction false} RunTells(w: World, es: seq<Event>, h: History)
    requires Kept(w) && Runs(w, es) && AsTold(w, h)
    ensures Kept(After(w, es)) && AsTold(After(w, es), Told(w, es, h))
    decreases es
  {
    hide Kept, AsTold, Enabled, Next, Tell;
    if es != [] {
      StepKeeps(w, es[0]);
      StepTells(w, es[0], h);
      RunTells(Next(w, es[0]), es[1..], Tell(w, es[0], h));
    }
  }

  /** In every run: a snapshot that is owed will be tried, at once or when the timer fires, unless the connection broke or
      the retries are used up; when nothing is owed nothing is tried, and the hub was sent what was found last.
      Each token is taken once. */
  lemma NothingForgotten(notified: bool, rejected: bool, es: seq<Event>)
    requires Runs(First(notified, rejected), es)
    ensures var w := After(First(notified, rejected), es);
            var h := Told(First(notified, rejected), es, History(true, false, None, notified, rejected));
            && (h.owes && !h.broken ==> w.pub.publishNow || w.pub.armed || w.pub.retries == RETRIES)
            && (w.pub.publishNow || w.pub.armed ==> h.owes)
            && (!h.owes ==> w.sent != [] && h.found == Some(w.sent[|w.sent| - 1]))
            && (Enabled(w, TakeNotify) <==> h.notified && !h.broken && !w.pub.publishNow)
            && (Enabled(w, TakeReject) <==> h.rejected && !h.broken && !w.pub.publishNow)
  {
    RunTells(First(notified, rejected), es, History(true, false, None, notified, rejected));
  }

  /** A change is sent as soon as its notification is taken, whatever happened before. */
  lemma ChangeIsSent(w: World, body: string)
    requires Kept(w) && Enabled(w, TakeNotify) && (w.sent != [] ==> w.sent[|w.sent| - 1] != body)
    ensures Runs(w, [TakeNotify, Publish(Encoded(body, true))])
    ensures After(w, [TakeNotify, Publish(Encoded(body, true))]).sent == w.sent + [body]
  {
    var a := Publish(Encoded(body, true));
    var u := Next(w, TakeNotify);
    RunsOne(u, a, []);
    RunsOne(w, TakeNotify, [a] + []);
    assert [TakeNotify] + ([a] + []) == [TakeNotify, a];
  }

  /** `n` failed attempts, each but the first after the timer. */
  function Failing(n: nat): seq<Event> {
    if n == 0 then [] else if n == 1 then [Publish(Unencodable)] else [Publish(Unencodable)] + ([Timer] + Failing(n - 1))
  }

  lemma {:induction false} FailsAgain(w: World, n: nat)
    requires w.pub.publishNow && w.pub.dirty && !w.pub.stopped && 1 <= n && w.pub.retries + n == 1 + RETRIES
    ensures Runs(w, Failing(n))
    ensures var v := After(w, Failing(n)); v.attempts == w.attempts + n && !v.pub.publishNow && !v.pub.armed && v.pub.dirty
    decreases n
  {
    var u := Next(w, Publish(Unencodable));
    if n == 1 {
      RunsOne(w, Publish(Unencodable), []);
      assert [Publish(Unencodable)] + [] == Failing(1);
    } else {
      FailsAgain(Next(u, Timer), n - 1);
      RunsOne(u, Timer, Failing(n - 1));
      RunsOne(w, Publish(Unencodable), [Timer] + Failing(n - 1));
    }
  }

  /** A notification gives the whole budget again: four attempts can follow it and fail, and then nothing is armed. */
  lemma BudgetRenewed(w: World)
    requires Enabled(w, TakeNotify)
    ensures Runs(w, [TakeNotify] + Failing(4))
    ensures var v := After(w, [TakeNotify] + Failing(4)); v.attempts == 4 && !v.pub.publishNow && !v.pub.armed && v.pub.dirty
  {
    hide Failing;
    FailsAgain(Next(w, TakeNotify), 4);
    RunsOne(w, TakeNotify, Failing(4));
  }

  /** From the hub's rejection of the latest snapshot to that snapshot's second time out, while retries are left. */
  lemma RejectionResends(w: World, body: string)
    requires !w.pub.publishNow && !w.pub.stopped && w.pub.retries < RETRIES
    ensures var es := [HubRejects(|w.sent|)] + [TakeReject, Timer, Publish(Encoded(body, true))];
            Runs(w, es) && After(w, es).sent == w.sent + [body]
  {
    RejectedIsResent(Next(w, HubRejects(|w.sent|)), body);
    RunsOne(w, HubRejects(|w.sent|), [TakeReject, Timer, Publish(Encoded(body, true))]);
  }
}
