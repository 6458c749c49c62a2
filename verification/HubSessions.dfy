/** Which session the hub hands out: registrations, their readers ending, and closing the hub, in
    every order the locks allow. */
module HubSessions {
  import opened Wire

  /** Registered: installed, its registration not finished. Expired: the registration timed out after it was
      installed; its connection is dropped. Running, Ending, Ended: its reader runs, has closed it, has cleared it. */
  datatype Phase = Registered | Expired | Running | Ending | Ended

  /** `taken`: the hub is being closed with this session and will close it. */
  datatype Session = Session(closed: bool, phase: Phase, taken: bool)

  datatype Hub = Hub(current: Option<nat>, sessions: seq<Session>)

  datatype Action =
    | Install            // replaceSession: closes the old session, installs a new one
    | Run(s: nat)
    | Expire(s: nat)     // the timeout in handleRegister: clearSession only
    | CloseEnded(s: nat) // the end of runSession: closeWithReason ...
    | Clear(s: nat)      // ... then clearSession
    | TakeDown           // Hub.Close: takes the session under the lock ...
    | CloseTaken(s: nat) // ... and closes it outside

  const EMPTY := Hub(None, [])

  predicate Enabled(h: Hub, a: Action) {
    match a
    case Install => true
    case Run(s) => s < |h.sessions| && h.sessions[s].phase == Registered
    case Expire(s) => s < |h.sessions| && h.sessions[s].phase == Registered
    case CloseEnded(s) => s < |h.sessions| && h.sessions[s].phase == Running
    case Clear(s) => s < |h.sessions| && h.sessions[s].phase == Ending
    case TakeDown => true
    case CloseTaken(s) => s < |h.sessions| && h.sessions[s].taken
  }

  function Set(h: Hub, s: nat, v: Session): Hub
    requires s < |h.sessions|
  {
    h.(sessions := h.sessions[s := v])
  }

  /** clearSession: only the session itself is removed. */
  function ClearIf(h: Hub, s: nat): Hub {
    if h.current == Some(s) then h.(current := None) else h
  }

  function CloseIf(h: Hub, s: Option<nat>): Hub {
    if s.Some? && s.value < |h.sessions| then Set(h, s.value, h.sessions[s.value].(closed := true)) else h
  }

  function Next(h: Hub, a: Action): Hub
    requires Enabled(h, a)
  {
    match a
    case Install =>
      var g := CloseIf(h, h.current);
      Hub(Some(|g.sessions|), g.sessions + [Session(false, Registered, false)])
    case Run(s) => Set(h, s, h.sessions[s].(phase := Running))
    case Expire(s) => Set(ClearIf(h, s), s, h.sessions[s].(phase := Expired))
    case CloseEnded(s) => Set(h, s, h.sessions[s].(closed := true, phase := Ending))
    case Clear(s) => Set(ClearIf(h, s), s, h.sessions[s].(phase := Ended))
    case TakeDown =>
      if h.current.Some? && h.current.value < |h.sessions|
      then Set(h.(current := None), h.current.value, h.sessions[h.current.value].(taken := true))
      else h.(current := None)
    case CloseTaken(s) => Set(h, s, h.sessions[s].(closed := true, taken := false))
  }

  predicate Runs(h: Hub, actions: seq<Action>)
    decreases actions
  {
    actions == [] || (Enabled(h, actions[0]) && Runs(Next(h, actions[0]), actions[1..]))
  }

  function After(h: Hub, actions: seq<Action>): Hub
    requires Runs(h, actions)
    decreases actions
  {
    if actions == [] then h else After(Next(h, actions[0]), actions[1..])
  }

  /** A session is in use, closed, about to be closed, or was dropped at its registration. */
  predicate Accounted(h: Hub, s: nat)
    requires s < |h.sessions|
  {
    h.current == Some(s) || h.sessions[s].closed || h.sessions[s].taken || h.sessions[s].phase == Expired
  }

  /** What is known of the session handed out. */
  predicate InUse(s: Session) {
    s.phase != Expired && !s.taken && (s.phase == Registered ==> !s.closed)
  }

  predicate Kept(h: Hub) {
    && (h.current.Some? ==> h.current.value == |h.sessions| - 1)
    && (h.current.Some? ==> InUse(h.sessions[h.current.value]))
    && (forall s :: 0 <= s < |h.sessions| ==> Accounted(h, s))
    && (forall s :: 0 <= s < |h.sessions| ==> (h.sessions[s].phase in {Ending, Ended} ==> h.sessions[s].closed))
  }

  lemma StepKeeps(h: Hub, a: Action)
    requires Kept(h) && Enabled(h, a)
    ensures Kept(Next(h, a))
  {
    var g := Next(h, a);
    forall s | 0 <= s < |g.sessions| ensures Accounted(g, s) {
      assert s < |h.sessions| ==> Accounted(h, s);
    }
  }

  lemma {:induction false} RunKeeps(h: Hub, actions: seq<Action>)
    requires Kept(h) && Runs(h, actions)
    ensures Kept(After(h, actions))
    decreases actions
  {
    hide Kept, Enabled, Next;
    if actions != [] {
      StepKeeps(h, actions[0]);
      RunKeeps(Next(h, actions[0]), actions[1..]);
    }
  }

  /** In every run the hub hands out the session installed last, or none; so the late end of an earlier
      one, or the late timeout of its registration, however late, never takes it away. */
  lemma LateClearIsHarmless(actions: seq<Action>, s: nat)
    requires Runs(EMPTY, actions) && s < |After(EMPTY, actions).sessions| - 1
    ensures var h := After(EMPTY, actions);
            && (Enabled(h, Clear(s)) ==> Next(h, Clear(s)).current == h.current)
            && (Enabled(h, Expire(s)) ==> Next(h, Expire(s)).current == h.current)
            && (h.current.Some? ==> h.current.value == |h.sessions| - 1)
  {
    RunKeeps(EMPTY, actions);
  }

  // ---- abandoned sessions ----

  /** A session the hub no longer hands out, that is not closed, and that nobody is about to close. */
  predicate Abandoned(h: Hub, s: nat) {
    s < |h.sessions| && h.current != Some(s) && !h.sessions[s].closed && !h.sessions[s].taken
  }

  /** The registration times out while its session is the one handed out. */
  predicate Drops(h: Hub, a: Action, s: nat) {
    a == Expire(s) && h.current == Some(s)
  }

  predicate DropsIn(h: Hub, actions: seq<Action>, s: nat)
    requires Runs(h, actions)
    decreases actions
  {
    actions != [] && (Drops(h, actions[0], s) || DropsIn(Next(h, actions[0]), actions[1..], s))
  }

  lemma StepAbandons(h: Hub, a: Action, s: nat)
    requires Kept(h) && Enabled(h, a)
    ensures Abandoned(Next(h, a), s) <==> Abandoned(h, s) || Drops(h, a, s)
  {
    if s < |h.sessions| {
      assert Accounted(h, s);
    }
  }

  lemma {:induction false} RunAbandons(h: Hub, actions: seq<Action>, s: nat)
    requires Kept(h) && Runs(h, actions)
    ensures Abandoned(After(h, actions), s) <==> Abandoned(h, s) || DropsIn(h, actions, s)
    decreases actions
  {
    hide Kept, Enabled, Next, Abandoned, Drops;
    if actions != [] {
      StepKeeps(h, actions[0]);
      StepAbandons(h, actions[0], s);
      RunAbandons(Next(h, actions[0]), actions[1..], s);
    }
  }

  /** In every run, a session is abandoned exactly if its registration timed out while the hub was handing
      it out. */
  lemma AbandonedIff(actions: seq<Action>, s: nat)
    requires Runs(EMPTY, actions) && s < |After(EMPTY, actions).sessions|
    ensures var h := After(EMPTY, actions);
            !(h.current == Some(s) || h.sessions[s].closed || h.sessions[s].taken) <==> DropsIn(EMPTY, actions, s)
  {
    RunAbandons(EMPTY, actions, s);
  }

  /** Otherwise a session the hub no longer hands out is closed, or will be by the one who took it. */
  lemma NoSessionAbandoned(actions: seq<Action>, s: nat)
    requires Runs(EMPTY, actions) && !DropsIn(EMPTY, actions, s) && s < |After(EMPTY, actions).sessions|
    ensures var h := After(EMPTY, actions);
            h.current == Some(s) || h.sessions[s].closed || (h.sessions[s].taken && Next(h, CloseTaken(s)).sessions[s].closed)
  {
    AbandonedIff(actions, s);
  }

  /** Once abandoned, a session is never closed by anyone: whoever got hold of it waits on it in vain. */
  lemma ExpiredStaysOpen(actions: seq<Action>, more: seq<Action>, s: nat)
    requires Runs(EMPTY, actions) && DropsIn(EMPTY, actions, s) && Runs(After(EMPTY, actions), more)
    ensures Abandoned(After(After(EMPTY, actions), more), s)
  {
    RunKeeps(EMPTY, actions);
    RunAbandons(EMPTY, actions, s);
    RunAbandons(After(EMPTY, actions), more, s);
  }

  /** It can happen to every session: in any run that has just installed one, the timeout of its registration
      abandons it. */
  lemma ExpiryAbandons(actions: seq<Action>)
    requires Runs(EMPTY, actions)
    ensures var h := Next(After(EMPTY, actions), Install);
            var s := |h.sessions| - 1;
            Enabled(h, Expire(s)) && Abandoned(Next(h, Expire(s)), s)
  {
    RunKeeps(EMPTY, actions);
    var h := Next(After(EMPTY, actions), Install);
    StepKeeps(After(EMPTY, actions), Install);
    StepAbandons(h, Expire(|h.sessions| - 1), |h.sessions| - 1);
  }

  // ---- when a session is closed ----

  /** Closes session `s`: a successor is installed, its own reader ends, or Hub.Close comes to it. */
  predicate Closes(h: Hub, a: Action, s: nat) {
    (a == Install && h.current == Some(s)) || a == CloseEnded(s) || a == CloseTaken(s)
  }

  predicate ClosesIn(h: Hub, actions: seq<Action>, s: nat)
    requires Runs(h, actions)
    decreases actions
  {
    actions != [] && (Closes(h, actions[0], s) || ClosesIn(Next(h, actions[0]), actions[1..], s))
  }

  predicate IsClosed(h: Hub, s: nat) {
    s < |h.sessions| && h.sessions[s].closed
  }

  lemma StepCloses(h: Hub, a: Action, s: nat)
    requires Kept(h) && Enabled(h, a)
    ensures IsClosed(Next(h, a), s) <==> IsClosed(h, s) || Closes(h, a, s)
  {
  }

  lemma {:induction false} RunCloses(h: Hub, actions: seq<Action>, s: nat)
    requires Kept(h) && Runs(h, actions)
    ensures IsClosed(After(h, actions), s) <==> IsClosed(h, s) || ClosesIn(h, actions, s)
    decreases actions
  {
    hide Kept, Enabled, Next, IsClosed, Closes;
    if actions != [] {
      StepKeeps(h, actions[0]);
      StepCloses(h, actions[0], s);
      RunCloses(Next(h, actions[0]), actions[1..], s);
    }
  }

  /** A session is closed exactly if it was replaced, its reader ended, or Hub.Close came to it. */
  lemma ClosedIff(actions: seq<Action>, s: nat)
    requires Runs(EMPTY, actions) && s < |After(EMPTY, actions).sessions|
    ensures After(EMPTY, actions).sessions[s].closed <==> ClosesIn(EMPTY, actions, s)
  {
    RunCloses(EMPTY, actions, s);
  }

  /** The end of a session's reader: it closes the session, and then nothing but a newer session is handed out. */
  lemma EndRuns(h: Hub, s: nat)
    requires Kept(h) && Enabled(h, CloseEnded(s))
    ensures Runs(h, [CloseEnded(s), Clear(s)])
    ensures var g := After(h, [CloseEnded(s), Clear(s)]);
            && s < |g.sessions| && g.sessions[s].closed && g.current == (if h.current == Some(s) then None else h.current)
            && !Enabled(g, CloseEnded(s)) && !Enabled(g, Clear(s))
  {
    var u := Next(h, CloseEnded(s));
    var g := Next(u, Clear(s));
    assert [CloseEnded(s), Clear(s)][1..] == [Clear(s)] && [Clear(s)][1..] == [];
    assert Runs(g, []) && After(g, []) == g;
    assert Runs(u, [Clear(s)]) && After(u, [Clear(s)]) == g;
  }

  /** Hub.Close: the session handed out is taken and closed, once, and none is handed out any more. */
  lemma HubCloses(h: Hub, s: nat)
    requires Kept(h) && h.current == Some(s)
    ensures Runs(h, [TakeDown, CloseTaken(s)])
    ensures var g := After(h, [TakeDown, CloseTaken(s)]);
            s < |g.sessions| && g.sessions[s].closed && g.current == None && !Enabled(g, CloseTaken(s))
  {
    var u := Next(h, TakeDown);
    var g := Next(u, CloseTaken(s));
    assert [TakeDown, CloseTaken(s)][1..] == [CloseTaken(s)] && [CloseTaken(s)][1..] == [];
    assert Runs(g, []) && After(g, []) == g;
    assert Runs(u, [CloseTaken(s)]) && After(u, [CloseTaken(s)]) == g;
  }
}
