/**
 Co-Pilot sessions replacing each other and cleaning up late (app/routers/copilot.py):
 the handler of each socket, the one task it may have in flight, and the endpoints that
 drop a session.

 A step is what runs between two awaits.  `connect` holds the manager's lock across its
 awaits; `cancel_inflight` and the task in flight do not take it.
 */
module CopilotRuns {
  import opened Wrappers
  import opened SlidingWindow
  import opened CopilotRegistry

  datatype Phase =
    | Arrived
    | Replacing(was: Session, task: Task)  // holds the lock, waits for the cancelled task
    | Closing(was: Session)                // holds the lock, waits for the old socket to close
    | Greeting
    | Running
    | Metering(known: bool)                // a message passed; `known`: its session had a user then
    | Cancelling(task: Task)               // cleaning up, waits for the cancelled task
    | Leaving                              // cleaning up, waits for its ping task and its socket
    | Gone
    | Abandoned                            // the greeting failed: returns without cleaning up

  datatype Handler = Handler(user: User, phase: Phase)

  datatype Brain = Brain(session: Session, running: bool)

  datatype State = State(reg: Registry, handlers: map<Session, Handler>, brains: map<Task, Brain>,
          lock: Option<Session>)

  datatype Event =
    | Arrive(s: Session, user: User)
    | BeginConnect(s: Session, socket: Socket, since: Time, balance: int)
    | ResumeConnect(s: Session)
    | FinishConnect(s: Session, socket: Socket, since: Time, balance: int)
    | Greet(s: Session, sent: bool)
    | Message(s: Session, now: Time)
    | Metered(s: Session, start: bool, t: Task)
    | Snapshot(s: Session, snapshot: nat)
    | BrainWrites(t: Task, balance: int)
    | BrainEnds(t: Task)
    | BeginCleanup(s: Session)
    | ResumeCleanup(s: Session)
    | FinishCleanup(s: Session)
    | Drop(s: Session)                     // an endpoint that found the session stale or its socket dead

  predicate IsRunning(st: State, t: Task)
  {
    t in st.brains && st.brains[t].running
  }

  /** What `inflight and not inflight.done()` finds. */
  predicate InFlight(st: State, s: Session)
  {
    s in st.reg.inflight && IsRunning(st, st.reg.inflight[s])
  }

  predicate At(st: State, s: Session, phase: Phase)
  {
    s in st.handlers && st.handlers[s].phase == phase
  }

  ghost predicate Enabled(st: State, e: Event)
  {
    match e
    case Arrive(s, user) => s !in st.handlers
    case BeginConnect(s, socket, since, balance) => At(st, s, Arrived) && st.lock.None?
    case ResumeConnect(s) =>
      s in st.handlers && st.handlers[s].phase.Replacing? && !IsRunning(st, st.handlers[s].phase.task)
    case FinishConnect(s, socket, since, balance) => s in st.handlers && st.handlers[s].phase.Closing?
    case Greet(s, sent) => At(st, s, Greeting)
    case Message(s, now) => At(st, s, Running)
    case Metered(s, start, t) =>
      && s in st.handlers && st.handlers[s].phase.Metering? && t !in st.brains
      && (start ==> st.handlers[s].phase.known)
    case Snapshot(s, snapshot) => At(st, s, Running)
    case BrainWrites(t, balance) => IsRunning(st, t)
    case BrainEnds(t) => IsRunning(st, t)
    case BeginCleanup(s) => s in st.handlers && (st.handlers[s].phase.Running? || st.handlers[s].phase.Metering?)
    case ResumeCleanup(s) =>
      s in st.handlers && st.handlers[s].phase.Cancelling? && !IsRunning(st, st.handlers[s].phase.task)
    case FinishCleanup(s) => At(st, s, Leaving) && st.lock.None?
    case Drop(s) => st.lock.None?
  }

  function With(st: State, s: Session, phase: Phase): State
    requires s in st.handlers
  {
    st.(handlers := st.handlers[s := st.handlers[s].(phase := phase)])
  }

  predicate MayCount(r: Registry, s: Session, now: Time)
  {
    Admits(Times(r.messages, s), Call(now, now), MESSAGE_RULE)
  }

  /** The rate check of one message. */
  function Counted(r: Registry, s: Session, now: Time): (q: Registry)
    ensures q == r.(messages := q.messages)
    ensures forall x :: x != s ==> (x in q.messages <==> x in r.messages)
  {
    r.(messages := r.messages[s := After(Times(r.messages, s), Call(now, now), MESSAGE_RULE)])
  }

  ghost function Next(st: State, e: Event): State
    requires Enabled(st, e)
  {
    match e
    case Arrive(s, user) => st.(handlers := st.handlers[s := Handler(user, Arrived)])
    case BeginConnect(s, socket, since, balance) =>
      var u := st.handlers[s].user;
      var was := OldSession(st.reg, u);
      if was.None? then With(st.(reg := Installed(st.reg, s, u, socket, since, balance)), s, Greeting)
      else if InFlight(st, was.value) then
        With(st.(lock := Some(s)), s, Replacing(was.value, st.reg.inflight[was.value]))
      else With(st.(lock := Some(s), reg := Forget(st.reg, was.value)), s, Closing(was.value))
    case ResumeConnect(s) =>
      var was := st.handlers[s].phase.was;
      With(st.(reg := Forget(st.reg, was)), s, Closing(was))
    case FinishConnect(s, socket, since, balance) =>
      var reg := Installed(Disconnected(st.reg, st.handlers[s].phase.was), s, st.handlers[s].user, socket, since,
        balance);
      With(st.(lock := None, reg := reg), s, Greeting)
    case Greet(s, sent) => With(st, s, if sent then Running else Abandoned)
    case Message(s, now) =>
      var st1 := st.(reg := Counted(st.reg, s, now));
      if MayCount(st.reg, s, now) && !InFlight(st, s) then With(st1, s, Metering(s in st.reg.users)) else st1
    case Metered(s, start, t) =>
      if start then
        With(st.(reg := st.reg.(inflight := st.reg.inflight[s := t]), brains := st.brains[t := Brain(s, true)]), s,
          Running)
      else With(st, s, Running)
    case Snapshot(s, snapshot) => st.(reg := st.reg.(snapshots := st.reg.snapshots[s := snapshot]))
    case BrainWrites(t, balance) =>
      var s := st.brains[t].session;
      st.(reg := st.reg.(balances := st.reg.balances[s := balance], introSeen := st.reg.introSeen[s := true]))
    case BrainEnds(t) =>
      st.(reg := Forget(st.reg, st.brains[t].session), brains := st.brains[t := st.brains[t].(running := false)])
    case BeginCleanup(s) =>
      if InFlight(st, s) then With(st, s, Cancelling(st.reg.inflight[s]))
      else With(st.(reg := Forget(st.reg, s)), s, Leaving)
    case ResumeCleanup(s) => With(st.(reg := Forget(st.reg, s)), s, Leaving)
    case FinishCleanup(s) => With(st.(reg := Disconnected(st.reg, s)), s, Gone)
    case Drop(s) => st.(reg := Disconnected(st.reg, s))
  }

  // ---- The maps agree, in every interleaving ---------------------------------------------------

  predicate HoldsLock(p: Phase) { p.Replacing? || p.Closing? }

  predicate Unregistered(p: Phase) { p.Arrived? || HoldsLock(p) }

  /** Who holds the lock, and that the session it is replacing is still its user's. */
  ghost predicate LockOk(st: State)
  {
    && (forall s :: s in st.handlers && HoldsLock(st.handlers[s].phase) ==>
          st.lock == Some(s) && OldSession(st.reg, st.handlers[s].user) == Some(st.handlers[s].phase.was))
    && (forall s :: s in st.reg.active ==> s in st.handlers && !Unregistered(st.handlers[s].phase))
  }

  ghost predicate Base(st: State)
  {
    Agree(st.reg) && LockOk(st)
  }

  /** Holding the lock for the same session, and as registered as before. */
  predicate SameStanding(p: Phase, q: Phase)
  {
    && HoldsLock(p) == HoldsLock(q) && Unregistered(p) == Unregistered(q)
    && (HoldsLock(p) ==> p.was == q.was)
  }

  /** The maps `Agree` speaks of. */
  ghost predicate SameOwners(r: Registry, q: Registry)
  {
    (q.active, q.userSessions, q.connectedSince, q.users) == (r.active, r.userSessions, r.connectedSince, r.users)
  }

  predicate Registers(e: Event)
  {
    e.BeginConnect? || e.FinishConnect? || e.FinishCleanup? || e.Drop?
  }

  lemma QuietOwners(st: State, e: Event)
    requires Enabled(st, e) && !Registers(e)
    ensures SameOwners(st.reg, Next(st, e).reg)
    ensures Next(st, e).lock == st.lock
    ensures forall s :: s in st.handlers ==> StandsIn(st.handlers[s], Next(st, e), s)
    ensures forall s :: s in Next(st, e).handlers && s !in st.handlers ==> Next(st, e).handlers[s].phase.Arrived?
  {
    hide Counted, MayCount;
  }

  predicate StandsIn(h: Handler, st': State, s: Session)
  {
    s in st'.handlers && st'.handlers[s].user == h.user && SameStanding(h.phase, st'.handlers[s].phase)
  }

  lemma QuietBase(st: State, e: Event)
    requires Enabled(st, e) && !Registers(e) && Base(st)
    ensures Base(Next(st, e))
  {
    QuietOwners(st, e);
    KeepsBase(st, Next(st, e));
  }

  lemma KeepsBase(st: State, st': State)
    requires Base(st) && SameOwners(st.reg, st'.reg) && st'.lock == st.lock
    requires forall s :: s in st.handlers ==> StandsIn(st.handlers[s], st', s)
    requires forall s :: s in st'.handlers && s !in st.handlers ==> st'.handlers[s].phase.Arrived?
    ensures Base(st')
  {
    assert Agree(st'.reg);
    hide Agree;
    forall s | s in st'.handlers && HoldsLock(st'.handlers[s].phase)
      ensures st'.lock == Some(s) && OldSession(st'.reg, st'.handlers[s].user) == Some(st'.handlers[s].phase.was)
    {
      if s in st.handlers { assert StandsIn(st.handlers[s], st', s); }
    }
    forall s | s in st'.reg.active ensures s in st'.handlers && !Unregistered(st'.handlers[s].phase) {
      assert StandsIn(st.handlers[s], st', s);
    }
  }

  lemma BeginBase(st: State, e: Event)
    requires Enabled(st, e) && e.BeginConnect? && Base(st)
    ensures Base(Next(st, e))
  {
    var u := st.handlers[e.s].user;
    if OldSession(st.reg, u).None? {
      InstalledAgrees(st.reg, e.s, u, e.socket, e.since, e.balance);
    }
  }

  lemma FinishBase(st: State, e: Event)
    requires Enabled(st, e) && e.FinishConnect? && Base(st)
    ensures Base(Next(st, e))
  {
    var was, u := st.handlers[e.s].phase.was, st.handlers[e.s].user;
    var reg := Disconnected(st.reg, was);
    DisconnectedAgrees(st.reg, was);
    assert u !in reg.userSessions && e.s !in reg.active;
    InstalledAgrees(reg, e.s, u, e.socket, e.since, e.balance);
  }

  lemma RemoveBase(st: State, e: Event)
    requires Enabled(st, e) && (e.FinishCleanup? || e.Drop?) && Base(st)
    ensures Base(Next(st, e))
  {
    DisconnectedAgrees(st.reg, e.s);
  }

  lemma BaseStep(st: State, e: Event)
    requires Enabled(st, e) && Base(st)
    ensures Base(Next(st, e))
  {
    hide Next, Base, Enabled;
    if !Registers(e) { QuietBase(st, e); }
    else if e.BeginConnect? { BeginBase(st, e); }
    else if e.FinishConnect? { FinishBase(st, e); }
    else { RemoveBase(st, e); }
  }

  // ---- Runs -------------------------------------------------------------------------------------------

  ghost predicate IsRun(tr: seq<State>, es: seq<Event>)
  {
    && |tr| == |es| + 1 && tr[0] == State(EMPTY, map[], map[], None)
    && forall i :: 0 <= i < |es| ==> Enabled(tr[i], es[i]) && tr[i + 1] == Next(tr[i], es[i])
  }

  lemma {:induction false} RunBase(tr: seq<State>, es: seq<Event>, i: nat)
    requires IsRun(tr, es) && i < |tr|
    ensures Base(tr[i])
  {
    if i > 0 {
      RunBase(tr, es, i - 1);
      assert Enabled(tr[i - 1], es[i - 1]) && tr[i - 1 + 1] == Next(tr[i - 1], es[i - 1]);
      BaseStep(tr[i - 1], es[i - 1]);
    }
  }

  /** In every reachable state no two users share a session, the sessions of users are the
      live ones, and those are the ones with a connection time. */
  lemma EveryStateAgrees(tr: seq<State>, es: seq<Event>, i: nat)
    requires IsRun(tr, es) && i < |tr|
    ensures var r := tr[i].reg;
      && (forall u, v :: u in r.userSessions && v in r.userSessions && r.userSessions[u] == r.userSessions[v] ==>
        u == v)
      && (forall s :: s in r.active <==> exists u :: u in r.userSessions && r.userSessions[u] == s)
      && r.active.Keys == r.connectedSince.Keys
  {
    RunBase(tr, es, i);
    AgreeMeansOneToOne(tr[i].reg);
  }

  /** The late cleanup of a replaced session changes no user's session and nothing of any
      other session. */
  lemma LateCleanupSparesTheReplacement(tr: seq<State>, es: seq<Event>, i: nat)
    requires IsRun(tr, es) && i < |es| && es[i].FinishCleanup? && es[i].s !in tr[i].reg.active
    ensures SameOwners(tr[i].reg, tr[i + 1].reg)
    ensures SameForOthers(tr[i].reg, tr[i + 1].reg, es[i].s)
    ensures !Mentions(tr[i + 1].reg, es[i].s)
  {
    RunBase(tr, es, i);
    var s := es[i].s;
    assert Enabled(tr[i], es[i]) && tr[i + 1] == Next(tr[i], es[i]);
    assert tr[i + 1].reg == Disconnected(tr[i].reg, s);
    LateDisconnectedChangesNoOwner(tr[i].reg, s);
    DisconnectedExactly(tr[i].reg, s);
  }

  // ---- What connecting and cleaning up lead to -----------------------------------------------------

  /** The task registered for the session runs. */
  predicate Busy(st: State, s: Session)
  {
    s in st.reg.inflight && st.reg.inflight[s] in st.brains && st.brains[st.reg.inflight[s]].running
  }

  /** The session is its user's, on this socket. */
  predicate Registered(r: Registry, s: Session, u: User, socket: Socket, since: Time, balance: int)
  {
    && u in r.userSessions && r.userSessions[u] == s && s in r.active && r.active[s] == socket
    && s in r.connectedSince && r.connectedSince[s] == since && s in r.users && r.users[s] == u
    && s in r.balances && r.balances[s] == balance
  }

  /** Connecting registers the session at once, unless its user has another one: then it waits
      for that one's task, if it runs, and for its socket. */
  lemma ConnectAnswer(tr: seq<State>, es: seq<Event>, i: nat)
    requires IsRun(tr, es) && i < |es| && es[i].BeginConnect?
    ensures var e, st, st' := es[i], tr[i], tr[i + 1];
      && e.s in st.handlers && e.s in st'.handlers
      && var u := st.handlers[e.s].user;
      if u in st.reg.userSessions then
        var was := st.reg.userSessions[u];
        && st'.lock == Some(e.s) && SameOwners(st.reg, st'.reg)
        && if Busy(st, was) then st'.handlers[e.s].phase == Replacing(was, st.reg.inflight[was]) && st'.reg == st.reg
           else st'.handlers[e.s].phase == Closing(was) && was !in st'.reg.inflight
      else
        && st'.handlers[e.s].phase == Greeting && st'.lock.None?
        && Registered(st'.reg, e.s, u, e.socket, e.since, e.balance)
  {
    RunBase(tr, es, i);
    assert Enabled(tr[i], es[i]) && tr[i + 1] == Next(tr[i], es[i]);
    hide LockOk;
  }

  /** The replacement leaves no trace of the session it replaces. */
  lemma ReplacementAnswer(tr: seq<State>, es: seq<Event>, i: nat)
    requires IsRun(tr, es) && i < |es| && es[i].FinishConnect?
    ensures var e, st, st' := es[i], tr[i], tr[i + 1];
      && e.s in st.handlers && st.handlers[e.s].phase.Closing? && e.s in st'.handlers
      && st'.handlers[e.s].phase == Greeting && st'.lock.None?
      && Registered(st'.reg, e.s, st.handlers[e.s].user, e.socket, e.since, e.balance)
      && st.handlers[e.s].phase.was != e.s && !Mentions(st'.reg, st.handlers[e.s].phase.was)
  {
    RunBase(tr, es, i);
    var was := tr[i].handlers[es[i].s].phase.was;
    assert Enabled(tr[i], es[i]) && tr[i + 1] == Next(tr[i], es[i]);
    assert was in tr[i].reg.active && !Unregistered(tr[i].handlers[was].phase);
    DisconnectedExactly(tr[i].reg, was);
    hide Disconnected;
  }

  /** With nothing else running in between, and no task to wait for, the steps of a connection
      are together the one that `Connect` is proved against. */
  lemma ConnectsAlone(st: State, s: Session, socket: Socket, since: Time, balance: int)
    requires Enabled(st, BeginConnect(s, socket, since, balance)) && Base(st)
    requires var u := st.handlers[s].user;
      u in st.reg.userSessions ==> !Busy(st, st.reg.userSessions[u])
    ensures var u, st1 := st.handlers[s].user, Next(st, BeginConnect(s, socket, since, balance));
      var q := Connected(st.reg, s, u, socket, since, balance);
      if u in st.reg.userSessions then
        && Enabled(st1, FinishConnect(s, socket, since, balance))
        && Next(st1, FinishConnect(s, socket, since, balance)).reg == q
      else st1.reg == q
  {
    var u := st.handlers[s].user;
    if u in st.reg.userSessions {
      var was := st.reg.userSessions[u];
      assert was in st.reg.active;
      ForgottenDisconnects(st.reg, was);
      hide Disconnected, Installed, Forget;
    }
  }

  lemma ForgottenDisconnects(r: Registry, s: Session)
    ensures Disconnected(Forget(r, s), s) == Disconnected(r, s)
  {
  }

  /** A handler that goes waits for the task registered for its session, if it runs. */
  lemma CleanupAnswer(st: State, s: Session)
    requires Enabled(st, BeginCleanup(s))
    ensures var st' := Next(st, BeginCleanup(s));
      && s in st'.handlers
      && if Busy(st, s) then st'.handlers[s].phase == Cancelling(st.reg.inflight[s]) && st'.reg == st.reg
         else st'.handlers[s].phase == Leaving && s !in st'.reg.inflight && SameOwners(st.reg, st'.reg)
  {
  }
}
