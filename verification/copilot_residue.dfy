/**
 What a Co-Pilot session leaves behind (app/routers/copilot.py).

 Dropping or replacing a session throws away the entry of its task without knowing
 whether the task still runs.  Such a task is not waited for by the cleanup and writes
 about its session afterwards.  `CleanupIsFinalIff` says exactly when a cleanup is the
 end of a session, and `CarefulSessionsAreForgotten` what the manager could look at so
 that it always is.
 */
module CopilotResidue {
  import opened Wrappers
  import opened SlidingWindow
  import opened CopilotRegistry
  import opened CopilotRuns

  // ---- What a step does to the tasks and their entries ----------------------------------------

  /** The session whose task entry a step throws away without having waited for it. */
  function Forgets(st: State, e: Event): Option<Session>
  {
    match e
    case ResumeConnect(s) =>
      if s in st.handlers && st.handlers[s].phase.Replacing? then Some(st.handlers[s].phase.was) else None
    case FinishConnect(s, _, _, _) =>
      if s in st.handlers && st.handlers[s].phase.Closing? then Some(st.handlers[s].phase.was) else None
    case Drop(s) => Some(s)
    case _ => None
  }

  /** The session whose task entry a step removes. */
  function Removes(st: State, e: Event): Option<Session>
  {
    match e
    case BeginConnect(s, _, _, _) =>
      var was := if s in st.handlers then OldSession(st.reg, st.handlers[s].user) else None;
      if was.Some? && !InFlight(st, was.value) then was else None
    case BrainEnds(t) => if t in st.brains then Some(st.brains[t].session) else None
    case BeginCleanup(s) => if InFlight(st, s) then None else Some(s)
    case ResumeCleanup(s) => Some(s)
    case FinishCleanup(s) => Some(s)
    case _ => Forgets(st, e)
  }

  function InflightAfter(st: State, e: Event): map<Session, Task>
  {
    if e.Metered? && e.start then st.reg.inflight[e.s := e.t]
    else if Removes(st, e).Some? then st.reg.inflight - {Removes(st, e).value}
    else st.reg.inflight
  }

  function BrainsAfter(st: State, e: Event): map<Task, Brain>
  {
    if e.Metered? && e.start then st.brains[e.t := Brain(e.s, true)]
    else if e.BrainEnds? && e.t in st.brains then st.brains[e.t := st.brains[e.t].(running := false)]
    else st.brains
  }

  lemma TasksAfter(st: State, e: Event)
    requires Enabled(st, e)
    ensures Next(st, e).reg.inflight == InflightAfter(st, e) && Next(st, e).brains == BrainsAfter(st, e)
  {
    hide Next, Enabled, InflightAfter, BrainsAfter;
    if Registers(e) { TasksAfterRegistering(st, e); } else { TasksAfterOther(st, e); }
  }

  lemma TasksAfterRegistering(st: State, e: Event)
    requires Enabled(st, e) && Registers(e)
    ensures Next(st, e).reg.inflight == InflightAfter(st, e) && Next(st, e).brains == BrainsAfter(st, e)
  {
    hide OldSession, InFlight;
  }

  lemma TasksAfterOther(st: State, e: Event)
    requires Enabled(st, e) && !Registers(e)
    ensures Next(st, e).reg.inflight == InflightAfter(st, e) && Next(st, e).brains == BrainsAfter(st, e)
  {
    hide Counted, MayCount, OldSession, InFlight, Installed, Disconnected;
  }

  /** The one session a step can write about. */
  function Writes(st: State, e: Event): Option<Session>
  {
    match e
    case BeginConnect(s, _, _, _) =>
      if s in st.handlers && OldSession(st.reg, st.handlers[s].user).None? then Some(s) else None
    case FinishConnect(s, _, _, _) => Some(s)
    case Message(s, _) => Some(s)
    case Metered(s, _, _) => Some(s)
    case Snapshot(s, _) => Some(s)
    case BrainWrites(t, _) => if t in st.brains then Some(st.brains[t].session) else None
    case _ => None
  }

  lemma RemovalMentionsLess(r: Registry, s: Session, x: Session)
    requires !Mentions(r, x)
    ensures !Mentions(Disconnected(r, s), x) && !Mentions(Forget(r, s), x)
  {
  }

  lemma InstallMentionsOne(r: Registry, s: Session, u: User, socket: Socket, since: Time, balance: int, x: Session)
    requires !Mentions(r, x) && x != s
    ensures !Mentions(Installed(r, s, u, socket, since, balance), x)
  {
  }

  lemma OthersNotMentioned(st: State, e: Event, x: Session)
    requires Enabled(st, e) && !Mentions(st.reg, x) && Writes(st, e) != Some(x)
    ensures !Mentions(Next(st, e).reg, x)
  {
    hide Next, Mentions, Enabled, Writes;
    if Registers(e) { OthersNotRegistered(st, e, x); } else { OthersNotWritten(st, e, x); }
  }

  lemma OthersNotWritten(st: State, e: Event, x: Session)
    requires Enabled(st, e) && !Registers(e) && !Mentions(st.reg, x) && Writes(st, e) != Some(x)
    ensures !Mentions(Next(st, e).reg, x)
  {
    QuietOwners(st, e);
    OtherEntries(st, e, x);
    hide Next, Enabled, Registers, Writes;
  }

  lemma OtherEntries(st: State, e: Event, x: Session)
    requires Enabled(st, e) && !Registers(e) && Writes(st, e) != Some(x)
    ensures var r, q := st.reg, Next(st, e).reg;
      && (x in q.balances ==> x in r.balances) && (x in q.inflight ==> x in r.inflight)
      && (x in q.snapshots ==> x in r.snapshots) && (x in q.introSeen ==> x in r.introSeen)
      && (x in q.messages ==> x in r.messages)
  {
    hide Counted, MayCount, InFlight, Disconnected, Installed, OldSession;
  }

  lemma OthersNotRegistered(st: State, e: Event, x: Session)
    requires Enabled(st, e) && Registers(e) && !Mentions(st.reg, x) && Writes(st, e) != Some(x)
    ensures !Mentions(Next(st, e).reg, x)
  {
    hide Mentions, Disconnected, Installed, Forget;
    match e {
      case BeginConnect(s, socket, since, balance) =>
        var was := OldSession(st.reg, st.handlers[s].user);
        if was.Some? {
          RemovalMentionsLess(st.reg, was.value, x);
        } else {
          InstallMentionsOne(st.reg, s, st.handlers[s].user, socket, since, balance, x);
        }
      case FinishConnect(s, socket, since, balance) =>
        var was := st.handlers[s].phase.was;
        RemovalMentionsLess(st.reg, was, x);
        InstallMentionsOne(Disconnected(st.reg, was), s, st.handlers[s].user, socket, since, balance, x);
      case FinishCleanup(s) => RemovalMentionsLess(st.reg, s, x);
      case Drop(s) => RemovalMentionsLess(st.reg, s, x);
    }
  }

  lemma GoneStays(st: State, e: Event, s: Session)
    requires Enabled(st, e) && At(st, s, Gone)
    ensures At(Next(st, e), s, Gone)
  {
    hide Counted, MayCount, Disconnected, Installed, OldSession;
  }

  // ---- Exactly when a cleaned-up session comes back -----------------------------------------

  /** Any steps from a given state. */
  ghost predicate IsPath(st: State, tr: seq<State>, es: seq<Event>)
  {
    && |tr| == |es| + 1 && tr[0] == st
    && forall i :: 0 <= i < |es| ==> Enabled(tr[i], es[i]) && tr[i + 1] == Next(tr[i], es[i])
  }

  predicate RunsFor(st: State, t: Task, s: Session)
  {
    IsRunning(st, t) && st.brains[t].session == s
  }

  ghost predicate Idle(st: State, s: Session)
  {
    forall t :: !RunsFor(st, t, s)
  }

  lemma IdleStep(st: State, e: Event, s: Session)
    requires Enabled(st, e) && At(st, s, Gone) && Idle(st, s)
    ensures Idle(Next(st, e), s)
  {
    TasksAfter(st, e);
    GoneStartsNothing(st, e, s);
    hide Next, Enabled, Removes, InflightAfter;
    forall t ensures !RunsFor(Next(st, e), t, s) {
      assert !RunsFor(st, t, s);
    }
  }

  lemma GoneStartsNothing(st: State, e: Event, s: Session)
    requires Enabled(st, e) && At(st, s, Gone)
    ensures e.Metered? ==> e.s != s
    ensures Writes(st, e) == Some(s) ==> e.BrainWrites? && RunsFor(st, e.t, s)
  {
    hide OldSession;
  }

  lemma {:induction false} IdleIsForgotten(st: State, tr: seq<State>, es: seq<Event>, i: nat, s: Session)
    requires IsPath(st, tr, es) && i < |tr| && At(st, s, Gone) && Idle(st, s) && !Mentions(st.reg, s)
    ensures At(tr[i], s, Gone) && Idle(tr[i], s) && !Mentions(tr[i].reg, s)
  {
    hide Next, Enabled, Mentions, Idle;
    if i > 0 {
      var u, e := tr[i - 1], es[i - 1];
      IdleIsForgotten(st, tr, es, i - 1, s);
      assert Enabled(u, e) && tr[i - 1 + 1] == Next(u, e);
      GoneStays(u, e, s);
      IdleStep(u, e, s);
      NothingWritten(u, e, s);
      OthersNotMentioned(u, e, s);
    }
  }

  lemma NothingWritten(st: State, e: Event, s: Session)
    requires Enabled(st, e) && At(st, s, Gone) && Idle(st, s)
    ensures Writes(st, e) != Some(s)
  {
    GoneStartsNothing(st, e, s);
    hide Enabled, Writes;
  }

  /** Some steps from here mention the session again. */
  ghost predicate ComesBack(st: State, s: Session)
  {
    exists tr: seq<State>, es: seq<Event>, i: nat :: IsPath(st, tr, es) && i < |tr| && Mentions(tr[i].reg, s)
  }

  lemma RunningWrites(st: State, t: Task, s: Session)
    requires RunsFor(st, t, s)
    ensures ComesBack(st, s)
  {
    var e := BrainWrites(t, 0);
    var tr := [st, Next(st, e)];
    assert s in tr[1].reg.balances;
    hide Next;
    assert IsPath(st, tr, [e]) && Mentions(tr[1].reg, s);
  }

  /**
   The cleanup of a session leaves no mention of it, and none ever comes back, exactly when
   none of its own tasks still runs at that moment, whatever else has happened or happens.
   */
  lemma CleanupIsFinalIff(tr: seq<State>, es: seq<Event>, i: nat)
    requires IsRun(tr, es) && i < |es| && es[i].FinishCleanup?
    ensures !Mentions(tr[i + 1].reg, es[i].s)
    ensures !ComesBack(tr[i + 1], es[i].s) <==> Idle(tr[i], es[i].s)
  {
    var st, e, s := tr[i], es[i], es[i].s;
    assert Enabled(st, e) && tr[i + 1] == Next(st, e);
    DisconnectedExactly(st.reg, s);
    TasksAfter(st, e);
    assert At(tr[i + 1], s, Gone) && tr[i + 1].brains == st.brains;
    hide Next, Mentions, ComesBack;
    if Idle(st, s) {
      assert Idle(tr[i + 1], s) by { SameTasksIdle(st, tr[i + 1], s); }
      NeverComesBack(tr[i + 1], s);
    } else {
      var t :| RunsFor(st, t, s);
      assert RunsFor(tr[i + 1], t, s);
      RunningWrites(tr[i + 1], t, s);
    }
  }

  lemma SameTasksIdle(st: State, st': State, s: Session)
    requires Idle(st, s) && st'.brains == st.brains
    ensures Idle(st', s)
  {
    forall t ensures !RunsFor(st', t, s) { assert !RunsFor(st, t, s); }
  }

  lemma NeverComesBack(st: State, s: Session)
    requires At(st, s, Gone) && Idle(st, s) && !Mentions(st.reg, s)
    ensures !ComesBack(st, s)
  {
    hide Mentions, Next, Enabled, Idle;
    forall tr: seq<State>, es: seq<Event>, i: nat | IsPath(st, tr, es) && i < |tr| ensures !Mentions(tr[i].reg, s) {
      IdleIsForgotten(st, tr, es, i, s);
    }
  }

  // ---- What the manager could look at -------------------------------------------------------------

  /** No task of this session runs under an entry of it that is thrown away. */
  predicate Careful(st: State, e: Event, s: Session)
  {
    Forgets(st, e) == Some(s) ==> !InFlight(st, s)
  }

  /** Every task of the session that runs is the one registered. */
  ghost predicate Tracked(st: State, s: Session)
  {
    forall t :: RunsFor(st, t, s) ==> s in st.reg.inflight && st.reg.inflight[s] == t
  }

  /** A task runs only while its handler receives messages or waits for it. */
  ghost predicate Staged(st: State, s: Session)
  {
    forall t :: RunsFor(st, t, s) ==> At(st, s, Running) || At(st, s, Cancelling(t))
  }

  /** A task is registered under its own session. */
  ghost predicate Owned(st: State, s: Session)
  {
    s in st.reg.inflight ==> st.reg.inflight[s] in st.brains && st.brains[st.reg.inflight[s]].session == s
  }

  predicate Quiet(st: State, s: Session)
  {
    s in st.handlers ==> Unregistered(st.handlers[s].phase) || st.handlers[s].phase.Gone?
  }

  /** A session that is not connected yet, or has been cleaned up, is in no map. */
  ghost predicate Silent(st: State, s: Session)
  {
    Quiet(st, s) ==> !Mentions(st.reg, s)
  }

  ghost predicate Inv(st: State, s: Session)
  {
    Tracked(st, s) && Owned(st, s) && Staged(st, s) && Silent(st, s)
  }

  lemma RunsAsRegistered(st: State, t: Task, s: Session)
    requires Tracked(st, s) && Staged(st, s) && RunsFor(st, t, s)
    ensures InFlight(st, s) && st.reg.inflight[s] == t
    ensures At(st, s, Running) || At(st, s, Cancelling(t))
  {
  }

  /** A step that removes the entry of a task that runs either ends the task or is careless. */
  lemma RemovesIdle(st: State, e: Event, t: Task, s: Session)
    requires Enabled(st, e) && Tracked(st, s) && Staged(st, s) && Careful(st, e, s) && RunsFor(st, t, s)
    ensures Removes(st, e) == Some(s) ==> e == BrainEnds(t)
    ensures e.Metered? ==> e.s != s && e.t != t
  {
    hide Tracked, Staged, OldSession;
    RunsAsRegistered(st, t, s);
    if e.BrainEnds? && RunsFor(st, e.t, s) { RunsAsRegistered(st, e.t, s); }
  }

  lemma TrackedStep(st: State, e: Event, s: Session)
    requires Enabled(st, e) && Tracked(st, s) && Staged(st, s) && Careful(st, e, s)
    ensures Tracked(Next(st, e), s)
  {
    var st' := Next(st, e);
    TasksAfter(st, e);
    hide Next, Enabled, Staged, Removes, Careful;
    forall t | RunsFor(st', t, s) ensures s in st'.reg.inflight && st'.reg.inflight[s] == t {
      if RunsFor(st, t, s) {
        RunsAsRegistered(st, t, s);
        RemovesIdle(st, e, t, s);
      }
    }
  }

  lemma OwnedStep(st: State, e: Event, s: Session)
    requires Enabled(st, e) && Owned(st, s)
    ensures Owned(Next(st, e), s)
  {
    TasksAfter(st, e);
    hide Next, Removes, Enabled;
  }

  lemma StagedStep(st: State, e: Event, s: Session)
    requires Enabled(st, e) && Tracked(st, s) && Staged(st, s)
    ensures Staged(Next(st, e), s)
  {
    hide Counted, MayCount, OldSession, Installed, Disconnected;
    var st' := Next(st, e);
    forall t | RunsFor(st', t, s) ensures At(st', s, Running) || At(st', s, Cancelling(t)) {
      if RunsFor(st, t, s) { RunsAsRegistered(st, t, s); }
    }
  }

  lemma SilentStep(st: State, e: Event, s: Session)
    requires Enabled(st, e) && Tracked(st, s) && Staged(st, s) && Silent(st, s)
    ensures Silent(Next(st, e), s)
  {
    if Quiet(Next(st, e), s) {
      WasQuiet(st, e, s);
      if e.FinishCleanup? && e.s == s {
        DisconnectedExactly(st.reg, s);
      } else {
        OthersNotMentioned(st, e, s);
      }
    }
  }

  lemma WasQuiet(st: State, e: Event, s: Session)
    requires Enabled(st, e) && Tracked(st, s) && Staged(st, s) && Quiet(Next(st, e), s)
    ensures Quiet(st, s) || (e.FinishCleanup? && e.s == s)
    ensures Writes(st, e) != Some(s)
  {
    hide Counted, MayCount, Disconnected, Installed, Staged, Tracked;
    if e.BrainWrites? && RunsFor(st, e.t, s) { RunsAsRegistered(st, e.t, s); }
  }

  lemma InvStep(st: State, e: Event, s: Session)
    requires Enabled(st, e) && Inv(st, s) && Careful(st, e, s)
    ensures Inv(Next(st, e), s)
  {
    hide Next, Enabled, Careful, Tracked, Owned, Staged, Silent;
    TrackedStep(st, e, s);
    OwnedStep(st, e, s);
    StagedStep(st, e, s);
    SilentStep(st, e, s);
  }

  /** Throwing the entry of a session away keeps track of its tasks exactly when none runs
      under it. */
  lemma ForgettingLosesTrackIff(st: State, e: Event, s: Session)
    requires Enabled(st, e) && Tracked(st, s) && Owned(st, s) && Staged(st, s) && Forgets(st, e) == Some(s)
    ensures Tracked(Next(st, e), s) <==> Careful(st, e, s)
  {
    if Careful(st, e, s) {
      TrackedStep(st, e, s);
    } else {
      TasksAfter(st, e);
      hide Next;
      assert RunsFor(Next(st, e), st.reg.inflight[s], s);
    }
  }

  lemma {:induction false} RunInv(tr: seq<State>, es: seq<Event>, i: nat, s: Session)
    requires IsRun(tr, es) && i < |tr| && forall k :: 0 <= k < i ==> Careful(tr[k], es[k], s)
    ensures Inv(tr[i], s)
  {
    hide Careful, Next, Enabled;
    if i > 0 {
      RunInv(tr, es, i - 1, s);
      assert Enabled(tr[i - 1], es[i - 1]) && tr[i - 1 + 1] == Next(tr[i - 1], es[i - 1]);
      InvStep(tr[i - 1], es[i - 1], s);
    }
  }

  /** If no entry of this session was thrown away under a running task before its cleanup,
      nothing ever mentions it afterwards, whatever happens to any other session. */
  lemma CarefulSessionsAreForgotten(tr: seq<State>, es: seq<Event>, i: nat)
    requires IsRun(tr, es) && i < |es| && es[i].FinishCleanup?
    requires forall k :: 0 <= k < i ==> Careful(tr[k], es[k], es[i].s)
    ensures !Mentions(tr[i + 1].reg, es[i].s) && !ComesBack(tr[i + 1], es[i].s)
  {
    var s := es[i].s;
    assert Enabled(tr[i], es[i]);
    RunInv(tr, es, i, s);
    hide Next, Enabled, Careful;
    assert At(tr[i], s, Leaving) by { LeavesFirst(tr[i], es[i]); }
    forall t ensures !RunsFor(tr[i], t, s) {
      if RunsFor(tr[i], t, s) { RunsAsRegistered(tr[i], t, s); }
    }
    CleanupIsFinalIff(tr, es, i);
  }

  lemma LeavesFirst(st: State, e: Event)
    requires Enabled(st, e) && e.FinishCleanup?
    ensures At(st, e.s, Leaving)
  {
  }

  // ---- A session that leaves something behind ----------------------------------------------------------

  /** A relayed command finds the socket dead while a task runs: the session is dropped,
      the handler cleans up without seeing the task, and the task writes afterwards. */
  lemma ResidueAfterCleanup()
    ensures exists tr: seq<State>, es: seq<Event> :: IsRun(tr, es) && At(tr[|es|], 0, Gone) && Mentions(tr[|es|].reg, 0)
  {
    var tr := seq(10, i requires 0 <= i < 10 => ResidueAt(i));
    var es := seq(9, i requires 0 <= i < 9 => ResidueStep(i));
    forall i | 0 <= i < 9
      ensures Enabled(ResidueAt(i), ResidueStep(i)) && Next(ResidueAt(i), ResidueStep(i)) == ResidueAt(i + 1)
    {
      if i < 5 { ResidueBegins(i); } else { ResidueEnds(i); }
    }
    assert ResidueAt(0) == State(EMPTY, map[], map[], None);
    assert At(ResidueAt(9), 0, Gone) && 0 in ResidueAt(9).reg.balances;
    hide Next, ResidueAt, ResidueStep, Enabled;
    assert IsRun(tr, es);
    assert At(tr[|es|], 0, Gone) && Mentions(tr[|es|].reg, 0);
  }

  function ResidueStep(i: nat): Event
  {
    if i == 0 then Arrive(0, 5)
    else if i == 1 then BeginConnect(0, 7, 0.0, 1)
    else if i == 2 then Greet(0, true)
    else if i == 3 then Message(0, 1.0)
    else if i == 4 then Metered(0, true, 9)
    else if i == 5 then Drop(0)
    else if i == 6 then BeginCleanup(0)
    else if i == 7 then FinishCleanup(0)
    else BrainWrites(9, 3)
  }

  function ResiduePhase(i: nat): Phase
  {
    if i == 1 then Arrived
    else if i == 2 then Greeting
    else if i == 4 then Metering(true)
    else if i == 3 || i == 5 || i == 6 then Running
    else if i == 7 then Leaving
    else Gone
  }

  function ResidueReg(i: nat): Registry
  {
    if i <= 1 then EMPTY
    else if i <= 5 then
      Registry(map[0 := 7], map[5 := 0], map[0 := 0.0], map[0 := 5], map[0 := 1],
               if i == 5 then map[0 := 9] else map[], map[], map[], if i <= 3 then map[] else map[0 := [1.0]])
    else if i <= 8 then EMPTY
    else EMPTY.(balances := map[0 := 3], introSeen := map[0 := true])
  }

  function ResidueAt(i: nat): State
  {
    State(ResidueReg(i), if i == 0 then map[] else map[0 := Handler(5, ResiduePhase(i))],
          if i <= 4 then map[] else map[9 := Brain(0, true)], None)
  }

  lemma ResidueBegins(i: nat)
    requires i < 5
    ensures Enabled(ResidueAt(i), ResidueStep(i)) && Next(ResidueAt(i), ResidueStep(i)) == ResidueAt(i + 1)
  {
    assert After([], Call(1.0, 1.0), MESSAGE_RULE) == [1.0] && Admits([], Call(1.0, 1.0), MESSAGE_RULE);
    hide Admits, After;
  }

  lemma ResidueEnds(i: nat)
    requires 5 <= i < 9
    ensures Enabled(ResidueAt(i), ResidueStep(i)) && Next(ResidueAt(i), ResidueStep(i)) == ResidueAt(i + 1)
  {
  }
}
