/**
 The message rate of Co-Pilot sessions over whole runs (app/routers/copilot.py).

 The log of a session's messages is thrown away when the session is dropped or replaced,
 while its handler may go on receiving.  So the limit holds between two removals of the log
 and not for a session (`MoreThanTheLimit`), except for the messages that matter: those
 that found their session's user and can start a task.
 */
module CopilotRate {
  import opened Wrappers
  import opened SlidingWindow
  import opened CopilotRegistry
  import opened CopilotRuns

  /** The session whose message log a step removes. */
  function Discards(st: State, e: Event): Option<Session>
  {
    match e
    case FinishConnect(s, _, _, _) =>
      if s in st.handlers && st.handlers[s].phase.Closing? then Some(st.handlers[s].phase.was) else None
    case FinishCleanup(s) => Some(s)
    case Drop(s) => Some(s)
    case _ => None
  }

  predicate Passes(st: State, e: Event, s: Session)
  {
    e.Message? && e.s == s && MayCount(st.reg, s, e.now)
  }

  /** When messages of this session passed the check, since its log was last removed. */
  function PassedSince(tr: seq<State>, es: seq<Event>, s: Session, i: nat): seq<Time>
    requires |tr| == |es| + 1 && i < |tr|
  {
    if i == 0 then [] else PassedNext(tr[i - 1], es[i - 1], s, PassedSince(tr, es, s, i - 1))
  }

  function PassedNext(st: State, e: Event, s: Session, passed: seq<Time>): seq<Time>
  {
    if Discards(st, e) == Some(s) then [] else if Passes(st, e, s) then passed + [e.now] else passed
  }

  /** When they passed, in the whole run. */
  function Passed(tr: seq<State>, es: seq<Event>, s: Session, i: nat): seq<Time>
    requires |tr| == |es| + 1 && i < |tr|
  {
    if i == 0 then []
    else if Passes(tr[i - 1], es[i - 1], s) then Passed(tr, es, s, i - 1) + [es[i - 1].now]
    else Passed(tr, es, s, i - 1)
  }

  /** When they passed and the session had a user, in the whole run: only then can a task start. */
  function PassedKnown(tr: seq<State>, es: seq<Event>, s: Session, i: nat): seq<Time>
    requires |tr| == |es| + 1 && i < |tr|
  {
    if i == 0 then []
    else if Passes(tr[i - 1], es[i - 1], s) && s in tr[i - 1].reg.users then
      PassedKnown(tr, es, s, i - 1) + [es[i - 1].now]
    else PassedKnown(tr, es, s, i - 1)
  }

  /** The checks of this session since its log was last removed. */
  function Checks(tr: seq<State>, es: seq<Event>, s: Session, i: nat): seq<Call>
    requires |tr| == |es| + 1 && i < |tr|
  {
    if i == 0 then [] else ChecksNext(tr[i - 1], es[i - 1], s, Checks(tr, es, s, i - 1))
  }

  function ChecksNext(st: State, e: Event, s: Session, checks: seq<Call>): seq<Call>
  {
    if Discards(st, e) == Some(s) then []
    else if e.Message? && e.s == s then checks + [Call(e.now, e.now)]
    else checks
  }

  /** The clock does not run backwards. */
  ghost predicate ClockAdvances(es: seq<Event>)
  {
    forall i, j :: 0 <= i < j < |es| && es[i].Message? && es[j].Message? ==> es[i].now <= es[j].now
  }

  // ---- The log is what the limiter remembers of the checks -------------------------------------

  function MessagesAfter(st: State, e: Event): map<Session, seq<Time>>
  {
    if Discards(st, e).Some? then st.reg.messages - {Discards(st, e).value}
    else if e.Message? then
      st.reg.messages[e.s := After(Times(st.reg.messages, e.s), Call(e.now, e.now), MESSAGE_RULE)]
    else st.reg.messages
  }

  lemma MessagesStep(st: State, e: Event)
    requires Enabled(st, e)
    ensures Next(st, e).reg.messages == MessagesAfter(st, e)
  {
    hide Next, Enabled, MessagesAfter;
    if Registers(e) { MessagesRegistering(st, e); } else { MessagesQuiet(st, e); }
  }

  lemma MessagesQuiet(st: State, e: Event)
    requires Enabled(st, e) && !Registers(e)
    ensures Next(st, e).reg.messages == MessagesAfter(st, e)
  {
    hide MayCount, OldSession, After, InFlight, Installed, Disconnected;
  }

  lemma MessagesRegistering(st: State, e: Event)
    requires Enabled(st, e) && Registers(e)
    ensures Next(st, e).reg.messages == MessagesAfter(st, e)
  {
    hide Counted, MayCount, OldSession, After, InFlight;
  }

  lemma LogStep(st: State, e: Event, s: Session, checks: seq<Call>, passed: seq<Time>)
    requires Enabled(st, e) && Times(st.reg.messages, s) == Kept(checks, MESSAGE_RULE)
    requires passed == Admitted(checks, MESSAGE_RULE)
    ensures Times(Next(st, e).reg.messages, s) == Kept(ChecksNext(st, e, s, checks), MESSAGE_RULE)
    ensures PassedNext(st, e, s, passed) == Admitted(ChecksNext(st, e, s, checks), MESSAGE_RULE)
  {
    hide Next, Enabled, Admits, After, Kept, Admitted;
    MessagesStep(st, e);
    NoCalls();
    if e.Message? && e.s == s { OneMoreCall(checks, Call(e.now, e.now), MESSAGE_RULE); }
  }

  lemma NoCalls()
    ensures Kept([], MESSAGE_RULE) == [] && Admitted([], MESSAGE_RULE) == []
  {
  }

  lemma {:induction false} LogIsKept(tr: seq<State>, es: seq<Event>, s: Session, i: nat)
    requires IsRun(tr, es) && i < |tr|
    ensures Times(tr[i].reg.messages, s) == Kept(Checks(tr, es, s, i), MESSAGE_RULE)
    ensures PassedSince(tr, es, s, i) == Admitted(Checks(tr, es, s, i), MESSAGE_RULE)
  {
    hide Next, Enabled, Kept, Admitted, ChecksNext, PassedNext;
    if i > 0 {
      LogIsKept(tr, es, s, i - 1);
      assert Enabled(tr[i - 1], es[i - 1]) && tr[i - 1 + 1] == Next(tr[i - 1], es[i - 1]);
      LogStep(tr[i - 1], es[i - 1], s, Checks(tr, es, s, i - 1), PassedSince(tr, es, s, i - 1));
    } else {
      NoCalls();
    }
  }

  lemma {:induction false} ChecksInOrder(tr: seq<State>, es: seq<Event>, s: Session, i: nat)
    requires |tr| == |es| + 1 && ClockAdvances(es) && i < |tr|
    ensures InOrder(Checks(tr, es, s, i))
    ensures forall c, k :: c in Checks(tr, es, s, i) && i <= k < |es| && es[k].Message? ==> c.record <= es[k].now
  {
    if i > 0 {
      ChecksInOrder(tr, es, s, i - 1);
    }
  }

  /** However the 60 seconds are put: never more than 30. */
  ghost predicate WithinTheRate(ts: seq<Time>)
  {
    forall end :: Count(ts, end, 60.0) <= 30
  }

  // ---- The bound -----------------------------------------------------------------------------

  /** Between two removals of a session's log no 60 seconds see more than 30 of its messages
      pass, and a message is refused exactly when the 60 seconds before it saw 30. */
  lemma RateBetweenRemovals(tr: seq<State>, es: seq<Event>, s: Session, i: nat)
    requires IsRun(tr, es) && ClockAdvances(es) && i < |tr|
    ensures WithinTheRate(PassedSince(tr, es, s, i))
    ensures i < |es| && es[i].Message? && es[i].s == s ==>
      (!Passes(tr[i], es[i], s) <==> Count(PassedSince(tr, es, s, i), es[i].now, 60.0) == 30)
  {
    hide Enabled, Next, Checks, PassedSince, Kept, Admitted, Admits, Count, InOrder;
    var checks := Checks(tr, es, s, i);
    LogIsKept(tr, es, s, i);
    ChecksInOrder(tr, es, s, i);
    forall end ensures Count(PassedSince(tr, es, s, i), end, 60.0) <= 30 {
      AtMostTheLimit(checks, MESSAGE_RULE, end);
    }
    if i < |es| && es[i].Message? && es[i].s == s {
      var c := Call(es[i].now, es[i].now);
      InOrderSnoc(checks, c);
      RefusedIffFull(checks, c, MESSAGE_RULE);
    }
  }

  lemma InOrderSnoc(calls: seq<Call>, c: Call)
    requires InOrder(calls) && c.check == c.record && forall d :: d in calls ==> d.record <= c.check
    ensures InOrder(calls + [c])
  {
  }

  /** A message goes on to metering exactly when fewer than 30 passed in the 60 seconds before it
      and no task of the session runs under its entry; it is known whether it has a user. */
  lemma MessageAnswer(tr: seq<State>, es: seq<Event>, i: nat)
    requires IsRun(tr, es) && ClockAdvances(es) && i < |es| && es[i].Message?
    ensures var s := es[i].s;
      && s in tr[i].handlers && s in tr[i + 1].handlers && tr[i].handlers[s].phase.Running?
      && tr[i + 1].handlers[s].phase ==
        if Count(PassedSince(tr, es, s, i), es[i].now, 60.0) < 30 && !Busy(tr[i], s) then
          Metering(s in tr[i].reg.users)
        else Running
  {
    RateBetweenRemovals(tr, es, es[i].s, i);
    assert WithinTheRate(PassedSince(tr, es, es[i].s, i));
    assert Count(PassedSince(tr, es, es[i].s, i), es[i].now, 60.0) <= 30;
    assert Enabled(tr[i], es[i]) && tr[i + 1] == Next(tr[i], es[i]);
    hide PassedSince, Count, MayCount, Counted, WithinTheRate;
  }

  /** No 60 seconds see more than ten connections of one user let through, and one is turned away
      exactly when the 60 seconds before it saw ten. */
  lemma ConnectionLimit(calls: seq<Call>, c: Call, end: Time)
    requires InOrder(calls + [c])
    ensures Count(Admitted(calls, CONNECTION_RULE), end, 60.0) <= 10
    ensures !Admits(Kept(calls, CONNECTION_RULE), c, CONNECTION_RULE) <==>
      Count(Admitted(calls, CONNECTION_RULE), c.check, 60.0) == 10
  {
    assert InOrder(calls) by {
      InOrderFront(calls + [c]);
      assert (calls + [c])[..|calls|] == calls;
    }
    hide InOrder, Count, Admitted, Admits, Kept;
    AtMostTheLimit(calls, CONNECTION_RULE, end);
    RefusedIffFull(calls, c, CONNECTION_RULE);
  }

  // ---- Per session -----------------------------------------------------------------------------

  /** Not registered yet. */
  predicate Before(st: State, s: Session)
  {
    s !in st.handlers || Unregistered(st.handlers[s].phase)
  }

  lemma BeforeIsUnknown(st: State, s: Session)
    requires Base(st) && Before(st, s)
    ensures s !in st.reg.users
  {
    assert s in st.reg.users ==> s in st.reg.active;
  }

  /** A session gets its user once, and loses its log only with its user. */
  lemma RegisteredOnce(st: State, e: Event, s: Session)
    requires Enabled(st, e) && Base(st)
    ensures s in Next(st, e).reg.users && s !in st.reg.users ==> Before(st, s)
    ensures Before(Next(st, e), s) ==> Before(st, s)
    ensures Discards(st, e) == Some(s) ==> s !in Next(st, e).reg.users
  {
    hide Next, Enabled, Base;
    if Registers(e) { RegisteringOnce(st, e, s); } else { QuietlyTheSame(st, e, s); }
  }

  lemma QuietlyTheSame(st: State, e: Event, s: Session)
    requires Enabled(st, e) && !Registers(e)
    ensures Next(st, e).reg.users == st.reg.users && Discards(st, e) != Some(s)
    ensures Before(Next(st, e), s) ==> Before(st, s)
  {
    QuietOwners(st, e);
    hide Next, Enabled;
    assert s in st.handlers ==> StandsIn(st.handlers[s], Next(st, e), s);
  }

  lemma RegisteringOnce(st: State, e: Event, s: Session)
    requires Enabled(st, e) && Registers(e) && Base(st)
    ensures s in Next(st, e).reg.users && s !in st.reg.users ==> Before(st, s)
    ensures Before(Next(st, e), s) ==> Before(st, s)
    ensures Discards(st, e) == Some(s) ==> s !in Next(st, e).reg.users
  {
    hide Next, Enabled, Base, Before, Discards;
    if e.BeginConnect? { BeginningOnce(st, e, s); }
    else if e.FinishConnect? { FinishingOnce(st, e, s); }
    else { RemovingOnce(st, e, s); }
  }

  lemma BeginningOnce(st: State, e: Event, s: Session)
    requires Enabled(st, e) && e.BeginConnect?
    ensures s in Next(st, e).reg.users && s !in st.reg.users ==> Before(st, s)
    ensures (Before(Next(st, e), s) ==> Before(st, s)) && Discards(st, e) != Some(s)
  {
    hide InFlight, Disconnected, OldSession;
  }

  lemma FinishingOnce(st: State, e: Event, s: Session)
    requires Enabled(st, e) && e.FinishConnect? && Base(st)
    ensures s in Next(st, e).reg.users && s !in st.reg.users ==> Before(st, s)
    ensures Before(Next(st, e), s) ==> Before(st, s)
    ensures Discards(st, e) == Some(s) ==> s !in Next(st, e).reg.users
  {
    hide Base;
    ReplacedIsAnother(st, e.s);
  }

  lemma RemovingOnce(st: State, e: Event, s: Session)
    requires Enabled(st, e) && (e.FinishCleanup? || e.Drop?)
    ensures s in Next(st, e).reg.users ==> s in st.reg.users
    ensures Before(Next(st, e), s) ==> Before(st, s)
    ensures Discards(st, e) == Some(s) ==> s !in Next(st, e).reg.users
  {
    hide Installed, OldSession, InFlight;
  }

  lemma ReplacedIsAnother(st: State, s: Session)
    requires Base(st) && s in st.handlers && st.handlers[s].phase.Closing?
    ensures st.handlers[s].phase.was != s
  {
    hide Agree;
  }

  /** While a session has its user, what passed since its log was removed is all that ever
      passed; without one, nothing more is added to what counts. */
  ghost predicate Counts(tr: seq<State>, es: seq<Event>, s: Session, i: nat)
    requires |tr| == |es| + 1 && i < |tr|
  {
    && (s in tr[i].reg.users ==> PassedSince(tr, es, s, i) == PassedKnown(tr, es, s, i))
    && (Before(tr[i], s) ==> PassedSince(tr, es, s, i) == PassedKnown(tr, es, s, i) == [])
    && WithinTheRate(PassedKnown(tr, es, s, i))
  }

  lemma CountsStep(tr: seq<State>, es: seq<Event>, s: Session, i: nat)
    requires IsRun(tr, es) && i < |es| && Counts(tr, es, s, i)
    requires WithinTheRate(PassedSince(tr, es, s, i + 1))
    ensures Counts(tr, es, s, i + 1)
  {
    hide Enabled, Next, Base, Before, MayCount, WithinTheRate;
    var st, e := tr[i], es[i];
    assert Enabled(st, e) && tr[i + 1] == Next(st, e);
    RunBase(tr, es, i);
    RunBase(tr, es, i + 1);
    RegisteredOnce(st, e, s);
    if e.Message? && e.s == s { MessagesComeAfter(st, e, s); }
    if Before(st, s) { BeforeIsUnknown(st, s); }
    if Before(tr[i + 1], s) { BeforeIsUnknown(tr[i + 1], s); }
    hide IsRun;
  }

  lemma MessagesComeAfter(st: State, e: Event, s: Session)
    requires Enabled(st, e) && e.Message? && e.s == s
    ensures !Before(st, s)
  {
  }

  lemma {:induction false} RunCounts(tr: seq<State>, es: seq<Event>, s: Session, i: nat)
    requires IsRun(tr, es) && ClockAdvances(es) && i < |tr|
    ensures Counts(tr, es, s, i)
  {
    if i > 0 {
      RunCounts(tr, es, s, i - 1);
      RateBetweenRemovals(tr, es, s, i);
      CountsStep(tr, es, s, i - 1);
    }
  }

  /** Over its whole life, however often its log is removed: no 60 seconds see more than 30
      messages of a session pass that can start a task. */
  lemma RateOfASession(tr: seq<State>, es: seq<Event>, s: Session)
    requires IsRun(tr, es) && ClockAdvances(es)
    ensures WithinTheRate(PassedKnown(tr, es, s, |es|))
  {
    RunCounts(tr, es, s, |es|);
  }

  lemma MeteringStep(st: State, e: Event, s: Session, known: bool)
    requires Enabled(st, e) && At(Next(st, e), s, Metering(known)) && !At(st, s, Metering(known))
    ensures Passes(st, e, s) && known == (s in st.reg.users)
  {
    hide Counted, MayCount, OldSession, Installed, Disconnected, InFlight;
  }

  lemma {:induction false} MeteringOrigin(tr: seq<State>, es: seq<Event>, s: Session, i: nat, known: bool)
    returns (p: nat)
    requires IsRun(tr, es) && i < |tr| && At(tr[i], s, Metering(known))
    ensures p < i && Passes(tr[p], es[p], s) && known == (s in tr[p].reg.users)
    ensures forall m :: p < m <= i ==> At(tr[m], s, Metering(known))
  {
    assert i > 0;
    assert Enabled(tr[i - 1], es[i - 1]) && tr[i - 1 + 1] == Next(tr[i - 1], es[i - 1]);
    hide Next, Enabled, MayCount;
    if At(tr[i - 1], s, Metering(known)) {
      p := MeteringOrigin(tr, es, s, i - 1, known);
    } else {
      MeteringStep(tr[i - 1], es[i - 1], s, known);
      p := i - 1;
    }
  }

  /** A started task goes back to a message that passed and found its user, with no other
      message of the session in between. */
  lemma TaskOrigin(tr: seq<State>, es: seq<Event>, i: nat) returns (p: nat)
    requires IsRun(tr, es) && i < |es| && es[i].Metered? && es[i].start
    ensures p < i && Passes(tr[p], es[p], es[i].s) && es[i].s in tr[p].reg.users
    ensures forall m :: p < m <= i ==> At(tr[m], es[i].s, Metering(true))
  {
    assert Enabled(tr[i], es[i]);
    hide Next, MayCount;
    p := MeteringOrigin(tr, es, es[i].s, i, true);
  }

  // ---- More than the limit --------------------------------------------------------------------

  function Zeros(n: nat): seq<Time>
  {
    seq(n, i => 0.0)
  }

  lemma {:induction false} CountZeros(n: nat)
    ensures Count(Zeros(n), 0.0, 60.0) == n && Pruned(Zeros(n), 0.0, 60.0) == Zeros(n)
  {
    if n > 0 {
      CountZeros(n - 1);
      assert Zeros(n)[..n - 1] == Zeros(n - 1) && Zeros(n) == Zeros(n - 1) + [0.0];
    }
  }

  /** Session 0 is receiving, and so many of its messages passed at once. */
  function Filled(n: nat, phase: Phase): State
  {
    State(Registry(map[0 := 7], map[5 := 0], map[0 := 0.0], map[0 := 5], map[0 := 1], map[], map[], map[],
                   if n == 0 then map[] else map[0 := Zeros(n)]),
          map[0 := Handler(5, phase)], map[], None)
  }

  /** A run in which `n` messages of session 0 have passed, all at the same moment. */
  ghost predicate Flood(tr: seq<State>, es: seq<Event>, n: nat, st: State)
  {
    && IsRun(tr, es) && tr[|es|] == st && Passed(tr, es, 0, |es|) == Zeros(n)
    && forall i :: 0 <= i < |es| && es[i].Message? ==> es[i].now == 0.0
  }

  lemma {:induction false} PassedLater(tr: seq<State>, es: seq<Event>, st: State, e: Event, i: nat)
    requires |tr| == |es| + 1 && i < |tr|
    ensures Passed(tr + [st], es + [e], 0, i) == Passed(tr, es, 0, i)
  {
    if i > 0 { PassedLater(tr, es, st, e, i - 1); }
  }

  lemma OneMore(tr: seq<State>, es: seq<Event>, n: nat, st: State, e: Event)
    returns (tr': seq<State>, es': seq<Event>)
    requires Flood(tr, es, n, st) && Enabled(st, e) && (e.Message? ==> e.now == 0.0)
    ensures Flood(tr', es', if Passes(st, e, 0) then n + 1 else n, Next(st, e))
  {
    tr', es' := tr + [Next(st, e)], es + [e];
    PassedLater(tr, es, Next(st, e), e, |es|);
    hide Next, Enabled, MayCount;
    assert Zeros(n) + [0.0] == Zeros(n + 1);
  }

  lemma Connects() returns (tr: seq<State>, es: seq<Event>)
    ensures Flood(tr, es, 0, Filled(0, Running))
  {
    hide Next, Enabled, Passes;
    ConnectsStep();
    tr, es := [State(EMPTY, map[], map[], None)], [];
    assert Flood(tr, es, 0, tr[0]);
    hide Flood, Filled, ARRIVED;
    tr, es := OneMore(tr, es, 0, tr[0], Arrive(0, 5));
    tr, es := OneMore(tr, es, 0, ARRIVED, BeginConnect(0, 7, 0.0, 1));
    tr, es := OneMore(tr, es, 0, Filled(0, Greeting), Greet(0, true));
  }

  const ARRIVED := State(EMPTY, map[0 := Handler(5, Arrived)], map[], None)
  const DROPPED := State(EMPTY, map[0 := Handler(5, Running)], map[], None)

  ghost predicate Leads(st: State, e: Event, st': State, passes: bool)
  {
    Enabled(st, e) && Next(st, e) == st' && Passes(st, e, 0) == passes
  }

  lemma ConnectsStep()
    ensures Leads(State(EMPTY, map[], map[], None), Arrive(0, 5), ARRIVED, false)
    ensures Leads(ARRIVED, BeginConnect(0, 7, 0.0, 1), Filled(0, Greeting), false)
    ensures Leads(Filled(0, Greeting), Greet(0, true), Filled(0, Running), false)
  {
  }

  lemma OnePasses(n: nat)
    requires n < 30
    ensures Leads(Filled(n, Running), Message(0, 0.0), Filled(n + 1, Metering(true)), true)
  {
    assert Times(Filled(n, Running).reg.messages, 0) == Zeros(n) by { assert Zeros(0) == []; }
    AfterZeros(n);
    hide Zeros, Admits, After, Times;
  }

  lemma AfterZeros(n: nat)
    requires n < 30
    ensures Admits(Zeros(n), Call(0.0, 0.0), MESSAGE_RULE)
    ensures After(Zeros(n), Call(0.0, 0.0), MESSAGE_RULE) == Zeros(n + 1)
  {
    CountZeros(n);
    hide Pruned;
    assert Zeros(n) + [0.0] == Zeros(n + 1);
  }

  lemma StartsNothing(n: nat)
    ensures Leads(Filled(n, Metering(true)), Metered(0, false, 0), Filled(n, Running), false)
  {
    hide Zeros;
  }

  lemma {:induction false} Fills(n: nat) returns (tr: seq<State>, es: seq<Event>)
    requires n <= 30
    ensures Flood(tr, es, n, Filled(n, Running))
  {
    if n == 0 {
      tr, es := Connects();
    } else {
      tr, es := Fills(n - 1);
      OnePasses(n - 1);
      StartsNothing(n);
      hide Next, Enabled, Flood, Filled, Passes;
      tr, es := OneMore(tr, es, n - 1, Filled(n - 1, Running), Message(0, 0.0));
      tr, es := OneMore(tr, es, n, Filled(n, Metering(true)), Metered(0, false, 0));
    }
  }

  lemma DropForgets()
    ensures Leads(Filled(30, Running), Drop(0), DROPPED, false)
    ensures Enabled(DROPPED, Message(0, 0.0)) && Passes(DROPPED, Message(0, 0.0), 0)
  {
    assert Admits([], Call(0.0, 0.0), MESSAGE_RULE);
    hide Admits, Zeros;
  }

  /** A session that is dropped in between passes 31 messages at one moment. */
  lemma MoreThanTheLimit()
    ensures exists tr: seq<State>, es: seq<Event> ::
      IsRun(tr, es) && ClockAdvances(es) && Count(Passed(tr, es, 0, |es|), 0.0, 60.0) == 31
  {
    var tr, es := Fills(30);
    hide Next, Enabled, Passes, Filled;
    DropForgets();
    tr, es := OneMore(tr, es, 30, Filled(30, Running), Drop(0));
    tr, es := OneMore(tr, es, 30, DROPPED, Message(0, 0.0));
    CountZeros(31);
    hide Count;
    assert IsRun(tr, es) && ClockAdvances(es) && Count(Passed(tr, es, 0, |es|), 0.0, 60.0) == 31;
  }
}
