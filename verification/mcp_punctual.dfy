/**
 What the watchdogs guarantee about time.

 A run is punctual when no timer is overrun, and a promotion or a watchdog that is due
 waits only while the registry lock is held, which it is for the whole of a POST's call
 into the SDK.  Waiting delays a watchdog twice over: the next look comes later, and so
 does the end of the sleep, which is counted from after the wait but measured from a
 clock sampled before it.  So a binding can outlive its deadline, but by no more than its
 own connection waited for the lock since that clock was sampled
 (`NoBindingOutlivesItsDeadline`, `OnlyTheLockDelaysAWatchdog`).
 */
module McpPunctual {
  import opened Wrappers
  import opened McpTables
  import opened McpGuard
  import opened McpRuns
  import opened McpWatchdog

  // ---- Punctual runs ------------------------------------------------------------------------

  /** No timer is overrun, and a promotion or a watchdog that is due waits only for the
      registry lock. */
  predicate OnTime(free: bool, c: Conn, until: Time)
  {
    && (c.phase.Claimed? ==> !free)
    && match c.dog
       case Waiting(u) => until <= u
       case Sleeping(u) => until <= u
       case Stopped => true
       case Unborn => false
       case _ => !free
  }

  ghost predicate Punctual(tr: seq<State>, es: seq<Event>)
    requires IsRun(tr, es)
  {
    forall i, n :: 0 <= i < |es| && es[i].Tick? && n in tr[i].conns ==>
      OnTime(LockFree(tr[i]), tr[i].conns[n], tr[i].clock + es[i].dt)
  }

  /** What a connection has done since the clock was sampled from which its deadline, or its
      next sleep, is computed: waited for the lock, and slept. */
  datatype Cycle = Cycle(sample: Time, waited: Time, slept: Time)

  predicate Asleep(c: Conn) { c.phase.Streaming? && c.dog.Sleeping? }

  /** A cycle begins where the promotion samples the clock, and where a check passes. */
  ghost predicate Samples(st: State, e: Event, n: Nonce)
    requires Enabled(st, e)
  {
    || (e.Claim? && e.n == n)
    || (e.DogCheck? && e.n == n && st.conns[n].phase.Streaming? && DogAfter(st, e, n).Renewing?)
  }

  ghost function CycleAfter(st: State, e: Event, n: Nonce, c: Cycle): Cycle
    requires Enabled(st, e)
  {
    if e.Tick? && n in st.conns then
      if Asleep(st.conns[n]) then c.(slept := c.slept + e.dt) else c.(waited := c.waited + e.dt)
    else if Samples(st, e, n) then Cycle(st.clock, 0.0, 0.0)
    else c
  }

  ghost function CycleOf(tr: seq<State>, es: seq<Event>, n: Nonce, i: nat): Cycle
    requires IsRun(tr, es) && i < |tr|
  {
    if i == 0 then Cycle(tr[0].clock, 0.0, 0.0) else CycleAfter(tr[i - 1], es[i - 1], n, CycleOf(tr, es, n, i - 1))
  }

  function Deadline(st: State, n: Nonce): Time
    requires n in st.conns && Bound(st, n)
  {
    st.tables.bindings[st.conns[n].session.value].deadline
  }

  ghost predicate TimedConn(st: State, n: Nonce)
    requires n in st.conns
  {
    var dog := st.conns[n].dog;
    && (dog.Waiting? ==> st.clock <= dog.until)
    && (dog.Sleeping? ==> st.clock <= dog.until <= st.clock + WATCHDOG)
  }

  /** The clock is the sample, the waits and the sleep; and the sleep ends with the deadline. */
  ghost predicate Accounted(st: State, n: Nonce, c: Cycle)
    requires n in st.conns && Bound(st, n)
  {
    var dog := st.conns[n].dog;
    && st.clock == c.sample + c.waited + c.slept
    && c.slept <= WATCHDOG && c.sample + c.slept <= Deadline(st, n)
    && (dog.Renewing? ==> dog.sample == c.sample && c.slept == 0.0)
    && (dog.Sleeping? ==> dog.until <= c.sample + c.waited + Min(WATCHDOG, Deadline(st, n) - c.sample))
  }

  ghost predicate CycleConn(st: State, n: Nonce, c: Cycle)
    requires n in st.conns
  {
    && c.waited >= 0.0 && c.slept >= 0.0
    && (st.conns[n].phase.Claimed? ==>
          c.sample == st.conns[n].phase.sample && c.slept == 0.0 && st.clock == c.sample + c.waited)
    && (Live(st, n) && !st.conns[n].late ==> Accounted(st, n, c))
  }

  lemma TimedStep(st: State, e: Event, n: Nonce)
    requires Enabled(st, e) && n in st.conns && TimedConn(st, n)
    requires e.Tick? ==> OnTime(LockFree(st), st.conns[n], st.clock + e.dt)
    ensures n in Next(st, e).conns && TimedConn(Next(st, e), n)
  {
    hide Next, Holds, Admits, PromotesSome, TokenDeadline;
    DogStep(st, e, n);
    ControlsHold(st, e);
    TickPositive(st, e);
  }

  lemma TimedDeadline(st: State, e: Event, n: Nonce)
    requires Enabled(st, e) && Wired(st) && Live(st, n) && Live(Next(st, e), n)
    ensures var s := st.conns[n].session.value;
      && Next(st, e).conns[n].session == Some(s)
      && Next(st, e).tables.bindings[s].deadline ==
        if e == DogRenew(n) then RenewedDeadline(st, n) else st.tables.bindings[s].deadline
  {
    hide Next, Holds, TokenDeadline;
    var s := st.conns[n].session.value;
    LiveBefore(st, e, n);
    TableStepHolds(st, e);
    assert s in Next(st, e).tables.bindings;
    if e == DogRenew(n) { RenewDeadline(st, n); }
    LiveDog(st, e, n);
    PromotedCannotPromote(st, e, s, n);
  }

  // ---- The account of one connection, step by step -----------------------------------------

  lemma ClaimedStep(st: State, e: Event, n: Nonce, c: Cycle)
    requires Enabled(st, e) && n in st.conns && CycleConn(st, n, c)
    ensures n in Next(st, e).conns
    ensures var d := CycleAfter(st, e, n, c);
      && d.waited >= 0.0 && d.slept >= 0.0
      && (Next(st, e).conns[n].phase.Claimed? ==>
            d.sample == Next(st, e).conns[n].phase.sample && d.slept == 0.0 && Next(st, e).clock == d.sample + d.waited)
  {
    hide Next, Holds, Admits, PromotesSome, Accounted, Live, DogAfter;
    ConnStepHolds(st, e);
    assert ConnContinues(st, e, n, Next(st, e).conns[n]);
    ControlsHold(st, e);
    TickPositive(st, e);
    EnabledCheck(st, e, n);
  }

  lemma EnabledCheck(st: State, e: Event, n: Nonce)
    requires Enabled(st, e)
    ensures Samples(st, e, n) && e.DogCheck? ==> st.conns[n].phase.Streaming?
    ensures Samples(st, e, n) && !e.DogCheck? ==> e.Claim? && e.n == n
  {
    hide DogAfter;
  }

  lemma ReservedDog(st: State, n: Nonce)
    requires n in st.conns && WatchedConn(st, n) && n in st.tables.reservations && st.conns[n].phase.Claimed?
    ensures var dog := st.conns[n].dog; dog.Unborn? || dog.Waiting? || dog.TimedOut?
  {
  }

  lemma AccountedAtPromotion(st: State, n: Nonce, c: Cycle)
    requires var e := Promotion(n); Enabled(st, e) && PromotesSome(st, e) && WatchedConn(st, n) && CycleConn(st, n, c)
    requires Live(Next(st, Promotion(n)), n) && !Next(st, Promotion(n)).conns[n].late
    ensures Accounted(Next(st, Promotion(n)), n, c)
  {
    hide Holds, Dropped, LockFree, TokenDeadline, WatchedConn;
    ReservedDog(st, n);
    TokenDeadlineBounds(st.conns[n].token.expiresAt, st.clock + st.skew, st.conns[n].phase.sample);
  }

  lemma AccountedStep(st: State, e: Event, n: Nonce, c: Cycle)
    requires Enabled(st, e) && Wired(st) && Live(st, n) && WatchedConn(st, n) && Accounted(st, n, c)
    requires c.waited >= 0.0 && c.slept >= 0.0 && !st.conns[n].late
    requires e.Tick? ==> OnTime(LockFree(st), st.conns[n], st.clock + e.dt)
    requires Live(Next(st, e), n)
    ensures Accounted(Next(st, e), n, CycleAfter(st, e, n, c))
  {
    hide Next, Wired, Holds, Admits, PromotesSome, Live, LockFree, RenewedDeadline, WatchedConn, Bound;
    LiveFacts(st, n);
    DogStep(st, e, n);
    ControlsHold(st, e);
    LiveDog(st, e, n);
    LiveBefore(st, e, n);
    TimedDeadline(st, e, n);
    if e == DogRenew(n) { RenewedFromSample(st, n); }
  }

  lemma LiveFacts(st: State, n: Nonce)
    requires Live(st, n) && WatchedConn(st, n) && !st.conns[n].late
    ensures n in st.conns && st.conns[n].phase.Streaming? && Bound(st, n)
    ensures var dog := st.conns[n].dog; dog.Unborn? || dog.Checking? || dog.Closing? || dog.Renewing? || dog.Sleeping?
  {
  }

  lemma RenewedFromSample(st: State, n: Nonce)
    requires n in st.conns && st.conns[n].dog.Renewing? && Bound(st, n)
    ensures RenewedDeadline(st, n) <= Deadline(st, n)
    ensures st.conns[n].dog.sample <= Deadline(st, n) ==> st.conns[n].dog.sample <= RenewedDeadline(st, n)
  {
    TokenDeadlineBounds(st.conns[n].dog.expiresAt, st.clock + st.skew, st.conns[n].dog.sample);
  }

  lemma CycleStep(st: State, e: Event, n: Nonce, c: Cycle)
    requires Enabled(st, e) && Wired(st) && n in st.conns && WatchedConn(st, n) && CycleConn(st, n, c)
    requires e.Tick? ==> OnTime(LockFree(st), st.conns[n], st.clock + e.dt)
    ensures n in Next(st, e).conns && CycleConn(Next(st, e), n, CycleAfter(st, e, n, c))
  {
    ClaimedStep(st, e, n, c);
    hide Next, Wired, Enabled, WatchedConn, Accounted, CycleAfter, Live, OnTime;
    if Live(Next(st, e), n) && !Next(st, e).conns[n].late {
      LiveBefore(st, e, n);
      if Live(st, n) {
        AccountedStep(st, e, n, c);
      } else {
        PromotionGoesOn(st, n, c);
        AccountedAtPromotion(st, n, c);
      }
    }
  }

  lemma PromotionGoesOn(st: State, n: Nonce, c: Cycle)
    requires Enabled(st, Promotion(n))
    ensures CycleAfter(st, Promotion(n), n, c) == c
  {
  }

  lemma ArrivalCycle(st: State, n: Nonce, c: Cycle)
    requires n in st.conns && st.conns[n].phase.Arrived? && c.waited >= 0.0 && c.slept >= 0.0
    ensures CycleConn(st, n, c)
  {
  }

  lemma CycleNonNegative(st: State, e: Event, n: Nonce, c: Cycle)
    requires Enabled(st, e) && c.waited >= 0.0 && c.slept >= 0.0
    ensures CycleAfter(st, e, n, c).waited >= 0.0 && CycleAfter(st, e, n, c).slept >= 0.0
  {
    hide Samples;
  }

  lemma LiveIsPromoted(st: State, n: Nonce)
    requires Wired(st) && Live(st, n)
    ensures st.conns[n].promoted && st.conns[n].session.Some?
  {
    assert ConnSane(st.conns[n]);
  }

  lemma LiveStays(st: State, e: Event, n: Nonce)
    requires Enabled(st, e) && Wired(st) && n in st.conns && st.conns[n].promoted && st.conns[n].session.Some?
    requires Live(Next(st, e), n)
    ensures Live(st, n)
  {
    hide Enabled, Next, Promotes, Wired, Live;
    LiveBefore(st, e, n);
    PromotedCannotPromote(st, e, st.conns[n].session.value, n);
  }

  lemma LiveOnlyIfLiveBefore(tr: seq<State>, es: seq<Event>, i: nat, j: nat, n: Nonce)
    requires IsRun(tr, es) && i < j < |tr| && Live(tr[i], n) && Live(tr[j], n)
    ensures Live(tr[j - 1], n)
  {
    hide Enabled, Next, Wired, Live, Consistent, Conserved, GateOk;
    assert Enabled(tr[j - 1], es[j - 1]) && tr[j] == Next(tr[j - 1], es[j - 1]);
    RunInv(tr, es, j - 1);
    RunInv(tr, es, i);
    LiveIsPromoted(tr[i], n);
    PromotedStays(tr, es, i, j - 1, n);
    LiveStays(tr[j - 1], es[j - 1], n);
  }

  lemma TimedArrival(st: State, n: Nonce)
    requires n in st.conns && st.conns[n].dog.Stopped?
    ensures TimedConn(st, n)
  {
  }

  // ---- Whole runs --------------------------------------------------------------------------------

  lemma PunctualFacts(tr: seq<State>, es: seq<Event>, i: nat, n: Nonce)
    requires IsRun(tr, es) && Punctual(tr, es) && i < |es| && n in tr[i].conns
    ensures Enabled(tr[i], es[i]) && tr[i + 1] == Next(tr[i], es[i])
    ensures Wired(tr[i]) && WatchedConn(tr[i], n)
    ensures es[i].Tick? ==> OnTime(LockFree(tr[i]), tr[i].conns[n], tr[i].clock + es[i].dt)
  {
    hide Enabled, Next, WatchedConn, OnTime, Wired;
    RunInv(tr, es, i);
    RunWatched(tr, es, i);
  }

  lemma {:induction false} RunTimed(tr: seq<State>, es: seq<Event>, i: nat, n: Nonce)
    requires IsRun(tr, es) && Punctual(tr, es) && i < |tr|
    ensures n in tr[i].conns ==> TimedConn(tr[i], n) && CycleConn(tr[i], n, CycleOf(tr, es, n, i))
    ensures CycleOf(tr, es, n, i).waited >= 0.0 && CycleOf(tr, es, n, i).slept >= 0.0
  {
    hide Enabled, Next, WatchedConn, TimedConn, CycleConn, ConnContinues, CycleAfter, OnTime;
    assert Initial(tr[0]);
    if i > 0 {
      var st, e, c := tr[i - 1], es[i - 1], CycleOf(tr, es, n, i - 1);
      RunTimed(tr, es, i - 1, n);
      assert Enabled(st, e) && tr[i] == Next(st, e);
      CycleNonNegative(st, e, n, c);
      ConnStepHolds(st, e);
      if n in st.conns {
        PunctualFacts(tr, es, i - 1, n);
        TimedStep(st, e, n);
        CycleStep(st, e, n, c);
      } else if n in tr[i].conns {
        TimedArrival(tr[i], n);
        ArrivalCycle(tr[i], n, CycleAfter(st, e, n, c));
      }
    }
  }

  ghost predicate Overstays(st: State, n: Nonce)
  {
    Live(st, n) && st.clock > Deadline(st, n)
  }

  /**
   In a punctual run a binding whose promotion was not late outlives its deadline by no more
   than its connection waited for the lock in this cycle, and not at all when it did not
   wait.  Within a cycle it never sleeps longer than a minute, nor longer than the deadline
   had left at the sample, and every moment of the cycle was waited or slept; so it
   overstays exactly when the wait uses up the sleep left over, and more.
   */
  lemma NoBindingOutlivesItsDeadline(tr: seq<State>, es: seq<Event>, i: nat, n: Nonce)
    requires IsRun(tr, es) && Punctual(tr, es) && i < |tr| && Live(tr[i], n) && !tr[i].conns[n].late
    ensures var st, c, deadline := tr[i], CycleOf(tr, es, n, i), Deadline(tr[i], n);
      && st.clock == c.sample + c.waited + c.slept
      && 0.0 <= c.waited && 0.0 <= c.slept <= Min(60.0, deadline - c.sample)
      && st.clock <= deadline + c.waited
      && (Overstays(st, n) <==> c.waited > deadline - c.sample - c.slept)
      && (c.waited == 0.0 ==> !Overstays(st, n))
  {
    hide Enabled, Next, CycleOf, Live;
    RunTimed(tr, es, i, n);
  }

  /** What a connection waits for its promotion, and a watched one afterwards, is time for which
      a POST's call into the SDK holds the registry lock. */
  lemma OnlyTheLockDelaysAWatchdog(tr: seq<State>, es: seq<Event>, i: nat, n: Nonce)
    requires IsRun(tr, es) && Punctual(tr, es) && i < |es| && es[i].Tick? && n in tr[i].conns
    requires tr[i].conns[n].phase.Claimed? || (Live(tr[i], n) && !tr[i].conns[n].late && !Asleep(tr[i].conns[n]))
    ensures tr[i].gate.Posting? && tr[i].gate.enqueuing
  {
    hide Enabled, Next, WatchedConn, Live;
    PunctualFacts(tr, es, i, n);
    if Live(tr[i], n) && !tr[i].conns[n].late { LiveFacts(tr[i], n); }
  }

  /** The sleep a renewal has just entered ends past the deadline, if nothing wakes it. */
  ghost predicate Oversleeps(st: State, n: Nonce)
    requires n in st.conns && st.conns[n].dog.Sleeping?
  {
    exists dt :: OverstaysAfter(st, n, dt)
  }

  ghost predicate OverstaysAfter(st: State, n: Nonce, dt: Time)
    requires n in st.conns && st.conns[n].dog.Sleeping?
  {
    0.0 < dt <= st.conns[n].dog.until - st.clock && Overstays(st.(clock := st.clock + dt), n)
  }

  /** What remains of the deadline when a renewal computes its sleep. */
  function Remaining(st: State, n: Nonce): Time
    requires n in st.conns && st.conns[n].dog.Renewing? && Bound(st, n)
  {
    RenewedDeadline(st, n) - st.conns[n].dog.sample
  }

  /** A renewal oversleeps exactly when it waited for the lock longer than what remains of the
      deadline beyond the minute it sleeps at most; with less than a minute left, when it
      waited at all. */
  lemma RenewalOversleepsIff(st: State, n: Nonce)
    requires Enabled(st, DogRenew(n)) && Live(st, n) && Remaining(st, n) > 0.0 && st.conns[n].dog.sample <= st.clock
    ensures var st' := Next(st, DogRenew(n));
      && n in st'.conns && st'.conns[n].dog.Sleeping?
      && (Oversleeps(st', n) <==> st.clock - st.conns[n].dog.sample > Max(0.0, Remaining(st, n) - 60.0))
  {
    hide Holds, RenewedDeadline;
    var st' := Next(st, DogRenew(n));
    RenewDeadline(st, n);
    DogStep(st, DogRenew(n), n);
    RenewalKeepsLive(st, n);
    hide Next, Enabled;
    var until := st'.conns[n].dog.until;
    if until > Deadline(st', n) {
      var dt := until - st'.clock;
      assert OverstaysAfter(st', n, dt);
    }
  }

  lemma RenewalKeepsLive(st: State, n: Nonce)
    requires Enabled(st, DogRenew(n)) && Live(st, n)
    ensures var st' := Next(st, DogRenew(n));
      Live(st', n) && Deadline(st', n) == RenewedDeadline(st, n) && st'.clock == st.clock
  {
    RenewDeadline(st, n);
    hide Holds, RenewedDeadline, TokenDeadline;
  }

  // ---- A token that stops validating -------------------------------------------------------------

  /** What connection `n` waited between two moments. */
  ghost function WaitedBetween(tr: seq<State>, es: seq<Event>, n: Nonce, i: nat, j: nat): Time
    requires IsRun(tr, es) && i <= j < |tr|
    decreases j - i
  {
    if i == j then 0.0 else WaitedBetween(tr, es, n, i, j - 1) + Wait(tr[j - 1], es[j - 1], n)
  }

  function Wait(st: State, e: Event, n: Nonce): Time
  {
    if e.Tick? && n in st.conns && !Asleep(st.conns[n]) then e.dt else 0.0
  }

  ghost predicate OverdueBy(st: State, n: Nonce, since: Time)
    requires n in st.conns
  {
    var dog := st.conns[n].dog;
    && st.clock <= since + WATCHDOG
    && (dog.Sleeping? ==> dog.until <= since + WATCHDOG)
    && (dog.Renewing? ==> st.clock <= since)
  }

  lemma OverdueStep(st: State, e: Event, n: Nonce, since: Time)
    requires Enabled(st, e) && Wired(st) && n in st.conns && WatchedConn(st, n)
    requires e.Tick? ==> OnTime(LockFree(st), st.conns[n], st.clock + e.dt)
    requires e.DogCheck? && e.n == n ==> e.validated.None?
    requires Live(st, n) && Live(Next(st, e), n) && !st.conns[n].late && OverdueBy(st, n, since)
    ensures OverdueBy(Next(st, e), n, since + Wait(st, e, n)) && !Next(st, e).conns[n].late
  {
    hide Next, Wired, Holds, Admits, PromotesSome, TokenDeadline, RenewedDeadline, LockFree, Live, Bound, WatchedConn;
    LiveFacts(st, n);
    DogStep(st, e, n);
    ControlsHold(st, e);
    TickPositive(st, e);
    LiveBefore(st, e, n);
    LiveDog(st, e, n);
  }

  /** In a punctual run, a connection streaming at `i` whose token fails every later
      validation is out of the tables once 60 seconds have passed, and what it waited for
      the lock in the meantime. */
  lemma {:induction false} RevokedIsGoneWithin60(tr: seq<State>, es: seq<Event>, i: nat, j: nat, n: Nonce)
    requires IsRun(tr, es) && Punctual(tr, es) && i <= j < |tr|
    requires Live(tr[i], n) && !tr[i].conns[n].late
    requires forall k :: i <= k < j && es[k].DogCheck? && es[k].n == n ==> es[k].validated.None?
    requires Live(tr[j], n)
    ensures tr[j].clock <= tr[i].clock + 60.0 + WaitedBetween(tr, es, n, i, j)
    ensures OverdueBy(tr[j], n, tr[i].clock + WaitedBetween(tr, es, n, i, j)) && !tr[j].conns[n].late
    decreases j - i
  {
    hide Enabled, Next, WatchedConn, Live, Wired, OnTime;
    if i == j {
      RunTimed(tr, es, i, n);
    } else {
      LiveOnlyIfLiveBefore(tr, es, i, j, n);
      RevokedIsGoneWithin60(tr, es, i, j - 1, n);
      PunctualFacts(tr, es, j - 1, n);
      OverdueStep(tr[j - 1], es[j - 1], n, tr[i].clock + WaitedBetween(tr, es, n, i, j - 1));
    }
  }
}
