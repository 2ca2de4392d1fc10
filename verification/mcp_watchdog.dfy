/**
 The watchdog of each MCP connection: which connections have one, and what bounds the
 deadline it looks at.

 A promotion can come after the watchdog's timer has fired, because the promotion
 section compares the clock it sampled before waiting for the registry lock.  The
 watchdog then finds no reservation to drop and ends, and nothing is left to enforce
 the deadline; `LateIffUnguarded` says that this is the only way.
 */
module McpWatchdog {
  import opened Wrappers
  import opened McpTables
  import opened McpGuard
  import opened McpRuns

  // ---- How one step moves a watchdog --------------------------------------------------

  ghost function DogAfter(st: State, e: Event, n: Nonce): Dog
    requires Enabled(st, e) && n in st.conns
  {
    var c := st.conns[n];
    if Subject(e) != Some(n) then c.dog
    else match e
      case GetAdmit(_) => if Admits(st, e, n) then Unborn else c.dog
      case Promotion(_) => if PromotesSome(st, e) && c.dog.Waiting? then Checking else c.dog
      case BeginCleanup(_) => Stopped
      case DogStart(_) => if c.promoted then Checking else Waiting(st.clock + FIRST_FRAME_TIMEOUT)
      case DogTimeout(_) => TimedOut
      case DogDropReservation(_) => Stopped
      case DogCheck(_, v) =>
        if !Bound(st, n) then Stopped
        else if st.tables.bindings[c.session.value].deadline <= st.clock || v.None? then Closing
        else Renewing(v.value, st.clock)
      case DogClose(_) => Stopped
      case DogRenew(_) =>
        if !Bound(st, n) then Stopped
        else
          var remaining := RenewedDeadline(st, n) - c.dog.sample;
          if remaining <= 0.0 then Closing else Sleeping(st.clock + Min(WATCHDOG, remaining))
      case DogWake(_) => Checking
      case _ => c.dog
  }

  function RenewedDeadline(st: State, n: Nonce): Time
    requires n in st.conns && st.conns[n].dog.Renewing? && Bound(st, n)
  {
    var dog := st.conns[n].dog;
    Min(st.tables.bindings[st.conns[n].session.value].deadline,
        TokenDeadline(dog.expiresAt, st.clock + st.skew, dog.sample))
  }

  lemma QuietDog(st: State, e: Event)
    requires Enabled(st, e) && !Sections(e) && Subject(e).Some? && Subject(e).value in st.conns
    ensures QuietNext(st, e).conns[Subject(e).value].dog == DogAfter(st, e, Subject(e).value)
  {
  }

  lemma DropDog(st: State, e: Event)
    requires Enabled(st, e) && Drops(e) && Subject(e).Some?
    ensures DropNext(st, e).conns[Subject(e).value].dog == DogAfter(st, e, Subject(e).value)
  {
    hide Holds;
  }

  lemma SectionDog(st: State, e: Event)
    requires Enabled(st, e) && (e.GetAdmit? || e.Promotion? || e.DogRenew?)
    ensures Next(st, e).conns[e.n].dog == DogAfter(st, e, e.n)
  {
    hide Holds, DropNext, QuietNext, Decide;
  }

  lemma DogStep(st: State, e: Event, n: Nonce)
    requires Enabled(st, e) && n in st.conns
    ensures n in Next(st, e).conns && Next(st, e).conns[n].dog == DogAfter(st, e, n)
  {
    hide DropNext, QuietNext, Admit, Promote, Decide, Renew, ConnContinues, Enabled;
    SubjectContinues(st, e);
    if Subject(e) != Some(n) {
    } else {
      hide DogAfter;
      if Drops(e) { DropDog(st, e); }
      else if e.GetAdmit? || e.Promotion? || e.DogRenew? { SectionDog(st, e); }
      else { QuietDog(st, e); }
    }
  }

  lemma RenewDeadline(st: State, n: Nonce)
    requires Enabled(st, DogRenew(n)) && Bound(st, n)
    ensures st.conns[n].session.value in Next(st, DogRenew(n)).tables.bindings
    ensures Next(st, DogRenew(n)).tables.bindings[st.conns[n].session.value].deadline == RenewedDeadline(st, n)
  {
  }

  // ---- Which connections have a watchdog ------------------------------------------------

  /** Streaming, and still in the tables. */
  ghost predicate Live(st: State, n: Nonce)
    ensures Live(st, n) ==> n in st.conns
  {
    n in st.conns && st.conns[n].phase.Streaming? && Bound(st, n)
  }

  ghost predicate WatchedConn(st: State, n: Nonce)
    requires n in st.conns
  {
    var c := st.conns[n];
    && (n in st.tables.reservations && (c.phase.Serving? || c.phase.Claimed?) ==>
          c.dog.Unborn? || c.dog.Waiting? || c.dog.TimedOut?)
    && (Live(st, n) ==> !c.dog.Waiting? && (c.late <==> c.dog.TimedOut? || c.dog.Stopped?))
  }

  ghost predicate Watched(st: State)
  {
    forall n :: n in st.conns ==> WatchedConn(st, n)
  }

  /** A streaming connection was streaming and bound before, unless this step promoted it. */
  lemma LiveBefore(st: State, e: Event, n: Nonce)
    requires Enabled(st, e) && Wired(st) && n in st.conns && Live(Next(st, e), n)
    ensures Live(st, n) || (e == Promotion(n) && PromotesSome(st, e))
    ensures Live(st, n) ==> Next(st, e).conns[n].session == st.conns[n].session
    ensures Live(st, n) ==> Next(st, e).conns[n].late == st.conns[n].late && e != Promotion(n)
  {
    hide Next, PromotionAllowed, Admits, NewBinding, Stays;
    var st' := Next(st, e);
    TableStepHolds(st, e);
    ConnStepHolds(st, e);
    assert ConnContinues(st, e, n, st'.conns[n]);
    assert ConnSane(st.conns[n]);
    var s := st'.conns[n].session.value;
    assert s in st'.tables.bindings;
    if e == Promotion(n) { EnabledPromotion(st, n); }
    if e.Claim? && e.n == n { ClaimedServes(st, e); }
  }

  lemma LateAtPromotion(st: State, n: Nonce)
    requires Enabled(st, Promotion(n)) && PromotesSome(st, Promotion(n))
    ensures Next(st, Promotion(n)).conns[n].late == st.conns[n].dog.TimedOut?
  {
  }

  lemma WatchedStep(st: State, e: Event, n: Nonce)
    requires Enabled(st, e) && Wired(st) && Watched(st) && n in Next(st, e).conns
    ensures WatchedConn(Next(st, e), n)
  {
    hide Next, PromotionAllowed, Reserve, Done, ConnContinues, PhaseAfter, Stays, NewBinding, Promotes;
    var st' := Next(st, e);
    assert n in st.tables.reservations ==> !st.conns[n].promoted;
    hide Wired;
    ConnStepHolds(st, e);
    if n in st.conns {
      assert WatchedConn(st, n);
      DogStep(st, e, n);
      if Live(st', n) { WatchedLive(st, e, n); }
      if n in st'.tables.reservations { WatchedReserved(st, e, n); }
    }
  }

  lemma WatchedLive(st: State, e: Event, n: Nonce)
    requires Enabled(st, e) && Wired(st) && n in st.conns && WatchedConn(st, n) && Live(Next(st, e), n)
    ensures var c := Next(st, e).conns[n]; !c.dog.Waiting? && (c.late <==> c.dog.TimedOut? || c.dog.Stopped?)
  {
    hide Next, Wired, Reserve, Done;
    DogStep(st, e, n);
    LiveBefore(st, e, n);
    if Live(st, n) {
      LiveDog(st, e, n);
    } else {
      LateAtPromotion(st, n);
      EnabledPromotion(st, n);
    }
  }

  lemma LiveDog(st: State, e: Event, n: Nonce)
    requires Enabled(st, e) && Wired(st) && Live(st, n) && Live(Next(st, e), n)
    ensures e != GetAdmit(n) && e != Promotion(n) && e != BeginCleanup(n) && e != DogClose(n)
    ensures st.conns[n].promoted
  {
    hide Holds;
    assert ConnSane(st.conns[n]);
  }

  lemma DroppedReservation(st: State, n: Nonce)
    requires Enabled(st, DogDropReservation(n))
    ensures n !in Next(st, DogDropReservation(n)).tables.reservations
  {
  }

  lemma WatchedReserved(st: State, e: Event, n: Nonce)
    requires Enabled(st, e) && n in st.conns && WatchedConn(st, n)
    requires n in st.tables.reservations ==> !st.conns[n].promoted
    requires n in Next(st, e).tables.reservations
    ensures Next(st, e).conns[n].phase.Serving? || Next(st, e).conns[n].phase.Claimed? ==>
      Next(st, e).conns[n].dog.Unborn? || Next(st, e).conns[n].dog.Waiting? || Next(st, e).conns[n].dog.TimedOut?
  {
    hide Next, PromotionAllowed, Reserve, Done, Stays, NewBinding, RenewedDeadline, Live;
    DogStep(st, e, n);
    TableStepHolds(st, e);
    ConnStepHolds(st, e);
    assert ConnContinues(st, e, n, Next(st, e).conns[n]);
    if e == DogDropReservation(n) { DroppedReservation(st, n); }
    if !Admits(st, e, n) { EnabledDog(st, e); }
  }

  lemma EnabledDog(st: State, e: Event)
    requires Enabled(st, e)
    ensures e.DogCheck? ==> st.conns[e.n].dog.Checking?
    ensures e.DogClose? ==> st.conns[e.n].dog.Closing?
    ensures e.DogRenew? ==> st.conns[e.n].dog.Renewing?
    ensures e.DogWake? ==> st.conns[e.n].dog.Sleeping?
  {
  }

  lemma {:induction false} RunWatched(tr: seq<State>, es: seq<Event>, i: nat)
    requires IsRun(tr, es) && i < |tr|
    ensures Watched(tr[i])
  {
    hide Enabled, Next, WatchedConn;
    assert Initial(tr[0]);
    if i > 0 {
      RunWatched(tr, es, i - 1);
      RunInv(tr, es, i - 1);
      assert Enabled(tr[i - 1], es[i - 1]) && tr[i] == Next(tr[i - 1], es[i - 1]);
      forall n | n in tr[i].conns ensures WatchedConn(tr[i], n) {
        WatchedStep(tr[i - 1], es[i - 1], n);
      }
    }
  }

  /** In every run, a streaming connection lacks a watchdog exactly when its promotion
      came after the watchdog's timer had fired. */
  lemma LateIffUnguarded(tr: seq<State>, es: seq<Event>, i: nat, n: Nonce)
    requires IsRun(tr, es) && i < |tr| && Live(tr[i], n)
    ensures tr[i].conns[n].late <==> tr[i].conns[n].dog.TimedOut? || tr[i].conns[n].dog.Stopped?
  {
    RunWatched(tr, es, i);
    assert WatchedConn(tr[i], n);
  }

  // ---- Deadlines and the expiries behind them ---------------------------------------------

  ghost predicate SampledConn(c: Conn, clock: Time)
  {
    (c.phase.Claimed? ==> c.phase.sample <= clock) && (c.dog.Renewing? ==> c.dog.sample <= clock)
  }

  ghost predicate Sampled(st: State)
  {
    forall n :: n in st.conns ==> SampledConn(st.conns[n], st.clock)
  }

  lemma SampledStep(st: State, e: Event, n: Nonce)
    requires Enabled(st, e) && Sampled(st) && n in Next(st, e).conns
    ensures SampledConn(Next(st, e).conns[n], Next(st, e).clock)
  {
    hide Next, Enabled, Admits, PromotesSome, Bound, RenewedDeadline, Enqueues;
    ConnStepHolds(st, e);
    ControlsHold(st, e);
    TickPositive(st, e);
    if n in st.conns {
      DogStep(st, e, n);
      assert ConnContinues(st, e, n, Next(st, e).conns[n]);
    }
  }

  lemma TickPositive(st: State, e: Event)
    requires Enabled(st, e)
    ensures e.Tick? ==> e.dt > 0.0
  {
  }

  lemma {:induction false} RunSampled(tr: seq<State>, es: seq<Event>, i: nat)
    requires IsRun(tr, es) && i < |tr|
    ensures Sampled(tr[i])
  {
    hide Enabled, Next;
    assert Initial(tr[0]);
    if i > 0 {
      RunSampled(tr, es, i - 1);
      assert Enabled(tr[i - 1], es[i - 1]) && tr[i] == Next(tr[i - 1], es[i - 1]);
      forall n | n in tr[i].conns ensures SampledConn(tr[i].conns[n], tr[i].clock) {
        SampledStep(tr[i - 1], es[i - 1], n);
      }
    }
  }

  /** The expiry that step `e` learns for session `s`: at promotion, and at each renewal. */
  ghost predicate Observes(st: State, e: Event, s: SessionId, expiry: Time, sample: Time)
    requires Enabled(st, e)
  {
    || (Promotes(st, e, s) && st.conns[e.n].token.expiresAt == Some(expiry) && sample == st.conns[e.n].phase.sample)
    || (e.DogRenew? && Bound(st, e.n) && st.conns[e.n].session == Some(s)
        && st.conns[e.n].dog == Renewing(Some(expiry), sample))
  }

  lemma ObservedBound(st: State, e: Event, s: SessionId, expiry: Time, sample: Time)
    requires Enabled(st, e) && Sampled(st) && Observes(st, e, s, expiry, sample)
    ensures s in Next(st, e).tables.bindings
    ensures Next(st, e).tables.bindings[s].deadline <= Max(sample, expiry - st.skew)
  {
    hide Holds, DropNext, QuietNext, Admit, Decide;
    if e.DogRenew? { RenewDeadline(st, e.n); }
  }

  /** No deadline passes the hour after its binding was made, nor any expiry seen for
      it, whichever is earlier; only a token already expired when sampled counts as
      expiring at the sample. */
  lemma DeadlineBounds(tr: seq<State>, es: seq<Event>, j: nat, s: SessionId)
    requires IsRun(tr, es) && j < |tr| && s in tr[j].tables.bindings
    ensures tr[j].tables.bindings[s].deadline <= tr[j].tables.bindings[s].createdAt + 3600.0
    ensures forall k, expiry, sample :: 0 <= k < j && Observes(tr[k], es[k], s, expiry, sample) ==>
      tr[j].tables.bindings[s].deadline <= Max(sample, expiry - tr[0].skew)
  {
    hide Enabled, Next, Observes, Sampled;
    var k := BindingOrigin(tr, es, j, s);
    assert Enabled(tr[k], es[k]);
    EnabledPromotion(tr[k], es[k].n);
    TokenDeadlineBounds(tr[k].conns[es[k].n].token.expiresAt, tr[k].clock + tr[k].skew,
      tr[k].conns[es[k].n].phase.sample);
    forall i, expiry, sample | 0 <= i < j && Observes(tr[i], es[i], s, expiry, sample)
      ensures tr[j].tables.bindings[s].deadline <= Max(sample, expiry - tr[0].skew)
    {
      assert Enabled(tr[i], es[i]) && tr[i + 1] == Next(tr[i], es[i]);
      RunSampled(tr, es, i);
      ObservedBound(tr[i], es[i], s, expiry, sample);
      DeadlineNeverIncreases(tr, es, i + 1, j, s);
      SkewIsFixed(tr, es, i);
    }
  }
}
