/**
 What the MCP session guard answers, in both directions: when a POST is enqueued and when
 it is refused, when a GET is admitted, when a first frame is promoted, what a watchdog
 does, and which entries leave the tables at each step.  Everything is said of the tables,
 the connections and the clocks as they are, not of the functions that compute it.
 */
module McpAnswers {
  import opened Wrappers
  import opened McpTables
  import opened McpGuard
  import opened McpRuns

  predicate HasEnded(st: State, n: Task)
  {
    n in st.conns && st.conns[n].phase.Ended?
  }

  // ---- A POST ------------------------------------------------------------------------------

  /** The session is bound to this token, past no deadline at `now`, and its task runs. */
  predicate Enqueueable(st: State, s: SessionId, k: TokenId, now: Time)
  {
    && s in st.tables.bindings && st.tables.bindings[s].tokenId == k
    && st.tables.bindings[s].deadline > now && !HasEnded(st, st.tables.bindings[s].owner)
  }

  lemma DecideExactly(st: State)
    requires Enabled(st, PostDecide) && Consistent(st.tables) && st.enabled
    ensures var g := st.gate;
      Next(st, PostDecide).gate ==
        if Enqueueable(st, g.session, g.tokenId, g.sample) then g.(enqueuing := true) else Open
    ensures StampedOnly(st, Next(st, PostDecide))
  {
    hide Holds, Dropped, DistinctOwners;
  }

  /** An enqueue stamps its own binding with the clock the POST sampled, and changes nothing else. */
  ghost predicate StampedOnly(st: State, st': State)
    requires st.gate.Posting?
  {
    var b, b' := st.tables.bindings, st'.tables.bindings;
    && (forall s :: s in b' ==> s in b)
    && (forall s :: s in b' ==>
          b'[s] == if st'.gate.Posting? && s == st.gate.session then b[s].(lastActivity := st.gate.sample) else b[s])
  }

  /** A POST that decides is enqueued exactly when its session is bound to its token, with a
      deadline after the clock the POST sampled, by a task that has not ended; otherwise it
      is refused and the gate opens. */
  lemma PostAnswer(tr: seq<State>, es: seq<Event>, i: nat)
    requires IsRun(tr, es) && i < |es| && es[i] == PostDecide
    ensures var g := tr[i].gate;
      && g.Posting? && !g.enqueuing
      && tr[i + 1].gate ==
        if Enqueueable(tr[i], g.session, g.tokenId, g.sample) then g.(enqueuing := true) else Open
    ensures StampedOnly(tr[i], tr[i + 1])
  {
    hide Next, Consistent;
    RunInv(tr, es, i);
    assert Enabled(tr[i], es[i]) && tr[i + 1] == Next(tr[i], es[i]);
    DecideExactly(tr[i]);
  }

  // ---- A GET -------------------------------------------------------------------------------

  ghost function LiveReservations(st: State, now: Time): set<Nonce>
  {
    set n | n in st.tables.reservations
      && st.tables.reservations[n].firstFrameDeadline > now && !HasEnded(st, st.tables.reservations[n].owner)
  }

  ghost function LiveBindings(st: State, now: Time): set<SessionId>
  {
    set s | s in st.tables.bindings
      && st.tables.bindings[s].deadline > now && !HasEnded(st, st.tables.bindings[s].owner)
  }

  lemma SweptSizes(st: State, now: Time)
    ensures var t := Sweep(st.tables, now, Done(st));
      |t.reservations| == |LiveReservations(st, now)| && |t.bindings| == |LiveBindings(st, now)|
  {
    var t := Sweep(st.tables, now, Done(st));
    assert t.reservations.Keys == LiveReservations(st, now) && t.bindings.Keys == LiveBindings(st, now);
    assert |t.reservations.Keys| == |t.reservations| && |t.bindings.Keys| == |t.bindings|;
  }

  /** A GET is admitted exactly when connectivity is enabled and fewer than 32 entries are live
      at the clock it sampled; it then has ten seconds from that clock. */
  lemma AdmissionAnswer(st: State, n: Nonce)
    requires Enabled(st, GetAdmit(n))
    ensures var st', now := Next(st, GetAdmit(n)), st.conns[n].phase.sample;
      && n in st'.conns
      && (st'.conns[n].phase.Serving? <==>
            st.enabled && |LiveReservations(st, now)| + |LiveBindings(st, now)| < 32)
      && (st'.conns[n].phase.Serving? ==>
            n in st'.tables.reservations && st'.tables.reservations[n] == Reservation(n, now, now + 10.0))
      && (!st'.conns[n].phase.Serving? ==> st'.conns[n].phase.Ended?)
  {
    hide Holds, Dropped, Sweep;
    SweptSizes(st, st.conns[n].phase.sample);
  }

  // ---- A first frame ---------------------------------------------------------------------------

  /** The clocks a connection and its reservation carry. */
  ghost predicate Sampled(st: State, n: Nonce, arrival: Time, claim: Time)
  {
    n in st.conns ==>
      && (st.conns[n].phase.Arrived? ==> st.conns[n].phase.sample == arrival)
      && (st.conns[n].phase.Claimed? ==> st.conns[n].phase.sample == claim)
      && (n in st.tables.reservations ==> st.tables.reservations[n].firstFrameDeadline == arrival + 10.0)
  }

  lemma ClaimContinues(st: State, e: Event, n: Nonce)
    requires Enabled(st, e) && n in st.conns
    ensures n in Next(st, e).conns
    ensures var b, a, claims := st.conns[n], Next(st, e).conns[n], e.Claim? && e.n == n;
      && a.token == b.token
      && (claims ==> a.session == Some(e.s) && a.phase == Claimed(st.clock))
      && (a.phase.Claimed? && !claims ==> a.phase == b.phase && a.session == b.session)
      && (a.phase.Arrived? ==> a.phase == b.phase)
  {
    hide Next, Enabled, Admits, PromotesSome, ConnContinues;
    ConnStepHolds(st, e);
    Continued(st, e, n, Next(st, e).conns[n]);
  }

  lemma Continued(st: State, e: Event, n: Nonce, a: Conn)
    requires Enabled(st, e) && n in st.conns && ConnContinues(st, e, n, a)
    ensures var b, claims := st.conns[n], e.Claim? && e.n == n;
      && a.token == b.token
      && (claims ==> a.session == Some(e.s) && a.phase == Claimed(st.clock))
      && (a.phase.Claimed? && !claims ==> a.phase == b.phase && a.session == b.session)
      && (a.phase.Arrived? ==> a.phase == b.phase)
  {
    hide Enabled, Admits, PromotesSome;
  }

  lemma ReservedContinues(st: State, e: Event, n: Nonce)
    requires Enabled(st, e) && n in st.conns && n in Next(st, e).tables.reservations
    ensures var r := Next(st, e).tables.reservations[n];
      if Admits(st, e, n) then st.conns[n].phase.Arrived? && r.firstFrameDeadline == st.conns[n].phase.sample + 10.0
      else n in st.tables.reservations && r == st.tables.reservations[n]
  {
    if Admits(st, e, n) { AdmittedServes(st, n); AdmissionAnswer(st, n); }
    hide Next, Admits, LiveReservations, LiveBindings, Enabled;
    TableStepHolds(st, e);
  }

  lemma AdmittedServes(st: State, n: Nonce)
    requires Enabled(st, GetAdmit(n)) && Admits(st, GetAdmit(n), n)
    ensures Next(st, GetAdmit(n)).conns[n].phase.Serving?
  {
    hide Holds, Dropped;
  }

  lemma SampledStep(st: State, e: Event, n: Nonce, arrival: Time, claim: Time)
    requires Enabled(st, e) && n in st.conns && Sampled(st, n, arrival, claim)
    ensures Sampled(Next(st, e), n, arrival, if e.Claim? && e.n == n then st.clock else claim)
  {
    hide Next, Enabled, Admits;
    ClaimContinues(st, e, n);
    if n in Next(st, e).tables.reservations { ReservedContinues(st, e, n); }
  }

  ghost predicate FrameOf(tr: seq<State>, es: seq<Event>, i: nat, n: Nonce, g: nat, c: nat)
    requires IsRun(tr, es) && i < |tr| && n in tr[i].conns
  {
    && g < i && c < |tr| && es[g] == GetArrive(n, tr[i].conns[n].token)
    && Sampled(tr[i], n, tr[g].clock, tr[c].clock)
    && (tr[i].conns[n].phase.Claimed? ==>
          g < c < i && tr[i].conns[n].session.Some? && es[c] == Claim(n, tr[i].conns[n].session.value))
  }

  lemma {:induction false} FrameOrigin(tr: seq<State>, es: seq<Event>, i: nat, n: Nonce) returns (g: nat, c: nat)
    requires IsRun(tr, es) && i < |tr| && n in tr[i].conns
    ensures FrameOf(tr, es, i, n, g, c)
  {
    hide Enabled, Next, Wired, Sampled, Consistent, Conserved, GateOk, ConnContinues;
    assert Initial(tr[0]);
    assert i > 0;
    var st, e := tr[i - 1], es[i - 1];
    assert Enabled(st, e) && tr[i] == Next(st, e);
    RunInv(tr, es, i - 1);
    ConnStepHolds(st, e);
    if n in st.conns {
      g, c := FrameOrigin(tr, es, i - 1, n);
      SampledStep(st, e, n, tr[g].clock, tr[c].clock);
      ClaimContinues(st, e, n);
      if e.Claim? && e.n == n { c := i - 1; }
    } else {
      g, c := i - 1, i - 1;
      ArrivalSampled(st, e);
    }
  }

  lemma ArrivalSampled(st: State, e: Event)
    requires Enabled(st, e) && e.GetArrive? && Wired(st)
    ensures Sampled(Next(st, e), e.n, st.clock, st.clock)
    ensures Next(st, e).conns[e.n].token == e.token && !Next(st, e).conns[e.n].phase.Claimed?
  {
  }

  /** The binding a promotion makes, field by field. */
  predicate BoundFrom(st: State, n: Nonce, b: Binding, recognised: Time)
    requires n in st.conns
  {
    && b.tokenId == st.conns[n].token.id && b.owner == n && b.enqueueable && !b.closing
    && b.createdAt == b.lastActivity == recognised
    && b.deadline == TokenDeadline(st.conns[n].token.expiresAt, st.clock + st.skew, recognised)
  }

  /** The reservation is still there, the frame came in time, and connectivity is enabled. */
  predicate Promotable(st: State, n: Nonce, recognised: Time)
  {
    n in st.tables.reservations && recognised <= st.tables.reservations[n].firstFrameDeadline && st.enabled
  }

  lemma PromoteExactly(st: State, n: Nonce)
    requires Enabled(st, Promotion(n)) && Wired(st)
    ensures var st', c := Next(st, Promotion(n)), st.conns[n];
      && n in st'.conns && c.session.Some?
      && if Promotable(st, n, c.phase.sample) then
           && st'.conns[n].phase.Streaming? && n !in st'.tables.reservations
           && c.session.value in st'.tables.bindings
           && BoundFrom(st, n, st'.tables.bindings[c.session.value], c.phase.sample)
         else st'.conns[n].phase.Failing? && st'.tables == st.tables
  {
    assert ConnSane(st.conns[n]);
    hide Holds, Dropped, TokenDeadline;
  }

  /**
   The first frame recognised at `c` is promoted at `i` exactly when its GET, which arrived at
   `g`, still has its reservation, the frame was recognised within ten seconds of the
   arrival, and connectivity is enabled.  Otherwise the client gets the error.
   */
  lemma PromotionAnswer(tr: seq<State>, es: seq<Event>, i: nat, n: Nonce) returns (g: nat, c: nat)
    requires IsRun(tr, es) && i < |es| && es[i] == Promotion(n)
    ensures g < c < i && es[g].GetArrive? && es[g].n == n && es[c].Claim? && es[c].n == n
    ensures n in tr[i].conns && n in tr[i + 1].conns && tr[i].conns[n].token == es[g].token
    ensures
      if n in tr[i].tables.reservations && tr[c].clock <= tr[g].clock + 10.0 && tr[i].enabled then
        && tr[i + 1].conns[n].phase.Streaming? && n !in tr[i + 1].tables.reservations
        && es[c].s in tr[i + 1].tables.bindings
        && BoundFrom(tr[i], n, tr[i + 1].tables.bindings[es[c].s], tr[c].clock)
      else tr[i + 1].conns[n].phase.Failing? && tr[i + 1].tables == tr[i].tables
  {
    assert Enabled(tr[i], es[i]) && tr[i + 1] == Next(tr[i], es[i]);
    EnabledPromotion(tr[i], n);
    hide Enabled, Next, Wired, Consistent, Conserved, GateOk;
    RunInv(tr, es, i);
    g, c := FrameOrigin(tr, es, i, n);
    PromoteExactly(tr[i], n);
  }

  // ---- Deadlines -----------------------------------------------------------------------------------

  /** A deadline is the first moment, from the sample on, at which the hour is over or the
      token, by the wall clock, has expired. */
  lemma TokenDeadlineExactly(expiresAt: Option<Time>, nowWall: Time, nowMono: Time, x: Time)
    requires x >= nowMono
    ensures x >= TokenDeadline(expiresAt, nowWall, nowMono) <==>
      x - nowMono >= 3600.0 || (expiresAt.Some? && nowWall + (x - nowMono) >= expiresAt.value)
  {
  }

  /** The session this connection claimed is bound. */
  predicate HasBinding(st: State, n: Nonce)
    requires n in st.conns
  {
    st.conns[n].session.Some? && st.conns[n].session.value in st.tables.bindings
  }

  lemma HasBindingIsBound(st: State, n: Nonce)
    requires Wired(st) && n in st.conns
    ensures HasBinding(st, n) <==> Bound(st, n)
  {
    if HasBinding(st, n) { BoundSessionHolds(st, st.conns[n].session.value, n); }
  }

  lemma CheckExactly(st: State, n: Nonce, validated: Option<Option<Time>>)
    requires Enabled(st, DogCheck(n, validated)) && Wired(st)
    ensures n in st.conns && n in Next(st, DogCheck(n, validated)).conns
    ensures Next(st, DogCheck(n, validated)).tables == st.tables
    ensures Next(st, DogCheck(n, validated)).conns[n].dog ==
      if !HasBinding(st, n) then Stopped
      else if st.tables.bindings[st.conns[n].session.value].deadline > st.clock && validated.Some? then
        Renewing(validated.value, st.clock)
      else Closing
  {
    HasBindingIsBound(st, n);
    hide Wired;
  }

  /** A watchdog that looks goes on exactly when its session is bound, the deadline is not
      reached and the token validates; else it closes the session, or ends if there is none. */
  lemma CheckAnswer(tr: seq<State>, es: seq<Event>, i: nat, n: Nonce, validated: Option<Option<Time>>)
    requires IsRun(tr, es) && i < |es| && es[i] == DogCheck(n, validated)
    ensures n in tr[i].conns && n in tr[i + 1].conns && tr[i + 1].tables == tr[i].tables
    ensures tr[i + 1].conns[n].dog ==
      if !HasBinding(tr[i], n) then Stopped
      else if tr[i].tables.bindings[tr[i].conns[n].session.value].deadline > tr[i].clock && validated.Some? then
        Renewing(validated.value, tr[i].clock)
      else Closing
  {
    hide Enabled, Next, Wired, Consistent, Conserved, GateOk;
    RunInv(tr, es, i);
    assert Enabled(tr[i], es[i]) && tr[i + 1] == Next(tr[i], es[i]);
    CheckExactly(tr[i], n, validated);
  }

  /** A binding whose deadline `asked` may bring forward, and how long its watchdog then sleeps. */
  predicate RenewedTo(st: State, st': State, n: Nonce, s: SessionId, asked: Time)
    requires n in st.conns && st.conns[n].dog.Renewing? && n in st'.conns && s in st.tables.bindings
  {
    var b, now := st.tables.bindings[s], st.conns[n].dog.sample;
    var d := if b.deadline <= asked then b.deadline else asked;
    && st'.tables == st.tables.(bindings := st.tables.bindings[s := b.(deadline := d, lastActivity := now)])
    && st'.conns[n].dog ==
      if d <= now then Closing else Sleeping(st.clock + if d - now <= 60.0 then d - now else 60.0)
  }

  ghost predicate RenewsRight(st: State, st': State, n: Nonce)
    requires n in st.conns && st.conns[n].dog.Renewing? && n in st'.conns
  {
    var dog := st.conns[n].dog;
    if HasBinding(st, n) then
      RenewedTo(st, st', n, st.conns[n].session.value, TokenDeadline(dog.expiresAt, st.clock + st.skew, dog.sample))
    else st'.tables == st.tables && st'.conns[n].dog.Stopped?
  }

  lemma RenewExactly(st: State, n: Nonce)
    requires Enabled(st, DogRenew(n)) && Wired(st)
    ensures n in st.conns && st.conns[n].dog.Renewing? && n in Next(st, DogRenew(n)).conns
    ensures RenewsRight(st, Next(st, DogRenew(n)), n)
  {
    HasBindingIsBound(st, n);
    assert Next(st, DogRenew(n)) == Renew(st, n);
    hide Next, Wired, TokenDeadline, Enabled;
  }

  /** A renewal brings the deadline forward to the validated token's, and sleeps a minute or
      what is left of the deadline, counted from the check; with nothing bound it ends. */
  lemma RenewAnswer(tr: seq<State>, es: seq<Event>, i: nat, n: Nonce)
    requires IsRun(tr, es) && i < |es| && es[i] == DogRenew(n)
    ensures n in tr[i].conns && n in tr[i + 1].conns && tr[i].conns[n].dog.Renewing?
    ensures RenewsRight(tr[i], tr[i + 1], n)
  {
    hide Enabled, Next, Wired, Consistent, Conserved, GateOk, RenewsRight;
    RunInv(tr, es, i);
    assert Enabled(tr[i], es[i]) && tr[i + 1] == Next(tr[i], es[i]);
    RenewExactly(tr[i], n);
  }

  /** An owner's cleanup takes its reservation, and the binding of its session if it is its own. */
  lemma CleanupExactly(t: Tables, nonce: Nonce, promoted: Option<SessionId>, owner: Task)
    ensures var u := OwnerCleanup(t, nonce, promoted, owner);
      && (forall n :: n in u.reservations <==> n in t.reservations && n != nonce)
      && (forall s :: s in u.bindings <==>
            s in t.bindings && !(promoted == Some(s) && t.bindings[s].owner == owner))
  {
  }

  // ---- Leaving the tables ------------------------------------------------------------------------

  predicate LapsedReservation(st: State, n: Nonce, now: Time)
    requires n in st.tables.reservations
  {
    st.tables.reservations[n].firstFrameDeadline <= now || HasEnded(st, st.tables.reservations[n].owner)
  }

  predicate LapsedBinding(st: State, s: SessionId, now: Time)
    requires s in st.tables.bindings
  {
    st.tables.bindings[s].deadline <= now || HasEnded(st, st.tables.bindings[s].owner)
  }

  /** A step takes this reservation out of the table. */
  ghost predicate TakesReservation(st: State, e: Event, n: Nonce)
    requires Enabled(st, e) && n in st.tables.reservations
  {
    match e
    case GetAdmit(m) => LapsedReservation(st, n, st.conns[m].phase.sample)
    case PostDecide => LapsedReservation(st, n, st.gate.sample)
    case Promotion(m) =>
      m == n && st.enabled && st.conns[n].phase.sample <= st.tables.reservations[n].firstFrameDeadline
    case CleanupSection(m) => m == n
    case DropReservation(m) => m == n
    case DogDropReservation(m) => m == n
    case ToggleDetach => true
    case _ => false
  }

  ghost predicate TakesBinding(st: State, e: Event, s: SessionId)
    requires Enabled(st, e) && s in st.tables.bindings
  {
    match e
    case GetAdmit(m) => LapsedBinding(st, s, st.conns[m].phase.sample)
    case PostDecide => LapsedBinding(st, s, st.gate.sample)
    case CleanupSection(m) => st.tables.bindings[s].owner == m
    case DropSession(x) => x == s
    case DropSessionIfToken(x, k) => x == s && st.tables.bindings[s].tokenId == k
    case DogClose(m) => st.tables.bindings[s].owner == m
    case ToggleDetach => true
    case _ => false
  }

  /** The entries that are not in `t` are those that the step takes. */
  ghost predicate TakesOnly(st: State, e: Event, t: Tables)
    requires Enabled(st, e)
  {
    && (forall n :: n in st.tables.reservations ==> (n !in t.reservations <==> TakesReservation(st, e, n)))
    && (forall s :: s in st.tables.bindings ==> (s !in t.bindings <==> TakesBinding(st, e, s)))
  }

  lemma DropTakes(st: State, e: Event)
    requires Enabled(st, e) && Drops(e) && Wired(st)
    ensures TakesOnly(st, e, DropNext(st, e).tables)
  {
    hide Enabled, DropNext, TakesOnly, Wired;
    if e.CleanupSection? { CleanupTakes(st, e); }
    else if e.DogClose? { CloseTakes(st, e); }
    else { DetachTakes(st, e); }
  }

  lemma CleanupTables(st: State, n: Nonce)
    requires Enabled(st, CleanupSection(n))
    ensures n in st.conns
    ensures DropNext(st, CleanupSection(n)).tables == OwnerCleanup(st.tables, n, st.conns[n].session, n)
  {
    hide Holds, Dropped, OwnerCleanup;
  }

  lemma CleanupTakes(st: State, e: Event)
    requires Enabled(st, e) && e.CleanupSection? && Wired(st)
    ensures TakesOnly(st, e, DropNext(st, e).tables)
  {
    OwnersAreSessions(st);
    CleanupTables(st, e.n);
    hide Enabled, DropNext, Wired;
  }

  lemma CloseTables(st: State, n: Nonce)
    requires Enabled(st, DogClose(n))
    ensures n in st.conns
    ensures DropNext(st, DogClose(n)).tables ==
      if st.conns[n].session.Some? then WithoutSession(st.tables, st.conns[n].session.value) else st.tables
  {
    hide Holds, Dropped, WithoutSession;
  }

  lemma CloseTakes(st: State, e: Event)
    requires Enabled(st, e) && e.DogClose? && Wired(st)
    ensures TakesOnly(st, e, DropNext(st, e).tables)
  {
    OwnersAreSessions(st);
    CloseTables(st, e.n);
    hide Enabled, DropNext, Wired;
  }

  lemma DetachTables(st: State, e: Event)
    requires Enabled(st, e) && Drops(e) && !e.CleanupSection? && !e.DogClose?
    ensures DropNext(st, e).tables ==
      match e
      case DropReservation(n) => WithoutReservation(st.tables, n)
      case DogDropReservation(n) => WithoutReservation(st.tables, n)
      case DropSession(s) => WithoutSession(st.tables, s)
      case DropSessionIfToken(s, k) =>
        if s in st.tables.bindings && st.tables.bindings[s].tokenId == k then WithoutSession(st.tables, s)
        else st.tables
      case _ => Tables(map[], map[])
  {
    hide Holds, Dropped, WithoutReservation, WithoutSession, Enabled;
  }

  lemma DetachTakes(st: State, e: Event)
    requires Enabled(st, e) && Drops(e) && !e.CleanupSection? && !e.DogClose?
    ensures TakesOnly(st, e, DropNext(st, e).tables)
  {
    DetachTables(st, e);
    hide Enabled, DropNext;
  }

  /** A connection's session is bound, if at all, to that connection. */
  lemma OwnersAreSessions(st: State)
    requires Wired(st)
    ensures forall s, m :: s in st.tables.bindings && m in st.conns ==>
      (st.conns[m].session == Some(s) <==> st.tables.bindings[s].owner == m)
  {
    forall s, m | s in st.tables.bindings && m in st.conns
      ensures st.conns[m].session == Some(s) <==> st.tables.bindings[s].owner == m
    {
      if st.conns[m].session == Some(s) { BoundSessionHolds(st, s, m); }
    }
  }

  lemma SweptExactly(st: State, now: Time)
    ensures var t := Sweep(st.tables, now, Done(st));
      && (forall n :: n in st.tables.reservations ==> (n !in t.reservations <==> LapsedReservation(st, n, now)))
      && (forall s :: s in st.tables.bindings ==> (s !in t.bindings <==> LapsedBinding(st, s, now)))
  {
  }

  lemma AdmitTables(st: State, n: Nonce)
    requires Enabled(st, GetAdmit(n))
    ensures var t, now := Next(st, GetAdmit(n)).tables, st.conns[n].phase.sample;
      && t.bindings == Sweep(st.tables, now, Done(st)).bindings
      && forall m :: m != n ==> (m in t.reservations <==> m in Sweep(st.tables, now, Done(st)).reservations)
  {
    hide Holds, Dropped, Sweep;
  }

  lemma AdmitTakes(st: State, n: Nonce)
    requires Enabled(st, GetAdmit(n)) && Wired(st)
    ensures TakesOnly(st, GetAdmit(n), Next(st, GetAdmit(n)).tables)
  {
    AdmitTables(st, n);
    ArrivedHasNoEntry(st, n);
    SweptExactly(st, st.conns[n].phase.sample);
    hide HasEnded, Done, Next, Enabled, Wired, Sweep, LapsedReservation, LapsedBinding;
  }

  lemma DecideTables(st: State)
    requires Enabled(st, PostDecide)
    ensures var t := Next(st, PostDecide).tables;
      && t.reservations == Sweep(st.tables, st.gate.sample, Done(st)).reservations
      && t.bindings.Keys == Sweep(st.tables, st.gate.sample, Done(st)).bindings.Keys
  {
    hide Holds, Dropped, Sweep;
  }

  lemma DecideTakes(st: State)
    requires Enabled(st, PostDecide)
    ensures TakesOnly(st, PostDecide, Next(st, PostDecide).tables)
  {
    DecideTables(st);
    SweptExactly(st, st.gate.sample);
    hide Next, Enabled, Sweep, LapsedReservation, LapsedBinding;
  }

  lemma ArrivedHasNoEntry(st: State, n: Nonce)
    requires Wired(st) && n in st.conns && st.conns[n].phase.Arrived?
    ensures n !in st.tables.reservations
  {
    assert ConnSane(st.conns[n]);
  }

  lemma PromotionTakes(st: State, n: Nonce)
    requires Enabled(st, Promotion(n)) && Wired(st)
    ensures TakesOnly(st, Promotion(n), Next(st, Promotion(n)).tables)
  {
    PromoteExactly(st, n);
    PromotionTables(st, n);
    hide Next, Enabled, Wired, TokenDeadline, BoundFrom;
  }

  lemma PromotionTables(st: State, n: Nonce)
    requires Enabled(st, Promotion(n))
    ensures var t := Next(st, Promotion(n)).tables;
      && (forall m :: m in st.tables.reservations && m != n ==> m in t.reservations)
      && (forall s :: s in st.tables.bindings ==> s in t.bindings)
  {
    hide Holds, Dropped, TokenDeadline;
  }

  lemma RenewTakes(st: State, n: Nonce)
    requires Enabled(st, DogRenew(n))
    ensures Next(st, DogRenew(n)).tables.reservations == st.tables.reservations
    ensures Next(st, DogRenew(n)).tables.bindings.Keys == st.tables.bindings.Keys
  {
    hide TokenDeadline;
  }

  lemma EntriesTaken(st: State, e: Event)
    requires Enabled(st, e) && Wired(st)
    ensures TakesOnly(st, e, Next(st, e).tables)
  {
    hide Enabled, Wired, DropNext, QuietNext, Admit, Decide, Promote, Renew;
    if Drops(e) {
      DropTakes(st, e);
    } else if e.GetAdmit? {
      AdmitTakes(st, e.n);
    } else if e.PostDecide? {
      DecideTakes(st);
    } else if e.Promotion? {
      PromotionTakes(st, e.n);
    } else if e.DogRenew? {
      RenewTakes(st, e.n);
    } else {
      QuietStep(st, e);
    }
  }

  /** In every run an entry leaves the tables at a step exactly where the step is one that
      takes it. */
  lemma EntriesLeaveExactly(tr: seq<State>, es: seq<Event>, i: nat)
    requires IsRun(tr, es) && i < |es|
    ensures var t, t' := tr[i].tables, tr[i + 1].tables;
      && (forall n :: n in t.reservations ==> (n !in t'.reservations <==> TakesReservation(tr[i], es[i], n)))
      && (forall s :: s in t.bindings ==> (s !in t'.bindings <==> TakesBinding(tr[i], es[i], s)))
  {
    hide Enabled, Next, Wired, Consistent, Conserved, GateOk, TakesReservation, TakesBinding;
    RunInv(tr, es, i);
    assert Enabled(tr[i], es[i]) && tr[i + 1] == Next(tr[i], es[i]);
    EntriesTaken(tr[i], es[i]);
  }
}
