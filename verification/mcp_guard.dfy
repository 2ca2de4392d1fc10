/**
 The MCP session guard as a concurrent system (app/routers/mcp.py with
 app/services/connectivity_state.py).

 An event is one step of one task between two points at which it may be
 suspended; a section under the registry lock is one event, and it may run at a
 later clock than the one its task sampled before waiting for the lock.  The one
 section that suspends while it holds the lock, a POST waiting for the SDK, is
 two events.  Anything may interleave.

 Assumed: request nonces, SDK session ids and request tasks are fresh, and the
 wall clock is the monotonic clock plus a constant.  A GET and its task are named
 by the nonce.
 */
module McpGuard {
  import opened Wrappers
  import opened McpTables

  datatype Phase =
    | Arrived(sample: Time)   // token validated, waiting for the admission section
    | Serving                 // reservation made, the SDK is producing output
    | Claimed(sample: Time)   // endpoint frame recognised, waiting for the promotion section
    | Streaming               // promoted
    | Failing                 // first frame rejected
    | Cleanup                 // in `finally`, watchdog cancelled
    | Ended                   // task done

  datatype Dog =
    | Unborn
    | Waiting(until: Time)    // for the promotion, with a timeout
    | TimedOut                // about to drop the reservation
    | Checking                // about to look at the deadline
    | Closing                 // about to detach the session
    | Renewing(expiresAt: Option<Time>, sample: Time)
    | Sleeping(until: Time)
    | Stopped

  /** `late` remembers that the promotion came after the watchdog's timer had fired. */
  datatype Conn = Conn(token: Token, phase: Phase, session: Option<SessionId>,
                       admitted: bool, promoted: bool, late: bool, dog: Dog)

  datatype Gate =
    | Open
    | Posting(session: SessionId, tokenId: TokenId, sample: Time, enqueuing: bool)
    | Toggling

  datatype State = State(
    enabled: bool, clock: Time, skew: Time, gate: Gate,
    tables: Tables, conns: map<Nonce, Conn>,
    cancels: multiset<Task>,   // every cancel action handed out
    retired: set<Task>)        // entries that ended without one

  datatype Event =
    | Tick(dt: Time)
    | GetArrive(n: Nonce, token: Token)
    | GetAdmit(n: Nonce)
    | Claim(n: Nonce, s: SessionId)
    | Promotion(n: Nonce)
    | BeginCleanup(n: Nonce)
    | CleanupSection(n: Nonce)
    | Abandon(n: Nonce)        // cancelled again while waiting for its cleanup section
    | PostArrive(s: SessionId, tokenId: TokenId)
    | PostDecide
    | PostAbandon              // cancelled while waiting for its section
    | PostDone
    | DropReservation(n: Nonce)
    | DropSession(s: SessionId)
    | DropSessionIfToken(s: SessionId, tokenId: TokenId)
    | DogStart(n: Nonce)
    | DogTimeout(n: Nonce)
    | DogDropReservation(n: Nonce)
    | DogCheck(n: Nonce, validated: Option<Option<Time>>)
    | DogClose(n: Nonce)
    | DogRenew(n: Nonce)
    | DogWake(n: Nonce)
    | ToggleBegin(disable: bool)   // disable, or shutdown when false
    | ToggleDetach
    | Enable

  ghost predicate Initial(st: State)
  {
    && st.gate == Open && st.tables == Tables(map[], map[]) && st.conns == map[]
    && st.cancels == multiset{} && st.retired == {}
  }

  predicate LockFree(st: State) { !(st.gate.Posting? && st.gate.enqueuing) }

  function Done(st: State): set<Task>
  {
    set n | n in st.conns && st.conns[n].phase.Ended?
  }

  ghost predicate Enabled(st: State, e: Event)
  {
    match e
    case Tick(dt) => dt > 0.0
    case GetArrive(n, token) => n !in st.conns
    case GetAdmit(n) => n in st.conns && st.conns[n].phase.Arrived? && LockFree(st)
    case Claim(n, s) =>
      n in st.conns && st.conns[n].phase.Serving? && forall m :: m in st.conns ==> st.conns[m].session != Some(s)
    case Promotion(n) => n in st.conns && st.conns[n].phase.Claimed? && LockFree(st)
    case BeginCleanup(n) =>
      n in st.conns && st.conns[n].admitted && !st.conns[n].phase.Cleanup? && !st.conns[n].phase.Ended?
    case CleanupSection(n) => n in st.conns && st.conns[n].phase.Cleanup? && LockFree(st)
    case Abandon(n) => n in st.conns && st.conns[n].phase.Cleanup?
    case PostArrive(s, k) => st.gate.Open? && st.enabled
    case PostDecide => st.gate.Posting? && !st.gate.enqueuing
    case PostAbandon => st.gate.Posting? && !st.gate.enqueuing
    case PostDone => st.gate.Posting? && st.gate.enqueuing
    case DropReservation(n) => LockFree(st)
    case DropSession(s) => LockFree(st)
    case DropSessionIfToken(s, k) => LockFree(st)
    case DogStart(n) => n in st.conns && st.conns[n].dog.Unborn?
    case DogTimeout(n) => n in st.conns && st.conns[n].dog.Waiting? && st.clock >= st.conns[n].dog.until
    case DogDropReservation(n) => n in st.conns && st.conns[n].dog.TimedOut? && LockFree(st)
    case DogCheck(n, v) => n in st.conns && st.conns[n].dog.Checking? && LockFree(st)
    case DogClose(n) => n in st.conns && st.conns[n].dog.Closing? && LockFree(st)
    case DogRenew(n) => n in st.conns && st.conns[n].dog.Renewing? && LockFree(st)
    case DogWake(n) => n in st.conns && st.conns[n].dog.Sleeping? && st.clock >= st.conns[n].dog.until
    case ToggleBegin(disable) => st.gate.Open?
    case ToggleDetach => st.gate.Toggling?
    case Enable => st.gate.Open?
  }

  // ---- Steps ----------------------------------------------------------------------

  /** The connections that have an entry, and none in `t`. */
  ghost function Dropped(st: State, t: Tables): set<Task>
  {
    set n | n in st.conns && Holds(st.tables, n) && !Holds(t, n)
  }

  /** A section leaves `t`; the owners that lost their entry are cancelled, except `spared`. */
  ghost function Settle(st: State, t: Tables, spared: set<Task>): State
  {
    var dropped := Dropped(st, t);
    st.(tables := t, cancels := st.cancels + multiset(dropped - spared), retired := st.retired + dropped * spared)
  }

  function WithConn(st: State, n: Nonce, c: Conn): State
  {
    st.(conns := st.conns[n := c])
  }

  /** The session a watchdog finds still bound to its own connection. */
  predicate Bound(st: State, n: Nonce)
    requires n in st.conns
  {
    var session := st.conns[n].session;
    session.Some? && session.value in st.tables.bindings && st.tables.bindings[session.value].owner == n
  }

  ghost function Admit(st: State, n: Nonce): State
    requires n in st.conns && st.conns[n].phase.Arrived?
  {
    var c := st.conns[n];
    var (t, admission) := Reserve(st.tables, n, n, c.phase.sample, st.enabled, Done(st));
    var settled := Settle(st, t, Done(st));
    if admission.Admitted? then WithConn(settled, n, c.(phase := Serving, admitted := true, dog := Unborn))
    else WithConn(settled, n, c.(phase := Ended))
  }

  ghost function Promote(st: State, n: Nonce): State
    requires n in st.conns && st.conns[n].phase.Claimed?
  {
    var c := st.conns[n];
    if c.session.Some? && PromotionAllowed(st.tables, n, n, c.phase.sample, st.enabled) then
      var t := Promoted(st.tables, n, c.session.value, n, c.token, c.phase.sample, st.clock + st.skew);
      WithConn(Settle(st, t, {}), n,
        c.(phase := Streaming, promoted := true, late := c.dog.TimedOut?,
           dog := if c.dog.Waiting? then Checking else c.dog))
    else WithConn(st, n, c.(phase := Failing))
  }

  ghost function Decide(st: State): State
    requires st.gate.Posting?
  {
    var g := st.gate;
    var swept := Sweep(st.tables, g.sample, Done(st));
    if EnqueueAllowed(swept, g.session, g.tokenId, g.sample, st.enabled)
    then Settle(st, Touch(swept, g.session, g.sample), Done(st)).(gate := g.(enqueuing := true))
    else Settle(st, swept, Done(st)).(gate := Open)
  }

  ghost function Detach(st: State, s: SessionId): State
  {
    Settle(st, WithoutSession(st.tables, s), {})
  }

  function Check(st: State, n: Nonce, validated: Option<Option<Time>>): State
    requires n in st.conns
  {
    var c := st.conns[n];
    var dog :=
      if !Bound(st, n) then Stopped
      else if st.tables.bindings[c.session.value].deadline - st.clock <= 0.0 then Closing
      else if validated.None? then Closing
      else Renewing(validated.value, st.clock);
    WithConn(st, n, c.(dog := dog))
  }

  function Renew(st: State, n: Nonce): State
    requires n in st.conns && st.conns[n].dog.Renewing?
  {
    var c := st.conns[n];
    if !Bound(st, n) then WithConn(st, n, c.(dog := Stopped))
    else
      var s, now := c.session.value, c.dog.sample;
      var t := Renewed(st.tables, s, c.dog.expiresAt, now, st.clock + st.skew);
      var remaining := t.bindings[s].deadline - now;
      WithConn(st.(tables := t), n,
        c.(dog := if remaining <= 0.0 then Closing else Sleeping(st.clock + Min(WATCHDOG, remaining))))
  }

  /** The sections that take entries out of the tables and never put one in. */
  predicate Drops(e: Event)
  {
    || e.CleanupSection? || e.DropReservation? || e.DropSession? || e.DropSessionIfToken?
    || e.DogDropReservation? || e.DogClose? || e.ToggleDetach?
  }

  predicate Sections(e: Event)
  {
    Drops(e) || e.GetAdmit? || e.Promotion? || e.PostDecide? || e.DogRenew?
  }

  ghost function DropNext(st: State, e: Event): State
    requires Enabled(st, e) && Drops(e)
  {
    match e
    case CleanupSection(n) =>
      WithConn(Settle(st, OwnerCleanup(st.tables, n, st.conns[n].session, n), {n}), n, st.conns[n].(phase := Ended))
    case DropReservation(n) => Settle(st, WithoutReservation(st.tables, n), {})
    case DropSession(s) => Detach(st, s)
    case DropSessionIfToken(s, k) =>
      if s in st.tables.bindings && st.tables.bindings[s].tokenId == k then Detach(st, s) else st
    case DogDropReservation(n) =>
      WithConn(Settle(st, WithoutReservation(st.tables, n), {}), n, st.conns[n].(dog := Stopped))
    case DogClose(n) =>
      var st1 := if st.conns[n].session.Some? then Detach(st, st.conns[n].session.value) else st;
      WithConn(st1, n, st.conns[n].(dog := Stopped))
    case ToggleDetach => Settle(st, Tables(map[], map[]), {}).(gate := Open)
  }

  function QuietNext(st: State, e: Event): State
    requires Enabled(st, e) && !Sections(e)
  {
    match e
    case Tick(dt) => st.(clock := st.clock + dt)
    case GetArrive(n, token) => WithConn(st, n, Conn(token, Arrived(st.clock), None, false, false, false, Stopped))
    case Claim(n, s) => WithConn(st, n, st.conns[n].(phase := Claimed(st.clock), session := Some(s)))
    case BeginCleanup(n) => WithConn(st, n, st.conns[n].(phase := Cleanup, dog := Stopped))
    case Abandon(n) => WithConn(st, n, st.conns[n].(phase := Ended))
    case PostArrive(s, k) => st.(gate := Posting(s, k, st.clock, false))
    case PostAbandon => st.(gate := Open)
    case PostDone => st.(gate := Open)
    case DogStart(n) =>
      var c := st.conns[n];
      WithConn(st, n, c.(dog := if c.promoted then Checking else Waiting(st.clock + FIRST_FRAME_TIMEOUT)))
    case DogTimeout(n) => WithConn(st, n, st.conns[n].(dog := TimedOut))
    case DogCheck(n, v) => Check(st, n, v)
    case DogWake(n) => WithConn(st, n, st.conns[n].(dog := Checking))
    case ToggleBegin(disable) => st.(enabled := st.enabled && !disable, gate := Toggling)
    case Enable => st.(enabled := true)
  }

  ghost function Next(st: State, e: Event): State
    requires Enabled(st, e)
  {
    if Drops(e) then DropNext(st, e)
    else if e.GetAdmit? then Admit(st, e.n)
    else if e.Promotion? then Promote(st, e.n)
    else if e.PostDecide? then Decide(st)
    else if e.DogRenew? then Renew(st, e.n)
    else QuietNext(st, e)
  }

  // ---- What one step does to the tables and to the connections ----------------------

  /** A binding as it was, but for its activity stamp and an earlier deadline. */
  ghost predicate Continues(b: Binding, a: Binding)
  {
    && a.tokenId == b.tokenId && a.owner == b.owner && a.createdAt == b.createdAt
    && a.closing == b.closing && a.enqueueable == b.enqueueable && a.deadline <= b.deadline
  }

  /** Only its own watchdog moves a deadline. */
  ghost predicate Stays(e: Event, b: Binding, a: Binding)
  {
    Continues(b, a) && (e == DogRenew(b.owner) || a.deadline == b.deadline)
  }

  ghost predicate Admits(st: State, e: Event, n: Nonce)
    requires Enabled(st, e)
  {
    e == GetAdmit(n) && Reserve(st.tables, n, n, st.conns[n].phase.sample, st.enabled, Done(st)).1.Admitted?
  }

  ghost predicate Promotes(st: State, e: Event, s: SessionId)
    requires Enabled(st, e)
  {
    && e.Promotion? && st.conns[e.n].session == Some(s)
    && PromotionAllowed(st.tables, e.n, e.n, st.conns[e.n].phase.sample, st.enabled)
  }

  function NewBinding(st: State, n: Nonce): Binding
    requires n in st.conns && st.conns[n].phase.Claimed?
  {
    var c := st.conns[n];
    Binding(c.token.id, c.phase.sample, c.phase.sample,
            TokenDeadline(c.token.expiresAt, st.clock + st.skew, c.phase.sample), n, false, true)
  }

  /** The only two ways into the tables. */
  ghost predicate TableStep(st: State, e: Event, st': State)
    requires Enabled(st, e)
  {
    && (forall n :: n in st'.tables.reservations ==>
          if Admits(st, e, n) then st'.tables.reservations[n].owner == n
          else n in st.tables.reservations && st'.tables.reservations[n] == st.tables.reservations[n])
    && (forall s :: s in st'.tables.bindings ==>
          if Promotes(st, e, s) then st'.tables.bindings[s] == NewBinding(st, e.n)
          else s in st.tables.bindings && Stays(e, st.tables.bindings[s], st'.tables.bindings[s]))
    && (PromotesSome(st, e) ==> e.n !in st'.tables.reservations)
  }

  lemma AdmitStep(st: State, n: Nonce)
    requires Enabled(st, GetAdmit(n))
    ensures TableStep(st, GetAdmit(n), Admit(st, n))
  {
    hide Holds, Dropped;
  }

  lemma PromoteStep(st: State, n: Nonce)
    requires Enabled(st, Promotion(n))
    ensures TableStep(st, Promotion(n), Promote(st, n))
  {
    hide Holds, Dropped;
  }

  lemma DecideStep(st: State)
    requires Enabled(st, PostDecide)
    ensures TableStep(st, PostDecide, Decide(st))
  {
    hide Holds, Dropped, Done, Sweep;
    SweepWithin(st.tables, st.gate.sample, Done(st));
  }

  lemma RenewStep(st: State, n: Nonce)
    requires Enabled(st, DogRenew(n))
    ensures TableStep(st, DogRenew(n), Renew(st, n))
  {
  }

  lemma DropStep(st: State, e: Event)
    requires Enabled(st, e) && Drops(e)
    ensures Within(DropNext(st, e).tables, st.tables)
  {
    hide Holds, Enabled, Dropped;
  }

  lemma QuietStep(st: State, e: Event)
    requires Enabled(st, e) && !Sections(e)
    ensures QuietNext(st, e).tables == st.tables
  {
    hide Enabled;
  }

  lemma WithinStep(st: State, e: Event, st': State)
    requires Enabled(st, e) && !e.GetAdmit? && !e.Promotion? && Within(st'.tables, st.tables)
    ensures TableStep(st, e, st')
  {
    hide Holds, Enabled, Dropped;
  }

  lemma TableStepHolds(st: State, e: Event)
    requires Enabled(st, e)
    ensures TableStep(st, e, Next(st, e))
  {
    hide TableStep, Enabled, QuietNext, DropNext;
    if e.GetAdmit? {
      AdmitStep(st, e.n);
    } else if e.Promotion? {
      PromoteStep(st, e.n);
    } else if e.PostDecide? {
      DecideStep(st);
    } else if e.DogRenew? {
      RenewStep(st, e.n);
    } else {
      if Drops(e) { DropStep(st, e); } else { QuietStep(st, e); }
      WithinStep(st, e, Next(st, e));
    }
  }

  /** A connection keeps its token, claims one session, is admitted and promoted at
      most once, and its phases only go forward. */
  ghost predicate ConnContinues(st: State, e: Event, n: Nonce, a: Conn)
    requires Enabled(st, e) && n in st.conns
  {
    var b := st.conns[n];
    && a.token == b.token
    && a.admitted == (b.admitted || Admits(st, e, n))
    && a.promoted == (b.promoted || (e == Promotion(n) && PromotesSome(st, e)))
    && a.session == (if e.Claim? && e.n == n then Some(e.s) else b.session)
    && (a.late == b.late || e == Promotion(n))
    && a.phase == PhaseAfter(st, e, n)
  }

  ghost predicate PromotesSome(st: State, e: Event)
    requires Enabled(st, e)
  {
    e.Promotion? && st.conns[e.n].session.Some? && Promotes(st, e, st.conns[e.n].session.value)
  }

  ghost function PhaseAfter(st: State, e: Event, n: Nonce): Phase
    requires Enabled(st, e) && n in st.conns
  {
    if e == GetAdmit(n) then (if Admits(st, e, n) then Serving else Ended)
    else if e.Claim? && e.n == n then Claimed(st.clock)
    else if e == Promotion(n) then (if PromotesSome(st, e) then Streaming else Failing)
    else if e == BeginCleanup(n) then Cleanup
    else if e == CleanupSection(n) || e == Abandon(n) then Ended
    else st.conns[n].phase
  }

  ghost predicate ConnStep(st: State, e: Event, st': State)
    requires Enabled(st, e)
  {
    && (forall n :: n in st.conns ==> n in st'.conns && ConnContinues(st, e, n, st'.conns[n]))
    && (forall n :: n in st'.conns && n !in st.conns ==>
          e.GetArrive? && e.n == n
            && st'.conns[n] == Conn(e.token, Arrived(st.clock), None, false, false, false, Stopped))
  }

  /** The one connection an event can change. */
  function Subject(e: Event): Option<Nonce>
  {
    match e
    case GetArrive(n, token) => Some(n)
    case GetAdmit(n) => Some(n)
    case Claim(n, s) => Some(n)
    case Promotion(n) => Some(n)
    case BeginCleanup(n) => Some(n)
    case CleanupSection(n) => Some(n)
    case Abandon(n) => Some(n)
    case DogStart(n) => Some(n)
    case DogTimeout(n) => Some(n)
    case DogDropReservation(n) => Some(n)
    case DogCheck(n, v) => Some(n)
    case DogClose(n) => Some(n)
    case DogRenew(n) => Some(n)
    case DogWake(n) => Some(n)
    case _ => None
  }

  lemma QuietSubject(st: State, e: Event)
    requires Enabled(st, e) && !Sections(e)
    ensures var st' := QuietNext(st, e);
      if Subject(e).None? then st'.conns == st.conns
      else Subject(e).value in st'.conns && st'.conns == st.conns[Subject(e).value := st'.conns[Subject(e).value]]
  {
    hide Enabled;
  }

  lemma QuietOne(st: State, e: Event)
    requires Enabled(st, e) && !Sections(e)
    requires Subject(e).Some? && Subject(e).value in st.conns
    ensures ConnContinues(st, e, Subject(e).value, QuietNext(st, e).conns[Subject(e).value])
  {
  }

  lemma DropSubject(st: State, e: Event)
    requires Enabled(st, e) && Drops(e)
    ensures var st' := DropNext(st, e);
      if Subject(e).None? then st'.conns == st.conns
      else Subject(e).value in st.conns && st'.conns == st.conns[Subject(e).value := st'.conns[Subject(e).value]]
  {
    hide Holds, Dropped, OwnerCleanup, WithoutReservation, WithoutSession, Done, LockFree;
    var st' := DropNext(st, e);
    if e.CleanupSection? {
      assert st'.conns == st.conns[e.n := st.conns[e.n].(phase := Ended)];
    } else if e.DogDropReservation? || e.DogClose? {
      assert st'.conns == st.conns[e.n := st.conns[e.n].(dog := Stopped)];
    } else {
      assert st'.conns == st.conns;
    }
  }

  lemma DropOne(st: State, e: Event)
    requires Enabled(st, e) && Drops(e) && Subject(e).Some?
    ensures ConnContinues(st, e, Subject(e).value, DropNext(st, e).conns[Subject(e).value])
  {
    hide Holds, Dropped;
  }

  lemma AdmitConn(st: State, n: Nonce)
    requires Enabled(st, GetAdmit(n))
    ensures Admit(st, n).conns == st.conns[n := Admit(st, n).conns[n]]
    ensures ConnContinues(st, GetAdmit(n), n, Admit(st, n).conns[n])
  {
    hide Holds, Dropped;
  }

  lemma PromoteConn(st: State, n: Nonce)
    requires Enabled(st, Promotion(n))
    ensures Promote(st, n).conns == st.conns[n := Promote(st, n).conns[n]]
    ensures ConnContinues(st, Promotion(n), n, Promote(st, n).conns[n])
  {
    hide Holds, Dropped;
  }

  lemma RenewConn(st: State, n: Nonce)
    requires Enabled(st, DogRenew(n))
    ensures Renew(st, n).conns == st.conns[n := Renew(st, n).conns[n]]
    ensures ConnContinues(st, DogRenew(n), n, Renew(st, n).conns[n])
  {
  }

  lemma DecideConns(st: State)
    requires Enabled(st, PostDecide)
    ensures Decide(st).conns == st.conns
  {
    hide Holds, Dropped;
  }

  lemma OthersContinue(st: State, e: Event, n: Nonce)
    requires Enabled(st, e) && n in st.conns && Subject(e) != Some(n)
    ensures ConnContinues(st, e, n, st.conns[n])
  {
  }

  lemma SubjectContinues(st: State, e: Event)
    requires Enabled(st, e)
    ensures var st' := Next(st, e);
      if Subject(e).None? then st'.conns == st.conns
      else Subject(e).value in st'.conns && st'.conns == st.conns[Subject(e).value := st'.conns[Subject(e).value]]
    ensures Subject(e).Some? && Subject(e).value in st.conns ==>
      ConnContinues(st, e, Subject(e).value, Next(st, e).conns[Subject(e).value])
  {
    hide ConnContinues, Enabled, QuietNext, DropNext, Admit, Promote, Decide, Renew;
    if Drops(e) {
      DropSubject(st, e);
      if Subject(e).Some? { DropOne(st, e); }
    } else if e.GetAdmit? {
      AdmitConn(st, e.n);
    } else if e.Promotion? {
      PromoteConn(st, e.n);
    } else if e.PostDecide? {
      DecideConns(st);
    } else if e.DogRenew? {
      RenewConn(st, e.n);
    } else {
      QuietSubject(st, e);
      if Subject(e).Some? && Subject(e).value in st.conns { QuietOne(st, e); }
    }
  }

  lemma ConnStepHolds(st: State, e: Event)
    requires Enabled(st, e)
    ensures ConnStep(st, e, Next(st, e))
  {
    hide Next, ConnContinues;
    SubjectContinues(st, e);
    forall n | n in st.conns && Subject(e) != Some(n) ensures ConnContinues(st, e, n, st.conns[n]) {
      OthersContinue(st, e, n);
    }
    if e.GetArrive? { ArriveConn(st, e); }
  }

  lemma ArriveConn(st: State, e: Event)
    requires Enabled(st, e) && e.GetArrive?
    ensures Next(st, e).conns[e.n] == Conn(e.token, Arrived(st.clock), None, false, false, false, Stopped)
  {
  }

  // ---- The tables and the connections agree ------------------------------------------

  ghost predicate ConnSane(c: Conn)
  {
    && (c.phase.Arrived? ==> !c.admitted)
    && (!c.admitted ==> c.session.None? && (c.phase.Arrived? || c.phase.Ended?))
    && (c.phase.Serving? ==> c.session.None?)
    && (c.phase.Claimed? ==> c.session.Some?)
    && (c.promoted ==> c.admitted && c.session.Some? && (c.phase.Streaming? || c.phase.Cleanup? || c.phase.Ended?))
    && (c.phase.Streaming? ==> c.promoted)
  }

  ghost predicate Wired(st: State)
  {
    && (forall n :: n in st.conns ==> ConnSane(st.conns[n]))
    && (forall n :: n in st.tables.reservations ==>
          n in st.conns && st.tables.reservations[n].owner == n && st.conns[n].admitted && !st.conns[n].promoted)
    && (forall s :: s in st.tables.bindings ==>
          var b := st.tables.bindings[s];
          && b.owner in st.conns && st.conns[b.owner].promoted && st.conns[b.owner].session == Some(s)
          && b.tokenId == st.conns[b.owner].token.id)
    && (forall n, m :: n in st.conns && m in st.conns && n != m && st.conns[n].session.Some? ==>
          st.conns[n].session != st.conns[m].session)
  }

  lemma WiredStep(st: State, e: Event)
    requires Enabled(st, e) && Wired(st)
    ensures Wired(Next(st, e))
  {
    hide Next, TableStep, ConnStep;
    TableStepHolds(st, e);
    ConnStepHolds(st, e);
    WiredConns(st, e, Next(st, e));
    WiredTables(st, e, Next(st, e));
  }

  lemma WiredConns(st: State, e: Event, st': State)
    requires Enabled(st, e) && Wired(st) && ConnStep(st, e, st')
    ensures forall n :: n in st'.conns ==> ConnSane(st'.conns[n])
    ensures forall n, m :: n in st'.conns && m in st'.conns && n != m && st'.conns[n].session.Some? ==>
      st'.conns[n].session != st'.conns[m].session
  {
    hide Admits, Promotes, Enabled;
    forall n | n in st'.conns ensures ConnSane(st'.conns[n]) {
      if n in st.conns {
        SaneStep(st, e, n, st'.conns[n]);
      }
    }
    hide ConnSane, ConnStep;
    forall n | n in st'.conns ensures st'.conns[n].session == SessionAfter(st, e, n) {
      SessionStep(st, e, st', n);
    }
    if e.Claim? { FreshClaim(st, e); }
  }

  ghost function SessionAfter(st: State, e: Event, n: Nonce): Option<SessionId>
  {
    if e.Claim? && e.n == n then Some(e.s) else if n in st.conns then st.conns[n].session else None
  }

  lemma SessionStep(st: State, e: Event, st': State, n: Nonce)
    requires Enabled(st, e) && ConnStep(st, e, st') && n in st'.conns
    ensures st'.conns[n].session == SessionAfter(st, e, n)
  {
    hide Admits, Promotes;
    if n in st.conns { assert ConnContinues(st, e, n, st'.conns[n]); }
  }

  lemma FreshClaim(st: State, e: Event)
    requires Enabled(st, e) && e.Claim?
    ensures e.n in st.conns && forall m :: m in st.conns ==> st.conns[m].session != Some(e.s)
  {
  }

  lemma SaneStep(st: State, e: Event, n: Nonce, c: Conn)
    requires Enabled(st, e) && n in st.conns && ConnSane(st.conns[n]) && ConnContinues(st, e, n, c)
    ensures ConnSane(c)
  {
    hide PromotionAllowed, Reserve, Done;
  }

  lemma WiredTables(st: State, e: Event, st': State)
    requires Enabled(st, e) && Wired(st) && TableStep(st, e, st') && ConnStep(st, e, st')
    ensures forall n :: n in st'.tables.reservations ==>
      n in st'.conns && st'.tables.reservations[n].owner == n && st'.conns[n].admitted && !st'.conns[n].promoted
    ensures forall s :: s in st'.tables.bindings ==>
      var b := st'.tables.bindings[s];
      && b.owner in st'.conns && st'.conns[b.owner].promoted && st'.conns[b.owner].session == Some(s)
      && b.tokenId == st'.conns[b.owner].token.id
  {
    hide TableStep, ConnStep, ConnContinues;
    forall n | n in st'.tables.reservations
      ensures n in st'.conns && st'.tables.reservations[n].owner == n && st'.conns[n].admitted && !st'.conns[n].promoted
    {
      WiredReservation(st, e, st', n);
    }
    forall s | s in st'.tables.bindings
      ensures var b := st'.tables.bindings[s];
        && b.owner in st'.conns && st'.conns[b.owner].promoted && st'.conns[b.owner].session == Some(s)
        && b.tokenId == st'.conns[b.owner].token.id
    {
      WiredBinding(st, e, st', s);
    }
  }

  lemma WiredReservation(st: State, e: Event, st': State, n: Nonce)
    requires Enabled(st, e) && Wired(st) && TableStep(st, e, st') && ConnStep(st, e, st')
    requires n in st'.tables.reservations
    ensures n in st'.conns && st'.tables.reservations[n].owner == n && st'.conns[n].admitted && !st'.conns[n].promoted
  {
    hide PhaseAfter, Reserve, Done, PromotionAllowed;
    if Admits(st, e, n) {
      assert ConnSane(st.conns[n]);
    }
    assert n in st.conns && ConnContinues(st, e, n, st'.conns[n]);
  }

  lemma WiredBinding(st: State, e: Event, st': State, s: SessionId)
    requires Enabled(st, e) && Wired(st) && TableStep(st, e, st') && ConnStep(st, e, st')
    requires s in st'.tables.bindings
    ensures var b := st'.tables.bindings[s];
      && b.owner in st'.conns && st'.conns[b.owner].promoted && st'.conns[b.owner].session == Some(s)
      && b.tokenId == st'.conns[b.owner].token.id
  {
    hide PhaseAfter, Reserve, Done, PromotionAllowed, TokenDeadline;
    var n := st'.tables.bindings[s].owner;
    assert n in st.conns && ConnContinues(st, e, n, st'.conns[n]);
    assert ConnSane(st.conns[n]);
  }
}
