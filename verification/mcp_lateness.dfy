/**
 Runs of the MCP session guard in which something happens late, and how late an enqueue
 can be.

 A POST samples the clock inside the enqueue gate and then takes the registry lock, so
 no other POST can be holding that lock; only a delay of its own task lies between.
 */
module McpLateness {
  import opened Wrappers
  import opened McpTables
  import opened McpGuard
  import opened McpRuns
  import opened McpWatchdog
  import opened McpPunctual

  // ---- How late an enqueue is decided --------------------------------------------------------

  /** A POST that has not decided yet goes back to the arrival at which it sampled the clock. */
  lemma {:induction false} PostOrigin(tr: seq<State>, es: seq<Event>, i: nat) returns (p: nat)
    requires IsRun(tr, es) && i < |tr| && tr[i].gate.Posting? && !tr[i].gate.enqueuing
    ensures p < i && es[p] == PostArrive(tr[i].gate.session, tr[i].gate.tokenId) && tr[p].clock == tr[i].gate.sample
    ensures forall m :: p < m <= i ==> tr[m].gate == tr[i].gate
  {
    hide Enabled, Next, Enqueues;
    assert Initial(tr[0]);
    assert i > 0;
    assert Enabled(tr[i - 1], es[i - 1]) && tr[i] == Next(tr[i - 1], es[i - 1]);
    ControlsHold(tr[i - 1], es[i - 1]);
    if es[i - 1].PostArrive? { p := i - 1; } else { p := PostOrigin(tr, es, i - 1); }
  }

  /**
   An enqueue goes back to the arrival of its own POST, where the clock it is decided by was
   read, strictly before the deadline; from there to the decision the registry lock is free,
   so nothing but the POST's own task delays it.  It is decided before the deadline and that
   delay together, hence before the deadline exactly when the delay is less than what was left.
   */
  lemma EnqueueBeforeDeadlineIff(tr: seq<State>, es: seq<Event>, i: nat) returns (p: nat)
    requires IsRun(tr, es) && i < |es| && Enqueues(tr[i], es[i])
    ensures p < i && es[p] == PostArrive(tr[i].gate.session, tr[i].gate.tokenId)
    ensures var deadline, delay := tr[i].tables.bindings[tr[i].gate.session].deadline, tr[i].clock - tr[p].clock;
      && tr[p].clock < deadline && tr[i].clock < deadline + delay
      && (tr[i].clock < deadline <==> delay < deadline - tr[p].clock)
    ensures forall m :: p < m <= i ==> LockFree(tr[m])
  {
    var g, j := EnqueueProvenance(tr, es, i);
    assert Enabled(tr[i], es[i]);
    hide Enabled, Next, Enqueues;
    p := PostOrigin(tr, es, i);
  }

  /** No time passes while a POST has only its own decision to make. */
  ghost predicate Prompt(tr: seq<State>, es: seq<Event>)
    requires IsRun(tr, es)
  {
    forall i :: 0 <= i < |es| && es[i].Tick? ==> !(tr[i].gate.Posting? && !tr[i].gate.enqueuing)
  }

  /** Then every enqueue is decided strictly before the deadline. */
  lemma PromptEnqueuesAreInTime(tr: seq<State>, es: seq<Event>, i: nat)
    requires IsRun(tr, es) && Prompt(tr, es) && i < |es| && Enqueues(tr[i], es[i])
    ensures tr[i].clock < tr[i].tables.bindings[tr[i].gate.session].deadline
  {
    assert Enabled(tr[i], es[i]);
    hide Next, Enabled;
    PromptKeepsSample(tr, es, i);
    var g, j := EnqueueProvenance(tr, es, i);
  }

  lemma {:induction false} PromptKeepsSample(tr: seq<State>, es: seq<Event>, i: nat)
    requires IsRun(tr, es) && Prompt(tr, es) && i < |tr| && tr[i].gate.Posting? && !tr[i].gate.enqueuing
    ensures tr[i].clock == tr[i].gate.sample
  {
    hide Enabled, Next, Enqueues;
    assert Initial(tr[0]);
    assert i > 0;
    assert Enabled(tr[i - 1], es[i - 1]) && tr[i] == Next(tr[i - 1], es[i - 1]);
    ControlsHold(tr[i - 1], es[i - 1]);
    if !es[i - 1].PostArrive? { PromptKeepsSample(tr, es, i - 1); }
  }

  // ---- Building runs ----------------------------------------------------------------------------

  predicate Free(gate: Gate) { !(gate.Posting? && gate.enqueuing) }

  /** Enabled, and with the two clocks together. */
  ghost predicate Is(st: State, clock: Time, gate: Gate, conns: map<Nonce, Conn>, t: Tables)
  {
    st.enabled && st.skew == 0.0 && st.clock == clock && st.gate == gate && st.conns == conns && st.tables == t
  }

  ghost predicate Reaches(tr: seq<State>, es: seq<Event>, clock: Time, gate: Gate, conns: map<Nonce, Conn>, t: Tables)
  {
    |tr| == |es| + 1 && IsRun(tr, es) && Punctual(tr, es) && Is(tr[|es|], clock, gate, conns, t)
  }

  ghost predicate Unhurried(st: State, dt: Time)
  {
    forall n :: n in st.conns ==> OnTime(LockFree(st), st.conns[n], st.clock + dt)
  }

  lemma Then(tr: seq<State>, es: seq<Event>, e: Event) returns (tr': seq<State>, es': seq<Event>)
    requires IsRun(tr, es) && Enabled(tr[|es|], e)
    ensures IsRun(tr', es') && |tr'| == |es'| + 1 && tr'[|es'|] == Next(tr[|es|], e)
    ensures es' == es + [e] && tr'[|es|] == tr[|es|]
    ensures Punctual(tr, es) && (e.Tick? ==> Unhurried(tr[|es|], e.dt)) ==> Punctual(tr', es')
  {
    hide Enabled, Next, OnTime;
    tr', es' := tr + [Next(tr[|es|], e)], es + [e];
    forall i | 0 <= i < |es'| ensures Enabled(tr'[i], es'[i]) && tr'[i + 1] == Next(tr'[i], es'[i]) {
      if i < |es| { assert Enabled(tr[i], es[i]) && tr[i + 1] == Next(tr[i], es[i]); }
    }
  }

  lemma Ticked(tr: seq<State>, es: seq<Event>, clock: Time, gate: Gate, conns: map<Nonce, Conn>, t: Tables, dt: Time)
    returns (tr': seq<State>, es': seq<Event>)
    requires Reaches(tr, es, clock, gate, conns, t) && dt > 0.0
    requires forall n :: n in conns ==> OnTime(Free(gate), conns[n], clock + dt)
    ensures Reaches(tr', es', clock + dt, gate, conns, t)
  {
    TickIs(tr[|es|], clock, gate, conns, t, dt);
    hide Next, Enabled, Is, Punctual, IsRun, OnTime;
    tr', es' := Then(tr, es, Tick(dt));
  }

  lemma TickIs(st: State, clock: Time, gate: Gate, conns: map<Nonce, Conn>, t: Tables, dt: Time)
    requires Is(st, clock, gate, conns, t) && dt > 0.0
    ensures Enabled(st, Tick(dt)) && Is(Next(st, Tick(dt)), clock + dt, gate, conns, t)
    ensures (forall n :: n in conns ==> OnTime(Free(gate), conns[n], clock + dt)) ==> Unhurried(st, dt)
  {
  }

  /** A step that takes no time. */
  lemma Stepped(tr: seq<State>, es: seq<Event>, e: Event, clock: Time, gate: Gate, conns: map<Nonce, Conn>, t: Tables)
    returns (tr': seq<State>, es': seq<Event>)
    requires |tr| == |es| + 1 && IsRun(tr, es) && Punctual(tr, es) && Enabled(tr[|es|], e) && !e.Tick?
    requires Is(Next(tr[|es|], e), clock, gate, conns, t)
    ensures Reaches(tr', es', clock, gate, conns, t) && |es'| == |es| + 1
    ensures es'[|es|] == e && tr'[|es|] == tr[|es|]
  {
    hide Next, Enabled, Is, Punctual, IsRun, OnTime;
    tr', es' := Then(tr, es, e);
  }

  // ---- What each step does, for connections and tables known in full -----------------------------

  function Fresh(token: Token, sample: Time): Conn
  {
    Conn(token, Arrived(sample), None, false, false, false, Stopped)
  }

  lemma ArriveIs(st: State, clock: Time, gate: Gate, conns: map<Nonce, Conn>, t: Tables, n: Nonce, token: Token)
    requires Is(st, clock, gate, conns, t) && n !in conns
    ensures Enabled(st, GetArrive(n, token))
    ensures Is(Next(st, GetArrive(n, token)), clock, gate, conns[n := Fresh(token, clock)], t)
  {
  }

  /** A sweep finds nothing: no entry has lapsed, no task is done. */
  ghost predicate NothingToSweep(conns: map<Nonce, Conn>, t: Tables, now: Time)
  {
    && (forall n :: n in conns ==> !conns[n].phase.Ended?)
    && (forall n :: n in t.reservations ==> t.reservations[n].firstFrameDeadline > now)
    && (forall s :: s in t.bindings ==> t.bindings[s].deadline > now)
  }

  lemma SweptClean(st: State, clock: Time, gate: Gate, conns: map<Nonce, Conn>, t: Tables, now: Time)
    requires Is(st, clock, gate, conns, t) && NothingToSweep(conns, t, now)
    ensures Sweep(t, now, Done(st)) == t
  {
  }

  lemma AdmitIs(st: State, clock: Time, conns: map<Nonce, Conn>, t: Tables, n: Nonce)
    requires Is(st, clock, Open, conns, t) && n in conns && conns[n].phase.Arrived?
    requires NothingToSweep(conns, t, conns[n].phase.sample) && |t.reservations| + |t.bindings| < 32
    ensures Enabled(st, GetAdmit(n))
    ensures var c, now := conns[n], conns[n].phase.sample;
      Is(Next(st, GetAdmit(n)), clock, Open, conns[n := c.(phase := Serving, admitted := true, dog := Unborn)],
         t.(reservations := t.reservations[n := Reservation(n, now, now + 10.0)]))
  {
    SweptClean(st, clock, Open, conns, t, conns[n].phase.sample);
    hide Sweep, Holds, Dropped;
  }

  lemma DogIs(st: State, clock: Time, gate: Gate, conns: map<Nonce, Conn>, t: Tables, n: Nonce)
    requires Is(st, clock, gate, conns, t) && n in conns
    ensures conns[n].dog.Unborn? && !conns[n].promoted ==>
      && Enabled(st, DogStart(n))
      && Is(Next(st, DogStart(n)), clock, gate, conns[n := conns[n].(dog := Waiting(clock + 10.0))], t)
    ensures conns[n].dog.Waiting? && clock >= conns[n].dog.until ==>
      && Enabled(st, DogTimeout(n))
      && Is(Next(st, DogTimeout(n)), clock, gate, conns[n := conns[n].(dog := TimedOut)], t)
    ensures conns[n].dog.Sleeping? && clock >= conns[n].dog.until ==>
      && Enabled(st, DogWake(n))
      && Is(Next(st, DogWake(n)), clock, gate, conns[n := conns[n].(dog := Checking)], t)
  {
  }

  lemma ClaimIs(st: State, clock: Time, gate: Gate, conns: map<Nonce, Conn>, t: Tables, n: Nonce, s: SessionId)
    requires Is(st, clock, gate, conns, t) && n in conns && conns[n].phase.Serving?
    requires forall m :: m in conns ==> conns[m].session != Some(s)
    ensures Enabled(st, Claim(n, s))
    ensures Is(Next(st, Claim(n, s)), clock, gate,
               conns[n := conns[n].(phase := Claimed(clock), session := Some(s))], t)
  {
  }

  function OnceStreaming(c: Conn): Conn
  {
    c.(phase := Streaming, promoted := true, late := c.dog.TimedOut?, dog := if c.dog.Waiting? then Checking else c.dog)
  }

  function OnceBound(t: Tables, n: Nonce, c: Conn, clock: Time): Tables
    requires c.phase.Claimed? && c.session.Some?
  {
    Promoted(t, n, c.session.value, n, c.token, c.phase.sample, clock)
  }

  lemma PromotionIs(st: State, clock: Time, conns: map<Nonce, Conn>, t: Tables, n: Nonce)
    requires Is(st, clock, Open, conns, t) && n in conns && conns[n].phase.Claimed? && conns[n].session.Some?
    requires PromotionAllowed(t, n, n, conns[n].phase.sample, true)
    ensures Enabled(st, Promotion(n))
    ensures Is(Next(st, Promotion(n)), clock, Open, conns[n := OnceStreaming(conns[n])],
               OnceBound(t, n, conns[n], clock))
  {
    hide Holds, Dropped, Promoted;
  }

  ghost predicate Holder(t: Tables, c: Conn, n: Nonce)
  {
    c.session.Some? && c.session.value in t.bindings && t.bindings[c.session.value].owner == n
  }

  lemma CheckIs(st: State, clock: Time, gate: Gate, conns: map<Nonce, Conn>, t: Tables, n: Nonce, expiry: Option<Time>)
    requires Is(st, clock, gate, conns, t) && Free(gate) && n in conns && conns[n].dog.Checking?
    requires Holder(t, conns[n], n) && t.bindings[conns[n].session.value].deadline > clock
    ensures Enabled(st, DogCheck(n, Some(expiry)))
    ensures Is(Next(st, DogCheck(n, Some(expiry))), clock, gate,
               conns[n := conns[n].(dog := Renewing(expiry, clock))], t)
  {
  }

  function OnceAsleep(c: Conn, clock: Time, deadline: Time): Conn
    requires c.dog.Renewing?
  {
    c.(dog := Sleeping(clock + Min(60.0, deadline - c.dog.sample)))
  }

  function OnceRenewed(t: Tables, c: Conn, deadline: Time): Tables
    requires c.dog.Renewing? && c.session.Some? && c.session.value in t.bindings
  {
    var s := c.session.value;
    t.(bindings := t.bindings[s := t.bindings[s].(lastActivity := c.dog.sample, deadline := deadline)])
  }

  lemma RenewIs(st: State, clock: Time, gate: Gate, conns: map<Nonce, Conn>, t: Tables, n: Nonce, deadline: Time)
    requires Is(st, clock, gate, conns, t) && Free(gate) && n in conns && conns[n].dog.Renewing?
    requires Holder(t, conns[n], n)
    requires deadline == Min(t.bindings[conns[n].session.value].deadline,
                             TokenDeadline(conns[n].dog.expiresAt, clock, conns[n].dog.sample))
    requires deadline > conns[n].dog.sample
    ensures Enabled(st, DogRenew(n))
    ensures Is(Next(st, DogRenew(n)), clock, gate, conns[n := OnceAsleep(conns[n], clock, deadline)],
               OnceRenewed(t, conns[n], deadline))
  {
    hide TokenDeadline;
  }

  lemma PostIs(st: State, clock: Time, gate: Gate, conns: map<Nonce, Conn>, t: Tables, s: SessionId, k: TokenId)
    requires Is(st, clock, gate, conns, t)
    ensures gate == Open ==>
      && Enabled(st, PostArrive(s, k))
      && Is(Next(st, PostArrive(s, k)), clock, Posting(s, k, clock, false), conns, t)
    ensures gate.Posting? && gate.enqueuing ==>
      Enabled(st, PostDone) && Is(Next(st, PostDone), clock, Open, conns, t)
  {
  }

  lemma DecideIs(st: State, clock: Time, gate: Gate, conns: map<Nonce, Conn>, t: Tables)
    requires Is(st, clock, gate, conns, t) && gate.Posting? && !gate.enqueuing
    requires NothingToSweep(conns, t, gate.sample) && EnqueueAllowed(t, gate.session, gate.tokenId, gate.sample, true)
    ensures Enabled(st, PostDecide) && Enqueues(st, PostDecide)
    ensures Is(Next(st, PostDecide), clock, gate.(enqueuing := true), conns, Touch(t, gate.session, gate.sample))
  {
    SweptClean(st, clock, gate, conns, t, gate.sample);
    hide Sweep, Holds, Dropped;
  }

  lemma DropIs(st: State, clock: Time, gate: Gate, conns: map<Nonce, Conn>, t: Tables, n: Nonce)
    requires Is(st, clock, gate, conns, t) && Free(gate) && n in conns && conns[n].dog.TimedOut?
    ensures Enabled(st, DogDropReservation(n))
    ensures Is(Next(st, DogDropReservation(n)), clock, gate, conns[n := conns[n].(dog := Stopped)],
               WithoutReservation(t, n))
  {
    hide Holds, Dropped;
  }

  lemma BeginIs(st: State, clock: Time, gate: Gate, conns: map<Nonce, Conn>, t: Tables, n: Nonce)
    requires Is(st, clock, gate, conns, t) && n in conns && conns[n].phase.Streaming? && conns[n].admitted
    ensures Enabled(st, BeginCleanup(n))
    ensures Is(Next(st, BeginCleanup(n)), clock, gate, conns[n := conns[n].(phase := Cleanup, dog := Stopped)], t)
  {
  }

  lemma CleanIs(st: State, clock: Time, gate: Gate, conns: map<Nonce, Conn>, t: Tables, n: Nonce)
    requires Is(st, clock, gate, conns, t) && Free(gate) && n in conns && conns[n].phase.Cleanup?
    ensures Enabled(st, CleanupSection(n))
    ensures Is(Next(st, CleanupSection(n)), clock, gate, conns[n := conns[n].(phase := Ended)],
               OwnerCleanup(t, n, conns[n].session, n))
  {
    hide Holds, Dropped, OwnerCleanup;
  }

  // ---- Two connections ------------------------------------------------------------------------------

  const ONE := Token(1, None)
  const TWO := Token(2, None)
  const HUNDRED := Token(1, Some(100.0))

  function Awake(token: Token, phase: Phase, dog: Dog): Conn
  {
    Conn(token, phase, if phase.Claimed? || phase.Streaming? then Some(7) else None, true, phase.Streaming?, false, dog)
  }

  /** Connection 1 streams as session 8 and its watchdog sleeps. */
  function Other(phase: Phase, dog: Dog): Conn
  {
    Conn(TWO, phase, Some(8), true, true, false, dog)
  }

  function Pair(zero: Conn, one: Conn): map<Nonce, Conn>
  {
    map[1 := one, 0 := zero]
  }

  function OtherBinding(activity: Time): Binding
  {
    Binding(2, 0.0, activity, 3600.0, 1, false, true)
  }

  /** Connection 0 reserved, connection 1 bound. */
  function Half(activity: Time): Tables
  {
    Tables(map[0 := Reservation(0, 0.0, 10.0)], map[8 := OtherBinding(activity)])
  }

  lemma OtherArrives() returns (tr: seq<State>, es: seq<Event>)
    ensures Reaches(tr, es, 0.0, Open, map[1 := Fresh(TWO, 0.0)], Tables(map[], map[]))
  {
    var st := State(true, 0.0, 0.0, Open, Tables(map[], map[]), map[], multiset{}, {});
    tr, es := [st], [];
    assert Reaches(tr, es, 0.0, Open, map[], Tables(map[], map[]));
    hide Next, Enabled, Is, IsRun, Punctual, Reaches;
    ArriveIs(tr[|es|], 0.0, Open, map[], Tables(map[], map[]), 1, TWO);
    assert map[][1 := Fresh(TWO, 0.0)] == map[1 := Fresh(TWO, 0.0)];
    tr, es := Stepped(tr, es, GetArrive(1, TWO), 0.0, Open, map[1 := Fresh(TWO, 0.0)], Tables(map[], map[]));
  }

  lemma OtherReserved() returns (tr: seq<State>, es: seq<Event>)
    ensures Reaches(tr, es, 0.0, Open, map[1 := Conn(TWO, Serving, None, true, false, false, Waiting(10.0))],
                    Tables(map[1 := Reservation(1, 0.0, 10.0)], map[]))
  {
    hide Next, Enabled, Is, IsRun, Punctual;
    tr, es := OtherArrives();
    var conns, t := map[1 := Fresh(TWO, 0.0)], Tables(map[], map[]);
    AdmitIs(tr[|es|], 0.0, conns, t, 1);
    conns := conns[1 := conns[1].(phase := Serving, admitted := true, dog := Unborn)];
    t := t.(reservations := t.reservations[1 := Reservation(1, 0.0, 10.0)]);
    tr, es := Stepped(tr, es, GetAdmit(1), 0.0, Open, conns, t);
    DogIs(tr[|es|], 0.0, Open, conns, t, 1);
    conns := conns[1 := conns[1].(dog := Waiting(10.0))];
    tr, es := Stepped(tr, es, DogStart(1), 0.0, Open, conns, t);
    assert conns == map[1 := Conn(TWO, Serving, None, true, false, false, Waiting(10.0))];
  }

  lemma OtherStreams() returns (tr: seq<State>, es: seq<Event>)
    ensures Reaches(tr, es, 0.0, Open, map[1 := Other(Streaming, Checking)], Tables(map[], map[8 := OtherBinding(0.0)]))
  {
    hide Next, Enabled, Is, IsRun, Punctual;
    tr, es := OtherReserved();
    var conns := map[1 := Conn(TWO, Serving, None, true, false, false, Waiting(10.0))];
    var t := Tables(map[1 := Reservation(1, 0.0, 10.0)], map[]);
    ClaimIs(tr[|es|], 0.0, Open, conns, t, 1, 8);
    conns := conns[1 := conns[1].(phase := Claimed(0.0), session := Some(8))];
    tr, es := Stepped(tr, es, Claim(1, 8), 0.0, Open, conns, t);
    PromotionIs(tr[|es|], 0.0, conns, t, 1);
    assert OnceBound(t, 1, conns[1], 0.0) == Tables(map[], map[8 := OtherBinding(0.0)]);
    conns, t := conns[1 := OnceStreaming(conns[1])], OnceBound(t, 1, conns[1], 0.0);
    tr, es := Stepped(tr, es, Promotion(1), 0.0, Open, conns, t);
    assert conns == map[1 := Other(Streaming, Checking)];
  }

  lemma OtherAsleep() returns (tr: seq<State>, es: seq<Event>)
    ensures Reaches(tr, es, 0.0, Open, map[1 := Other(Streaming, Sleeping(60.0))],
                    Tables(map[], map[8 := OtherBinding(0.0)]))
  {
    hide Next, Enabled, Is, IsRun, Punctual;
    tr, es := OtherStreams();
    var conns, t := map[1 := Other(Streaming, Checking)], Tables(map[], map[8 := OtherBinding(0.0)]);
    CheckIs(tr[|es|], 0.0, Open, conns, t, 1, None);
    conns := conns[1 := conns[1].(dog := Renewing(None, 0.0))];
    tr, es := Stepped(tr, es, DogCheck(1, Some(None)), 0.0, Open, conns, t);
    RenewIs(tr[|es|], 0.0, Open, conns, t, 1, 3600.0);
    assert OnceRenewed(t, conns[1], 3600.0) == t;
    conns := conns[1 := OnceAsleep(conns[1], 0.0, 3600.0)];
    tr, es := Stepped(tr, es, DogRenew(1), 0.0, Open, conns, t);
    assert conns == map[1 := Other(Streaming, Sleeping(60.0))];
  }

  /** Connection 0 serves, its watchdog waits for the promotion; connection 1 streams. */
  lemma ZeroWaits(token: Token) returns (tr: seq<State>, es: seq<Event>)
    ensures Reaches(tr, es, 0.0, Open, Pair(Awake(token, Serving, Waiting(10.0)), Other(Streaming, Sleeping(60.0))),
                    Half(0.0))
  {
    hide Next, Enabled, Is, IsRun, Punctual;
    tr, es := OtherAsleep();
    var conns, t := map[1 := Other(Streaming, Sleeping(60.0))], Tables(map[], map[8 := OtherBinding(0.0)]);
    ArriveIs(tr[|es|], 0.0, Open, conns, t, 0, token);
    conns := conns[0 := Fresh(token, 0.0)];
    tr, es := Stepped(tr, es, GetArrive(0, token), 0.0, Open, conns, t);
    AdmitIs(tr[|es|], 0.0, conns, t, 0);
    conns := conns[0 := conns[0].(phase := Serving, admitted := true, dog := Unborn)];
    t := t.(reservations := t.reservations[0 := Reservation(0, 0.0, 10.0)]);
    tr, es := Stepped(tr, es, GetAdmit(0), 0.0, Open, conns, t);
    DogIs(tr[|es|], 0.0, Open, conns, t, 0);
    conns := conns[0 := conns[0].(dog := Waiting(10.0))];
    tr, es := Stepped(tr, es, DogStart(0), 0.0, Open, conns, t);
    assert conns == Pair(Awake(token, Serving, Waiting(10.0)), Other(Streaming, Sleeping(60.0)));
    assert t == Half(0.0);
  }

  // ---- A run that loses a watchdog ----------------------------------------------------------------

  const HELD := Posting(8, 2, 9.0, true)

  /** A POST of the other connection takes the registry lock at nine seconds. */
  lemma OtherPosts() returns (tr: seq<State>, es: seq<Event>)
    ensures Reaches(tr, es, 9.0, HELD, Pair(Awake(ONE, Serving, Waiting(10.0)), Other(Streaming, Sleeping(60.0))),
                    Half(9.0))
  {
    hide Next, Enabled, Is, IsRun, Punctual;
    tr, es := ZeroWaits(ONE);
    var conns, t := Pair(Awake(ONE, Serving, Waiting(10.0)), Other(Streaming, Sleeping(60.0))), Half(0.0);
    tr, es := Ticked(tr, es, 0.0, Open, conns, t, 9.0);
    PostIs(tr[|es|], 9.0, Open, conns, t, 8, 2);
    tr, es := Stepped(tr, es, PostArrive(8, 2), 9.0, Posting(8, 2, 9.0, false), conns, t);
    DecideIs(tr[|es|], 9.0, Posting(8, 2, 9.0, false), conns, t);
    assert Touch(t, 8, 9.0) == Half(9.0);
    tr, es := Stepped(tr, es, PostDecide, 9.0, HELD, conns, Half(9.0));
  }

  /** Meanwhile the endpoint frame of connection 0 is recognised, and its watchdog's timer fires
      before the POST is done. */
  lemma TimerFiresBehindAPost() returns (tr: seq<State>, es: seq<Event>)
    ensures Reaches(tr, es, 10.0, HELD,
                    Pair(Awake(ONE, Claimed(9.0), TimedOut), Other(Streaming, Sleeping(60.0))), Half(9.0))
  {
    hide Next, Enabled, Is, IsRun, Punctual;
    tr, es := OtherPosts();
    var conns, t := Pair(Awake(ONE, Serving, Waiting(10.0)), Other(Streaming, Sleeping(60.0))), Half(9.0);
    ClaimIs(tr[|es|], 9.0, HELD, conns, t, 0, 7);
    conns := conns[0 := conns[0].(phase := Claimed(9.0), session := Some(7))];
    tr, es := Stepped(tr, es, Claim(0, 7), 9.0, HELD, conns, t);
    tr, es := Ticked(tr, es, 9.0, HELD, conns, t, 1.0);
    DogIs(tr[|es|], 10.0, HELD, conns, t, 0);
    conns := conns[0 := conns[0].(dog := TimedOut)];
    tr, es := Stepped(tr, es, DogTimeout(0), 10.0, HELD, conns, t);
    assert conns == Pair(Awake(ONE, Claimed(9.0), TimedOut), Other(Streaming, Sleeping(60.0)));
  }

  const LONE := Binding(1, 9.0, 9.0, 3609.0, 0, false, true)

  function Unwatched(dog: Dog): Conn
  {
    Conn(ONE, Streaming, Some(7), true, true, true, dog)
  }

  /** The lock passes to the promotion, which is in time by the clock it read, and then to the
      watchdog, which finds no reservation. */
  lemma WatchdogEnds() returns (tr: seq<State>, es: seq<Event>)
    ensures Reaches(tr, es, 10.0, Open, Pair(Unwatched(Stopped), Other(Streaming, Sleeping(60.0))),
                    Tables(map[], map[8 := OtherBinding(9.0), 7 := LONE]))
  {
    hide Next, Enabled, Is, IsRun, Punctual;
    tr, es := TimerFiresBehindAPost();
    var conns, t := Pair(Awake(ONE, Claimed(9.0), TimedOut), Other(Streaming, Sleeping(60.0))), Half(9.0);
    PostIs(tr[|es|], 10.0, HELD, conns, t, 8, 2);
    tr, es := Stepped(tr, es, PostDone, 10.0, Open, conns, t);
    PromotionIs(tr[|es|], 10.0, conns, t, 0);
    assert OnceBound(t, 0, conns[0], 10.0) == Tables(map[], map[8 := OtherBinding(9.0), 7 := LONE]);
    conns, t := conns[0 := OnceStreaming(conns[0])], OnceBound(t, 0, conns[0], 10.0);
    tr, es := Stepped(tr, es, Promotion(0), 10.0, Open, conns, t);
    DropIs(tr[|es|], 10.0, Open, conns, t, 0);
    assert WithoutReservation(t, 0) == t;
    conns := conns[0 := conns[0].(dog := Stopped)];
    tr, es := Stepped(tr, es, DogDropReservation(0), 10.0, Open, conns, t);
    assert conns == Pair(Unwatched(Stopped), Other(Streaming, Sleeping(60.0)));
  }

  /** A punctual run in which a streaming connection has no watchdog and is in the tables past
      its deadline: its promotion waited behind a POST while its watchdog's timer fired. */
  lemma AWatchdogCanBeLost()
    ensures exists tr: seq<State>, es: seq<Event> ::
      IsRun(tr, es) && Punctual(tr, es) && Overstays(tr[|es|], 0) && tr[|es|].conns[0].dog.Stopped?
  {
    hide Next, Enabled, IsRun, Punctual;
    var tr, es := WatchdogEnds();
    var conns := Pair(Unwatched(Stopped), Other(Streaming, Sleeping(60.0)));
    var t := Tables(map[], map[8 := OtherBinding(9.0), 7 := LONE]);
    BeginIs(tr[|es|], 10.0, Open, conns, t, 1);
    conns := conns[1 := conns[1].(phase := Cleanup, dog := Stopped)];
    tr, es := Stepped(tr, es, BeginCleanup(1), 10.0, Open, conns, t);
    CleanIs(tr[|es|], 10.0, Open, conns, t, 1);
    assert OwnerCleanup(t, 1, Some(8), 1) == Tables(map[], map[7 := LONE]);
    conns, t := conns[1 := conns[1].(phase := Ended)], Tables(map[], map[7 := LONE]);
    tr, es := Stepped(tr, es, CleanupSection(1), 10.0, Open, conns, t);
    tr, es := Ticked(tr, es, 10.0, Open, conns, t, 4000.0);
    assert Overstays(tr[|es|], 0) by { hide Reaches; }
  }

  // ---- A run whose watchdog oversleeps --------------------------------------------------------------

  function Short(activity: Time, deadline: Time): Binding
  {
    Binding(1, 0.0, activity, deadline, 0, false, true)
  }

  function Both(zero: Binding, activity: Time): Tables
  {
    Tables(map[], map[8 := OtherBinding(activity), 7 := zero])
  }

  function Zero(dog: Dog): Conn
  {
    Awake(HUNDRED, Streaming, dog)
  }

  lemma ZeroStreams() returns (tr: seq<State>, es: seq<Event>)
    ensures Reaches(tr, es, 0.0, Open, Pair(Zero(Checking), Other(Streaming, Sleeping(60.0))),
                    Both(Short(0.0, 100.0), 0.0))
  {
    hide Next, Enabled, Is, IsRun, Punctual;
    tr, es := ZeroWaits(HUNDRED);
    var conns, t := Pair(Awake(HUNDRED, Serving, Waiting(10.0)), Other(Streaming, Sleeping(60.0))), Half(0.0);
    ClaimIs(tr[|es|], 0.0, Open, conns, t, 0, 7);
    conns := conns[0 := conns[0].(phase := Claimed(0.0), session := Some(7))];
    tr, es := Stepped(tr, es, Claim(0, 7), 0.0, Open, conns, t);
    PromotionIs(tr[|es|], 0.0, conns, t, 0);
    assert OnceBound(t, 0, conns[0], 0.0) == Both(Short(0.0, 100.0), 0.0);
    conns, t := conns[0 := OnceStreaming(conns[0])], OnceBound(t, 0, conns[0], 0.0);
    tr, es := Stepped(tr, es, Promotion(0), 0.0, Open, conns, t);
    assert conns == Pair(Zero(Checking), Other(Streaming, Sleeping(60.0)));
  }

  lemma BothSleep() returns (tr: seq<State>, es: seq<Event>)
    ensures Reaches(tr, es, 0.0, Open, Pair(Zero(Sleeping(60.0)), Other(Streaming, Sleeping(60.0))),
                    Both(Short(0.0, 100.0), 0.0))
  {
    hide Next, Enabled, Is, IsRun, Punctual;
    tr, es := ZeroStreams();
    var conns, t := Pair(Zero(Checking), Other(Streaming, Sleeping(60.0))), Both(Short(0.0, 100.0), 0.0);
    CheckIs(tr[|es|], 0.0, Open, conns, t, 0, Some(100.0));
    conns := conns[0 := conns[0].(dog := Renewing(Some(100.0), 0.0))];
    tr, es := Stepped(tr, es, DogCheck(0, Some(Some(100.0))), 0.0, Open, conns, t);
    RenewIs(tr[|es|], 0.0, Open, conns, t, 0, 100.0);
    assert OnceRenewed(t, conns[0], 100.0) == t;
    conns := conns[0 := OnceAsleep(conns[0], 0.0, 100.0)];
    tr, es := Stepped(tr, es, DogRenew(0), 0.0, Open, conns, t);
    assert conns == Pair(Zero(Sleeping(60.0)), Other(Streaming, Sleeping(60.0)));
  }

  const FIRST := Posting(8, 2, 59.0, true)

  /** Both watchdogs wake while a first POST holds the lock, and queue for it. */
  lemma BothWakeBehindAPost() returns (tr: seq<State>, es: seq<Event>)
    ensures Reaches(tr, es, 60.0, FIRST, Pair(Zero(Checking), Other(Streaming, Checking)),
                    Both(Short(0.0, 100.0), 59.0))
  {
    hide Next, Enabled, Is, IsRun, Punctual;
    tr, es := FirstPost();
    var conns := Pair(Zero(Sleeping(60.0)), Other(Streaming, Sleeping(60.0)));
    var t := Both(Short(0.0, 100.0), 59.0);
    tr, es := Ticked(tr, es, 59.0, FIRST, conns, t, 1.0);
    DogIs(tr[|es|], 60.0, FIRST, conns, t, 1);
    conns := conns[1 := conns[1].(dog := Checking)];
    tr, es := Stepped(tr, es, DogWake(1), 60.0, FIRST, conns, t);
    DogIs(tr[|es|], 60.0, FIRST, conns, t, 0);
    conns := conns[0 := conns[0].(dog := Checking)];
    tr, es := Stepped(tr, es, DogWake(0), 60.0, FIRST, conns, t);
    assert conns == Pair(Zero(Checking), Other(Streaming, Checking));
  }

  lemma FirstPost() returns (tr: seq<State>, es: seq<Event>)
    ensures Reaches(tr, es, 59.0, FIRST, Pair(Zero(Sleeping(60.0)), Other(Streaming, Sleeping(60.0))),
                    Both(Short(0.0, 100.0), 59.0))
  {
    hide Next, Enabled, Is, IsRun, Punctual;
    tr, es := BothSleep();
    var conns := Pair(Zero(Sleeping(60.0)), Other(Streaming, Sleeping(60.0)));
    var t := Both(Short(0.0, 100.0), 0.0);
    tr, es := Ticked(tr, es, 0.0, Open, conns, t, 59.0);
    PostIs(tr[|es|], 59.0, Open, conns, t, 8, 2);
    tr, es := Stepped(tr, es, PostArrive(8, 2), 59.0, Posting(8, 2, 59.0, false), conns, t);
    DecideIs(tr[|es|], 59.0, Posting(8, 2, 59.0, false), conns, t);
    assert Touch(t, 8, 59.0) == Both(Short(0.0, 100.0), 59.0);
    tr, es := Stepped(tr, es, PostDecide, 59.0, FIRST, conns, Both(Short(0.0, 100.0), 59.0));
  }

  const QUEUED := Posting(7, 1, 60.0, false)

  /** The first POST is done.  The lock passes to connection 1's check, then to connection 0's;
      a second POST has queued between the two and their renewals. */
  lemma SecondPostQueues() returns (tr: seq<State>, es: seq<Event>)
    ensures Reaches(tr, es, 60.0, QUEUED,
                    Pair(Zero(Renewing(Some(100.0), 60.0)), Other(Streaming, Renewing(None, 60.0))),
                    Both(Short(0.0, 100.0), 59.0))
  {
    hide Next, Enabled, Is, IsRun, Punctual;
    tr, es := BothWakeBehindAPost();
    var conns, t := Pair(Zero(Checking), Other(Streaming, Checking)), Both(Short(0.0, 100.0), 59.0);
    PostIs(tr[|es|], 60.0, FIRST, conns, t, 8, 2);
    tr, es := Stepped(tr, es, PostDone, 60.0, Open, conns, t);
    CheckIs(tr[|es|], 60.0, Open, conns, t, 1, None);
    conns := conns[1 := conns[1].(dog := Renewing(None, 60.0))];
    tr, es := Stepped(tr, es, DogCheck(1, Some(None)), 60.0, Open, conns, t);
    PostIs(tr[|es|], 60.0, Open, conns, t, 7, 1);
    tr, es := Stepped(tr, es, PostArrive(7, 1), 60.0, QUEUED, conns, t);
    CheckIs(tr[|es|], 60.0, QUEUED, conns, t, 0, Some(100.0));
    conns := conns[0 := conns[0].(dog := Renewing(Some(100.0), 60.0))];
    tr, es := Stepped(tr, es, DogCheck(0, Some(Some(100.0))), 60.0, QUEUED, conns, t);
    assert conns == Pair(Zero(Renewing(Some(100.0), 60.0)), Other(Streaming, Renewing(None, 60.0)));
  }

  const SECOND := Posting(7, 1, 60.0, true)

  /** Connection 1's renewal comes next in the queue, then the second POST. */
  lemma SecondPostHolds() returns (tr: seq<State>, es: seq<Event>)
    ensures Reaches(tr, es, 60.0, SECOND,
                    Pair(Zero(Renewing(Some(100.0), 60.0)), Other(Streaming, Sleeping(120.0))),
                    Both(Short(60.0, 100.0), 60.0))
  {
    hide Next, Enabled, Is, IsRun, Punctual;
    tr, es := SecondPostQueues();
    var conns := Pair(Zero(Renewing(Some(100.0), 60.0)), Other(Streaming, Renewing(None, 60.0)));
    var t := Both(Short(0.0, 100.0), 59.0);
    RenewIs(tr[|es|], 60.0, QUEUED, conns, t, 1, 3600.0);
    assert OnceRenewed(t, conns[1], 3600.0) == Both(Short(0.0, 100.0), 60.0);
    conns, t := conns[1 := OnceAsleep(conns[1], 60.0, 3600.0)], OnceRenewed(t, conns[1], 3600.0);
    tr, es := Stepped(tr, es, DogRenew(1), 60.0, QUEUED, conns, t);
    DecideIs(tr[|es|], 60.0, QUEUED, conns, t);
    assert Touch(t, 7, 60.0) == Both(Short(60.0, 100.0), 60.0);
    tr, es := Stepped(tr, es, PostDecide, 60.0, SECOND, conns, Both(Short(60.0, 100.0), 60.0));
    assert conns == Pair(Zero(Renewing(Some(100.0), 60.0)), Other(Streaming, Sleeping(120.0)));
  }

  /** A punctual run in which a watchdog that nobody keeps waiting any more sleeps past the
      deadline: its renewal waited behind a POST, and sleeps that much too long. */
  lemma ALockWaitOversleeps()
    ensures exists tr: seq<State>, es: seq<Event> ::
      IsRun(tr, es) && Punctual(tr, es) && Overstays(tr[|es|], 0)
      && LockFree(tr[|es|]) && !tr[|es|].conns[0].late && tr[|es|].conns[0].dog.Sleeping?
  {
    hide Next, Enabled, IsRun, Punctual;
    var tr, es := SecondPostHolds();
    var conns := Pair(Zero(Renewing(Some(100.0), 60.0)), Other(Streaming, Sleeping(120.0)));
    var t := Both(Short(60.0, 100.0), 60.0);
    tr, es := Ticked(tr, es, 60.0, SECOND, conns, t, 30.0);
    PostIs(tr[|es|], 90.0, SECOND, conns, t, 7, 1);
    tr, es := Stepped(tr, es, PostDone, 90.0, Open, conns, t);
    RenewIs(tr[|es|], 90.0, Open, conns, t, 0, 70.0);
    conns, t := conns[0 := OnceAsleep(conns[0], 90.0, 70.0)], OnceRenewed(t, conns[0], 70.0);
    tr, es := Stepped(tr, es, DogRenew(0), 90.0, Open, conns, t);
    tr, es := Ticked(tr, es, 90.0, Open, conns, t, 10.0);
  }

  // ---- A run whose enqueue is late --------------------------------------------------------------------

  /** A POST whose task is delayed between its sample and its decision enqueues after the
      deadline. */
  lemma AnEnqueueCanBeLate()
    ensures exists tr: seq<State>, es: seq<Event>, i: nat ::
      IsRun(tr, es) && i < |es| && Enqueues(tr[i], es[i])
      && tr[i].clock > tr[i].tables.bindings[tr[i].gate.session].deadline
  {
    hide Next, Enabled, IsRun, Punctual, Enqueues;
    var tr, es := BothSleep();
    var conns := Pair(Zero(Sleeping(60.0)), Other(Streaming, Sleeping(60.0)));
    var t, gate := Both(Short(0.0, 100.0), 0.0), Posting(7, 1, 0.0, false);
    PostIs(tr[|es|], 0.0, Open, conns, t, 7, 1);
    tr, es := Stepped(tr, es, PostArrive(7, 1), 0.0, gate, conns, t);
    TickIs(tr[|es|], 0.0, gate, conns, t, 200.0);
    tr, es := Then(tr, es, Tick(200.0));
    DecideIs(tr[|es|], 200.0, gate, conns, t);
    var i, st := |es|, tr[|es|];
    tr, es := Then(tr, es, PostDecide);
    assert tr[i] == st && es[i] == PostDecide;
  }
}
