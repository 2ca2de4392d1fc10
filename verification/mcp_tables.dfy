/**
 The two tables of the MCP session guard (app/routers/mcp.py): reservations of
 GET requests that have not shown their first frame yet, and bindings of the
 sessions that have.

 `Tables` is the value of the two tables; every function on it is the effect of
 one section that runs under the registry lock.  `AuthenticatedMcpSse` is the
 guard itself, updating its tables in place, and each of its methods is proved
 against the function of the same name.

 Times are seconds.  The connectivity flag, the clocks and the set of tasks that
 are done are parameters: they belong to other objects.
 */
module McpTables {
  import opened Wrappers

  type Nonce = nat
  type SessionId = nat
  type Task = nat
  type TokenId = nat
  type Time = real

  const MAX_MCP_CONNECTIONS := 32
  const FIRST_FRAME_TIMEOUT: Time := 10.0
  const MAX_BINDING: Time := 3600.0
  const WATCHDOG: Time := 60.0

  datatype Token = Token(id: TokenId, expiresAt: Option<Time>)

  datatype Reservation = Reservation(owner: Task, createdAt: Time, firstFrameDeadline: Time)

  datatype Binding = Binding(
    tokenId: TokenId, createdAt: Time, lastActivity: Time, deadline: Time,
    owner: Task, closing: bool, enqueueable: bool)

  datatype Tables = Tables(reservations: map<Nonce, Reservation>, bindings: map<SessionId, Binding>)

  datatype Admission = Admitted | Disabled | Unavailable

  function Min(a: Time, b: Time): Time { if a <= b then a else b }

  function Max(a: Time, b: Time): Time { if a >= b then a else b }

  /** Expiry is wall-clock time; the deadline is on the monotonic clock. */
  function TokenDeadline(expiresAt: Option<Time>, nowWall: Time, nowMono: Time): Time
  {
    var deadline := nowMono + MAX_BINDING;
    match expiresAt
    case None => deadline
    case Some(at) => Min(deadline, nowMono + Max(0.0, at - nowWall))
  }

  // ---- What holds of the tables between sections --------------------------------

  ghost predicate DistinctOwners(t: Tables)
  {
    && (forall n, m :: n in t.reservations && m in t.reservations && n != m ==>
          t.reservations[n].owner != t.reservations[m].owner)
    && (forall r, s :: r in t.bindings && s in t.bindings && r != s ==>
          t.bindings[r].owner != t.bindings[s].owner)
    && (forall n, s :: n in t.reservations && s in t.bindings ==>
          t.reservations[n].owner != t.bindings[s].owner)
  }

  ghost predicate FlagsImplied(t: Tables)
  {
    forall s :: s in t.bindings ==> t.bindings[s].enqueueable && !t.bindings[s].closing
  }

  /** `a` is what is left of `b` after some entries were dropped. */
  ghost predicate Within(a: Tables, b: Tables)
  {
    && (forall n :: n in a.reservations ==> n in b.reservations && a.reservations[n] == b.reservations[n])
    && (forall s :: s in a.bindings ==> s in b.bindings && a.bindings[s] == b.bindings[s])
  }

  /** One cancel action for the owner of each entry dropped between `before` and
      `after`, no action twice, none for a task that is done. */
  ghost predicate CancelsExactly(actions: seq<Task>, before: Tables, after: Tables, done: set<Task>)
  {
    && (forall i, j :: 0 <= i < j < |actions| ==> actions[i] != actions[j])
    && (forall o :: o in actions <==> Holds(before, o) && !Holds(after, o) && o !in done)
  }

  ghost predicate Consistent(t: Tables)
  {
    && DistinctOwners(t)
    && FlagsImplied(t)
    && |t.reservations| + |t.bindings| <= MAX_MCP_CONNECTIONS
  }

  ghost predicate Holds(t: Tables, owner: Task)
  {
    || (exists n :: n in t.reservations && t.reservations[n].owner == owner)
    || (exists s :: s in t.bindings && t.bindings[s].owner == owner)
  }

  // ---- The sections, as functions ------------------------------------------------

  predicate ReservationLive(r: Reservation, now: Time, done: set<Task>)
  {
    r.owner !in done && r.firstFrameDeadline > now
  }

  predicate BindingLive(b: Binding, now: Time, done: set<Task>)
  {
    b.owner !in done && b.deadline > now
  }

  function Sweep(t: Tables, now: Time, done: set<Task>): Tables
  {
    Tables(map n | n in t.reservations && ReservationLive(t.reservations[n], now, done) :: t.reservations[n],
           map s | s in t.bindings && BindingLive(t.bindings[s], now, done) :: t.bindings[s])
  }

  function Reserve(t: Tables, nonce: Nonce, owner: Task, now: Time, enabled: bool, done: set<Task>): (Tables, Admission)
  {
    var swept := Sweep(t, now, done);
    if !enabled then (swept, Disabled)
    else if |swept.reservations| + |swept.bindings| >= MAX_MCP_CONNECTIONS then (swept, Unavailable)
    else (swept.(reservations := swept.reservations[nonce := Reservation(owner, now, now + FIRST_FRAME_TIMEOUT)]),
      Admitted)
  }

  predicate PromotionAllowed(t: Tables, nonce: Nonce, owner: Task, now: Time, enabled: bool)
  {
    && nonce in t.reservations
    && t.reservations[nonce].owner == owner
    && now <= t.reservations[nonce].firstFrameDeadline
    && enabled
  }

  function Promoted(t: Tables, nonce: Nonce, session: SessionId, owner: Task, token: Token, now: Time,
          nowWall: Time): Tables
  {
    Tables(t.reservations - {nonce},
           t.bindings[session := Binding(token.id, now, now, TokenDeadline(token.expiresAt, nowWall, now), owner,
             false, true)])
  }

  predicate EnqueueAllowed(t: Tables, session: SessionId, tokenId: TokenId, now: Time, enabled: bool)
  {
    && session in t.bindings
    && var b := t.bindings[session];
    b.tokenId == tokenId && b.enqueueable && !b.closing && b.deadline > now && enabled
  }

  function Touch(t: Tables, session: SessionId, now: Time): Tables
    requires session in t.bindings
  {
    t.(bindings := t.bindings[session := t.bindings[session].(lastActivity := now)])
  }

  function Renewed(t: Tables, session: SessionId, expiresAt: Option<Time>, now: Time, nowWall: Time): Tables
    requires session in t.bindings
  {
    var b := t.bindings[session];
    t.(bindings := t.bindings[session :=
      b.(lastActivity := now, deadline := Min(b.deadline, TokenDeadline(expiresAt, nowWall, now)))])
  }

  function WithoutReservation(t: Tables, nonce: Nonce): Tables
  {
    t.(reservations := t.reservations - {nonce})
  }

  function WithoutSession(t: Tables, session: SessionId): Tables
  {
    t.(bindings := t.bindings - {session})
  }

  function OwnerCleanup(t: Tables, nonce: Nonce, promoted: Option<SessionId>, owner: Task): Tables
  {
    var u := WithoutReservation(t, nonce);
    if promoted.Some? && promoted.value in u.bindings && u.bindings[promoted.value].owner == owner
    then WithoutSession(u, promoted.value) else u
  }

  // ---- Facts about the functions -------------------------------------------------

  lemma SubsetSizes(a: Tables, b: Tables)
    requires a.reservations.Keys <= b.reservations.Keys && a.bindings.Keys <= b.bindings.Keys
    ensures |a.reservations| + |a.bindings| <= |b.reservations| + |b.bindings|
  {
    CardinalitySubset(a.reservations.Keys, b.reservations.Keys);
    CardinalitySubset(a.bindings.Keys, b.bindings.Keys);
    assert |a.reservations| == |a.reservations.Keys| && |b.reservations| == |b.reservations.Keys|;
    assert |a.bindings| == |a.bindings.Keys| && |b.bindings| == |b.bindings.Keys|;
  }

  lemma {:induction false} CardinalitySubset<T>(a: set<T>, b: set<T>)
    requires a <= b
    ensures |a| <= |b|
    decreases a
  {
    if x :| x in a {
      CardinalitySubset(a - {x}, b - {x});
    }
  }

  /** Dropping entries, by whatever section, keeps the tables consistent. */
  lemma SubtablesConsistent(a: Tables, b: Tables)
    requires Consistent(b)
    requires Within(a, b)
    ensures Consistent(a)
  {
    assert a.reservations.Keys <= b.reservations.Keys && a.bindings.Keys <= b.bindings.Keys;
    SubsetSizes(a, b);
  }

  lemma SweepWithin(t: Tables, now: Time, done: set<Task>)
    ensures Within(Sweep(t, now, done), t)
  {
  }

  lemma NothingDropped(t: Tables, done: set<Task>)
    ensures Within(t, t) && CancelsExactly([], t, t, done)
  {
  }

  lemma DropReservationCancels(actions: seq<Task>, before: Tables, t: Tables, nonce: Nonce, done: set<Task>)
    requires Consistent(before) && Within(t, before) && nonce in t.reservations
    requires CancelsExactly(actions, before, t, done)
    ensures var owner := t.reservations[nonce].owner;
      && CancelsExactly(if owner in done then actions else actions + [owner],
                        before, WithoutReservation(t, nonce), done)
      && Within(WithoutReservation(t, nonce), before)
  {
    var owner, after := t.reservations[nonce].owner, WithoutReservation(t, nonce);
    assert before.reservations[nonce].owner == owner;
    forall o ensures Holds(after, o) <==> Holds(t, o) && o != owner {
      if n :| n in t.reservations && t.reservations[n].owner == o && o != owner {
        assert n in after.reservations;
      } else if s :| s in t.bindings && t.bindings[s].owner == o {
        assert s in after.bindings;
      }
    }
  }

  lemma DropSessionCancels(actions: seq<Task>, before: Tables, t: Tables, session: SessionId, done: set<Task>)
    requires Consistent(before) && Within(t, before) && session in t.bindings
    requires CancelsExactly(actions, before, t, done)
    ensures var owner := t.bindings[session].owner;
      && CancelsExactly(if owner in done then actions else actions + [owner], before, WithoutSession(t, session), done)
      && Within(WithoutSession(t, session), before)
  {
    var owner, after := t.bindings[session].owner, WithoutSession(t, session);
    assert before.bindings[session].owner == owner;
    forall o ensures Holds(after, o) <==> Holds(t, o) && o != owner {
      if s :| s in t.bindings && t.bindings[s].owner == o && o != owner {
        assert s in after.bindings;
      } else if n :| n in t.reservations && t.reservations[n].owner == o {
        assert n in after.reservations;
      }
    }
  }

  lemma ReserveConsistent(t: Tables, nonce: Nonce, owner: Task, now: Time, enabled: bool, done: set<Task>)
    requires Consistent(t) && !Holds(t, owner)
    ensures Consistent(Reserve(t, nonce, owner, now, enabled, done).0)
  {
    var swept := Sweep(t, now, done);
    SubtablesConsistent(swept, t);
    if Reserve(t, nonce, owner, now, enabled, done).1 == Admitted {
      InsertReservationConsistent(swept, nonce, Reservation(owner, now, now + FIRST_FRAME_TIMEOUT));
    }
  }

  lemma InsertSize<K, V>(m: map<K, V>, k: K, v: V)
    ensures |m[k := v]| <= |m| + 1
  {
    assert m[k := v].Keys == m.Keys + {k};
    assert |m[k := v].Keys| == |m[k := v]| && |m.Keys| == |m|;
  }

  lemma NotHeld(t: Tables, owner: Task)
    requires !Holds(t, owner)
    ensures forall n :: n in t.reservations ==> t.reservations[n].owner != owner
    ensures forall s :: s in t.bindings ==> t.bindings[s].owner != owner
  {
  }

  lemma InsertReservationConsistent(t: Tables, nonce: Nonce, r: Reservation)
    requires Consistent(t) && !Holds(t, r.owner)
    requires |t.reservations| + |t.bindings| < MAX_MCP_CONNECTIONS
    ensures Consistent(t.(reservations := t.reservations[nonce := r]))
  {
    NotHeld(t, r.owner);
    InsertSize(t.reservations, nonce, r);
    hide Holds;
  }

  lemma PromoteConsistent(t: Tables, nonce: Nonce, session: SessionId, owner: Task, token: Token, now: Time,
          nowWall: Time, enabled: bool)
    requires Consistent(t) && PromotionAllowed(t, nonce, owner, now, enabled)
    requires session !in t.bindings
    ensures Consistent(Promoted(t, nonce, session, owner, token, now, nowWall))
  {
    var dropped, after := WithoutReservation(t, nonce), Promoted(t, nonce, session, owner, token, now, nowWall);
    SubtablesConsistent(dropped, t);
    assert |dropped.reservations.Keys| == |t.reservations.Keys| - 1;
    assert !Holds(dropped, owner);
    InsertBindingConsistent(dropped, session, after.bindings[session]);
  }

  lemma InsertBindingConsistent(t: Tables, session: SessionId, b: Binding)
    requires Consistent(t) && !Holds(t, b.owner) && session !in t.bindings && b.enqueueable && !b.closing
    requires |t.reservations| + |t.bindings| < MAX_MCP_CONNECTIONS
    ensures Consistent(t.(bindings := t.bindings[session := b]))
  {
    NotHeld(t, b.owner);
    InsertSize(t.bindings, session, b);
    hide Holds;
  }

  lemma UpdateConsistent(t: Tables, session: SessionId, b: Binding)
    requires Consistent(t) && session in t.bindings
    requires b.owner == t.bindings[session].owner && b.enqueueable && !b.closing
    ensures Consistent(t.(bindings := t.bindings[session := b]))
  {
    var after := t.(bindings := t.bindings[session := b]);
    assert after.bindings.Keys == t.bindings.Keys;
    assert |after.bindings.Keys| == |t.bindings.Keys|;
  }

  /** Whatever is asked for, a deadline lies in the hour after the sample, and past
      the expiry only when the token had expired already at the sample. */
  lemma TokenDeadlineBounds(expiresAt: Option<Time>, nowWall: Time, nowMono: Time)
    ensures nowMono <= TokenDeadline(expiresAt, nowWall, nowMono) <= nowMono + MAX_BINDING
    ensures expiresAt.Some? ==>
      (TokenDeadline(expiresAt, nowWall, nowMono) <= nowMono + (expiresAt.value - nowWall) <==>
        nowWall <= expiresAt.value)
  {
  }

  // ---- The guard -----------------------------------------------------------------

  class AuthenticatedMcpSse {
    var reservations: map<Nonce, Reservation>
    var bindings: map<SessionId, Binding>

    function View(): Tables
      reads this
    {
      Tables(reservations, bindings)
    }

    constructor ()
      ensures View() == Tables(map[], map[])
    {
      reservations, bindings := map[], map[];
    }

    /** The lazy sweep: its two loops compute the filter, and it hands back one
        cancel action for each dropped entry whose owner still runs. */
    method SweepLocked(now: Time, done: set<Task>) returns (actions: seq<Task>)
      requires Consistent(View())
      modifies this
      ensures View() == Sweep(old(View()), now, done)
      ensures CancelsExactly(actions, old(View()), Sweep(old(View()), now, done), done)
    {
      hide CancelsExactly, Consistent;
      ghost var before := View();
      actions := [];
      NothingDropped(before, done);
      var todo := reservations.Keys;
      while todo != {}
        invariant forall n :: n in todo ==> n in reservations
        invariant Within(View(), before) && bindings == before.bindings
        invariant forall n :: n in before.reservations ==>
          (n in reservations <==> n in todo || ReservationLive(before.reservations[n], now, done))
        invariant CancelsExactly(actions, before, View(), done)
      {
        var nonce :| nonce in todo;
        todo := todo - {nonce};
        var reservation := reservations[nonce];
        if reservation.owner in done || reservation.firstFrameDeadline <= now {
          DropReservationCancels(actions, before, View(), nonce, done);
          reservations := reservations - {nonce};
          if reservation.owner !in done {
            actions := actions + [reservation.owner];
          }
        }
      }
      assert reservations == Sweep(before, now, done).reservations;
      actions := SweepBindings(before, actions, now, done);
    }

    /** The second loop of the sweep. */
    method SweepBindings(ghost before: Tables, soFar: seq<Task>, now: Time, done: set<Task>)
      returns (actions: seq<Task>)
      requires Consistent(before) && Within(View(), before)
      requires CancelsExactly(soFar, before, View(), done)
      modifies this`bindings
      ensures bindings == Sweep(old(View()), now, done).bindings
      ensures CancelsExactly(actions, before, View(), done)
    {
      hide CancelsExactly, Consistent;
      ghost var start := bindings;
      actions := soFar;
      var todo := bindings.Keys;
      while todo != {}
        invariant forall s :: s in todo ==> s in bindings
        invariant Within(View(), before) && reservations == old(reservations)
        invariant forall s :: s in bindings ==> s in start
        invariant forall s :: s in start ==> start[s] == before.bindings[s]
        invariant forall s :: s in start ==> (s in bindings <==> s in todo || BindingLive(start[s], now, done))
        invariant CancelsExactly(actions, before, View(), done)
      {
        var session :| session in todo;
        todo := todo - {session};
        var binding := bindings[session];
        if binding.owner in done || binding.deadline <= now {
          DropSessionCancels(actions, before, View(), session, done);
          bindings := bindings - {session};
          if binding.owner !in done {
            actions := actions + [binding.owner];
          }
        }
      }
    }

    /** The admission section of a GET. */
    method AdmitGet(nonce: Nonce, owner: Task, now: Time, enabled: bool, done: set<Task>)
      returns (admission: Admission, actions: seq<Task>)
      requires Consistent(View())
      modifies this
      ensures (View(), admission) == Reserve(old(View()), nonce, owner, now, enabled, done)
      ensures CancelsExactly(actions, old(View()), Sweep(old(View()), now, done), done)
    {
      hide CancelsExactly, Consistent;
      actions := SweepLocked(now, done);
      if !enabled {
        admission := Disabled;
      } else if |reservations| + |bindings| >= MAX_MCP_CONNECTIONS {
        admission := Unavailable;
      } else {
        reservations := reservations[nonce := Reservation(owner, now, now + FIRST_FRAME_TIMEOUT)];
        admission := Admitted;
      }
    }

    /** The promotion section; `accepted` is false where the source raises. */
    method Promote(nonce: Nonce, session: SessionId, owner: Task, token: Token, now: Time, nowWall: Time, enabled: bool)
      returns (accepted: bool)
      modifies this
      ensures accepted == PromotionAllowed(old(View()), nonce, owner, now, enabled)
      ensures View() ==
        if accepted then Promoted(old(View()), nonce, session, owner, token, now, nowWall) else old(View())
    {
      if nonce !in reservations || reservations[nonce].owner != owner
         || now > reservations[nonce].firstFrameDeadline || !enabled {
        return false;
      }
      reservations := reservations - {nonce};
      bindings := bindings[session :=
        Binding(token.id, now, now, TokenDeadline(token.expiresAt, nowWall, now), owner, false, true)];
      accepted := true;
    }

    /** The owner's own `finally` section: no cancel action, its own entries only. */
    method OwnerFinally(nonce: Nonce, promoted: Option<SessionId>, owner: Task)
      modifies this
      ensures View() == OwnerCleanup(old(View()), nonce, promoted, owner)
    {
      reservations := reservations - {nonce};
      if promoted.Some? && promoted.value in bindings && bindings[promoted.value].owner == owner {
        bindings := bindings - {promoted.value};
      }
    }

    /** Sweep, decide, and stamp the binding; the SDK call that follows runs under the same lock. */
    method EnqueueDecision(session: SessionId, tokenId: TokenId, now: Time, enabled: bool, done: set<Task>)
      returns (allowed: bool, actions: seq<Task>)
      requires Consistent(View())
      modifies this
      ensures var swept := Sweep(old(View()), now, done);
        && allowed == EnqueueAllowed(swept, session, tokenId, now, enabled)
        && View() == if allowed then Touch(swept, session, now) else swept
      ensures CancelsExactly(actions, old(View()), Sweep(old(View()), now, done), done)
    {
      hide CancelsExactly, Consistent;
      actions := SweepLocked(now, done);
      allowed := session in bindings && bindings[session].tokenId == tokenId && bindings[session].enqueueable
        && !bindings[session].closing && bindings[session].deadline > now && enabled;
      if allowed {
        bindings := bindings[session := bindings[session].(lastActivity := now)];
      }
    }

    /** The watchdog's second section; `None` where it finds the binding gone or not its owner's. */
    method Renew(session: SessionId, owner: Task, expiresAt: Option<Time>, now: Time, nowWall: Time)
      returns (remaining: Option<Time>)
      modifies this`bindings
      ensures remaining.Some? <==> session in old(bindings) && old(bindings[session]).owner == owner
      ensures remaining.Some? ==>
        && View() == Renewed(old(View()), session, expiresAt, now, nowWall)
        && remaining.value == View().bindings[session].deadline - now
      ensures remaining.None? ==> View() == old(View())
    {
      if session !in bindings || bindings[session].owner != owner {
        return None;
      }
      var deadline := Min(bindings[session].deadline, TokenDeadline(expiresAt, nowWall, now));
      bindings := bindings[session := bindings[session].(lastActivity := now, deadline := deadline)];
      remaining := Some(deadline - now);
    }

    method DetachReservation(nonce: Nonce) returns (actions: seq<Task>)
      requires Consistent(View())
      modifies this`reservations
      ensures View() == WithoutReservation(old(View()), nonce)
      ensures CancelsExactly(actions, old(View()), View(), {})
    {
      NothingDropped(View(), {});
      if nonce !in reservations { return []; }
      DropReservationCancels([], View(), View(), nonce, {});
      actions := [reservations[nonce].owner];
      reservations := reservations - {nonce};
    }

    method DetachSession(session: SessionId) returns (actions: seq<Task>)
      requires Consistent(View())
      modifies this`bindings
      ensures View() == WithoutSession(old(View()), session)
      ensures CancelsExactly(actions, old(View()), View(), {})
    {
      NothingDropped(View(), {});
      if session !in bindings { return []; }
      DropSessionCancels([], View(), View(), session, {});
      actions := [bindings[session].owner];
      bindings := bindings - {session};
    }

    method DetachSessionIfToken(session: SessionId, tokenId: TokenId) returns (actions: seq<Task>)
      requires Consistent(View())
      modifies this`bindings
      ensures View() == (if session in old(bindings) && old(bindings[session]).tokenId == tokenId
                         then WithoutSession(old(View()), session) else old(View()))
      ensures CancelsExactly(actions, old(View()), View(), {})
    {
      NothingDropped(View(), {});
      if session !in bindings || bindings[session].tokenId != tokenId { return []; }
      actions := DetachSession(session);
    }

    /** The close hook run by disable and shutdown. */
    method DetachAll() returns (actions: seq<Task>)
      requires Consistent(View())
      modifies this
      ensures View() == Tables(map[], map[])
      ensures CancelsExactly(actions, old(View()), Tables(map[], map[]), {})
    {
      hide CancelsExactly, Consistent, Within;
      ghost var before := View();
      ghost var current := before;
      actions := [];
      NothingDropped(before, {});
      var nonces := reservations.Keys;
      while nonces != {}
        invariant forall n :: n in nonces <==> n in current.reservations
        invariant forall n :: n in current.reservations ==>
          n in before.reservations && current.reservations[n] == before.reservations[n]
        invariant View() == before && Within(current, before) && current.bindings == before.bindings
        invariant CancelsExactly(actions, before, current, {})
      {
        var nonce :| nonce in nonces;
        nonces := nonces - {nonce};
        DropReservationCancels(actions, before, current, nonce, {});
        current := WithoutReservation(current, nonce);
        actions := actions + [reservations[nonce].owner];
      }
      var sessions := bindings.Keys;
      while sessions != {}
        invariant forall s :: s in sessions <==> s in current.bindings
        invariant forall s :: s in current.bindings ==>
          s in before.bindings && current.bindings[s] == before.bindings[s]
        invariant View() == before && Within(current, before) && forall n :: n !in current.reservations
        invariant CancelsExactly(actions, before, current, {})
      {
        var session :| session in sessions;
        sessions := sessions - {session};
        DropSessionCancels(actions, before, current, session, {});
        current := WithoutSession(current, session);
        actions := actions + [bindings[session].owner];
      }
      assert current == Tables(map[], map[]);
      reservations, bindings := map[], map[];
    }
  }
}
