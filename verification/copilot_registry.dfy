/**
 The Co-Pilot connection registry (app/routers/copilot.py): dictionaries keyed by
 session, one keyed by user, and the two rate limiters.

 `Registry` is their value; the functions on it are what runs between two awaits of
 `connect`, `cancel_inflight` and `disconnect`, and `ConnectionManager` updates the
 dictionaries in place.  Sockets, tasks and clocks belong to other objects.
 */
module CopilotRegistry {
  import opened Wrappers
  import opened SlidingWindow

  type Session = nat
  type User = nat
  type Socket = nat
  type Task = nat

  const MESSAGE_RULE := Rule(30, 60.0)
  const CONNECTION_RULE := Rule(10, 60.0)

  datatype Registry = Registry(
    active: map<Session, Socket>, userSessions: map<User, Session>, connectedSince: map<Session, Time>,
    users: map<Session, User>, balances: map<Session, int>, inflight: map<Session, Task>,
    snapshots: map<Session, nat>, introSeen: map<Session, bool>, messages: map<Session, seq<Time>>)

  const EMPTY := Registry(map[], map[], map[], map[], map[], map[], map[], map[], map[])

  /** The session a new connection of this user replaces. */
  function OldSession(r: Registry, u: User): Option<Session>
  {
    if u in r.userSessions && r.userSessions[u] in r.active then Some(r.userSessions[u]) else None
  }

  function Forget(r: Registry, s: Session): Registry
  {
    r.(inflight := r.inflight - {s})
  }

  function Disconnected(r: Registry, s: Session): Registry
  {
    Registry(r.active - {s}, map u | u in r.userSessions && r.userSessions[u] != s :: r.userSessions[u],
             r.connectedSince - {s}, r.users - {s}, r.balances - {s}, r.inflight - {s}, r.snapshots - {s},
             r.introSeen - {s}, r.messages - {s})
  }

  function Installed(r: Registry, s: Session, u: User, socket: Socket, since: Time, balance: int): Registry
  {
    r.(active := r.active[s := socket], userSessions := r.userSessions[u := s],
       connectedSince := r.connectedSince[s := since], users := r.users[s := u], balances := r.balances[s := balance])
  }

  function Connected(r: Registry, s: Session, u: User, socket: Socket, since: Time, balance: int): Registry
  {
    var was := OldSession(r, u);
    Installed(if was.Some? then Disconnected(r, was.value) else r, s, u, socket, since, balance)
  }

  function Times<K>(m: map<K, seq<Time>>, k: K): seq<Time>
  {
    if k in m then m[k] else []
  }

  ghost predicate Mentions(r: Registry, s: Session)
  {
    || s in r.active || s in r.connectedSince || s in r.users || s in r.balances || s in r.inflight
    || s in r.snapshots || s in r.introSeen || s in r.messages
    || exists u :: u in r.userSessions && r.userSessions[u] == s
  }

  /** Each user has one session, each live session one user, and the tables of live
      sessions list the same ones. */
  ghost predicate Agree(r: Registry)
  {
    && (forall u :: u in r.userSessions ==>
          r.userSessions[u] in r.active && r.userSessions[u] in r.users && r.users[r.userSessions[u]] == u)
    && (forall s :: s in r.active ==> s in r.users && r.users[s] in r.userSessions && r.userSessions[r.users[s]] == s)
    && r.active.Keys == r.connectedSince.Keys == r.users.Keys
  }

  /** The same for the entries of one session. */
  ghost predicate SameFor(r: Registry, q: Registry, s: Session)
  {
    && SameAt(r.active, q.active, s) && SameAt(r.connectedSince, q.connectedSince, s) && SameAt(r.users, q.users, s)
    && SameAt(r.balances, q.balances, s) && SameAt(r.inflight, q.inflight, s) && SameAt(r.snapshots, q.snapshots, s)
    && SameAt(r.introSeen, q.introSeen, s) && SameAt(r.messages, q.messages, s)
    && (forall u :: u in r.userSessions && r.userSessions[u] == s <==> u in q.userSessions && q.userSessions[u] == s)
  }

  ghost predicate SameAt<V(!new)>(a: map<Session, V>, b: map<Session, V>, s: Session)
  {
    (s in a <==> s in b) && (s in a ==> a[s] == b[s])
  }

  ghost predicate SameForOthers(r: Registry, q: Registry, s: Session)
  {
    forall x :: x != s ==> SameFor(r, q, x)
  }

  lemma AgreeMeansOneToOne(r: Registry)
    requires Agree(r)
    ensures forall u, v :: u in r.userSessions && v in r.userSessions && r.userSessions[u] == r.userSessions[v] ==>
      u == v
    ensures forall s :: s in r.active <==> exists u :: u in r.userSessions && r.userSessions[u] == s
  {
    forall s | s in r.active ensures exists u :: u in r.userSessions && r.userSessions[u] == s {
      assert r.users[s] in r.userSessions;
    }
  }

  lemma DisconnectedAgrees(r: Registry, s: Session)
    requires Agree(r)
    ensures Agree(Disconnected(r, s))
  {
  }

  lemma InstalledAgrees(r: Registry, s: Session, u: User, socket: Socket, since: Time, balance: int)
    requires Agree(r) && s !in r.active && u !in r.userSessions
    ensures Agree(Installed(r, s, u, socket, since, balance))
  {
  }

  /** Disconnecting removes every trace of one session and touches no other. */
  lemma DisconnectedExactly(r: Registry, s: Session)
    ensures !Mentions(Disconnected(r, s), s)
    ensures SameForOthers(r, Disconnected(r, s), s)
  {
  }

  /** A session that was replaced is no longer anybody's: its late cleanup leaves the
      users, the live sessions and their owners exactly as they are. */
  lemma LateDisconnectedChangesNoOwner(r: Registry, s: Session)
    requires Agree(r) && s !in r.active
    ensures var q := Disconnected(r, s);
      (q.active, q.userSessions, q.connectedSince, q.users) == (r.active, r.userSessions, r.connectedSince, r.users)
  {
    var q := Disconnected(r, s);
    assert q.userSessions == r.userSessions;
    assert q.active == r.active && q.connectedSince == r.connectedSince && q.users == r.users;
  }

  class ConnectionManager {
    var active: map<Session, Socket>
    var userSessions: map<User, Session>
    var connectedSince: map<Session, Time>
    var users: map<Session, User>
    var balances: map<Session, int>
    var inflight: map<Session, Task>
    var snapshots: map<Session, nat>
    var introSeen: map<Session, bool>
    var messages: map<Session, seq<Time>>
    var connects: map<User, seq<Time>>

    function Contents(): Registry
      reads this
    {
      Registry(active, userSessions, connectedSince, users, balances, inflight, snapshots, introSeen, messages)
    }

    constructor ()
      ensures Contents() == EMPTY && connects == map[]
    {
      active, userSessions, connectedSince, users, balances := map[], map[], map[], map[], map[];
      inflight, snapshots, introSeen, messages, connects := map[], map[], map[], map[], map[];
    }

    /** With nothing else running at its awaits; hands back the task it cancels and the
        socket it closes. */
    method Connect(session: Session, user: User, socket: Socket, since: Time, balance: int, running: set<Task>)
      returns (cancelled: Option<Task>, closed: Option<Socket>)
      modifies this
      ensures Contents() == Connected(old(Contents()), session, user, socket, since, balance)
      ensures connects == old(connects)
      ensures var was := OldSession(old(Contents()), user);
        && closed == (if was.Some? then Some(old(active)[was.value]) else None)
        && cancelled == (if was.Some? && was.value in old(inflight) && old(inflight)[was.value] in running
                         then Some(old(inflight)[was.value]) else None)
    {
      cancelled, closed := None, None;
      if user in userSessions && userSessions[user] in active {
        var was := userSessions[user];
        cancelled := CancelInflight(was, running);
        closed := Some(active[was]);
        DisconnectUnlocked(was);
        assert Contents() == Disconnected(old(Contents()), was);
      }
      active := active[session := socket];
      userSessions := userSessions[user := session];
      connectedSince := connectedSince[session := since];
      users := users[session := user];
      balances := balances[session := balance];
    }

    method CancelInflight(session: Session, running: set<Task>) returns (cancelled: Option<Task>)
      modifies this`inflight
      ensures Contents() == Forget(old(Contents()), session)
      ensures cancelled == if session in old(inflight) && old(inflight)[session] in running
                           then Some(old(inflight)[session]) else None
    {
      cancelled := if session in inflight && inflight[session] in running then Some(inflight[session]) else None;
      inflight := inflight - {session};
    }

    method DisconnectUnlocked(session: Session)
      modifies this
      ensures Contents() == Disconnected(old(Contents()), session) && connects == old(connects)
    {
      active := active - {session};
      connectedSince := connectedSince - {session};
      users := users - {session};
      balances := balances - {session};
      inflight := inflight - {session};
      snapshots := snapshots - {session};
      introSeen := introSeen - {session};
      messages := messages - {session};
      var mine := userSessions;
      userSessions := map u | u in mine && mine[u] != session :: mine[u];
    }

    method CheckMessageRate(session: Session, now: Time) returns (allowed: bool, resetAfter: Time)
      modifies this`messages
      ensures var was := Times(old(messages), session);
        && allowed == Admits(was, Call(now, now), MESSAGE_RULE)
        && messages == old(messages)[session := After(was, Call(now, now), MESSAGE_RULE)]
        && resetAfter == (if allowed then 0.0 else ResetAfter(was, now, MESSAGE_RULE))
    {
      var timestamps := Pruned(Times(messages, session), now, MESSAGE_RULE.window);
      messages := messages[session := timestamps];
      assert timestamps + [] == timestamps;
      if |timestamps| >= MESSAGE_RULE.limit {
        var reset := MESSAGE_RULE.window - (now - timestamps[0]);
        return false, if reset < 0.0 then 0.0 else reset;
      }
      messages := messages[session := timestamps + [now]];
      return true, 0.0;
    }

    method CheckConnectionRate(user: User, now: Time) returns (allowed: bool)
      modifies this`connects
      ensures var was := Times(old(connects), user);
        && allowed == Admits(was, Call(now, now), CONNECTION_RULE)
        && connects == old(connects)[user := After(was, Call(now, now), CONNECTION_RULE)]
    {
      var timestamps := Pruned(Times(connects, user), now, CONNECTION_RULE.window);
      connects := connects[user := timestamps];
      assert timestamps + [] == timestamps;
      if |timestamps| >= CONNECTION_RULE.limit { return false; }
      connects := connects[user := timestamps + [now]];
      return true;
    }
  }
}
