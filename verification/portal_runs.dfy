/**
 Portal sessions over whole runs: logins, logouts, revocations, rotations, settings
 requests that fail half way, writes that fail, and restarts that read the file back.
 */
module PortalRuns {
  import opened Wrappers
  import opened SlidingWindow
  import opened Portal

  /** `standing` are the sessions logged in since the last rotation and not ended since;
      `used` all ids ever drawn; `issued` all tokens ever handed out. */
  datatype State = State(mem: Config, disk: Config, issued: set<Claims>, used: set<Id>, standing: set<Id>)

  datatype Event =
    | Login(id: Id, tier: Tier, now: Time, saved: bool)
    | Logout(token: Claims, now: Time, saved: bool)
    | Revoke(id: Id, saved: bool)
    | RotateAll(saved: bool)
    | Settings(update: Update, saved: bool)
    | SaveOther(saved: bool)
    | Restart(readable: bool)

  /** A single sign-on login may finish after the tier or the switch was changed; one by
      code does not wait in between. */
  ghost predicate Enabled(st: State, e: Event)
  {
    match e
    case Login(id, tier, now, saved) =>
      id !in st.used && tier != Open && (tier == Code ==> st.mem.enabled && st.mem.tier == Code)
    case Logout(token, now, saved) => token in st.issued && Accepts(st.mem, token, now)
    case Revoke(id, saved) => id in st.mem.sessions
    case _ => true
  }

  function Saved(st: State, mem: Config, saved: bool): State
  {
    st.(mem := mem, disk := if saved then mem else st.disk)
  }

  function Token(c: Config, id: Id, tier: Tier, now: Time): Claims
  {
    Claims(id, c.version, tier, now + c.ttl * 60.0)
  }

  ghost function Next(st: State, e: Event): State
    requires Enabled(st, e)
  {
    match e
    case Login(id, tier, now, saved) =>
      var token := Token(st.mem, id, tier, now);
      Saved(st, LoggedIn(st.mem, id, token.expires), saved).(
        issued := if saved then st.issued + {token} else st.issued,
        used := st.used + {id}, standing := st.standing + {id})
    case Logout(token, now, saved) =>
      Saved(st, LoggedOut(st.mem, token.sub), saved).(standing := st.standing - {token.sub})
    case Revoke(id, saved) => Saved(st, LoggedOut(st.mem, id), saved).(standing := st.standing - {id})
    case RotateAll(saved) => Saved(st, Rotated(st.mem), saved).(standing := {})
    case Settings(update, saved) =>
      var (mem, accepted) := Updated(st.mem, update);
      Saved(st, mem, accepted && saved).(standing := if RotatesIn(st.mem, update) then {} else st.standing)
    case SaveOther(saved) => Saved(st, st.mem, saved)
    case Restart(readable) => st.(mem := if readable then st.disk else DEFAULT)
  }

  /** Every id of the table was issued, if at all, under the table's version. */
  ghost predicate Versioned(c: Config, st: State)
  {
    && (forall id :: id in c.sessions ==> id in st.used)
    && (forall t :: t in st.issued && t.sub in c.sessions ==> t.version == c.version)
  }

  ghost predicate Inv(st: State)
  {
    && Versioned(st.mem, st) && Versioned(st.disk, st)
    && (forall t :: t in st.issued ==> t.sub in st.used)
    && st.standing <= st.used
  }

  /** No table entry outlived its session. */
  ghost predicate Current(st: State)
  {
    st.mem.sessions.Keys <= st.standing
  }

  /** A restart reads back no session that the cache no longer has. */
  predicate Careful(st: State, e: Event)
  {
    e.Restart? && e.readable ==> st.disk.sessions.Keys <= st.mem.sessions.Keys
  }

  lemma UpdatedSessions(c: Config, b: Update)
    ensures var (d, accepted) := Updated(c, b);
      if RotatesIn(c, b) then d.version == c.version + 1 && d.sessions == map[]
      else d.version == c.version && d.sessions == c.sessions
  {
  }

  lemma InvStep(st: State, e: Event)
    requires Enabled(st, e) && Inv(st)
    ensures Inv(Next(st, e))
  {
    if e.Settings? { UpdatedSessions(st.mem, e.update); }
    hide Updated, RotatesIn, Accepts;
  }

  lemma CurrentStep(st: State, e: Event)
    requires Enabled(st, e) && Inv(st) && Current(st) && Careful(st, e)
    ensures Current(Next(st, e))
  {
    if e.Settings? { UpdatedSessions(st.mem, e.update); }
    hide Updated, RotatesIn, Accepts;
  }

  // ---- Runs ------------------------------------------------------------------------------------

  ghost predicate Initial(st: State)
  {
    st.mem == st.disk && st.mem.sessions == map[] && st.issued == {} && st.used == {} && st.standing == {}
  }

  ghost predicate IsRun(tr: seq<State>, es: seq<Event>)
  {
    && |tr| == |es| + 1 && Initial(tr[0])
    && forall i :: 0 <= i < |es| ==> Enabled(tr[i], es[i]) && tr[i + 1] == Next(tr[i], es[i])
  }

  ghost predicate IsCareful(tr: seq<State>, es: seq<Event>, n: nat)
    requires |tr| == |es| + 1 && n < |tr|
  {
    forall i :: 0 <= i < n ==> Careful(tr[i], es[i])
  }

  lemma {:induction false} RunInv(tr: seq<State>, es: seq<Event>, i: nat)
    requires IsRun(tr, es) && i < |tr|
    ensures Inv(tr[i])
    ensures IsCareful(tr, es, i) ==> Current(tr[i])
  {
    if i > 0 {
      RunInv(tr, es, i - 1);
      assert Enabled(tr[i - 1], es[i - 1]) && tr[i - 1 + 1] == Next(tr[i - 1], es[i - 1]);
      InvStep(tr[i - 1], es[i - 1]);
      if IsCareful(tr, es, i) {
        assert Careful(tr[i - 1], es[i - 1]);
        CurrentStep(tr[i - 1], es[i - 1]);
      }
    }
  }

  /** The step ends this session: logout, revocation, or any rotation. */
  ghost predicate Ends(st: State, e: Event, id: Id)
  {
    || (e.Logout? && e.token.sub == id) || (e.Revoke? && e.id == id) || e.RotateAll?
    || (e.Settings? && RotatesIn(st.mem, e.update))
  }

  ghost predicate StandsSince(tr: seq<State>, es: seq<Event>, i: nat, j: nat, id: Id)
    requires i < |tr| && |tr| == |es| + 1
  {
    && 0 <= j < i && es[j].Login? && es[j].id == id
    && forall k :: j < k < i ==> !Ends(tr[k], es[k], id)
  }

  lemma {:induction false} StandingOrigin(tr: seq<State>, es: seq<Event>, i: nat, id: Id)
    requires IsRun(tr, es) && i < |tr|
    ensures id in tr[i].standing <==> exists j: nat :: StandsSince(tr, es, i, j, id)
  {
    if i > 0 {
      StandingOrigin(tr, es, i - 1, id);
      var st, e := tr[i - 1], es[i - 1];
      assert Enabled(st, e) && tr[i - 1 + 1] == Next(st, e);
      hide Updated, RotatesIn, Accepts;
      if id in tr[i].standing {
        if e.Login? && e.id == id {
          assert StandsSince(tr, es, i, i - 1, id);
        } else {
          assert id in st.standing && !Ends(st, e, id);
          var j: nat :| StandsSince(tr, es, i - 1, j, id);
          assert StandsSince(tr, es, i, j, id);
        }
      }
      if j: nat :| StandsSince(tr, es, i, j, id) {
        if j < i - 1 {
          assert StandsSince(tr, es, i - 1, j, id) && !Ends(st, e, id);
        }
      }
    }
  }

  /** In the code and sso tiers every accepted token is of a login since the last rotation
      that was neither logged out nor revoked since, and carries the current version. */
  lemma AcceptedIsStanding(tr: seq<State>, es: seq<Event>, i: nat, t: Claims, now: Time)
    requires IsRun(tr, es) && i < |tr| && IsCareful(tr, es, i)
    requires t in tr[i].issued && Accepts(tr[i].mem, t, now)
    ensures exists j: nat :: StandsSince(tr, es, i, j, t.sub)
    ensures t.version == tr[i].mem.version
  {
    RunInv(tr, es, i);
    assert t.sub in tr[i].mem.sessions.Keys;
    StandingOrigin(tr, es, i, t.sub);
  }

  /** Each id of the table was issued under the version in force, restarts or not. */
  lemma TableIsOfOneVersion(tr: seq<State>, es: seq<Event>, i: nat, t: Claims)
    requires IsRun(tr, es) && i < |tr| && t in tr[i].issued && t.sub in tr[i].mem.sessions
    ensures t.version == tr[i].mem.version
  {
    RunInv(tr, es, i);
  }

  lemma EndedStep(st: State, e: Event, id: Id)
    requires Enabled(st, e) && id in st.used && id !in st.standing
    ensures id in Next(st, e).used && id !in Next(st, e).standing
  {
    hide Updated, RotatesIn, Accepts;
  }

  /** What was logged out, revoked or rotated away is never accepted again. */
  lemma {:induction false} StaleForever(tr: seq<State>, es: seq<Event>, i: nat, j: nat, t: Claims, now: Time)
    requires IsRun(tr, es) && i <= j < |tr| && IsCareful(tr, es, j)
    requires t in tr[i].issued && t.sub !in tr[i].standing
    ensures t.sub in tr[j].used && t.sub !in tr[j].standing && !Accepts(tr[j].mem, t, now)
    decreases j - i
  {
    RunInv(tr, es, i);
    RunInv(tr, es, j);
    if i < j {
      StaleForever(tr, es, i, j - 1, t, now);
      assert Enabled(tr[j - 1], es[j - 1]) && tr[j - 1 + 1] == Next(tr[j - 1], es[j - 1]);
      EndedStep(tr[j - 1], es[j - 1], t.sub);
    }
  }

  // ---- What is handed out and what is saved ----------------------------------------------------

  /** The step writes the file. */
  predicate Writes(st: State, e: Event)
  {
    match e
    case Login(_, _, _, saved) => saved
    case Logout(_, _, saved) => saved
    case Revoke(_, saved) => saved
    case RotateAll(saved) => saved
    case Settings(update, saved) => saved && Updated(st.mem, update).1
    case SaveOther(saved) => saved
    case Restart(_) => false
  }

  /** The file is the cache after a step that writes it and as before otherwise, and a token is
      handed out exactly by a login that was saved. */
  lemma SavedAndIssued(st: State, e: Event, t: Claims)
    requires Enabled(st, e)
    ensures Next(st, e).disk == if Writes(st, e) then Next(st, e).mem else st.disk
    ensures t in Next(st, e).issued <==>
      t in st.issued
      || (e.Login? && e.saved && t == Claims(e.id, st.mem.version, e.tier, e.now + st.mem.ttl * 60.0))
  {
    hide Updated, RotatesIn, Accepts;
  }

  // ---- When a token is accepted ------------------------------------------------------------------

  /** A token that was handed out is accepted exactly when the portal is on, not open, and in no
      stricter tier, the token has not expired, and the table lists its session. */
  lemma AcceptedIffListed(tr: seq<State>, es: seq<Event>, i: nat, t: Claims, now: Time)
    requires IsRun(tr, es) && i < |tr| && t in tr[i].issued
    ensures var c := tr[i].mem;
      Accepts(c, t, now) <==>
        c.enabled && (c.tier == Code || (c.tier == Sso && t.tier == Sso)) && now < t.expires && t.sub in c.sessions
  {
    RunInv(tr, es, i);
  }

  /** A restart that reads back a file without this session. */
  predicate Forgets(st: State, e: Event, id: Id)
  {
    e.Restart? && !(e.readable && id in st.disk.sessions)
  }

  lemma ListedStep(st: State, e: Event, id: Id)
    requires Enabled(st, e) && id in st.mem.sessions
    ensures id in Next(st, e).mem.sessions <==> !Ends(st, e, id) && !Forgets(st, e, id)
  {
    if e.Settings? { UpdatedSessions(st.mem, e.update); }
    hide Updated, RotatesIn, Accepts;
  }

  lemma IssuedStays(st: State, e: Event)
    requires Enabled(st, e)
    ensures st.issued <= Next(st, e).issued
  {
    hide Updated, RotatesIn, Accepts;
  }

  lemma {:induction false} ListedSince(tr: seq<State>, es: seq<Event>, j: nat, i: nat)
    requires IsRun(tr, es) && j < i < |tr| && es[j].Login? && es[j].saved
    requires forall k :: j < k < i ==> !Ends(tr[k], es[k], es[j].id) && !Forgets(tr[k], es[k], es[j].id)
    ensures es[j].id in tr[i].mem.sessions && Token(tr[j].mem, es[j].id, es[j].tier, es[j].now) in tr[i].issued
  {
    assert Enabled(tr[i - 1], es[i - 1]) && tr[i - 1 + 1] == Next(tr[i - 1], es[i - 1]);
    if i > j + 1 {
      hide Next, Enabled, Ends;
      ListedSince(tr, es, j, i - 1);
      ListedStep(tr[i - 1], es[i - 1], es[j].id);
      IssuedStays(tr[i - 1], es[i - 1]);
    }
  }

  /**
   A login that was saved is accepted, until its time is over, in every tier that its own tier
   allows, as long as nothing ended its session and no restart lost it.
   */
  lemma StandingIsAccepted(tr: seq<State>, es: seq<Event>, j: nat, i: nat, now: Time)
    requires IsRun(tr, es) && j < i < |tr| && es[j].Login? && es[j].saved
    requires forall k :: j < k < i ==> !Ends(tr[k], es[k], es[j].id) && !Forgets(tr[k], es[k], es[j].id)
    ensures var c, t := tr[i].mem, Token(tr[j].mem, es[j].id, es[j].tier, es[j].now);
      Accepts(c, t, now) <==>
        c.enabled && (c.tier == Code || (c.tier == Sso && es[j].tier == Sso)) && now < es[j].now + tr[j].mem.ttl * 60.0
  {
    hide Next, Enabled, Ends;
    ListedSince(tr, es, j, i);
    AcceptedIffListed(tr, es, i, Token(tr[j].mem, es[j].id, es[j].tier, es[j].now), now);
  }

  // ---- What a settings request does ----------------------------------------------------------------

  function Asked<T>(o: Option<T>, now: T): T
  {
    match o
    case None => now
    case Some(t) => t
  }

  /** The assignments a settings request makes, whether or not it is refused afterwards. */
  predicate AssignedTo(c: Config, b: Update, d: Config)
  {
    && d.tier == Asked(b.tier, c.tier) && d.baseUrl == Asked(b.baseUrl, c.baseUrl) && d.ttl == Asked(b.ttl, c.ttl)
    && d.issuer == Asked(b.issuer, c.issuer) && d.client == Asked(b.client, c.client)
    && d.secret == Asked(b.secret, c.secret)
  }

  predicate LacksOidc(d: Config) { d.tier == Sso && !(d.issuer && d.client && d.secret) }

  /** The code and the sessions are those of `c`, cleared, or replaced and rotated. */
  predicate CodeAfter(c: Config, code: CodeChange, d: Config)
  {
    match code
    case Keep => SameCode(c, d)
    case Clear => (d.codeHash, d.version, d.sessions) == (None, c.version, c.sessions)
    case Replace(hash, _) => (d.codeHash, d.version, d.sessions) == (Some(hash), c.version + 1, map[])
  }

  predicate SameCode(c: Config, d: Config)
  {
    (d.codeHash, d.version, d.sessions) == (c.codeHash, c.version, c.sessions)
  }

  predicate SameFields(c: Config, d: Config)
  {
    (d.tier, d.baseUrl, d.ttl, d.issuer, d.client, d.secret) == (c.tier, c.baseUrl, c.ttl, c.issuer, c.client, c.secret)
  }

  lemma AssignsExactly(c: Config, b: Update)
    ensures AssignedTo(c, b, Assigned(c, b)) && SameCode(c, Assigned(c, b)) && Assigned(c, b).enabled == c.enabled
  {
  }

  lemma RecodesExactly(c: Config, code: CodeChange)
    ensures CodeAfter(c, code, Recoded(c, code)) && SameFields(c, Recoded(c, code))
    ensures Recoded(c, code).enabled == c.enabled
  {
  }

  predicate RefusedEarly(b: Update, d: Config)
  {
    LacksOidc(d) || (b.code.Replace? && !b.code.strong)
  }

  predicate RefusedLate(b: Update, d: Config)
  {
    b.enabled == Some(true) && (!d.baseUrl || (d.tier == Code && d.codeHash.None?))
  }

  /** A request is refused for a single sign-on tier without all three OIDC settings, for a weak
      code, and for enabling without a base URL or, in the code tier, without a code.  Only the
      first two come before the code is changed and the sessions are dropped. */
  lemma SettingsAnswer(c: Config, b: Update)
    ensures var (d, accepted) := Updated(c, b);
      && AssignedTo(c, b, d)
      && (accepted <==> !RefusedEarly(b, d) && !RefusedLate(b, d))
      && d.enabled == (if accepted then Asked(b.enabled, c.enabled) else c.enabled)
      && if RefusedEarly(b, d) then SameCode(c, d) else CodeAfter(c, b.code, d)
  {
    var a := Assigned(c, b);
    AssignsExactly(c, b);
    RecodesExactly(a, b.code);
    CodeAfterSame(c, a, b.code, Recoded(a, b.code));
    AssignedToSame(c, b, a);
    hide Assigned, Recoded, AssignedTo, CodeAfter;
  }

  lemma CodeAfterSame(c: Config, a: Config, code: CodeChange, d: Config)
    requires SameCode(c, a) && CodeAfter(a, code, d)
    ensures CodeAfter(c, code, d) && forall on :: CodeAfter(c, code, d.(enabled := on))
  {
  }

  lemma AssignedToSame(c: Config, b: Update, a: Config)
    requires AssignedTo(c, b, a)
    ensures forall d :: SameFields(a, d) ==> AssignedTo(c, b, d)
  {
  }

  // ---- The limit of attempts -------------------------------------------------------------------------

  /** No fifteen minutes see more than five attempts of one address let through, and one is turned
      away exactly when the fifteen minutes before it saw five. */
  lemma AttemptLimit(calls: seq<Call>, c: Call, end: Time)
    requires InOrder(calls + [c])
    ensures Count(Admitted(calls, ATTEMPT_RULE), end, 900.0) <= 5
    ensures !Admits(Kept(calls, ATTEMPT_RULE), c, ATTEMPT_RULE) <==>
      Count(Admitted(calls, ATTEMPT_RULE), c.check, 900.0) == 5
  {
    assert InOrder(calls) by {
      InOrderFront(calls + [c]);
      assert (calls + [c])[..|calls|] == calls;
    }
    hide InOrder, Count, Admitted, Admits, Kept;
    AtMostTheLimit(calls, ATTEMPT_RULE, end);
    RefusedIffFull(calls, c, ATTEMPT_RULE);
  }

  // ---- When a restart brings a session back ------------------------------------------------------

  /** What the file lists and the cache does not has ended, as long as the file could be read. */
  lemma {:induction false} MissingHasEnded(tr: seq<State>, es: seq<Event>, i: nat)
    requires IsRun(tr, es) && i < |tr| && forall k :: 0 <= k < i ==> es[k] != Restart(false)
    ensures forall id :: id in tr[i].disk.sessions && id !in tr[i].mem.sessions ==> id !in tr[i].standing
  {
    if i > 0 {
      MissingHasEnded(tr, es, i - 1);
      RunInv(tr, es, i - 1);
      var st, e := tr[i - 1], es[i - 1];
      assert Enabled(st, e) && tr[i - 1 + 1] == Next(st, e);
      if e.Settings? { UpdatedSessions(st.mem, e.update); }
      hide Updated, RotatesIn, Accepts;
    }
  }

  /** A restart that reads the file keeps ended sessions out exactly when the file lists no
      session the cache does not: comparing the two before is enough, and nothing less is.
      It may be any restart, after others that were safe. */
  lemma RestartIsSafeIff(tr: seq<State>, es: seq<Event>, i: nat)
    requires IsRun(tr, es) && i < |es| && es[i] == Restart(true) && IsCareful(tr, es, i)
    requires forall k :: 0 <= k < i ==> es[k] != Restart(false)
    ensures Current(tr[i + 1]) <==> Careful(tr[i], es[i])
  {
    RunInv(tr, es, i);
    MissingHasEnded(tr, es, i);
    assert Enabled(tr[i], es[i]) && tr[i + 1] == Next(tr[i], es[i]);
    if Current(tr[i + 1]) {
      forall id | id in tr[i].disk.sessions.Keys ensures id in tr[i].mem.sessions.Keys {
        assert id in tr[i + 1].mem.sessions.Keys;
      }
    }
  }

  /** One settings request rotates the access code and is then refused for want of a base
      URL, so the rotation is never saved; after a restart the old token is accepted. */
  lemma RejectedRotationIsUndone(start: Config, now: Time)
    requires start.enabled && start.tier == Code && start.sessions == map[] && start.ttl > 0.0
    ensures exists tr, es, t :: IsRun(tr, es) && Revives(tr, es, t, now)
  {
    var st0 := State(start, start, {}, {}, {});
    var t := Token(start, 0, Code, now);
    var update := Update(None, Some(false), None, None, None, None, Replace(1, true), Some(true));
    var es := [Login(0, Code, now, true), Settings(update, true), Restart(true)];
    var st1 := Next(st0, es[0]);
    var st2 := Next(st1, es[1]);
    var st3 := Next(st2, es[2]);
    var tr := [st0, st1, st2, st3];
    assert RotatesIn(st1.mem, update) && !Updated(st1.mem, update).1;
    assert IsRun(tr, es);
    assert Revives(tr, es, t, now);
  }

  /** A token whose session ended at the last step but one, accepted after the last. */
  ghost predicate Revives(tr: seq<State>, es: seq<Event>, t: Claims, now: Time)
  {
    && |tr| == |es| + 1 >= 3
    && t in tr[|es| - 1].issued && Ends(tr[|es| - 2], es[|es| - 2], t.sub)
    && Accepts(tr[|es|].mem, t, now)
  }
}
