/**
 Portal sessions (app/routers/portal.py, app/middleware/portal_auth.py,
 app/models/portal.py): the cached configuration with its session version and table of
 active sessions, the file it is saved to, and the decision on a presented token.

 Tokens are unforgeable: what decodes is what was issued.  Session ids are fresh.
 */
module Portal {
  import opened Wrappers
  import opened SlidingWindow

  type Id = nat

  const ATTEMPT_RULE := Rule(5, 900.0)

  datatype Tier = Open | Code | Sso

  datatype Claims = Claims(sub: Id, version: nat, tier: Tier, expires: Time)

  /** Strings matter only by being empty or not; an access code by its hash. */
  datatype Config = Config(
    enabled: bool, tier: Tier, baseUrl: bool, codeHash: Option<nat>, issuer: bool, client: bool, secret: bool,
    ttl: Time, version: nat, sessions: map<Id, Time>)

  const DEFAULT := Config(false, Open, false, None, false, false, false, 480.0, 0, map[])

  datatype CodeChange = Keep | Clear | Replace(hash: nat, strong: bool)

  datatype Update = Update(
    tier: Option<Tier>, baseUrl: Option<bool>, ttl: Option<Time>, issuer: Option<bool>, client: Option<bool>,
    secret: Option<bool>, code: CodeChange, enabled: Option<bool>)

  function Or<T>(o: Option<T>, otherwise: T): T
  {
    if o.Some? then o.value else otherwise
  }

  function Rotated(c: Config): Config
  {
    c.(version := c.version + 1, sessions := map[])
  }

  function LoggedIn(c: Config, id: Id, expires: Time): Config
  {
    c.(sessions := c.sessions[id := expires])
  }

  function LoggedOut(c: Config, id: Id): Config
  {
    c.(sessions := c.sessions - {id})
  }

  function Assigned(c: Config, b: Update): Config
  {
    c.(tier := Or(b.tier, c.tier), baseUrl := Or(b.baseUrl, c.baseUrl), ttl := Or(b.ttl, c.ttl),
       issuer := Or(b.issuer, c.issuer), client := Or(b.client, c.client), secret := Or(b.secret, c.secret))
  }

  predicate OidcComplete(c: Config) { c.issuer && c.client && c.secret }

  predicate MayEnable(c: Config)
  {
    && c.baseUrl && (c.tier == Code ==> c.codeHash.Some?) && (c.tier == Sso ==> OidcComplete(c))
  }

  /** The request gets as far as changing the access code. */
  predicate ReachesCode(c: Config, b: Update)
  {
    !(Assigned(c, b).tier == Sso && !OidcComplete(Assigned(c, b))) && !(b.code.Replace? && !b.code.strong)
  }

  function Recoded(c: Config, code: CodeChange): Config
  {
    match code
    case Keep => c
    case Clear => c.(codeHash := None)
    case Replace(hash, _) => Rotated(c.(codeHash := Some(hash)))
  }

  /** What a settings request makes of the cached configuration, accepted or not. */
  function Updated(c: Config, b: Update): (Config, bool)
  {
    var a := Assigned(c, b);
    if !ReachesCode(c, b) then (a, false)
    else
      var d := Recoded(a, b.code);
      if b.enabled == Some(true) && !MayEnable(d) then (d, false)
      else (d.(enabled := Or(b.enabled, d.enabled)), true)
  }

  predicate RotatesIn(c: Config, b: Update) { ReachesCode(c, b) && b.code.Replace? }

  /** The decision on a token that decodes. */
  predicate Accepts(c: Config, t: Claims, now: Time)
  {
    && c.enabled && c.tier != Open && now < t.expires && t.version == c.version
    && (c.tier == Sso ==> t.tier == Sso) && t.sub in c.sessions
  }

  class PortalConfigStore {
    var cached: Config
    var disk: Config

    constructor (c: Config)
      ensures cached == c && disk == c
    {
      cached, disk := c, c;
    }

    /** The cache is set even when the write fails. */
    method Save(writable: bool) returns (ok: bool)
      modifies this`disk
      ensures ok == writable && disk == if writable then cached else old(disk)
    {
      if writable { disk := cached; }
      return writable;
    }

    method InvalidateSessionsOnRotation()
      modifies this`cached
      ensures cached == Rotated(old(cached))
    {
      cached := cached.(version := cached.version + 1);
      cached := cached.(sessions := map[]);
    }

    method IssueSession(id: Id, tier: Tier, now: Time, writable: bool) returns (token: Option<Claims>)
      modifies this
      ensures var expires := now + old(cached).ttl * 60.0;
        && cached == LoggedIn(old(cached), id, expires)
        && disk == (if writable then cached else old(disk))
        && token == if writable then Some(Claims(id, old(cached).version, tier, expires)) else None
    {
      var expires := now + cached.ttl * 60.0;
      var claims := Claims(id, cached.version, tier, expires);
      cached := cached.(sessions := cached.sessions[id := expires]);
      var ok := Save(writable);
      return if ok then Some(claims) else None;
    }

    method RevokePortalSession(id: Id, writable: bool) returns (found: bool)
      modifies this
      ensures found == (id in old(cached).sessions)
      ensures cached == if found then LoggedOut(old(cached), id) else old(cached)
      ensures disk == if found && writable then cached else old(disk)
    {
      if id !in cached.sessions { return false; }
      cached := cached.(sessions := cached.sessions - {id});
      var ok := Save(writable);
      return true;
    }

    method AssignFields(b: Update)
      modifies this`cached
      ensures cached == Assigned(old(cached), b)
    {
      cached := cached.(tier := Or(b.tier, cached.tier));
      cached := cached.(baseUrl := Or(b.baseUrl, cached.baseUrl));
      cached := cached.(ttl := Or(b.ttl, cached.ttl));
      cached := cached.(issuer := Or(b.issuer, cached.issuer));
      cached := cached.(client := Or(b.client, cached.client));
      cached := cached.(secret := Or(b.secret, cached.secret));
    }

    method UpdatePortalSettings(b: Update, writable: bool) returns (accepted: bool)
      modifies this
      ensures (cached, accepted) == Updated(old(cached), b)
      ensures disk == if accepted && writable then cached else old(disk)
    {
      AssignFields(b);
      if cached.tier == Sso && (!cached.issuer || !cached.client || !cached.secret) { return false; }
      match b.code {
        case Keep =>
        case Clear => cached := cached.(codeHash := None);
        case Replace(hash, strong) =>
          if !strong { return false; }
          cached := cached.(codeHash := Some(hash));
          InvalidateSessionsOnRotation();
      }
      if b.enabled.Some? {
        if b.enabled.value {
          if !cached.baseUrl { return false; }
          if cached.tier == Code && cached.codeHash.None? { return false; }
          if cached.tier == Sso && (!cached.issuer || !cached.client || !cached.secret) { return false; }
        }
        cached := cached.(enabled := b.enabled.value);
      }
      var ok := Save(writable);
      return true;
    }
  }

  class AccessCodeValidator {
    var attempts: map<nat, seq<Time>>

    constructor ()
      ensures attempts == map[]
    {
      attempts := map[];
    }

    method CheckRateLimit(ip: nat, now: Time) returns (allowed: bool)
      modifies this
      ensures var was := if ip in old(attempts) then old(attempts)[ip] else [];
        && attempts == old(attempts)[ip := Pruned(was, now, ATTEMPT_RULE.window)]
        && forall later :: allowed == Admits(was, Call(now, later), ATTEMPT_RULE)
    {
      var kept := Pruned(if ip in attempts then attempts[ip] else [], now, ATTEMPT_RULE.window);
      attempts := attempts[ip := kept];
      return |kept| < ATTEMPT_RULE.limit;
    }

    method RecordAttempt(ip: nat, now: Time)
      modifies this
      ensures attempts == old(attempts)[ip := (if ip in old(attempts) then old(attempts)[ip] else []) + [now]]
    {
      attempts := attempts[ip := (if ip in attempts then attempts[ip] else []) + [now]];
    }

    /** The start of a login: together the two are one call of the limiter. */
    method Attempt(ip: nat, now: Time, later: Time) returns (allowed: bool)
      modifies this
      ensures var was := if ip in old(attempts) then old(attempts)[ip] else [];
        && allowed == Admits(was, Call(now, later), ATTEMPT_RULE)
        && attempts == old(attempts)[ip := After(was, Call(now, later), ATTEMPT_RULE)]
    {
      allowed := CheckRateLimit(ip, now);
      assert attempts[ip] + [] == attempts[ip];
      if allowed { RecordAttempt(ip, later); }
    }
  }
}
