/**
 The record store of the loopback OAuth flow (app/services/aim_market_oauth.py) and
 the sections that the endpoints run on it under its lock
 (app/routers/aim_market_oauth.py).  The client follows sections 4.1 to 4.5 of
 RFC 7636 and section 10.12 of RFC 6749.

 Digests are taken to be injective, so a value stands for its digest; keys of every
 kind share one space.  A Python dict has an identity, which `is` compares: here the
 field `id`.  Tombstones have none, since no handler ever holds on to one.
 A section reads the clock once.
 */
module OAuthFlow {
  import opened Wrappers

  type Time = real
  type Key = nat
  type Secret = nat

  const CAPACITY := 1024
  const TTL: Time := 600.0
  const RESULT_TTL: Time := 60.0
  const NO_ID := 0

  type Result = nat

  /** A transaction is named by its verifier, also after the verifier has left the record. */
  datatype Txn =
    | Pending(state: Secret, flow: Secret)
    | Exchanging(state: Secret, flow: Secret)
    | Complete(flow: Secret, result: Result)
    | Tombstone

  datatype Record = Record(id: nat, expires: Time, hits: seq<Time>, nonce: Option<Secret>, txn: Option<Txn>)

  datatype Store = Store(records: map<Key, Record>, nextId: nat)

  // ---- Cleanup and allocation --------------------------------------------------------

  predicate Lapsed(r: Record, now: Time) { r.expires <= now }

  /** Expired attempts leave a tombstone; other expired records go. */
  predicate LeavesTombstone(r: Record) { r.txn.Some? && !r.txn.value.Tombstone? }

  function TombstoneRecord(expires: Time): Record
  {
    Record(NO_ID, expires, [], None, Some(Tombstone))
  }

  predicate Survives(r: Record, now: Time) { !Lapsed(r, now) || LeavesTombstone(r) }

  function Outlived(r: Record, now: Time): Record
  {
    if Lapsed(r, now) then TombstoneRecord(now + TTL) else r
  }

  function Cleaned(records: map<Key, Record>, now: Time): map<Key, Record>
  {
    map k | k in records && Survives(records[k], now) :: Outlived(records[k], now)
  }

  /** `None` is the 429 of a full table. */
  function Allocated(s: Store, key: Key, hits: seq<Time>, nonce: Option<Secret>, txn: Option<Txn>, ttl: Time,
          now: Time): Option<Store>
  {
    var records := Cleaned(s.records, now);
    if key !in records && |records| >= CAPACITY then None
    else Some(Store(records[key := Record(s.nextId, now + ttl, hits, nonce, txn)], s.nextId + 1))
  }

  /** The double-submit check: the browser's record holds the nonce it was last given. */
  predicate CsrfPasses(records: map<Key, Record>, browser: Key, nonce: Secret)
  {
    browser in records && records[browser].nonce == Some(nonce)
  }

  // ---- The sections ---------------------------------------------------------------------

  datatype Answer = Ok | Refused(code: nat)

  function RecentHits(hits: seq<Time>, now: Time): seq<Time>
  {
    if hits == [] then []
    else if hits[0] > now - 60.0 then [hits[0]] + RecentHits(hits[1..], now) else RecentHits(hits[1..], now)
  }

  /** Counts one bootstrap against `key`; the record is copied, whatever else it holds. */
  function Counted(s: Store, key: Key, now: Time): Option<Store>
  {
    if key in s.records then
      var r := s.records[key];
      var hits := RecentHits(r.hits, now);
      if |hits| >= 10 then None else Allocated(s, key, hits + [now], r.nonce, r.txn, TTL, now)
    else Allocated(s, key, [now], None, None, TTL, now)
  }

  function Bootstrapped(s: Store, ip: Key, browser: Key, nonce: Secret, now: Time): (Store, Answer)
  {
    var s0 := s.(records := Cleaned(s.records, now));
    match Counted(s0, ip, now)
    case None => (s0, Refused(429))
    case Some(s1) =>
      match Counted(s1, browser, now)
      case None => (s1, Refused(429))
      case Some(s2) =>
        if browser in s2.records
        then (s2.(records := s2.records[browser := s2.records[browser].(nonce := Some(nonce))]), Ok)
        else (s2, Ok)
  }

  function WithoutNonce(records: map<Key, Record>, browser: Key): map<Key, Record>
    requires browser in records
  {
    records[browser := records[browser].(nonce := None)]
  }

  /** The second section of a start: the nonce is spent first, whatever happens next. */
  function Started(s: Store, browser: Key, nonce: Secret, previous: Key, binding: Key, state: Secret, flow: Secret,
          now: Time): (Store, Answer)
  {
    var records := Cleaned(s.records, now);
    if !CsrfPasses(records, browser, nonce) then (s.(records := records), Refused(403))
    else
      var spent := WithoutNonce(records, browser) - {previous};
      match Allocated(s.(records := spent), binding, [], None, Some(Pending(state, flow)), TTL, now)
      case None => (s.(records := Cleaned(spent, now)), Refused(429))
      case Some(s') => (s', Ok)
  }

  predicate Opens(records: map<Key, Record>, key: Key, state: Secret, configured: bool)
  {
    && key in records && records[key].txn.Some? && records[key].txn.value.Pending?
    && records[key].txn.value.state == state && configured
  }

  /** The first section of a callback; `configured` says that issuer, address, client,
      scope and target are still the ones recorded. */
  function Opened(s: Store, key: Key, state: Secret, configured: bool, now: Time): (Store, Answer)
  {
    var records := Cleaned(s.records, now);
    if key !in records || records[key].txn.None? then (s.(records := records), Refused(400))
    else if !records[key].txn.value.Pending? then (s.(records := records), Refused(410))
    else if records[key].txn.value.state != state || !configured then (s.(records := records), Refused(400))
    else
      var t := records[key].txn.value;
      (s.(records := records[key := records[key].(txn := Some(Exchanging(t.state, t.flow)))]), Ok)
  }

  /** `records.get(key) is record` */
  predicate StillThere(records: map<Key, Record>, key: Key, id: nat)
  {
    key in records && records[key].id == id
  }

  /** The last section of a callback. */
  function Written(s: Store, key: Key, id: nat, flow: Secret, result: Result, now: Time): Store
  {
    if !StillThere(s.records, key, id) then s
    else match Allocated(s, key, [], None, Some(Complete(flow, result)), RESULT_TTL, now)
      case None => s.(records := Cleaned(s.records, now))
      case Some(s') => s'
  }

  datatype Completion = Delivered(flow: Secret, result: Result) | Failed(code: nat)

  function Completed(s: Store, browser: Key, nonce: Secret, key: Key, enabled: bool, now: Time): (Store, Completion)
  {
    var records := Cleaned(s.records, now);
    var s0 := s.(records := records);
    if !CsrfPasses(records, browser, nonce) then (s0, Failed(403))
    else if key !in records || records[key].txn.None? then (s0, Failed(403))
    else
      var gone := s.(records := records - {key});
      var t := records[key].txn.value;
      if !enabled then (gone, Failed(409))
      else if !t.Complete? then (gone, Failed(410))
      else (gone, Delivered(t.flow, t.result))
  }

  /** What `readiness` does to the store when the flow is disabled locally. */
  function Disabled(records: map<Key, Record>): map<Key, Record>
  {
    map k | k in records :: if records[k].txn.Some? then TombstoneRecord(records[k].expires) else records[k]
  }

  // ---- The store -------------------------------------------------------------------------

  class Flow {
    var records: map<Key, Record>
    var nextId: nat

    function Contents(): Store
      reads this
    {
      Store(records, nextId)
    }

    constructor ()
      ensures Contents() == Store(map[], 1)
    {
      records, nextId := map[], 1;
    }

    method Cleanup(now: Time)
      modifies this`records
      ensures records == Cleaned(old(records), now)
    {
      var todo := records.Keys;
      while todo != {}
        invariant todo <= old(records).Keys
        invariant forall k :: k in records <==> k in old(records) && (k in todo || Survives(old(records)[k], now))
        invariant forall k :: k in records ==>
          records[k] == if k in todo then old(records)[k] else Outlived(old(records)[k], now)
      {
        var key :| key in todo;
        todo := todo - {key};
        if Lapsed(records[key], now) {
          if LeavesTombstone(records[key]) {
            records := records[key := TombstoneRecord(now + TTL)];
          } else {
            records := records - {key};
          }
        }
      }
    }

    /** `readiness`, when the flow is disabled locally. */
    method DisableAll()
      modifies this`records
      ensures records == Disabled(old(records))
    {
      var todo := records.Keys;
      while todo != {}
        invariant todo <= records.Keys == old(records).Keys
        invariant forall k :: k in records ==>
          records[k] == if k in todo then old(records)[k] else Disabled(old(records))[k]
      {
        var key :| key in todo;
        todo := todo - {key};
        if records[key].txn.Some? {
          records := records[key := TombstoneRecord(records[key].expires)];
        }
      }
    }

    method Allocate(key: Key, hits: seq<Time>, nonce: Option<Secret>, txn: Option<Txn>, ttl: Time, now: Time)
      returns (granted: bool)
      modifies this
      ensures var a := Allocated(old(Contents()), key, hits, nonce, txn, ttl, now);
        && granted == a.Some?
        && Contents() == if a.Some? then a.value else old(Contents()).(records := Cleaned(old(records), now))
    {
      Cleanup(now);
      if key !in records && |records| >= CAPACITY { return false; }
      records := records[key := Record(nextId, now + ttl, hits, nonce, txn)];
      nextId := nextId + 1;
      granted := true;
    }

    /** One pass of the limiter loop of a bootstrap. */
    method CountHit(key: Key, now: Time) returns (counted: bool)
      requires records == Cleaned(records, now)
      modifies this
      ensures counted == Counted(old(Contents()), key, now).Some?
      ensures Contents() == if counted then Counted(old(Contents()), key, now).value else old(Contents())
    {
      var record := if key in records then records[key] else Record(NO_ID, 0.0, [], None, None);
      var hits := RecentHits(record.hits, now);
      assert RecentHits([], now) + [now] == [now];
      if |hits| >= 10 { return false; }
      counted := Allocate(key, hits + [now], record.nonce, record.txn, TTL, now);
    }

    method Bootstrap(ip: Key, browser: Key, nonce: Secret, now: Time) returns (answer: Answer)
      modifies this
      ensures (Contents(), answer) == Bootstrapped(old(Contents()), ip, browser, nonce, now)
    {
      Cleanup(now);
      CleanedTwice(old(records), now);
      ghost var s0 := Contents();
      var counted := CountHit(ip, now);
      if !counted { return Refused(429); }
      CountedIsClean(s0, ip, now);
      ghost var s1 := Contents();
      counted := CountHit(browser, now);
      if !counted { return Refused(429); }
      records := records[browser := records[browser].(nonce := Some(nonce))];
      answer := Ok;
    }

    method StartSection(browser: Key, nonce: Secret, previous: Key, binding: Key, state: Secret, flow: Secret,
            now: Time)
      returns (answer: Answer)
      modifies this
      ensures (Contents(), answer) == Started(old(Contents()), browser, nonce, previous, binding, state, flow, now)
    {
      Cleanup(now);
      if !CsrfPasses(records, browser, nonce) { return Refused(403); }
      records := records[browser := records[browser].(nonce := None)];
      records := records - {previous};
      var granted := Allocate(binding, [], None, Some(Pending(state, flow)), TTL, now);
      answer := if granted then Ok else Refused(429);
    }

    method CallbackOpen(key: Key, state: Secret, configured: bool, now: Time)
      returns (answer: Answer, id: nat, flow: Secret)
      modifies this
      ensures (Contents(), answer) == Opened(old(Contents()), key, state, configured, now)
      ensures answer.Ok? ==>
        key in records && records[key].id == id && records[key].txn == Some(Exchanging(state, flow))
    {
      id, flow := NO_ID, 0;
      Cleanup(now);
      if key !in records || records[key].txn.None? { return Refused(400), id, flow; }
      var t := records[key].txn.value;
      if !t.Pending? { return Refused(410), id, flow; }
      if t.state != state || !configured { return Refused(400), id, flow; }
      records := records[key := records[key].(txn := Some(Exchanging(t.state, t.flow)))];
      answer, id, flow := Ok, records[key].id, t.flow;
    }

    method CallbackWrite(key: Key, id: nat, flow: Secret, result: Result, now: Time)
      modifies this
      ensures Contents() == Written(old(Contents()), key, id, flow, result, now)
    {
      if StillThere(records, key, id) {
        var _ := Allocate(key, [], None, Some(Complete(flow, result)), RESULT_TTL, now);
      }
    }

    method CompleteSection(browser: Key, nonce: Secret, key: Key, enabled: bool, now: Time)
      returns (completion: Completion)
      modifies this
      ensures (Contents(), completion) == Completed(old(Contents()), browser, nonce, key, enabled, now)
    {
      Cleanup(now);
      if !CsrfPasses(records, browser, nonce) { return Failed(403); }
      if key !in records || records[key].txn.None? { return Failed(403); }
      var t := records[key].txn.value;
      records := records - {key};
      completion := if !enabled then Failed(409) else if !t.Complete? then Failed(410) else Delivered(t.flow, t.result);
    }
  }

  lemma CleanedTwice(records: map<Key, Record>, now: Time)
    ensures Cleaned(Cleaned(records, now), now) == Cleaned(records, now)
  {
  }

  lemma CountedIsClean(s: Store, key: Key, now: Time)
    requires s.records == Cleaned(s.records, now) && Counted(s, key, now).Some?
    ensures var r := Counted(s, key, now).value.records; r == Cleaned(r, now)
  {
    var r := Counted(s, key, now).value.records;
    assert forall k :: k in r ==> !Lapsed(r[k], now);
  }
}
