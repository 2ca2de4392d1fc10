/**
 The loopback OAuth flow as a concurrent system: browsers bootstrapping, starts waiting
 for readiness between their two sections, callbacks waiting for the token exchange
 and the login, completions, expiry, and local disabling, interleaved in any order.

 Random values (nonces, states, verifiers, binding cookies) are fresh.  Nothing is
 assumed of the keys a client presents: any cookie may name any record.
 */
module OAuthRuns {
  import opened Wrappers
  import opened OAuthFlow

  datatype CallPhase = Exchange | Login | Write(result: Result) | Done

  /** A callback between its sections: the record it holds, and where it stands. */
  datatype Call = Call(key: Key, id: nat, phase: CallPhase)

  /** What a successful start made public, and the nonce it spent. */
  datatype Start = Start(key: Key, state: Secret, nonce: Secret)

  datatype State = State(
    clock: Time, store: Store, enabled: bool,
    calls: map<Secret, Call>,       // by flow
    started: map<Secret, Start>,    // by flow
    issued: set<Secret>,            // nonces handed out
    exchanged: multiset<Secret>,    // flows whose verifier was sent
    logins: multiset<Secret>,
    delivered: multiset<Secret>,
    answers: seq<(Secret, Result)>) // flow and result of each delivery

  datatype Event =
    | Tick(dt: Time)
    | CleanupLoop
    | SetEnabled(on: bool)
    | DisableSweep
    | BootstrapRequest(ip: Key, browser: Key, nonce: Secret)
    | StartRequest(browser: Key, nonce: Secret, previous: Key, binding: Key, state: Secret, flow: Secret)
    | CallbackRequest(key: Key, state: Secret, configured: bool)
    | ExchangeTokens(flow: Secret, sent: bool, failure: Option<Result>)
    | LoginSection(flow: Secret, result: Result)
    | WriteSection(flow: Secret)
    | CompleteRequest(browser: Key, nonce: Secret, key: Key)

  ghost predicate Initial(st: State)
  {
    && st.store == Store(map[], 1) && st.calls == map[] && st.started == map[] && st.issued == {}
    && st.exchanged == multiset{} && st.logins == multiset{} && st.delivered == multiset{}
    && st.answers == []
  }

  predicate Enabled(st: State, e: Event)
  {
    match e
    case Tick(dt) => dt > 0.0
    case DisableSweep => !st.enabled
    case BootstrapRequest(ip, browser, nonce) => ip != browser && nonce !in st.issued
    case StartRequest(browser, nonce, previous, binding, state, flow) => flow !in st.started
    case ExchangeTokens(flow, sent, failure) =>
      flow in st.calls && st.calls[flow].phase.Exchange? && (sent || failure.Some?)
    case LoginSection(flow, result) => flow in st.calls && st.calls[flow].phase.Login?
    case WriteSection(flow) => flow in st.calls && st.calls[flow].phase.Write?
    case _ => true
  }

  const STALE: Result := 502

  function Next(st: State, e: Event): State
    requires Enabled(st, e)
  {
    var now := st.clock;
    match e
    case Tick(dt) => st.(clock := now + dt)
    case CleanupLoop => st.(store := st.store.(records := Cleaned(st.store.records, now)))
    case SetEnabled(on) => st.(enabled := on)
    case DisableSweep => st.(store := st.store.(records := Disabled(st.store.records)))
    case BootstrapRequest(ip, browser, nonce) =>
      st.(store := Bootstrapped(st.store, ip, browser, nonce, now).0, issued := st.issued + {nonce})
    case StartRequest(browser, nonce, previous, binding, state, flow) =>
      var (store, answer) := Started(st.store, browser, nonce, previous, binding, state, flow, now);
      if answer.Ok? then st.(store := store, started := st.started[flow := Start(binding, state, nonce)])
      else st.(store := store)
    case CallbackRequest(key, state, configured) =>
      var (store, answer) := Opened(st.store, key, state, configured, now);
      if answer.Ok? then
        var flow := Cleaned(st.store.records, now)[key].txn.value.flow;
        st.(store := store, calls := st.calls[flow := Call(key, store.records[key].id, Exchange)])
      else st.(store := store)
    case ExchangeTokens(flow, sent, failure) =>
      var phase := if failure.Some? then Write(failure.value) else Login;
      st.(calls := st.calls[flow := st.calls[flow].(phase := phase)],
          exchanged := if sent then st.exchanged + multiset{flow} else st.exchanged)
    case LoginSection(flow, result) =>
      var c := st.calls[flow];
      var records := Cleaned(st.store.records, now);
      var st1 := st.(store := st.store.(records := records));
      if StillThere(records, c.key, c.id)
      then st1.(calls := st.calls[flow := c.(phase := Write(result))], logins := st.logins + multiset{flow})
      else st1.(calls := st.calls[flow := c.(phase := Write(STALE))])
    case WriteSection(flow) =>
      var c := st.calls[flow];
      st.(store := Written(st.store, c.key, c.id, flow, c.phase.result, now),
          calls := st.calls[flow := c.(phase := Done)])
    case CompleteRequest(browser, nonce, key) =>
      var (store, completion) := Completed(st.store, browser, nonce, key, st.enabled, now);
      if completion.Delivered? then
        st.(store := store, delivered := st.delivered + multiset{completion.flow},
            answers := st.answers + [(completion.flow, completion.result)])
      else st.(store := store)
  }

  // ---- What holds in every state ---------------------------------------------------------

  ghost predicate Settled(st: State, f: Secret)
  {
    f in st.started && f in st.calls && st.delivered[f] == 0
  }

  ghost predicate TxnFits(st: State, k: Key, t: Txn)
  {
    match t
    case Pending(state, f) =>
      f in st.started && st.started[f].key == k && st.started[f].state == state && f !in st.calls
    case Exchanging(state, f) => Settled(st, f) && st.started[f].key == k && st.started[f].state == state
    case Complete(f, result) => Settled(st, f) && st.started[f].key == k && st.calls[f].phase.Done?
    case Tombstone => true
  }

  ghost predicate NonceFits(st: State, n: Secret)
  {
    n in st.issued && forall f :: f in st.started ==> st.started[f].nonce != n
  }

  /** A record that a callback holds is still that callback's exchange. */
  ghost predicate HeldFits(st: State, k: Key, r: Record)
  {
    forall f :: f in st.calls && st.calls[f].key == k && st.calls[f].id == r.id ==>
      f in st.started && r.txn == Some(Exchanging(st.started[f].state, f)) && !st.calls[f].phase.Done?
  }

  ghost predicate Fits(st: State, k: Key, r: Record)
  {
    && r.id < st.store.nextId && (r.id == NO_ID ==> !LeavesTombstone(r))
    && (r.txn.Some? ==> TxnFits(st, k, r.txn.value))
    && (r.nonce.Some? ==> NonceFits(st, r.nonce.value))
    && HeldFits(st, k, r)
  }

  predicate SameNonce(r: Record, s: Record) { r.nonce.Some? && r.nonce == s.nonce }

  ghost predicate RecordsFit(st: State)
  {
    && st.store.nextId >= 1
    && (forall k :: k in st.store.records ==> Fits(st, k, st.store.records[k]))
    && forall k, l :: k in st.store.records && l in st.store.records && k != l ==>
        !SameNonce(st.store.records[k], st.store.records[l])
  }

  ghost predicate CallFits(st: State, f: Secret)
  {
    if f in st.calls then
      var c := st.calls[f];
      && f in st.started && c.key == st.started[f].key && 0 < c.id < st.store.nextId
      && st.exchanged[f] <= (if c.phase.Exchange? then 0 else 1)
      && st.logins[f] <= (if c.phase.Exchange? || c.phase.Login? then 0 else 1)
      && st.delivered[f] <= (if c.phase.Done? then 1 else 0)
    else
      st.exchanged[f] == 0 && st.logins[f] == 0 && st.delivered[f] == 0
  }

  ghost predicate CallsFit(st: State)
  {
    && (forall f :: CallFits(st, f))
    && (forall f :: f in st.started ==> st.started[f].nonce in st.issued)
    && (forall f, g :: f in st.started && g in st.started && f != g ==> st.started[f].nonce != st.started[g].nonce)
  }

  ghost predicate Inv(st: State)
  {
    RecordsFit(st) && CallsFit(st)
  }

  // ---- Keeping it ----------------------------------------------------------------------------

  function With(st: State, records: map<Key, Record>): State
  {
    st.(store := st.store.(records := records))
  }

  lemma TombstoneFits(st: State, k: Key, expires: Time)
    requires CallsFit(st) && st.store.nextId >= 1
    ensures Fits(st, k, TombstoneRecord(expires))
  {
    forall f | f in st.calls ensures st.calls[f].id != NO_ID {
      assert CallFits(st, f);
    }
  }

  /** Records may be dropped, or replaced by tombstones. */
  lemma ThinnedInv(st: State, records: map<Key, Record>)
    requires Inv(st)
    requires forall k :: k in records ==> k in st.store.records
    requires forall k :: k in records ==>
      records[k] == st.store.records[k] || exists x :: records[k] == TombstoneRecord(x)
    ensures Inv(With(st, records))
  {
    var st' := With(st, records);
    forall k | k in records ensures Fits(st', k, records[k]) {
      if records[k] != st.store.records[k] {
        var x :| records[k] == TombstoneRecord(x);
        TombstoneFits(st, k, x);
      } else {
        assert Fits(st, k, records[k]);
      }
    }
    forall f ensures CallFits(st', f) { assert CallFits(st, f); }
  }

  lemma CleanedInv(st: State, now: Time)
    requires Inv(st)
    ensures Inv(With(st, Cleaned(st.store.records, now)))
  {
    hide Inv;
    ThinnedInv(st, Cleaned(st.store.records, now));
  }

  lemma DisabledInv(st: State)
    requires Inv(st)
    ensures Inv(With(st, Disabled(st.store.records)))
  {
    hide Inv;
    ThinnedInv(st, Disabled(st.store.records));
  }

  /** A new dict may be put at `key` if it fits there and its nonce is nobody else's. */
  lemma PutInv(st: State, key: Key, r: Record)
    requires Inv(st) && r.id == st.store.nextId
    requires r.txn.Some? ==> TxnFits(st, key, r.txn.value)
    requires r.nonce.Some? ==> NonceFits(st, r.nonce.value)
    requires forall k :: k in st.store.records && k != key ==> !SameNonce(r, st.store.records[k])
    ensures Inv(st.(store := Store(st.store.records[key := r], st.store.nextId + 1)))
  {
    var st' := st.(store := Store(st.store.records[key := r], st.store.nextId + 1));
    forall f ensures CallFits(st', f) && (f in st.calls ==> st.calls[f].id < st.store.nextId) {
      assert CallFits(st, f);
    }
    forall k | k in st'.store.records ensures Fits(st', k, st'.store.records[k]) {
      if k != key { assert Fits(st, k, st.store.records[k]); }
    }
  }

  lemma RecordFits(st: State, key: Key)
    requires Inv(st) && key in st.store.records
    ensures Fits(st, key, st.store.records[key])
  {
  }

  lemma CopyFits(st: State, key: Key)
    requires Inv(st) && key in st.store.records
    ensures var r := st.store.records[key];
      && (r.txn.Some? ==> TxnFits(st, key, r.txn.value)) && (r.nonce.Some? ==> NonceFits(st, r.nonce.value))
      && forall k :: k in st.store.records && k != key ==> !SameNonce(r, st.store.records[k])
  {
    assert Fits(st, key, st.store.records[key]);
  }

  lemma CountedInv(st: State, key: Key, now: Time)
    requires Inv(st) && st.store.records == Cleaned(st.store.records, now) && Counted(st.store, key, now).Some?
    ensures Inv(st.(store := Counted(st.store, key, now).value))
    ensures key in Counted(st.store, key, now).value.records
    ensures var r := Counted(st.store, key, now).value.records; r == Cleaned(r, now)
  {
    CountedIsClean(st.store, key, now);
    hide Inv, Fits;
    if key in st.store.records {
      var r := st.store.records[key];
      CopyFits(st, key);
      PutInv(st, key, Record(st.store.nextId, now + TTL, RecentHits(r.hits, now) + [now], r.nonce, r.txn));
    } else {
      PutInv(st, key, Record(st.store.nextId, now + TTL, [now], None, None));
    }
  }

  /** A fresh nonce may be written into a record. */
  lemma NonceInv(st: State, browser: Key, nonce: Secret)
    requires Inv(st) && browser in st.store.records && nonce !in st.issued
    ensures Inv(With(st,
      st.store.records[browser := st.store.records[browser].(nonce := Some(nonce))]).(issued := st.issued + {nonce}))
  {
    var records := st.store.records[browser := st.store.records[browser].(nonce := Some(nonce))];
    var st' := With(st, records).(issued := st.issued + {nonce});
    forall f ensures CallFits(st', f) { assert CallFits(st, f); }
    forall k | k in records ensures Fits(st', k, records[k]) {
      assert Fits(st, k, st.store.records[k]);
    }
  }

  lemma IssueInv(st: State, nonce: Secret)
    requires Inv(st)
    ensures Inv(st.(issued := st.issued + {nonce}))
  {
    var st' := st.(issued := st.issued + {nonce});
    forall f ensures CallFits(st', f) { assert CallFits(st, f); }
    forall k | k in st.store.records ensures Fits(st', k, st.store.records[k]) {
      assert Fits(st, k, st.store.records[k]);
    }
  }

  lemma BootstrapInv(st: State, ip: Key, browser: Key, nonce: Secret)
    requires Inv(st) && Enabled(st, BootstrapRequest(ip, browser, nonce))
    ensures Inv(Next(st, BootstrapRequest(ip, browser, nonce)))
  {
    hide Inv, Counted;
    var now := st.clock;
    CleanedInv(st, now);
    CleanedTwice(st.store.records, now);
    var st0 := With(st, Cleaned(st.store.records, now));
    if Counted(st0.store, ip, now).None? {
      IssueInv(st0, nonce);
    } else {
      CountedInv(st0, ip, now);
      var st1 := st0.(store := Counted(st0.store, ip, now).value);
      if Counted(st1.store, browser, now).None? {
        IssueInv(st1, nonce);
      } else {
        CountedInv(st1, browser, now);
        NonceInv(st1.(store := Counted(st1.store, browser, now).value), browser, nonce);
      }
    }
  }

  // Starting.

  lemma SpentInv(st: State, browser: Key)
    requires Inv(st) && browser in st.store.records
    ensures Inv(With(st, WithoutNonce(st.store.records, browser)))
  {
    var records := WithoutNonce(st.store.records, browser);
    var st' := With(st, records);
    forall f ensures CallFits(st', f) { assert CallFits(st, f); }
    forall k | k in records ensures Fits(st', k, records[k]) {
      assert Fits(st, k, st.store.records[k]);
    }
  }

  /** A start may be published when its flow is new and its nonce is in no record. */
  lemma PublishInv(st: State, flow: Secret, start: Start)
    requires Inv(st) && flow !in st.started && start.nonce in st.issued
    requires forall k :: k in st.store.records ==> st.store.records[k].nonce != Some(start.nonce)
    requires forall f :: f in st.started ==> st.started[f].nonce != start.nonce
    ensures Inv(st.(started := st.started[flow := start]))
  {
    var st' := st.(started := st.started[flow := start]);
    forall f ensures CallFits(st', f) { assert CallFits(st, f); }
    assert flow !in st.calls by { assert CallFits(st, flow); }
    forall k | k in st.store.records ensures Fits(st', k, st.store.records[k]) {
      assert Fits(st, k, st.store.records[k]);
    }
  }

  lemma StartInv(st: State, e: Event)
    requires Inv(st) && e.StartRequest? && Enabled(st, e)
    ensures Inv(Next(st, e))
  {
    hide Inv, Fits;
    var now := st.clock;
    CleanedInv(st, now);
    var st0 := With(st, Cleaned(st.store.records, now));
    if CsrfPasses(st0.store.records, e.browser, e.nonce) {
      NonceIsElsewhereNowhere(st0, e.browser, e.nonce);
      SpentInv(st0, e.browser);
      var spent := WithoutNonce(st0.store.records, e.browser) - {e.previous};
      ThinnedInv(With(st0, WithoutNonce(st0.store.records, e.browser)), spent);
      CleanedInv(With(st0, spent), now);
      var st1 := With(st0, Cleaned(spent, now));
      var start := Start(e.binding, e.state, e.nonce);
      PublishInv(st1, e.flow, start);
      FlowIsNew(st1, e.flow);
      var st2 := st1.(started := st1.started[e.flow := start]);
      PutInv(st2, e.binding, Record(st.store.nextId, now + TTL, [], None, Some(Pending(e.state, e.flow))));
    }
  }

  lemma FlowIsNew(st: State, flow: Secret)
    requires Inv(st) && flow !in st.started
    ensures flow !in st.calls
  {
    assert CallFits(st, flow);
  }

  lemma NonceIsElsewhereNowhere(st: State, browser: Key, nonce: Secret)
    requires Inv(st) && CsrfPasses(st.store.records, browser, nonce)
    ensures nonce in st.issued
    ensures forall k :: k in st.store.records && k != browser ==> st.store.records[k].nonce != Some(nonce)
    ensures forall f :: f in st.started ==> st.started[f].nonce != nonce
  {
    assert Fits(st, browser, st.store.records[browser]);
  }

  // Callbacks.

  lemma OpenInv(st: State, key: Key, state: Secret, configured: bool)
    requires Inv(st)
    ensures Inv(Next(st, CallbackRequest(key, state, configured)))
  {
    hide Inv, Fits;
    CleanedInv(st, st.clock);
    var st0 := With(st, Cleaned(st.store.records, st.clock));
    if Opens(st0.store.records, key, state, configured) {
      PendingHasIdentity(st0, key);
      OpenedInv(st0, key, state);
    }
  }

  lemma PendingHasIdentity(st: State, key: Key)
    requires Inv(st) && key in st.store.records && LeavesTombstone(st.store.records[key])
    ensures st.store.records[key].id != NO_ID
  {
    assert Fits(st, key, st.store.records[key]);
  }

  lemma OpenedInv(st: State, key: Key, state: Secret)
    requires Inv(st) && Opens(st.store.records, key, state, true) && st.store.records[key].id != NO_ID
    ensures var r := st.store.records[key]; var f := r.txn.value.flow;
      Inv(With(st, st.store.records[key := r.(txn := Some(Exchanging(state, f)))])
          .(calls := st.calls[f := Call(key, r.id, Exchange)]))
  {
    var r := st.store.records[key];
    var f := r.txn.value.flow;
    var records := st.store.records[key := r.(txn := Some(Exchanging(state, f)))];
    var st' := With(st, records).(calls := st.calls[f := Call(key, r.id, Exchange)]);
    assert Fits(st, key, r) && CallFits(st, f);
    forall g ensures CallFits(st', g) { assert CallFits(st, g); }
    forall k | k in records ensures Fits(st', k, records[k]) {
      assert Fits(st, k, st.store.records[k]);
    }
  }

  /** Moving a callback on, towards but not to its end, with the counts that go with it. */
  lemma MovedInv(st: State, f: Secret, phase: CallPhase, exchanged: multiset<Secret>, logins: multiset<Secret>)
    requires Inv(st) && f in st.calls && !st.calls[f].phase.Done? && !phase.Done?
    requires forall g :: g != f ==> exchanged[g] == st.exchanged[g] && logins[g] == st.logins[g]
    requires exchanged[f] <= (if phase.Exchange? then 0 else 1)
    requires logins[f] <= (if phase.Exchange? || phase.Login? then 0 else 1)
    ensures Inv(st.(calls := st.calls[f := st.calls[f].(phase := phase)], exchanged := exchanged, logins := logins))
  {
    var st' := st.(calls := st.calls[f := st.calls[f].(phase := phase)], exchanged := exchanged, logins := logins);
    forall g ensures CallFits(st', g) { assert CallFits(st, g); }
    forall k | k in st.store.records ensures Fits(st', k, st.store.records[k]) {
      assert Fits(st, k, st.store.records[k]);
    }
  }

  /** A callback may end once its record is no longer there. */
  lemma DoneInv(st: State, f: Secret)
    requires Inv(st) && f in st.calls && !StillThere(st.store.records, st.calls[f].key, st.calls[f].id)
    ensures Inv(st.(calls := st.calls[f := st.calls[f].(phase := Done)]))
  {
    var st' := st.(calls := st.calls[f := st.calls[f].(phase := Done)]);
    forall g ensures CallFits(st', g) { assert CallFits(st, g); }
    forall k | k in st.store.records ensures Fits(st', k, st.store.records[k]) {
      assert Fits(st, k, st.store.records[k]);
    }
  }

  lemma CallCounts(st: State, f: Secret)
    requires Inv(st)
    ensures CallFits(st, f)
  {
  }

  lemma ExchangeInv(st: State, e: Event)
    requires Inv(st) && e.ExchangeTokens? && Enabled(st, e)
    ensures Inv(Next(st, e))
  {
    hide Inv;
    CallCounts(st, e.flow);
    var st' := Next(st, e);
    MovedInv(st, e.flow, st'.calls[e.flow].phase, st'.exchanged, st.logins);
  }

  lemma LoginInv(st: State, e: Event)
    requires Inv(st) && e.LoginSection? && Enabled(st, e)
    ensures Inv(Next(st, e))
  {
    hide Inv;
    CleanedInv(st, st.clock);
    var st0 := With(st, Cleaned(st.store.records, st.clock));
    CallCounts(st0, e.flow);
    var st' := Next(st, e);
    MovedInv(st0, e.flow, st'.calls[e.flow].phase, st.exchanged, st'.logins);
  }

  /** The record a callback finds still there is its own exchange. */
  lemma HeldIsExchanging(st: State, f: Secret)
    requires Inv(st) && f in st.calls && StillThere(st.store.records, st.calls[f].key, st.calls[f].id)
    ensures f in st.started && st.store.records[st.calls[f].key].txn == Some(Exchanging(st.started[f].state, f))
  {
    assert Fits(st, st.calls[f].key, st.store.records[st.calls[f].key]);
  }

  lemma WriteInv(st: State, f: Secret)
    requires Inv(st) && Enabled(st, WriteSection(f))
    ensures Inv(Next(st, WriteSection(f)))
  {
    hide Inv, Fits, TxnFits;
    var c := st.calls[f];
    if StillThere(st.store.records, c.key, c.id) {
      HeldIsExchanging(st, f);
      CleanedInv(st, st.clock);
      var records := Cleaned(st.store.records, st.clock);
      ThinnedInv(With(st, records), records - {c.key});
      var st1 := With(st, records - {c.key});
      DoneInv(st1, f);
      var st2 := st1.(calls := st.calls[f := c.(phase := Done)]);
      WrittenFits(st, st2, f);
      var r := Record(st.store.nextId, st.clock + RESULT_TTL, [], None, Some(Complete(f, c.phase.result)));
      PutInv(st2, c.key, r);
      assert (records - {c.key})[c.key := r] == records[c.key := r];
    } else {
      DoneInv(st, f);
    }
  }

  lemma WrittenFits(st: State, st2: State, f: Secret)
    requires Inv(st) && Enabled(st, WriteSection(f))
    requires st2.started == st.started && st2.delivered == st.delivered
    requires st2.calls == st.calls[f := st.calls[f].(phase := Done)]
    ensures TxnFits(st2, st.calls[f].key, Complete(f, st.calls[f].phase.result))
  {
    assert CallFits(st, f);
  }

  lemma DeliverInv(st: State, key: Key, answers: seq<(Secret, Result)>)
    requires Inv(st) && key in st.store.records && st.store.records[key].txn.Some?
      && st.store.records[key].txn.value.Complete?
    ensures var f := st.store.records[key].txn.value.flow;
      Inv(With(st, st.store.records - {key}).(delivered := st.delivered + multiset{f}, answers := answers))
  {
    var f := st.store.records[key].txn.value.flow;
    var records := st.store.records - {key};
    var st' := With(st, records).(delivered := st.delivered + multiset{f}, answers := answers);
    assert Fits(st, key, st.store.records[key]);
    forall g ensures CallFits(st', g) { assert CallFits(st, g); }
    forall k | k in records ensures Fits(st', k, records[k]) {
      assert Fits(st, k, records[k]);
    }
  }

  lemma CompleteInv(st: State, e: Event)
    requires Inv(st) && e.CompleteRequest?
    ensures Inv(Next(st, e))
  {
    hide Inv;
    CleanedInv(st, st.clock);
    var st0 := With(st, Cleaned(st.store.records, st.clock));
    ThinnedInv(st0, st0.store.records - {e.key});
    if Completed(st.store, e.browser, e.nonce, e.key, st.enabled, st.clock).1.Delivered? {
      DeliverInv(st0, e.key, Next(st, e).answers);
    }
  }

  lemma PlainInv(st: State, e: Event)
    requires Inv(st) && Enabled(st, e) && (e.Tick? || e.SetEnabled?)
    ensures Inv(Next(st, e))
  {
    var st' := Next(st, e);
    forall g ensures CallFits(st', g) { assert CallFits(st, g); }
    forall k | k in st.store.records ensures Fits(st', k, st.store.records[k]) {
      assert Fits(st, k, st.store.records[k]);
    }
  }

  lemma InvStep(st: State, e: Event)
    requires Inv(st) && Enabled(st, e)
    ensures Inv(Next(st, e))
  {
    match e {
      case Tick(_) => PlainInv(st, e);
      case SetEnabled(_) => PlainInv(st, e);
      case CleanupLoop => CleanedInv(st, st.clock);
      case DisableSweep => DisabledInv(st);
      case BootstrapRequest(ip, browser, nonce) => BootstrapInv(st, ip, browser, nonce);
      case StartRequest(_, _, _, _, _, _) => StartInv(st, e);
      case CallbackRequest(key, state, configured) => OpenInv(st, key, state, configured);
      case ExchangeTokens(_, _, _) => ExchangeInv(st, e);
      case LoginSection(_, _) => LoginInv(st, e);
      case WriteSection(f) => WriteInv(st, f);
      case CompleteRequest(_, _, _) => CompleteInv(st, e);
    }
  }

  // ---- How a record can change in one step --------------------------------------------------

  /** The four stages of a transaction, in order; the last is "gone". */
  function StageOf(records: map<Key, Record>, k: Key, f: Secret): nat
  {
    if k !in records || records[k].txn.None? then 3
    else match records[k].txn.value
      case Pending(_, g) => if g == f then 0 else 3
      case Exchanging(_, g) => if g == f then 1 else 3
      case Complete(g, _) => if g == f then 2 else 3
      case Tombstone => 3
  }

  function Stage(st: State, f: Secret): nat
    requires f in st.started
  {
    StageOf(st.store.records, st.started[f].key, f)
  }

  /** An identity is never given again, and no transaction goes back a stage. */
  ghost predicate RecordsMove(st: State, records: map<Key, Record>)
  {
    && (forall k :: k in records ==>
          records[k].id == NO_ID || records[k].id >= st.store.nextId || StillThere(st.store.records, k, records[k].id))
    && (forall f :: f in st.started ==> Stage(st, f) <= StageOf(records, st.started[f].key, f))
  }

  lemma CleanedMove(st: State, now: Time)
    ensures RecordsMove(st, Cleaned(st.store.records, now))
  {
  }

  lemma MovesCompose(st: State, mid: State, records: map<Key, Record>)
    requires RecordsMove(st, mid.store.records) && RecordsMove(mid, records)
    requires mid.started == st.started && st.store.nextId <= mid.store.nextId
    ensures RecordsMove(st, records)
  {
    forall f | f in st.started ensures Stage(st, f) <= StageOf(records, st.started[f].key, f) {
      assert Stage(st, f) <= Stage(mid, f);
    }
  }

  lemma CountedMove(st: State, key: Key, now: Time)
    requires st.store.records == Cleaned(st.store.records, now) && Counted(st.store, key, now).Some?
    ensures RecordsMove(st, Counted(st.store, key, now).value.records)
    ensures Counted(st.store, key, now).value.nextId == st.store.nextId + 1
  {
  }

  lemma BootstrapMove(st: State, e: Event)
    requires Inv(st) && e.BootstrapRequest? && Enabled(st, e)
    ensures RecordsMove(st, Next(st, e).store.records)
  {
    hide Inv, Counted, RecordsMove;
    var now := st.clock;
    CleanedMove(st, now);
    CleanedInv(st, now);
    CleanedTwice(st.store.records, now);
    var st0 := With(st, Cleaned(st.store.records, now));
    if Counted(st0.store, e.ip, now).Some? {
      CountedInv(st0, e.ip, now);
      CountedMove(st0, e.ip, now);
      var st1 := st0.(store := Counted(st0.store, e.ip, now).value);
      MovesCompose(st, st0, st1.store.records);
      if Counted(st1.store, e.browser, now).Some? {
        CountedInv(st1, e.browser, now);
        CountedMove(st1, e.browser, now);
        var st2 := st1.(store := Counted(st1.store, e.browser, now).value);
        MovesCompose(st, st1, st2.store.records);
        NonceMove(st2, e.browser, Some(e.nonce));
        MovesCompose(st, st2, Next(st, e).store.records);
      }
    }
  }

  lemma NonceMove(st: State, browser: Key, nonce: Option<Secret>)
    requires browser in st.store.records
    ensures RecordsMove(st, st.store.records[browser := st.store.records[browser].(nonce := nonce)])
  {
  }

  lemma SpentMove(st: State, browser: Key, previous: Key)
    requires browser in st.store.records
    ensures RecordsMove(st, WithoutNonce(st.store.records, browser) - {previous})
  {
  }

  /** A new dict without a transaction begun earlier moves nothing back. */
  lemma PutMove(st: State, key: Key, r: Record)
    requires r.id >= st.store.nextId
    requires forall f :: f in st.started ==> StageOf(map[key := r], key, f) == 3
    ensures RecordsMove(st, st.store.records[key := r])
  {
    forall f | f in st.started
      ensures Stage(st, f) <= StageOf(st.store.records[key := r], st.started[f].key, f)
    {
      assert st.started[f].key == key ==> StageOf(st.store.records[key := r], key, f) == StageOf(map[key := r], key, f);
    }
  }

  lemma StartMove(st: State, e: Event)
    requires Inv(st) && e.StartRequest? && Enabled(st, e)
    ensures RecordsMove(st, Next(st, e).store.records)
  {
    hide Inv, Fits, RecordsMove;
    var now := st.clock;
    CleanedMove(st, now);
    var st0 := With(st, Cleaned(st.store.records, now));
    if CsrfPasses(st0.store.records, e.browser, e.nonce) {
      SpentMove(st0, e.browser, e.previous);
      var st1 := With(st, WithoutNonce(st0.store.records, e.browser) - {e.previous});
      MovesCompose(st, st0, st1.store.records);
      var st2 := With(st, Cleaned(st1.store.records, now));
      CleanedMove(st1, now);
      MovesCompose(st, st1, st2.store.records);
      PutMove(st2, e.binding, Record(st.store.nextId, now + TTL, [], None, Some(Pending(e.state, e.flow))));
      var r := Record(st.store.nextId, now + TTL, [], None, Some(Pending(e.state, e.flow)));
      MovesCompose(st, st2, st2.store.records[e.binding := r]);
    }
  }

  lemma OpenMove(st: State, e: Event)
    requires Inv(st) && e.CallbackRequest?
    ensures RecordsMove(st, Next(st, e).store.records)
  {
    hide Inv;
    CleanedMove(st, st.clock);
  }

  lemma WriteMove(st: State, f: Secret)
    requires Inv(st) && Enabled(st, WriteSection(f))
    ensures RecordsMove(st, Next(st, WriteSection(f)).store.records)
  {
    hide Inv;
    var c := st.calls[f];
    CleanedMove(st, st.clock);
    CallCounts(st, f);
    if StillThere(st.store.records, c.key, c.id) { HeldIsExchanging(st, f); }
  }

  lemma CompleteMove(st: State, e: Event)
    requires e.CompleteRequest?
    ensures RecordsMove(st, Next(st, e).store.records)
  {
    CleanedMove(st, st.clock);
  }

  lemma MoveStep(st: State, e: Event)
    requires Inv(st) && Enabled(st, e)
    ensures RecordsMove(st, Next(st, e).store.records) && st.store.nextId <= Next(st, e).store.nextId
  {
    hide Inv, RecordsMove, Enabled;
    IdsGrow(st, e);
    hide Bootstrapped, Started, Opened, Written, Completed;
    match e {
      case BootstrapRequest(_, _, _) => BootstrapMove(st, e);
      case StartRequest(_, _, _, _, _, _) => StartMove(st, e);
      case CallbackRequest(_, _, _) => OpenMove(st, e);
      case WriteSection(f) => WriteMove(st, f);
      case CompleteRequest(_, _, _) => CompleteMove(st, e);
      case Tick(_) => SameMove(st);
      case SetEnabled(_) => SameMove(st);
      case ExchangeTokens(_, _, _) => SameMove(st);
      case CleanupLoop => CleanedMove(st, st.clock);
      case LoginSection(_, _) => CleanedMove(st, st.clock);
      case DisableSweep => DisabledMove(st);
    }
  }

  lemma IdsGrow(st: State, e: Event)
    requires Enabled(st, e)
    ensures st.store.nextId <= Next(st, e).store.nextId
  {
    hide Cleaned, RecentHits;
  }

  lemma SameMove(st: State)
    ensures RecordsMove(st, st.store.records)
  {
  }

  lemma DisabledMove(st: State)
    ensures RecordsMove(st, Disabled(st.store.records))
  {
  }

  // ---- Runs ------------------------------------------------------------------------------------

  ghost predicate IsRun(tr: seq<State>, es: seq<Event>)
  {
    && |tr| == |es| + 1 && Initial(tr[0])
    && forall i :: 0 <= i < |es| ==> Enabled(tr[i], es[i]) && tr[i + 1] == Next(tr[i], es[i])
  }

  lemma InitialInv(st: State)
    requires Initial(st)
    ensures Inv(st)
  {
    forall f ensures CallFits(st, f) { }
  }

  lemma {:induction false} RunInv(tr: seq<State>, es: seq<Event>, i: nat)
    requires IsRun(tr, es) && i < |tr|
    ensures Inv(tr[i])
  {
    hide Inv, Enabled, Next;
    if i == 0 {
      InitialInv(tr[0]);
    } else {
      RunInv(tr, es, i - 1);
      assert Enabled(tr[i - 1], es[i - 1]) && tr[i] == Next(tr[i - 1], es[i - 1]);
      InvStep(tr[i - 1], es[i - 1]);
    }
  }

  /** In every run each verifier is sent for at most one exchange, leads to at most one
      login, and has its result delivered at most once. */
  lemma AtMostOnce(tr: seq<State>, es: seq<Event>, i: nat, flow: Secret)
    requires IsRun(tr, es) && i < |tr|
    ensures tr[i].exchanged[flow] <= 1 && tr[i].logins[flow] <= 1 && tr[i].delivered[flow] <= 1
  {
    RunInv(tr, es, i);
    assert CallFits(tr[i], flow);
  }

  lemma StartedStays(st: State, e: Event, flow: Secret)
    requires Enabled(st, e) && flow in st.started
    ensures flow in Next(st, e).started && Next(st, e).started[flow] == st.started[flow]
  {
  }

  /** A transaction only moves pending, exchanging, complete, gone. */
  lemma {:induction false} StagesOnlyAdvance(tr: seq<State>, es: seq<Event>, i: nat, j: nat, flow: Secret)
    requires IsRun(tr, es) && i <= j < |tr| && flow in tr[i].started
    ensures flow in tr[j].started && tr[j].started[flow] == tr[i].started[flow]
      && Stage(tr[i], flow) <= Stage(tr[j], flow)
  {
    hide Enabled, Next, Inv;
    if i < j {
      StagesOnlyAdvance(tr, es, i, j - 1, flow);
      RunInv(tr, es, j - 1);
      assert Enabled(tr[j - 1], es[j - 1]) && tr[j] == Next(tr[j - 1], es[j - 1]);
      MoveStep(tr[j - 1], es[j - 1]);
      StartedStays(tr[j - 1], es[j - 1], flow);
    }
  }

  ghost predicate Holding(st: State, flow: Secret)
  {
    flow in st.calls && StillThere(st.store.records, st.calls[flow].key, st.calls[flow].id)
  }

  lemma CallStays(st: State, e: Event, flow: Secret)
    requires Inv(st) && Enabled(st, e) && flow in st.calls
    ensures flow in Next(st, e).calls
    ensures Next(st, e).calls[flow].key == st.calls[flow].key && Next(st, e).calls[flow].id == st.calls[flow].id
  {
    hide Inv;
    if e.CallbackRequest? {
      var records := Cleaned(st.store.records, st.clock);
      if Opens(records, e.key, e.state, e.configured) {
        CleanedInv(st, st.clock);
        RecordFits(With(st, records), e.key);
      }
    }
  }

  /** Once its record has been replaced or removed, a callback never finds it again. */
  lemma {:induction false} StaleForever(tr: seq<State>, es: seq<Event>, i: nat, j: nat, flow: Secret)
    requires IsRun(tr, es) && i <= j < |tr| && flow in tr[i].calls && !Holding(tr[i], flow)
    ensures flow in tr[j].calls && !Holding(tr[j], flow)
  {
    hide Enabled, Next, Inv;
    if i < j {
      StaleForever(tr, es, i, j - 1, flow);
      RunInv(tr, es, j - 1);
      assert Enabled(tr[j - 1], es[j - 1]) && tr[j] == Next(tr[j - 1], es[j - 1]);
      MoveStep(tr[j - 1], es[j - 1]);
      CallStays(tr[j - 1], es[j - 1], flow);
      CallCounts(tr[j - 1], flow);
    }
  }

  /** A stale callback completes no login and writes nothing, however late it resumes. */
  lemma StaleCallbackDoesNothing(tr: seq<State>, es: seq<Event>, i: nat, j: nat, flow: Secret, result: Result)
    requires IsRun(tr, es) && i <= j < |es| && flow in tr[i].calls && !Holding(tr[i], flow)
    ensures es[j] == LoginSection(flow, result) ==> tr[j + 1].logins == tr[j].logins
    ensures es[j] == WriteSection(flow) ==> tr[j + 1].store == tr[j].store
  {
    hide Inv;
    StaleForever(tr, es, i, j, flow);
    assert Enabled(tr[j], es[j]) && tr[j + 1] == Next(tr[j], es[j]);
    CleanedMove(tr[j], tr[j].clock);
    RunInv(tr, es, j);
    CallCounts(tr[j], flow);
  }

  /** Two successful starts never spend the same nonce, and each spends one issued to it. */
  lemma NonceStartsOnce(tr: seq<State>, es: seq<Event>, i: nat, f: Secret, g: Secret)
    requires IsRun(tr, es) && i < |tr| && f in tr[i].started && g in tr[i].started && f != g
    ensures tr[i].started[f].nonce != tr[i].started[g].nonce && tr[i].started[f].nonce in tr[i].issued
  {
    RunInv(tr, es, i);
  }

  // ---- The verifier that is exchanged ------------------------------------------------------------

  /** A callback opened at this step by matching a key and a state. */
  ghost predicate OpensCall(st: State, e: Event, flow: Secret)
  {
    && e.CallbackRequest? && var records := Cleaned(st.store.records, st.clock);
    Opens(records, e.key, e.state, e.configured) && records[e.key].txn.value.flow == flow
  }

  lemma NewCall(st: State, e: Event, flow: Secret)
    requires Enabled(st, e) && flow !in st.calls && flow in Next(st, e).calls
    ensures OpensCall(st, e, flow)
  {
  }

  lemma OpenedMatches(st: State, e: Event, flow: Secret)
    requires Inv(st) && OpensCall(st, e, flow)
    ensures flow in st.started && st.started[flow].key == e.key && st.started[flow].state == e.state
  {
    hide Inv;
    CleanedInv(st, st.clock);
    var st0 := With(st, Cleaned(st.store.records, st.clock));
    RecordFits(st0, e.key);
  }

  lemma {:induction false} CallOrigin(tr: seq<State>, es: seq<Event>, i: nat, flow: Secret) returns (j: nat)
    requires IsRun(tr, es) && i < |tr| && flow in tr[i].calls
    ensures j < i && OpensCall(tr[j], es[j], flow)
  {
    hide Enabled, Next, OpensCall;
    assert Initial(tr[0]);
    assert i > 0;
    assert Enabled(tr[i - 1], es[i - 1]) && tr[i] == Next(tr[i - 1], es[i - 1]);
    if flow in tr[i - 1].calls {
      j := CallOrigin(tr, es, i - 1, flow);
    } else {
      j := i - 1;
      NewCall(tr[j], es[j], flow);
    }
  }

  lemma NewStart(st: State, e: Event, flow: Secret)
    requires Enabled(st, e) && flow !in st.started && flow in Next(st, e).started
    ensures e.StartRequest? && e.flow == flow && Next(st, e).started[flow] == Start(e.binding, e.state, e.nonce)
  {
  }

  lemma {:induction false} StartOrigin(tr: seq<State>, es: seq<Event>, i: nat, flow: Secret) returns (j: nat)
    requires IsRun(tr, es) && i < |tr| && flow in tr[i].started
    ensures j < i && es[j].StartRequest? && es[j].flow == flow
    ensures tr[i].started[flow] == Start(es[j].binding, es[j].state, es[j].nonce)
  {
    hide Enabled, Next;
    assert Initial(tr[0]);
    assert i > 0;
    assert Enabled(tr[i - 1], es[i - 1]) && tr[i] == Next(tr[i - 1], es[i - 1]);
    if flow in tr[i - 1].started {
      StartedStays(tr[i - 1], es[i - 1], flow);
      j := StartOrigin(tr, es, i - 1, flow);
    } else {
      j := i - 1;
      NewStart(tr[j], es[j], flow);
    }
  }

  /**
   The verifier sent at `i` was made by one start (at `s`), which published its challenge
   together with a state and gave out a binding; and the callback that took it (at `c`)
   presented that same binding and that same state.
   */
  lemma ExchangeProvenance(tr: seq<State>, es: seq<Event>, i: nat) returns (s: nat, c: nat)
    requires IsRun(tr, es) && i < |es| && es[i].ExchangeTokens?
    ensures s < c < i
    ensures es[s].StartRequest? && es[s].flow == es[i].flow
    ensures es[c].CallbackRequest? && es[c].key == es[s].binding && es[c].state == es[s].state
  {
    assert Enabled(tr[i], es[i]);
    hide Enabled, Next, Inv;
    c := CallOrigin(tr, es, i, es[i].flow);
    RunInv(tr, es, c);
    OpenedMatches(tr[c], es[c], es[i].flow);
    s := StartOrigin(tr, es, c, es[i].flow);
  }
}