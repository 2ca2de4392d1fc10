/**
 What the loopback OAuth flow answers, in both directions: which result a completion
 delivers and when, and when a callback opens a transaction.
 */
module OAuthResults {
  import opened Wrappers
  import opened OAuthFlow
  import opened OAuthRuns
  import SlidingWindow

  // ---- Where a transaction in a record comes from -----------------------------------------

  /** The record of this key, still the same one or copied, with its transaction. */
  predicate Kept(s: Store, k: Key, a: Record)
  {
    && k in s.records && a.txn == s.records[k].txn
    && (a.id >= s.nextId || (a.id == s.records[k].id && a.expires == s.records[k].expires))
  }

  /** Without a transaction that can still go on; a new record or a tombstone. */
  predicate Void(s: Store, a: Record)
  {
    (a.txn.None? || a.txn.value.Tombstone?) && (a.id == NO_ID || a.id >= s.nextId)
  }

  ghost predicate KeptAll(s: Store, t: Store)
  {
    s.nextId <= t.nextId && forall k :: k in t.records ==> Kept(s, k, t.records[k]) || Void(s, t.records[k])
  }

  lemma KeptTwice(s: Store, t: Store, u: Store)
    requires KeptAll(s, t) && KeptAll(t, u)
    ensures KeptAll(s, u)
  {
  }

  lemma CleanedKept(s: Store, now: Time)
    ensures KeptAll(s, s.(records := Cleaned(s.records, now)))
  {
  }

  lemma CountedKept(s: Store, key: Key, now: Time)
    requires Counted(s, key, now).Some?
    ensures KeptAll(s, Counted(s, key, now).value)
  {
    hide RecentHits;
  }

  lemma BootstrappedKept(s: Store, ip: Key, browser: Key, nonce: Secret, now: Time)
    ensures KeptAll(s, Bootstrapped(s, ip, browser, nonce, now).0)
  {
    hide Counted, Cleaned, KeptAll;
    var s0 := s.(records := Cleaned(s.records, now));
    CleanedKept(s, now);
    if Counted(s0, ip, now).Some? {
      var s1 := Counted(s0, ip, now).value;
      CountedKept(s0, ip, now);
      KeptTwice(s, s0, s1);
      if Counted(s1, browser, now).Some? {
        var s2 := Counted(s1, browser, now).value;
        CountedKept(s1, browser, now);
        KeptTwice(s, s1, s2);
        NonceKept(s2, browser, Some(nonce));
        KeptTwice(s, s2, Bootstrapped(s, ip, browser, nonce, now).0);
      }
    }
  }

  lemma NonceKept(s: Store, browser: Key, nonce: Option<Secret>)
    ensures KeptAll(s, s)
    ensures browser in s.records ==>
      KeptAll(s, s.(records := s.records[browser := s.records[browser].(nonce := nonce)]))
  {
  }

  /** The record that a callback still holds is replaced by its result, for a minute. */
  ghost predicate WrittenNow(st: State, e: Event, k: Key, a: Record)
    requires Enabled(st, e)
  {
    && e.WriteSection? && st.calls[e.flow].key == k && Holding(st, e.flow)
    && a.txn == Some(Complete(e.flow, st.calls[e.flow].phase.result))
    && a.id == st.store.nextId && a.expires == st.clock + 60.0
  }

  predicate OpenedNow(s: Store, k: Key, a: Record)
  {
    && k in s.records && s.records[k].txn.Some? && s.records[k].txn.value.Pending?
    && var t := s.records[k].txn.value;
    a.txn == Some(Exchanging(t.state, t.flow)) && a.id == s.records[k].id && a.expires == s.records[k].expires
  }

  ghost predicate Traced(st: State, e: Event, k: Key, a: Record)
    requires Enabled(st, e)
  {
    || Kept(st.store, k, a) || Void(st.store, a)
    || (e.StartRequest? && a.id == st.store.nextId && a.txn == Some(Pending(e.state, e.flow)))
    || (e.CallbackRequest? && OpenedNow(st.store, k, a))
    || WrittenNow(st, e, k, a)
  }

  lemma SpentKept(s: Store, browser: Key, previous: Key)
    requires browser in s.records
    ensures KeptAll(s, s.(records := WithoutNonce(s.records, browser) - {previous}))
  {
  }

  lemma StartTraced(st: State, e: Event, k: Key)
    requires Enabled(st, e) && e.StartRequest? && k in Next(st, e).store.records
    ensures Traced(st, e, k, Next(st, e).store.records[k])
  {
    var now := st.clock;
    var s0 := st.store.(records := Cleaned(st.store.records, now));
    CleanedKept(st.store, now);
    if CsrfPasses(s0.records, e.browser, e.nonce) {
      var s1 := s0.(records := WithoutNonce(s0.records, e.browser) - {e.previous});
      SpentKept(s0, e.browser, e.previous);
      KeptTwice(st.store, s0, s1);
      CleanedKept(s1, now);
      KeptTwice(st.store, s1, s1.(records := Cleaned(s1.records, now)));
    }
    hide Cleaned, WithoutNonce, Kept, Void;
  }

  lemma CallbackTraced(st: State, e: Event, k: Key)
    requires Enabled(st, e) && e.CallbackRequest? && k in Next(st, e).store.records
    ensures Traced(st, e, k, Next(st, e).store.records[k])
  {
  }

  lemma WriteTraced(st: State, e: Event, k: Key)
    requires Enabled(st, e) && e.WriteSection? && k in Next(st, e).store.records
    ensures Traced(st, e, k, Next(st, e).store.records[k])
  {
  }

  lemma CompleteTraced(st: State, e: Event, k: Key)
    requires Enabled(st, e) && e.CompleteRequest? && k in Next(st, e).store.records
    ensures Traced(st, e, k, Next(st, e).store.records[k])
  {
  }

  /** A transaction in a record was there before, or is what this step makes of it. */
  lemma RecordTraced(st: State, e: Event, k: Key)
    requires Enabled(st, e) && k in Next(st, e).store.records
    ensures Traced(st, e, k, Next(st, e).store.records[k])
  {
    match e {
      case BootstrapRequest(ip, browser, nonce) => BootstrappedKept(st.store, ip, browser, nonce, st.clock);
      case StartRequest(_, _, _, _, _, _) => StartTraced(st, e, k);
      case CallbackRequest(_, _, _) => CallbackTraced(st, e, k);
      case WriteSection(f) => WriteTraced(st, e, k);
      case CompleteRequest(_, _, _) => CompleteTraced(st, e, k);
      case CleanupLoop => CleanedKept(st.store, st.clock);
      case LoginSection(_, _) => CleanedKept(st.store, st.clock);
      case _ =>
    }
  }

  /** A result in a record was put there by the write of its own callback. */
  lemma {:induction false} WriteOrigin(tr: seq<State>, es: seq<Event>, i: nat, k: Key, f: Secret, r: Result)
    returns (w: nat)
    requires IsRun(tr, es) && i < |tr| && k in tr[i].store.records
    requires tr[i].store.records[k].txn == Some(Complete(f, r))
    ensures w < i && es[w] == WriteSection(f) && f in tr[w].calls
    ensures tr[w].calls[f].phase == Write(r) && tr[w].calls[f].key == k && Holding(tr[w], f)
  {
    hide Next, Enabled, Holding;
    assert Initial(tr[0]);
    assert i > 0;
    assert Enabled(tr[i - 1], es[i - 1]) && tr[i] == Next(tr[i - 1], es[i - 1]);
    RecordTraced(tr[i - 1], es[i - 1], k);
    if WrittenNow(tr[i - 1], es[i - 1], k, tr[i].store.records[k]) {
      w := i - 1;
      WritesResult(tr[w], es[w]);
    } else {
      w := WriteOrigin(tr, es, i - 1, k, f, r);
    }
  }

  lemma WritesResult(st: State, e: Event)
    requires Enabled(st, e) && e.WriteSection?
    ensures e.flow in st.calls && st.calls[e.flow].phase.Write?
  {
  }

  // ---- Where a result comes from -----------------------------------------------------------------

  /** The token exchange failed with this result, the login gave it, or the login came too late. */
  ghost predicate Results(st: State, e: Event, f: Secret, r: Result)
  {
    || (e.ExchangeTokens? && e.flow == f && e.failure == Some(r))
    || (e == LoginSection(f, r) && HoldsUnexpired(st, f))
    || (e.LoginSection? && e.flow == f && !HoldsUnexpired(st, f) && r == 502)
  }

  ghost predicate HoldsUnexpired(st: State, f: Secret)
  {
    Holding(st, f) && st.store.records[st.calls[f].key].expires > st.clock
  }

  lemma ResultStep(st: State, e: Event, f: Secret, r: Result)
    requires Inv(st) && Enabled(st, e) && f in Next(st, e).calls && Next(st, e).calls[f].phase == Write(r)
    ensures (f in st.calls && st.calls[f].phase == Write(r)) || Results(st, e, f, r)
  {
    if e.LoginSection? && e.flow == f { LoginAnswer(st, f, e.result); }
    hide Inv, Bootstrapped, Started, Completed, Holding;
  }

  /** The result a callback writes is the one its exchange or its login ended with. */
  lemma {:induction false} ResultOrigin(tr: seq<State>, es: seq<Event>, i: nat, f: Secret, r: Result) returns (x: nat)
    requires IsRun(tr, es) && i < |tr| && f in tr[i].calls && tr[i].calls[f].phase == Write(r)
    ensures x < i && Results(tr[x], es[x], f, r)
  {
    hide Next, Enabled, Inv, Results;
    assert Initial(tr[0]);
    assert i > 0;
    assert Enabled(tr[i - 1], es[i - 1]) && tr[i] == Next(tr[i - 1], es[i - 1]);
    RunInv(tr, es, i - 1);
    ResultStep(tr[i - 1], es[i - 1], f, r);
    if Results(tr[i - 1], es[i - 1], f, r) { x := i - 1; } else { x := ResultOrigin(tr, es, i - 1, f, r); }
  }

  /** An exchange that fails is written as its failure; one that succeeds goes on to the login.
      The verifier counts as exchanged exactly when it was sent. */
  lemma ExchangeAnswer(st: State, f: Secret, sent: bool, failure: Option<Result>)
    requires Enabled(st, ExchangeTokens(f, sent, failure))
    ensures var st' := Next(st, ExchangeTokens(f, sent, failure));
      && st'.calls[f].phase == (if failure.Some? then Write(failure.value) else Login)
      && st'.exchanged[f] == st.exchanged[f] + (if sent then 1 else 0)
  {
  }

  // ---- A record that stays the same ------------------------------------------------------------

  predicate Advanced(t: Option<Txn>, u: Option<Txn>)
  {
    t == u || (t.Some? && t.value.Pending? && u == Some(Exchanging(t.value.state, t.value.flow)))
  }

  lemma SameStep(st: State, e: Event, k: Key, id: nat)
    requires Inv(st) && Enabled(st, e) && NO_ID != id < st.store.nextId && StillThere(Next(st, e).store.records, k, id)
    ensures StillThere(st.store.records, k, id)
    ensures st.store.records[k].expires == Next(st, e).store.records[k].expires
    ensures Advanced(st.store.records[k].txn, Next(st, e).store.records[k].txn)
  {
    hide Next, Enabled, Inv, Holding;
    RecordTraced(st, e, k);
  }

  /** A record with an identity keeps its end, and its transaction but for being opened. */
  lemma {:induction false} SameRecord(tr: seq<State>, es: seq<Event>, j: nat, i: nat, k: Key, id: nat)
    requires IsRun(tr, es) && j <= i < |tr| && NO_ID != id < tr[j].store.nextId
      && StillThere(tr[i].store.records, k, id)
    ensures StillThere(tr[j].store.records, k, id) && tr[j].store.nextId <= tr[i].store.nextId
    ensures tr[j].store.records[k].expires == tr[i].store.records[k].expires
    ensures Advanced(tr[j].store.records[k].txn, tr[i].store.records[k].txn)
    decreases i - j
  {
    hide Next, Enabled, Inv;
    if j < i {
      assert Enabled(tr[j], es[j]) && tr[j + 1] == Next(tr[j], es[j]);
      RunInv(tr, es, j);
      IdsGrow(tr[j], es[j]);
      SameRecord(tr, es, j + 1, i, k, id);
      SameStep(tr[j], es[j], k, id);
    }
  }

  // ---- What a completion delivers ----------------------------------------------------------------

  /** The browser's record stands and holds this nonce. */
  predicate HoldsNonce(st: State, browser: Key, nonce: Secret)
  {
    && browser in st.store.records && st.store.records[browser].expires > st.clock
    && st.store.records[browser].nonce == Some(nonce)
  }

  /** The record stands and its transaction is this one. */
  predicate Stands(st: State, k: Key, t: Txn)
  {
    k in st.store.records && st.store.records[k].expires > st.clock && st.store.records[k].txn == Some(t)
  }

  lemma CompletionExactly(st: State, browser: Key, nonce: Secret, key: Key, f: Secret, r: Result)
    ensures var e := CompleteRequest(browser, nonce, key);
      Next(st, e).answers == st.answers + [(f, r)] <==>
        HoldsNonce(st, browser, nonce) && st.enabled && Stands(st, key, Complete(f, r))
  {
    assert (st.answers + [(f, r)])[|st.answers|] == (f, r);
    var completion := Completed(st.store, browser, nonce, key, st.enabled, st.clock).1;
    if completion.Delivered? {
      assert (st.answers + [(completion.flow, completion.result)])[|st.answers|] ==
        (completion.flow, completion.result);
    }
  }

  lemma OnlyCompletionsAnswer(st: State, e: Event)
    requires Enabled(st, e) && Next(st, e).answers != st.answers
    ensures e.CompleteRequest?
    ensures exists f, r :: Next(st, e).answers == st.answers + [(f, r)]
  {
    hide Bootstrapped, Started, Opened, Written;
  }

  /**
   What is delivered at `i` for a flow is the result that the flow's own callback wrote, at `w`,
   into the record the completion names, and that its exchange or its login had ended with.
   */
  lemma DeliveredIsWritten(tr: seq<State>, es: seq<Event>, i: nat) returns (f: Secret, r: Result, w: nat)
    requires IsRun(tr, es) && i < |es| && tr[i + 1].answers != tr[i].answers
    ensures es[i].CompleteRequest? && tr[i + 1].answers == tr[i].answers + [(f, r)]
    ensures w < i && es[w] == WriteSection(f) && f in tr[w].calls
    ensures tr[w].calls[f].phase == Write(r) && tr[w].calls[f].key == es[i].key && Holding(tr[w], f)
    ensures exists x: nat :: x < w && Results(tr[x], es[x], f, r)
  {
    hide Next, Enabled, Holding, Results;
    assert Enabled(tr[i], es[i]) && tr[i + 1] == Next(tr[i], es[i]);
    OnlyCompletionsAnswer(tr[i], es[i]);
    f, r :| tr[i + 1].answers == tr[i].answers + [(f, r)];
    CompletionExactly(tr[i], es[i].browser, es[i].nonce, es[i].key, f, r);
    w := WriteOrigin(tr, es, i, es[i].key, f, r);
    var x := ResultOrigin(tr, es, w, f, r);
  }

  lemma WriteLeaves(st: State, f: Secret)
    requires Inv(st) && Enabled(st, WriteSection(f)) && Holding(st, f)
    ensures var k, st' := st.calls[f].key, Next(st, WriteSection(f));
      && k in st'.store.records && NO_ID != st.store.nextId < st'.store.nextId
      && st'.store.records[k] ==
        Record(st.store.nextId, st.clock + 60.0, [], None, Some(Complete(f, st.calls[f].phase.result)))
  {
    HeldIsExchanging(st, f);
    hide Inv;
  }

  /**
   A callback that still holds its record leaves its result there for a minute.  A completion
   for that record within the minute, by a browser whose nonce stands, and with the flow
   enabled, delivers exactly that result, if the record is still there.
   */
  lemma WrittenIsDelivered(tr: seq<State>, es: seq<Event>, w: nat, i: nat, f: Secret, r: Result, browser: Key,
          nonce: Secret)
    requires IsRun(tr, es) && w < i < |es| && es[w] == WriteSection(f) && Holding(tr[w], f)
    requires tr[w].calls[f].phase == Write(r)
    requires es[i] == CompleteRequest(browser, nonce, tr[w].calls[f].key)
    requires HoldsNonce(tr[i], browser, nonce) && tr[i].enabled && tr[i].clock < tr[w].clock + 60.0
    requires StillThere(tr[i].store.records, tr[w].calls[f].key, tr[w].store.nextId)
    ensures tr[i + 1].answers == tr[i].answers + [(f, r)]
  {
    hide Next, Enabled, Inv;
    var k := tr[w].calls[f].key;
    assert Enabled(tr[w], es[w]) && tr[w + 1] == Next(tr[w], es[w]);
    RunInv(tr, es, w);
    WriteLeaves(tr[w], f);
    SameRecord(tr, es, w + 1, i, k, tr[w].store.nextId);
    assert Enabled(tr[i], es[i]) && tr[i + 1] == Next(tr[i], es[i]);
    CompletionExactly(tr[i], browser, nonce, k, f, r);
  }

  /** The record has a transaction; when it expires it is kept as a tombstone, unless it is one. */
  predicate HasTxn(st: State, k: Key)
  {
    && k in st.store.records && st.store.records[k].txn.Some?
    && (st.store.records[k].expires > st.clock || !st.store.records[k].txn.value.Tombstone?)
  }

  /** Every answer of a completion, and what it leaves: a record it finds is removed. */
  lemma CompletionAnswer(st: State, browser: Key, nonce: Secret, key: Key)
    ensures var (s, a) := Completed(st.store, browser, nonce, key, st.enabled, st.clock);
      && (a == Failed(403) <==> !HoldsNonce(st, browser, nonce) || !HasTxn(st, key))
      && (a == Failed(409) <==> HoldsNonce(st, browser, nonce) && HasTxn(st, key) && !st.enabled)
      && (forall f, r :: a == Delivered(f, r) <==>
            HoldsNonce(st, browser, nonce) && st.enabled && Stands(st, key, Complete(f, r)))
      && (a.Delivered? || a == Failed(403) || a == Failed(409) || a == Failed(410))
      && (HoldsNonce(st, browser, nonce) ==> (HasTxn(st, key) ==> key !in s.records))
  {
  }

  // ---- What a start and a callback answer --------------------------------------------------------

  /** The keys that cleaning leaves, without the previous binding. */
  ghost function Remaining(st: State, previous: Key): set<Key>
  {
    set k | k in st.store.records && k != previous && Survives(st.store.records[k], st.clock)
  }

  /** The binding's record, pending for ten minutes. */
  predicate Handed(st: State, e: Event, st': State)
    requires e.StartRequest?
  {
    && e.binding in st'.store.records && st.store.nextId < st'.store.nextId
    && st'.store.records[e.binding] ==
      Record(st.store.nextId, st.clock + 600.0, [], None, Some(Pending(e.state, e.flow)))
  }

  lemma NonceStands(st: State, browser: Key, nonce: Secret)
    ensures CsrfPasses(Cleaned(st.store.records, st.clock), browser, nonce) <==> HoldsNonce(st, browser, nonce)
  {
  }

  lemma RemainingIsCleaned(st: State, browser: Key, previous: Key)
    requires browser in Cleaned(st.store.records, st.clock)
    ensures var spent := WithoutNonce(Cleaned(st.store.records, st.clock), browser) - {previous};
      && spent.Keys == Remaining(st, previous)
      && |Cleaned(spent, st.clock)| == |Remaining(st, previous)|
  {
    var spent := WithoutNonce(Cleaned(st.store.records, st.clock), browser) - {previous};
    assert Cleaned(spent, st.clock).Keys == Remaining(st, previous);
    assert |Cleaned(spent, st.clock)| == |Cleaned(spent, st.clock).Keys|;
  }

  /** A start is refused exactly when the browser's nonce does not stand, or when the store is
      full; otherwise it leaves its transaction pending in the new binding's record. */
  lemma StartAnswer(st: State, e: Event)
    requires Enabled(st, e) && e.StartRequest?
    ensures var a := Started(st.store, e.browser, e.nonce, e.previous, e.binding, e.state, e.flow, st.clock).1;
      var rest := Remaining(st, e.previous);
      && (a == Refused(403) <==> !HoldsNonce(st, e.browser, e.nonce))
      && (a == Ok <==> HoldsNonce(st, e.browser, e.nonce) && (e.binding in rest || |rest| < 1024))
      && (a == Ok || a == Refused(403) || a == Refused(429))
      && (a == Ok <==> e.flow in Next(st, e).started)
      && (a == Ok ==> Handed(st, e, Next(st, e)))
  {
    NonceStands(st, e.browser, e.nonce);
    if e.browser in Cleaned(st.store.records, st.clock) {
      RemainingIsCleaned(st, e.browser, e.previous);
      StartKeys(st, e);
    }
    hide HoldsNonce, Cleaned, Remaining, WithoutNonce;
  }

  lemma StartKeys(st: State, e: Event)
    requires e.StartRequest? && e.browser in Cleaned(st.store.records, st.clock)
    ensures var spent := WithoutNonce(Cleaned(st.store.records, st.clock), e.browser) - {e.previous};
      e.binding in Cleaned(spent, st.clock) <==> e.binding in spent
  {
  }

  lemma CallbackAnswer(st: State, key: Key, state: Secret, configured: bool)
    ensures var e, a := CallbackRequest(key, state, configured), Opened(st.store, key, state, configured, st.clock).1;
      && (a == Refused(410) <==> HasTxn(st, key) && !exists x, f :: Stands(st, key, Pending(x, f)))
      && (a == Ok <==> configured && exists f :: Stands(st, key, Pending(state, f)))
      && (a == Ok || a == Refused(400) || a == Refused(410))
      && (a != Ok ==> Next(st, e).calls == st.calls)
      && (forall f :: a == Ok && Stands(st, key, Pending(state, f)) ==>
            Next(st, e).calls == st.calls[f := Call(key, st.store.records[key].id, Exchange)])
  {
    if HasTxn(st, key) && st.store.records[key].txn.value.Pending? && st.store.records[key].expires > st.clock {
      var t := st.store.records[key].txn.value;
      assert Stands(st, key, Pending(t.state, t.flow));
    }
  }

  /**
   The transaction that a successful start handed out is opened by a callback with its binding
   and its state, within ten minutes and with the configuration unchanged, if its record is
   still there and no callback has opened it.
   */
  lemma StartedIsOpened(tr: seq<State>, es: seq<Event>, s: nat, i: nat)
    requires IsRun(tr, es) && s < i < |es| && es[s].StartRequest? && es[s].flow in tr[s + 1].started
    requires es[i] == CallbackRequest(es[s].binding, es[s].state, true) && tr[i].clock < tr[s].clock + 600.0
    requires StillThere(tr[i].store.records, es[s].binding, tr[s].store.nextId) && es[s].flow !in tr[i].calls
    ensures tr[i + 1].calls == tr[i].calls[es[s].flow := Call(es[s].binding, tr[s].store.nextId, Exchange)]
  {
    hide Next, Enabled, Inv;
    var e := es[s];
    assert Enabled(tr[s], e) && tr[s + 1] == Next(tr[s], e);
    StartAnswer(tr[s], e);
    RunInv(tr, es, s);
    PositiveIds(tr[s]);
    SameRecord(tr, es, s + 1, i, e.binding, tr[s].store.nextId);
    RunInv(tr, es, i);
    StillPending(tr[i], e.binding, e.state, e.flow);
    assert Stands(tr[i], e.binding, Pending(e.state, e.flow));
    assert Enabled(tr[i], es[i]) && tr[i + 1] == Next(tr[i], es[i]);
    CallbackAnswer(tr[i], e.binding, e.state, true);
  }

  lemma PositiveIds(st: State)
    requires Inv(st)
    ensures st.store.nextId >= 1
  {
  }

  lemma StillPending(st: State, k: Key, state: Secret, f: Secret)
    requires Inv(st) && k in st.store.records && f !in st.calls
    requires Advanced(Some(Pending(state, f)), st.store.records[k].txn)
    ensures st.store.records[k].txn == Some(Pending(state, f))
  {
    assert Fits(st, k, st.store.records[k]);
  }

  /** A callback that has its tokens logs in exactly when its record is still there; otherwise it
      ends with the stale result. */
  lemma LoginAnswer(st: State, f: Secret, result: Result)
    requires Enabled(st, LoginSection(f, result)) && Inv(st)
    ensures var st' := Next(st, LoginSection(f, result));
      if Holding(st, f) && st.store.records[st.calls[f].key].expires > st.clock then
        st'.logins == st.logins + multiset{f} && st'.calls[f].phase == Write(result)
      else st'.logins == st.logins && st'.calls[f].phase == Write(502)
  {
    assert CallFits(st, f);
    hide Inv;
  }

  // ---- What expiry and disabling leave ---------------------------------------------------------

  /** A tombstone that stands until `expires`. */
  predicate IsTombstone(r: Record, expires: Time)
  {
    r.txn == Some(Tombstone) && r.nonce.None? && r.hits == [] && r.expires == expires
  }

  /** A record that has not expired stays; an attempt that has becomes a tombstone for ten minutes;
      anything else that has is dropped. */
  lemma CleanupAnswer(records: map<Key, Record>, now: Time, k: Key)
    requires k in records
    ensures var r, after := records[k], Cleaned(records, now);
      if r.expires > now then k in after && after[k] == r
      else if r.txn.None? || r.txn.value.Tombstone? then k !in after
      else k in after && IsTombstone(after[k], now + 600.0)
  {
  }

  /** Disabling ends every attempt and keeps the nonces. */
  lemma DisableAnswer(records: map<Key, Record>, k: Key)
    requires k in records
    ensures k in Disabled(records)
    ensures if records[k].txn.None? then Disabled(records)[k] == records[k]
            else IsTombstone(Disabled(records)[k], records[k].expires)
  {
  }

  // ---- Bootstraps ------------------------------------------------------------------------------------

  lemma {:induction false} RecentIsPruned(hits: seq<Time>, now: Time)
    ensures RecentHits(hits, now) == SlidingWindow.Pruned(hits, now, 60.0)
  {
    if hits != [] {
      RecentIsPruned(hits[1..], now);
      SlidingWindow.PrunedJoin([hits[0]], hits[1..], now, 60.0);
      SlidingWindow.PrunedOne(hits[0], now, 60.0);
      assert hits == [hits[0]] + hits[1..];
    }
  }

  /** A hit is counted exactly when its record holds fewer than ten of the last 60 seconds, and
      there is room for it; the older ones are forgotten. */
  lemma CountAnswer(s: Store, key: Key, now: Time)
    requires s.records == Cleaned(s.records, now)
    ensures var hits := if key in s.records then s.records[key].hits else [];
      var recent := SlidingWindow.Pruned(hits, now, 60.0);
      && (Counted(s, key, now).Some? <==> |recent| < 10 && (key in s.records || |s.records| < 1024))
      && (Counted(s, key, now).Some? ==>
            var t := Counted(s, key, now).value;
            key in t.records && t.records[key].hits == recent + [now] && t.records[key].expires == now + 600.0)
  {
    if key in s.records { RecentIsPruned(s.records[key].hits, now); }
  }

  /** A bootstrap is answered exactly when both keys are counted, and then the browser's record
      holds the nonce. */
  lemma BootstrapAnswer(s: Store, ip: Key, browser: Key, nonce: Secret, now: Time)
    ensures var (t, a) := Bootstrapped(s, ip, browser, nonce, now);
      var s0 := s.(records := Cleaned(s.records, now));
      && (a == Ok <==>
            Counted(s0, ip, now).Some? && Counted(Counted(s0, ip, now).value, browser, now).Some?)
      && (a != Ok ==> a == Refused(429))
      && (a == Ok ==> browser in t.records && t.records[browser].nonce == Some(nonce))
  {
    hide RecentHits, Cleaned;
  }
}
