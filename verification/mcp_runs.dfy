/**
 What holds of the MCP session guard in every run: capacity, the two flags, one
 cancel action per connection, where an enqueue comes from, what disabling means,
 and how a deadline moves.
 */
module McpRuns {
  import opened Wrappers
  import opened McpTables
  import opened McpGuard

  // ---- No connection is lost: a ledger kept by every section -------------------------

  /** Entry in the tables, cancel action handed out, or ended without one. */
  ghost function Ledger(st: State, n: Nonce): nat
  {
    (if Holds(st.tables, n) then 1 else 0) + st.cancels[n] + (if n in st.retired then 1 else 0)
  }

  ghost predicate Conserved(st: State)
  {
    forall n :: Ledger(st, n) == if n in st.conns && st.conns[n].admitted then 1 else 0
  }

  /** The tasks a section does not cancel: the owner cleaning up after itself, and,
      in a sweep, the tasks that are done. */
  ghost function Spared(st: State, e: Event): set<Task>
  {
    if e.CleanupSection? then {e.n} else if e.GetAdmit? || e.PostDecide? then Done(st) else {}
  }

  ghost predicate Books(st: State, e: Event, st': State)
  {
    var settled := Settle(st, st'.tables, Spared(st, e));
    st'.cancels == settled.cancels && st'.retired == settled.retired
  }

  lemma SameHolders(st: State, t: Tables)
    requires forall n :: Holds(t, n) <==> Holds(st.tables, n)
    ensures Settle(st, t, {}).cancels == st.cancels && Settle(st, t, {}).retired == st.retired
  {
  }

  lemma RenewBooks(st: State, n: Nonce)
    requires Enabled(st, DogRenew(n))
    ensures Books(st, DogRenew(n), Renew(st, n))
  {
    var t := Renew(st, n).tables;
    forall o ensures Holds(t, o) <==> Holds(st.tables, o) {
      RenewHolders(st, n, o);
    }
    SameHolders(st, t);
  }

  lemma RenewHolders(st: State, n: Nonce, o: Task)
    requires Enabled(st, DogRenew(n))
    ensures Holds(Renew(st, n).tables, o) <==> Holds(st.tables, o)
  {
    var t := Renew(st, n).tables;
    if s :| s in st.tables.bindings && st.tables.bindings[s].owner == o {
      assert s in t.bindings && t.bindings[s].owner == o;
    }
  }

  lemma QuietBooks(st: State, e: Event)
    requires Enabled(st, e) && !Sections(e)
    ensures Books(st, e, QuietNext(st, e))
  {
    hide Enabled, Holds;
    QuietStep(st, e);
    SameHolders(st, st.tables);
    QuietLedger(st, e);
  }

  lemma QuietLedger(st: State, e: Event)
    requires Enabled(st, e) && !Sections(e)
    ensures QuietNext(st, e).cancels == st.cancels && QuietNext(st, e).retired == st.retired
  {
    hide Enabled, Holds;
  }

  lemma DropBooks(st: State, e: Event)
    requires Enabled(st, e) && Drops(e)
    ensures Books(st, e, DropNext(st, e))
  {
    hide Enabled, Holds, Dropped, OwnerCleanup, WithoutReservation, WithoutSession;
    if e.DropSessionIfToken? || e.DogClose? { DetachBooks(st, e); }
  }

  lemma DetachBooks(st: State, e: Event)
    requires Enabled(st, e) && (e.DropSessionIfToken? || e.DogClose?)
    ensures Books(st, e, DropNext(st, e))
  {
    hide Enabled, Holds, Dropped, WithoutSession;
    SameHolders(st, st.tables);
  }

  lemma PromoteBooks(st: State, n: Nonce)
    requires Enabled(st, Promotion(n))
    ensures Books(st, Promotion(n), Promote(st, n))
  {
    hide Holds;
    SameHolders(st, st.tables);
  }

  lemma AdmitBooks(st: State, n: Nonce)
    requires Enabled(st, GetAdmit(n))
    ensures Books(st, GetAdmit(n), Admit(st, n))
  {
    hide Holds, Dropped, Reserve;
  }

  lemma DecideBooks(st: State)
    requires Enabled(st, PostDecide)
    ensures Books(st, PostDecide, Decide(st))
  {
    hide Holds, Dropped, Sweep, Touch, EnqueueAllowed, Done, LockFree;
  }

  lemma BooksKept(st: State, e: Event)
    requires Enabled(st, e)
    ensures Books(st, e, Next(st, e))
  {
    hide Books, Enabled, DropNext, QuietNext, Renew, Admit, Promote, Decide;
    if Drops(e) {
      DropBooks(st, e);
    } else if e.GetAdmit? {
      AdmitBooks(st, e.n);
    } else if e.Promotion? {
      PromoteBooks(st, e.n);
    } else if e.PostDecide? {
      DecideBooks(st);
    } else if e.DogRenew? {
      RenewBooks(st, e.n);
    } else {
      QuietBooks(st, e);
    }
  }

  /** No section but a promotion or an admission gives a task an entry it did not hold. */
  lemma HoldersStep(st: State, e: Event, n: Nonce)
    requires Enabled(st, e) && Wired(st) && Holds(Next(st, e).tables, n)
    ensures Holds(st.tables, n) || Admits(st, e, n)
  {
    hide Next, Reserve, Done;
    var t := Next(st, e).tables;
    TableStepHolds(st, e);
    if m :| m in t.reservations && t.reservations[m].owner == n {
      if !Admits(st, e, m) {
        assert m in st.tables.reservations && st.tables.reservations[m].owner == n;
      }
    } else {
      var s :| s in t.bindings && t.bindings[s].owner == n;
      if Promotes(st, e, s) {
        assert st.tables.reservations[n].owner == n;
      } else {
        assert s in st.tables.bindings && st.tables.bindings[s].owner == n;
      }
    }
  }

  lemma HoldersAreAdmitted(st: State, n: Nonce)
    requires Wired(st) && Holds(st.tables, n)
    ensures n in st.conns && st.conns[n].admitted
  {
    if m :| m in st.tables.reservations && st.tables.reservations[m].owner == n {
    } else {
      var s :| s in st.tables.bindings && st.tables.bindings[s].owner == n;
      assert ConnSane(st.conns[n]);
    }
  }

  lemma AdmittedHolds(st: State, e: Event, n: Nonce)
    requires Enabled(st, e) && Admits(st, e, n)
    ensures Holds(Next(st, e).tables, n)
  {
    var t := Next(st, e).tables;
    assert n in t.reservations && t.reservations[n].owner == n;
  }

  lemma LedgerStep(st: State, e: Event, n: Nonce)
    requires Enabled(st, e) && Wired(st) && Ledger(st, n) <= 1
    ensures Ledger(Next(st, e), n) ==
      Ledger(st, n) + (if Admits(st, e, n) && !Holds(st.tables, n) then 1 else 0)
  {
    hide Next, Holds, Wired, Admits, Done;
    BooksKept(st, e);
    if Holds(Next(st, e).tables, n) { HoldersStep(st, e, n); }
    if Holds(st.tables, n) { HoldersAreAdmitted(st, n); }
    if Admits(st, e, n) { AdmittedHolds(st, e, n); }
  }

  lemma ConservedStep(st: State, e: Event)
    requires Enabled(st, e) && Wired(st) && Conserved(st)
    ensures Conserved(Next(st, e))
  {
    hide Next, Holds, Wired, Ledger;
    var st' := Next(st, e);
    ConnStepHolds(st, e);
    forall n ensures Ledger(st', n) == if n in st'.conns && st'.conns[n].admitted then 1 else 0 {
      LedgerStep(st, e, n);
      AdmissionIsNew(st, e, n);
      if n in st.conns { assert ConnContinues(st, e, n, st'.conns[n]); }
    }
  }

  lemma AdmissionIsNew(st: State, e: Event, n: Nonce)
    requires Enabled(st, e) && Wired(st)
    ensures Admits(st, e, n) ==> n in st.conns && !st.conns[n].admitted && !Holds(st.tables, n)
  {
    if Admits(st, e, n) {
      assert ConnSane(st.conns[n]);
      if Holds(st.tables, n) { HoldersAreAdmitted(st, n); }
    }
  }

  /** An entry that goes is answered by exactly one cancel action, unless its owner
      removed it or a sweep found the owner done. */
  lemma RemovalIsCancelledOnce(st: State, e: Event, n: Nonce)
    requires Enabled(st, e) && Wired(st)
    requires Holds(st.tables, n) && !Holds(Next(st, e).tables, n)
    ensures Next(st, e).cancels[n] ==
      st.cancels[n] + (if e == CleanupSection(n) || ((e.GetAdmit? || e.PostDecide?) && n in Done(st)) then 0 else 1)
  {
    hide Next, Holds, Wired, Done;
    BooksKept(st, e);
    HoldersAreAdmitted(st, n);
    if e.CleanupSection? && e.n != n { CleanupSparesItself(st, e, n); }
  }

  /** An owner's cleanup takes nobody else's entry. */
  lemma CleanupSparesItself(st: State, e: Event, n: Nonce)
    requires Enabled(st, e) && Wired(st) && Holds(st.tables, n) && e.CleanupSection? && e.n != n
    ensures Holds(Next(st, e).tables, n)
  {
    var t := Next(st, e).tables;
    assert t == OwnerCleanup(st.tables, e.n, st.conns[e.n].session, e.n) by {
      hide Holds, Dropped, Wired, OwnerCleanup;
    }
    hide Next, Dropped, Enabled;
    if m :| m in st.tables.reservations && st.tables.reservations[m].owner == n {
      assert m in t.reservations;
    } else {
      var s :| s in st.tables.bindings && st.tables.bindings[s].owner == n;
      assert s in t.bindings;
    }
  }

  /** The class hands out its actions as a list; they are the set the ledger counts. */
  lemma ActionsAreTheDropped(st: State, t: Tables, spared: set<Task>, actions: seq<Task>)
    requires Wired(st) && CancelsExactly(actions, st.tables, t, spared)
    ensures Settle(st, t, spared).cancels == st.cancels + multiset(actions)
  {
    var dropped := Dropped(st, t);
    forall o ensures o in actions <==> o in dropped - spared {
      if Holds(st.tables, o) { HoldersAreAdmitted(st, o); }
    }
    DistinctMultiset(actions, dropped - spared);
  }

  lemma {:induction false} DistinctMultiset(actions: seq<Task>, all: set<Task>)
    requires forall i, j :: 0 <= i < j < |actions| ==> actions[i] != actions[j]
    requires forall o :: o in actions <==> o in all
    ensures multiset(actions) == multiset(all)
  {
    if actions == [] {
      assert all == {};
    } else {
      var last := actions[|actions| - 1];
      var front := actions[..|actions| - 1];
      assert actions == front + [last];
      DistinctMultiset(front, all - {last});
    }
  }

  // ---- Capacity, owners and flags ------------------------------------------------------

  lemma ConsistentStep(st: State, e: Event)
    requires Enabled(st, e) && Wired(st) && Consistent(st.tables)
    ensures Consistent(Next(st, e).tables)
  {
    hide Consistent, Holds, Enabled, DropNext, QuietNext;
    if Drops(e) {
      DropStep(st, e);
      SubtablesConsistent(DropNext(st, e).tables, st.tables);
    } else if e.GetAdmit? {
      ConsistentAdmit(st, e.n);
    } else if e.Promotion? {
      ConsistentPromote(st, e.n);
    } else if e.PostDecide? {
      ConsistentDecide(st);
    } else if e.DogRenew? {
      ConsistentRenew(st, e.n);
    } else {
      QuietStep(st, e);
    }
  }

  lemma ConsistentAdmit(st: State, n: Nonce)
    requires Enabled(st, GetAdmit(n)) && Wired(st) && Consistent(st.tables)
    ensures Consistent(Admit(st, n).tables)
  {
    hide Consistent, Holds, Reserve;
    assert ConnSane(st.conns[n]);
    if Holds(st.tables, n) { HoldersAreAdmitted(st, n); }
    ReserveConsistent(st.tables, n, n, st.conns[n].phase.sample, st.enabled, Done(st));
  }

  lemma BoundIsPromoted(st: State)
    requires Wired(st)
    ensures forall s, n :: s in st.tables.bindings && n in st.conns && st.conns[n].session == Some(s) ==>
      n == st.tables.bindings[s].owner && !st.conns[n].phase.Claimed?
  {
    forall s, n | s in st.tables.bindings && n in st.conns && st.conns[n].session == Some(s)
      ensures n == st.tables.bindings[s].owner && !st.conns[n].phase.Claimed?
    {
      assert ConnSane(st.conns[n]);
    }
  }

  lemma ClaimedIsUnbound(st: State, n: Nonce)
    requires Wired(st) && n in st.conns && st.conns[n].phase.Claimed?
    ensures st.conns[n].session.Some? && st.conns[n].session.value !in st.tables.bindings && !st.conns[n].promoted
  {
    BoundIsPromoted(st);
    assert ConnSane(st.conns[n]);
  }

  lemma ConsistentPromote(st: State, n: Nonce)
    requires Enabled(st, Promotion(n)) && Wired(st) && Consistent(st.tables)
    ensures Consistent(Promote(st, n).tables)
  {
    hide Consistent, Holds, Wired, Promoted, PromotionAllowed;
    var c := st.conns[n];
    ClaimedIsUnbound(st, n);
    if PromotionAllowed(st.tables, n, n, c.phase.sample, st.enabled) {
      PromoteConsistent(st.tables, n, c.session.value, n, c.token, c.phase.sample, st.clock + st.skew, st.enabled);
    }
  }

  lemma ConsistentDecide(st: State)
    requires Enabled(st, PostDecide) && Consistent(st.tables)
    ensures Consistent(Decide(st).tables)
  {
    hide Consistent, Holds;
    var g := st.gate;
    var swept := Sweep(st.tables, g.sample, Done(st));
    SubtablesConsistent(swept, st.tables);
    if EnqueueAllowed(swept, g.session, g.tokenId, g.sample, st.enabled) {
      UpdateConsistent(swept, g.session, swept.bindings[g.session].(lastActivity := g.sample));
    }
  }

  lemma ConsistentRenew(st: State, n: Nonce)
    requires Enabled(st, DogRenew(n)) && Consistent(st.tables)
    ensures Consistent(Renew(st, n).tables)
  {
    hide DistinctOwners;
    if Bound(st, n) {
      var s := st.conns[n].session.value;
      var t := Renew(st, n).tables;
      UpdateConsistent(st.tables, s, t.bindings[s]);
    }
  }

  // ---- The connectivity flag and the enqueue gate --------------------------------------

  ghost predicate GateOk(st: State)
  {
    && (st.gate.Posting? ==> st.enabled)
    && (!st.enabled && !st.gate.Toggling? ==> st.tables == Tables(map[], map[]))
    && (st.gate.Posting? && st.gate.enqueuing ==>
          st.gate.session in st.tables.bindings && st.tables.bindings[st.gate.session].tokenId == st.gate.tokenId)
  }

  function GateAfter(st: State, e: Event, allowed: bool): Gate
  {
    match e
    case PostArrive(s, k) => Posting(s, k, st.clock, false)
    case PostDecide => if allowed && st.gate.Posting? then st.gate.(enqueuing := true) else Open
    case PostAbandon => Open
    case PostDone => Open
    case ToggleBegin(disable) => Toggling
    case ToggleDetach => Open
    case _ => st.gate
  }

  ghost predicate Enqueues(st: State, e: Event)
  {
    && e.PostDecide? && st.gate.Posting?
    && EnqueueAllowed(Sweep(st.tables, st.gate.sample, Done(st)), st.gate.session, st.gate.tokenId, st.gate.sample,
      st.enabled)
  }

  ghost predicate Controls(st: State, e: Event, st': State)
  {
    && st'.gate == GateAfter(st, e, Enqueues(st, e))
    && st'.enabled == (if e.ToggleBegin? then st.enabled && !e.disable else st.enabled || e.Enable?)
    && st'.skew == st.skew
    && st'.clock == (if e.Tick? then st.clock + e.dt else st.clock)
  }

  lemma QuietControls(st: State, e: Event)
    requires Enabled(st, e) && !Sections(e)
    ensures Controls(st, e, QuietNext(st, e))
  {
  }

  lemma DropControls(st: State, e: Event)
    requires Enabled(st, e) && Drops(e)
    ensures Controls(st, e, DropNext(st, e))
  {
    hide Enabled, Holds, OwnerCleanup, WithoutReservation, WithoutSession, Enqueues;
    SettleControls();
    hide Settle;
  }

  lemma SettleControls()
    ensures forall st, t, spared :: SameControls(st, Settle(st, t, spared))
  {
  }

  predicate SameControls(st: State, st': State)
  {
    (st'.gate, st'.enabled, st'.skew, st'.clock) == (st.gate, st.enabled, st.skew, st.clock)
  }

  lemma SectionControls(st: State, e: Event)
    requires Enabled(st, e) && Sections(e) && !Drops(e)
    ensures Controls(st, e, Next(st, e))
  {
    hide Holds, DropNext, QuietNext, Reserve, PromotionAllowed, Sweep, Done, EnqueueAllowed;
  }

  lemma ControlsHold(st: State, e: Event)
    requires Enabled(st, e)
    ensures Controls(st, e, Next(st, e))
  {
    hide Controls, Enabled, DropNext, QuietNext, Admit, Promote, Decide, Renew;
    if Drops(e) { DropControls(st, e); } else if Sections(e) { SectionControls(st, e); } else { QuietControls(st, e); }
  }

  /** While the flag is clear nothing enters the tables. */
  lemma DisabledShrinks(st: State, e: Event)
    requires Enabled(st, e) && !st.enabled && st.tables == Tables(map[], map[])
    ensures Next(st, e).tables == Tables(map[], map[])
  {
    hide Next;
    TableStepHolds(st, e);
    var t := Next(st, e).tables;
    assert forall n :: n !in t.reservations;
    assert forall s :: s !in t.bindings;
  }

  lemma DetachEmpties(st: State)
    requires Enabled(st, ToggleDetach)
    ensures Next(st, ToggleDetach).tables == Tables(map[], map[])
  {
  }

  lemma EnqueueKeepsBinding(st: State, e: Event)
    requires Enabled(st, e) && Enqueues(st, e)
    ensures var b := Next(st, e).tables.bindings;
      st.gate.session in b && b[st.gate.session].tokenId == st.gate.tokenId
      && st.gate.session in st.tables.bindings && st.tables.bindings[st.gate.session].deadline > st.gate.sample
  {
  }

  /** While the SDK call of a POST runs, no section can touch the tables. */
  lemma EnqueuingFreezes(st: State, e: Event)
    requires Enabled(st, e) && st.gate.Posting? && st.gate.enqueuing
    ensures Next(st, e).tables == st.tables
  {
    hide DropNext, QuietNext, Admit, Promote, Renew;
    if !Sections(e) { QuietStep(st, e); }
  }

  lemma GateStep(st: State, e: Event)
    requires Enabled(st, e) && GateOk(st)
    ensures GateOk(Next(st, e))
  {
    hide Next;
    ControlsHold(st, e);
    if st.gate.Posting? && st.gate.enqueuing { EnqueuingFreezes(st, e); }
    if Enqueues(st, e) { EnqueueKeepsBinding(st, e); }
    if e.ToggleDetach? { DetachEmpties(st); }
    if !st.enabled && st.tables == Tables(map[], map[]) { DisabledShrinks(st, e); }
  }

  // ---- Runs -----------------------------------------------------------------------------

  ghost predicate IsRun(tr: seq<State>, es: seq<Event>)
  {
    && |tr| == |es| + 1 && Initial(tr[0])
    && forall i :: 0 <= i < |es| ==> Enabled(tr[i], es[i]) && tr[i + 1] == Next(tr[i], es[i])
  }

  ghost predicate Inv(st: State)
  {
    Wired(st) && Consistent(st.tables) && Conserved(st) && GateOk(st)
  }

  lemma {:induction false} RunInv(tr: seq<State>, es: seq<Event>, i: nat)
    requires IsRun(tr, es) && i < |tr|
    ensures Inv(tr[i])
  {
    hide Enabled, Next, Wired, Consistent, Conserved, GateOk;
    if i == 0 {
      InitialInv(tr[0]);
    } else {
      RunInv(tr, es, i - 1);
      assert Enabled(tr[i - 1], es[i - 1]) && tr[i] == Next(tr[i - 1], es[i - 1]);
      WiredStep(tr[i - 1], es[i - 1]);
      ConsistentStep(tr[i - 1], es[i - 1]);
      ConservedStep(tr[i - 1], es[i - 1]);
      GateStep(tr[i - 1], es[i - 1]);
    }
  }

  lemma InitialInv(st: State)
    requires Initial(st)
    ensures Inv(st)
  {
  }

  /** In every state of every run: at most 32 entries, no task with two, every binding
      enqueueable and not closing, and one fate for each admitted connection. */
  lemma EveryStateIsSafe(tr: seq<State>, es: seq<Event>, i: nat)
    requires IsRun(tr, es) && i < |tr|
    ensures |tr[i].tables.reservations| + |tr[i].tables.bindings| <= 32
    ensures DistinctOwners(tr[i].tables) && FlagsImplied(tr[i].tables)
    ensures forall n :: n in tr[i].conns && tr[i].conns[n].admitted ==> Ledger(tr[i], n) == 1 && tr[i].cancels[n] <= 1
  {
    RunInv(tr, es, i);
  }

  /** A binding goes back, without a gap, to the promotion of its session. */
  lemma {:induction false} BindingOrigin(tr: seq<State>, es: seq<Event>, i: nat, s: SessionId) returns (j: nat)
    requires IsRun(tr, es) && i < |tr| && s in tr[i].tables.bindings
    ensures j < i && Promotes(tr[j], es[j], s) && s !in tr[j].tables.bindings
    ensures s in tr[j + 1].tables.bindings && tr[j + 1].tables.bindings[s] == NewBinding(tr[j], es[j].n)
    ensures forall m :: j < m <= i ==>
      s in tr[m].tables.bindings && Continues(tr[j + 1].tables.bindings[s], tr[m].tables.bindings[s])
  {
    hide Enabled, Next, NewBinding;
    assert Initial(tr[0]);
    if i == 0 {
      assert false;
    } else {
      assert Enabled(tr[i - 1], es[i - 1]) && tr[i] == Next(tr[i - 1], es[i - 1]);
      TableStepHolds(tr[i - 1], es[i - 1]);
      if Promotes(tr[i - 1], es[i - 1], s) {
        j := i - 1;
        RunInv(tr, es, j);
        PromotedWasUnbound(tr[j], es[j], s);
      } else {
        j := BindingOrigin(tr, es, i - 1, s);
      }
    }
  }

  lemma PromotedWasUnbound(st: State, e: Event, s: SessionId)
    requires Enabled(st, e) && Wired(st) && Promotes(st, e, s)
    ensures s !in st.tables.bindings && !st.conns[e.n].promoted
  {
    ClaimedIsUnbound(st, e.n);
  }

  /** A connection still carries the token its GET arrived with. */
  lemma {:induction false} ConnOrigin(tr: seq<State>, es: seq<Event>, i: nat, n: Nonce) returns (g: nat)
    requires IsRun(tr, es) && i < |tr| && n in tr[i].conns
    ensures g < i && es[g] == GetArrive(n, tr[i].conns[n].token)
  {
    hide Enabled, Next;
    assert Initial(tr[0]);
    if i == 0 {
      assert false;
    } else {
      assert Enabled(tr[i - 1], es[i - 1]) && tr[i] == Next(tr[i - 1], es[i - 1]);
      ConnStepHolds(tr[i - 1], es[i - 1]);
      if n in tr[i - 1].conns {
        assert ConnContinues(tr[i - 1], es[i - 1], n, tr[i].conns[n]);
        g := ConnOrigin(tr, es, i - 1, n);
      } else {
        g := i - 1;
      }
    }
  }

  ghost predicate BoundTo(st: State, s: SessionId, n: Nonce, k: TokenId)
  {
    s in st.tables.bindings && st.tables.bindings[s].owner == n && st.tables.bindings[s].tokenId == k
  }

  /**
   Every enqueue for session `s` with token `k` at `i` follows a GET (at `g`) with the
   same token id and its promotion of `s` (at `j`); `s` has been bound, to that GET and
   that token, at every moment in between, so no detach, sweep or cleanup of it lies
   there; the clock the POST sampled was strictly before the deadline; and connectivity
   is enabled.
   */
  lemma EnqueueProvenance(tr: seq<State>, es: seq<Event>, i: nat) returns (g: nat, j: nat)
    requires IsRun(tr, es) && i < |es| && Enqueues(tr[i], es[i])
    ensures g < j < i && Promotes(tr[j], es[j], tr[i].gate.session)
    ensures es[g].GetArrive? && es[g].n == es[j].n && es[g].token.id == tr[i].gate.tokenId
    ensures forall m :: j < m <= i + 1 ==> BoundTo(tr[m], tr[i].gate.session, es[j].n, tr[i].gate.tokenId)
    ensures tr[i].gate.sample < tr[i].tables.bindings[tr[i].gate.session].deadline && tr[i].enabled
  {
    hide Enabled, Next;
    assert Enabled(tr[i], es[i]) && tr[i + 1] == Next(tr[i], es[i]);
    EnqueueKeepsBinding(tr[i], es[i]);
    var s := tr[i].gate.session;
    j := BindingOrigin(tr, es, i + 1, s);
    EnqueueIsNoPromotion(tr[i], es[i], s);
    var n := es[j].n;
    assert Enabled(tr[j], es[j]);
    EnabledPromotion(tr[j], n);
    g := ConnOrigin(tr, es, j, n);
  }

  lemma EnqueueIsNoPromotion(st: State, e: Event, s: SessionId)
    requires Enabled(st, e) && Enqueues(st, e)
    ensures !Promotes(st, e, s)
  {
  }

  lemma EnabledPromotion(st: State, n: Nonce)
    requires Enabled(st, Promotion(n))
    ensures n in st.conns && st.conns[n].phase.Claimed?
  {
  }

  /** The whole of an SDK call runs enabled, with its session bound to its token. */
  lemma EnqueueRunsEnabled(tr: seq<State>, es: seq<Event>, i: nat)
    requires IsRun(tr, es) && i < |tr| && tr[i].gate.Posting? && tr[i].gate.enqueuing
    ensures tr[i].enabled && tr[i].gate.session in tr[i].tables.bindings
    ensures tr[i].tables.bindings[tr[i].gate.session].tokenId == tr[i].gate.tokenId
    ensures i < |es| ==> tr[i + 1].tables == tr[i].tables
  {
    RunInv(tr, es, i);
    if i < |es| { EnqueuingFreezes(tr[i], es[i]); }
  }

  /** Once disabling has detached, until enabling: empty tables, no POST under way. */
  lemma DisabledMeansEmpty(tr: seq<State>, es: seq<Event>, i: nat)
    requires IsRun(tr, es) && i < |tr| && !tr[i].enabled && !tr[i].gate.Toggling?
    ensures tr[i].tables == Tables(map[], map[]) && !tr[i].gate.Posting?
    ensures i < |es| ==> !Enqueues(tr[i], es[i])
  {
    RunInv(tr, es, i);
  }

  /** A connection that is out of the tables stays out. */
  lemma {:induction false} NeverAgain(tr: seq<State>, es: seq<Event>, i: nat, j: nat, n: Nonce)
    requires IsRun(tr, es) && i <= j < |tr|
    requires n in tr[i].conns && tr[i].conns[n].admitted && !Holds(tr[i].tables, n)
    ensures n in tr[j].conns && tr[j].conns[n].admitted && !Holds(tr[j].tables, n)
  {
    hide Enabled, Next, Wired, Holds;
    if i < j {
      NeverAgain(tr, es, i, j - 1, n);
      var st, e := tr[j - 1], es[j - 1];
      assert Enabled(st, e) && tr[j] == Next(st, e);
      RunInv(tr, es, j - 1);
      ConnStepHolds(st, e);
      assert ConnContinues(st, e, n, tr[j].conns[n]);
      AdmissionIsNew(st, e, n);
      if Holds(tr[j].tables, n) { HoldersStep(st, e, n); }
    }
  }

  /** A connection that `detach_all` found admitted is neither promoted nor enqueued to
      afterwards, whether or not connectivity is enabled again. */
  lemma DetachedForever(tr: seq<State>, es: seq<Event>, i: nat, j: nat, n: Nonce)
    requires IsRun(tr, es) && i < j < |es| && es[i] == ToggleDetach
    requires n in tr[i].conns && tr[i].conns[n].admitted
    ensures forall s :: es[j] == Promotion(n) ==> !Promotes(tr[j], es[j], s)
    ensures n in tr[j].conns && (Enqueues(tr[j], es[j]) ==> tr[j].conns[n].session != Some(tr[j].gate.session))
  {
    hide Enabled, Next, Wired;
    var st := tr[i];
    assert Enabled(st, es[i]) && tr[i + 1] == Next(st, es[i]);
    DetachEmpties(st);
    ConnStepHolds(st, es[i]);
    assert ConnContinues(st, es[i], n, tr[i + 1].conns[n]);
    NeverAgain(tr, es, i + 1, j, n);
    RunInv(tr, es, j);
    assert Enabled(tr[j], es[j]);
    if Enqueues(tr[j], es[j]) && tr[j].conns[n].session == Some(tr[j].gate.session) {
      EnqueueKeepsBinding(tr[j], es[j]);
      BoundSessionHolds(tr[j], tr[j].gate.session, n);
    }
  }

  lemma BoundSessionHolds(st: State, s: SessionId, n: Nonce)
    requires Wired(st) && s in st.tables.bindings && n in st.conns && st.conns[n].session == Some(s)
    ensures st.tables.bindings[s].owner == n && st.conns[n].promoted && Holds(st.tables, n)
  {
    var m := st.tables.bindings[s].owner;
    assert st.conns[m].session == Some(s);
  }

  // ---- Deadlines --------------------------------------------------------------------------

  lemma {:induction false} SkewIsFixed(tr: seq<State>, es: seq<Event>, i: nat)
    requires IsRun(tr, es) && i < |tr|
    ensures tr[i].skew == tr[0].skew
  {
    hide Enabled, Next;
    if i > 0 {
      SkewIsFixed(tr, es, i - 1);
      assert Enabled(tr[i - 1], es[i - 1]) && tr[i] == Next(tr[i - 1], es[i - 1]);
      ControlsHold(tr[i - 1], es[i - 1]);
    }
  }

  lemma {:induction false} PromotedStays(tr: seq<State>, es: seq<Event>, i: nat, j: nat, n: Nonce)
    requires IsRun(tr, es) && i <= j < |tr| && n in tr[i].conns && tr[i].conns[n].promoted
    ensures n in tr[j].conns && tr[j].conns[n].promoted && tr[j].conns[n].session == tr[i].conns[n].session
  {
    hide Enabled, Next, Admits, PromotesSome, Consistent, Conserved, GateOk, PhaseAfter;
    if i < j {
      PromotedStays(tr, es, i, j - 1, n);
      var st, e := tr[j - 1], es[j - 1];
      assert Enabled(st, e) && tr[j] == Next(st, e);
      RunInv(tr, es, j - 1);
      assert ConnSane(st.conns[n]);
      ConnStepHolds(st, e);
      assert ConnContinues(st, e, n, tr[j].conns[n]);
      if e.Claim? && e.n == n { ClaimedServes(st, e); }
    }
  }

  lemma ClaimedServes(st: State, e: Event)
    requires Enabled(st, e) && e.Claim?
    ensures st.conns[e.n].phase.Serving?
  {
  }

  lemma PromotedCannotPromote(st: State, e: Event, s: SessionId, n: Nonce)
    requires Enabled(st, e) && Wired(st) && n in st.conns && st.conns[n].promoted && st.conns[n].session == Some(s)
    ensures !Promotes(st, e, s)
  {
    assert ConnSane(st.conns[n]);
  }

  lemma BoundIsNeverPromotedAgain(tr: seq<State>, es: seq<Event>, i: nat, k: nat, s: SessionId)
    requires IsRun(tr, es) && i <= k < |es| && s in tr[i].tables.bindings
    ensures !Promotes(tr[k], es[k], s)
  {
    hide Enabled, Next, Promotes;
    RunInv(tr, es, i);
    RunInv(tr, es, k);
    var n := tr[i].tables.bindings[s].owner;
    PromotedStays(tr, es, i, k, n);
    assert Enabled(tr[k], es[k]);
    PromotedCannotPromote(tr[k], es[k], s, n);
  }

  /** A session that is bound twice was bound all along, to the same GET, and its
      deadline has only come closer. */
  lemma DeadlineNeverIncreases(tr: seq<State>, es: seq<Event>, i: nat, j: nat, s: SessionId)
    requires IsRun(tr, es) && i <= j < |tr|
    requires s in tr[i].tables.bindings && s in tr[j].tables.bindings
    ensures forall m :: i <= m <= j ==> s in tr[m].tables.bindings
    ensures Continues(tr[i].tables.bindings[s], tr[j].tables.bindings[s])
  {
    hide Enabled, Next, NewBinding, Promotes;
    var k := BindingOrigin(tr, es, j, s);
    if k >= i { BoundIsNeverPromotedAgain(tr, es, i, k, s); }
    SteadyDeadline(tr, es, i, j, s);
  }

  lemma {:induction false} SteadyDeadline(tr: seq<State>, es: seq<Event>, i: nat, j: nat, s: SessionId)
    requires IsRun(tr, es) && i <= j < |tr| && s in tr[i].tables.bindings
    requires forall m :: i <= m <= j ==> s in tr[m].tables.bindings
    ensures Continues(tr[i].tables.bindings[s], tr[j].tables.bindings[s])
  {
    hide Enabled, Next, NewBinding, Promotes;
    if i < j {
      SteadyDeadline(tr, es, i, j - 1, s);
      var st, e := tr[j - 1], es[j - 1];
      assert Enabled(st, e) && tr[j] == Next(st, e);
      TableStepHolds(st, e);
      BoundIsNeverPromotedAgain(tr, es, j - 1, j - 1, s);
    }
  }
}
