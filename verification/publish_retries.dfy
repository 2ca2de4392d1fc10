/**
 Plain retries: one publish of a dataset at a time, each after the one before has ended
 or died, answered with a status.  They meet the conditions under which progress is
 honest, so what they skip was sent and what they complete is complete.
 */
module PublishRetries {
  import opened Wrappers
  import opened Publish
  import opened PublishRuns

  /** At most one attempt is under way. */
  ghost predicate Solo(st: State)
  {
    forall a, b :: a in st.attempts && b in st.attempts && !st.attempts[a].Ended? && !st.attempts[b].Ended? ==> a == b
  }

  predicate Answered(e: Event) { e.Reply? ==> e.status.Some? }

  /** No attempt begins before the one before is over, and every reply says how the version is. */
  ghost predicate Retries(env: Env, tr: seq<State>, es: seq<Event>)
    requires IsRun(env, tr, es)
  {
    (forall i :: 0 <= i < |tr| ==> Solo(tr[i])) && (forall i :: 0 <= i < |es| ==> Answered(es[i]))
  }

  ghost predicate Owns(st: State, a: Attempt)
  {
    !a.Ready? && !a.Ended? ==> OwnProgress(st, a.local, a.version)
  }

  ghost predicate Owning(st: State)
  {
    forall a :: a in st.attempts ==> Owns(st, st.attempts[a])
  }

  /** Only a reply changes whose record it is. */
  predicate SameRecord(p: Option<Progress>, q: Option<Progress>)
  {
    p.Some? ==> q.Some? && q.value.version == p.value.version && q.value.hash == p.value.hash
  }

  lemma RecordChanges(env: Env, st: State, e: Event)
    requires Enabled(st, e)
    ensures var st' := Next(env, st, e);
      SameRecord(st.db.progress, st'.db.progress) || (e.Reply? && e.a in st'.attempts && !st'.attempts[e.a].Ended?)
  {
    hide Snapshot, Conflicts;
  }

  lemma OwnStep(env: Env, st: State, e: Event)
    requires Enabled(st, e) && !e.Register? && e.a in st.attempts && Owns(st, st.attempts[e.a])
    ensures e.a in Next(env, st, e).attempts && Owns(Next(env, st, e), Next(env, st, e).attempts[e.a])
  {
    hide Snapshot, Conflicts;
  }

  lemma OwningStep(env: Env, st: State, e: Event)
    requires Enabled(st, e) && Owning(st) && Solo(Next(env, st, e))
    ensures Owning(Next(env, st, e))
  {
    var st' := Next(env, st, e);
    Frame(env, st, e);
    RecordChanges(env, st, e);
    if !e.Register? && e.a in st.attempts { OwnStep(env, st, e); }
    if !e.Register? && e.a !in st.attempts { BeginIsReady(env, st, e); }
    hide Next, Enabled;
    forall a | a in st'.attempts ensures Owns(st', st'.attempts[a]) {
      if e.Register? || a != e.a { assert Owns(st, st.attempts[a]); }
    }
  }

  lemma BeginIsReady(env: Env, st: State, e: Event)
    requires Enabled(st, e) && !e.Register? && e.a !in st.attempts
    ensures e.a in Next(env, st, e).attempts
    ensures Next(env, st, e).attempts[e.a].Ready? || Next(env, st, e).attempts[e.a].Ended?
  {
    hide Snapshot;
  }

  lemma OwningIsCareful(st: State, e: Event)
    requires Enabled(st, e) && Owning(st) && Answered(e)
    ensures Careful(st, e)
  {
    if !e.Register? && e.a in st.attempts { assert Owns(st, st.attempts[e.a]); }
  }

  lemma {:induction false} RunOwning(env: Env, tr: seq<State>, es: seq<Event>, i: nat)
    requires IsRun(env, tr, es) && Retries(env, tr, es) && i < |tr|
    ensures Owning(tr[i])
  {
    if i > 0 {
      RunOwning(env, tr, es, i - 1);
      assert Enabled(tr[i - 1], es[i - 1]) && tr[i - 1 + 1] == Next(env, tr[i - 1], es[i - 1]);
      OwningStep(env, tr[i - 1], es[i - 1]);
    }
  }

  /** Whatever crashes and whatever acknowledgements are lost, plain retries look, without
      looking, at the right record. */
  lemma RetriesAreCareful(env: Env, tr: seq<State>, es: seq<Event>)
    requires IsRun(env, tr, es) && Retries(env, tr, es)
    ensures IsCareful(tr, es)
  {
    forall i | 0 <= i < |es| ensures Careful(tr[i], es[i]) {
      RunOwning(env, tr, es, i);
      OwningIsCareful(tr[i], es[i]);
    }
  }

  /** So they complete only what was sent: every member of the manifest and every sample. */
  lemma RetriesComplete(env: Env, tr: seq<State>, es: seq<Event>, i: nat, a: nat, m: Member)
    requires IsRun(env, tr, es) && Retries(env, tr, es) && i < |tr| && a in tr[i].attempts
    requires EndsPending(tr[i].attempts[a]) && m in tr[i].attempts[a].local.members
    ensures (tr[i].attempts[a].version, m) in tr[i].received
    ensures m.isSample ==> (tr[i].attempts[a].version, m.index) in tr[i].samples
  {
    RetriesAreCareful(env, tr, es);
    CompletionMeansAllSent(env, tr, es, i);
  }
}
