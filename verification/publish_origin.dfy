/**
 Where the registration numbers of a published manifest come from
 (app/routers/marketplace_publish.py): the rows some attempt read when it began, however
 long ago it froze them, or a manifest that was stored before.
 */
module PublishOrigin {
  import opened Wrappers
  import opened Publish
  import opened PublishRuns

  ghost predicate MadeFrom(rows: seq<Row>, members: seq<Member>, mapping: IndexMapping)
  {
    members == Renumbered(Kept(rows)) && mapping == Mapping(Kept(rows))
  }

  /** The attempt that began at step `k` read the live rows and made this of them. */
  ghost predicate ReadAt(tr: seq<State>, es: seq<Event>, k: nat, members: seq<Member>, mapping: IndexMapping)
  {
    k < |es| && k < |tr| && es[k].Begin? && !Resumable(tr[k].db) && MadeFrom(tr[k].db.rows, members, mapping)
  }

  /** Made in the run before moment `i`, or stored when the run began. */
  ghost predicate Traced(tr: seq<State>, es: seq<Event>, i: nat, members: seq<Member>, mapping: IndexMapping)
    requires tr != []
  {
    || (exists k: nat :: k < i && ReadAt(tr, es, k, members, mapping))
    || StoredAs(tr[0].db.store, members, mapping)
  }

  ghost predicate StoredAs(s: Store, members: seq<Member>, mapping: IndexMapping)
  {
    exists key :: key in s && s[key].members == members && MappingOf(s[key]) == mapping
  }

  ghost predicate StoreTraced(tr: seq<State>, es: seq<Event>, i: nat)
    requires tr != [] && i < |tr|
  {
    forall key :: key in tr[i].db.store ==>
      Traced(tr, es, i, tr[i].db.store[key].members, MappingOf(tr[i].db.store[key]))
  }

  /** An attempt that does not resume read the rows at its own beginning. */
  ghost predicate OwnRows(tr: seq<State>, es: seq<Event>, i: nat, a: nat, local: Local)
  {
    exists k: nat :: k < i && ReadAt(tr, es, k, local.members, local.mapping) && es[k].a == a
  }

  ghost predicate FreshTraced(tr: seq<State>, es: seq<Event>, i: nat)
    requires i < |tr|
  {
    forall a :: a in tr[i].attempts && tr[i].attempts[a].Ready? && tr[i].attempts[a].local.retained.None? ==>
      OwnRows(tr, es, i, a, tr[i].attempts[a].local)
  }

  lemma ReadyIsTraced(env: Env, tr: seq<State>, es: seq<Event>, i: nat, a: nat)
    requires IsRun(env, tr, es) && i < |tr| && StoreTraced(tr, es, i) && FreshTraced(tr, es, i)
    requires a in tr[i].attempts && tr[i].attempts[a].Ready?
    ensures Traced(tr, es, i, tr[i].attempts[a].local.members, tr[i].attempts[a].local.mapping)
  {
    ResumeIsFrozen(env, tr, es, i, a);
    hide ReadAt, StoredAs, IsRun;
  }

  predicate Unchanged(st: State, st': State, a: nat)
  {
    a in st.attempts && a in st'.attempts && st'.attempts[a] == st.attempts[a]
  }

  /** What a step adds: a reply may freeze what its attempt carries; a beginning may be ready. */
  lemma OriginFrame(env: Env, st: State, e: Event)
    requires Enabled(st, e)
    ensures var st' := Next(env, st, e);
      && (forall key :: key in st'.db.store && key !in st.db.store ==>
            e.Reply? && st'.db.store[key] == Freeze(st.attempts[e.a].local))
      && (forall key :: key in st.db.store ==> key in st'.db.store && st'.db.store[key] == st.db.store[key])
      && (forall a :: a in st'.attempts && st'.attempts[a].Ready? && !Unchanged(st, st', a) ==>
            e == Begin(a, e.requested) && Snapshot(env, st.db, e.requested) == Ok(st'.attempts[a].local))
  {
    hide Snapshot, Conflicts;
  }

  lemma FreshMadeFrom(env: Env, db: Db, requested: Option<nat>)
    requires Snapshot(env, db, requested).Ok? && Snapshot(env, db, requested).value.retained.None?
    ensures !Resumable(db)
    ensures MadeFrom(db.rows, Snapshot(env, db, requested).value.members, Snapshot(env, db, requested).value.mapping)
  {
  }

  /** What is frozen with a mapping is read with that mapping. */
  lemma FreezeKeepsMapping(local: Local)
    requires local.mapping == [] ==> local.members == []
    ensures MappingOf(Freeze(local)) == local.mapping
  {
    assert local.members == [] ==> Identity(local.members) == [];
  }

  lemma TracedHasMapping(tr: seq<State>, es: seq<Event>, i: nat, members: seq<Member>, mapping: IndexMapping)
    requires tr != [] && Traced(tr, es, i, members, mapping)
    ensures mapping == [] ==> members == []
  {
    if k: nat :| k < i && ReadAt(tr, es, k, members, mapping) {
      assert |members| == |mapping|;
    } else {
      var key :| key in tr[0].db.store && tr[0].db.store[key].members == members
        && MappingOf(tr[0].db.store[key]) == mapping;
      assert |Identity(members)| == |members|;
    }
  }

  lemma TracedLater(tr: seq<State>, es: seq<Event>, i: nat, members: seq<Member>, mapping: IndexMapping)
    requires tr != [] && Traced(tr, es, i, members, mapping)
    ensures Traced(tr, es, i + 1, members, mapping)
  {
    hide ReadAt, StoredAs;
  }

  lemma StoreTracedStep(env: Env, tr: seq<State>, es: seq<Event>, i: nat)
    requires IsRun(env, tr, es) && i < |es| && StoreTraced(tr, es, i) && FreshTraced(tr, es, i)
    ensures StoreTraced(tr, es, i + 1)
  {
    var st, e, st' := tr[i], es[i], tr[i + 1];
    assert Enabled(st, e) && st' == Next(env, st, e);
    OriginFrame(env, st, e);
    hide Next, IsRun, FreshTraced, ReadAt, StoredAs, Traced, MappingOf, Freeze;
    forall key | key in st'.db.store
      ensures Traced(tr, es, i + 1, st'.db.store[key].members, MappingOf(st'.db.store[key]))
    {
      if key in st.db.store {
        TracedLater(tr, es, i, st.db.store[key].members, MappingOf(st.db.store[key]));
      } else {
        FrozenIsTraced(env, tr, es, i, e.a);
      }
    }
  }

  lemma FrozenIsTraced(env: Env, tr: seq<State>, es: seq<Event>, i: nat, a: nat)
    requires IsRun(env, tr, es) && i < |tr| && StoreTraced(tr, es, i) && FreshTraced(tr, es, i)
    requires a in tr[i].attempts && tr[i].attempts[a].Ready?
    ensures var r := Freeze(tr[i].attempts[a].local); Traced(tr, es, i + 1, r.members, MappingOf(r))
  {
    var local := tr[i].attempts[a].local;
    ReadyIsTraced(env, tr, es, i, a);
    TracedHasMapping(tr, es, i, local.members, local.mapping);
    FreezeKeepsMapping(local);
    TracedLater(tr, es, i, local.members, local.mapping);
  }

  lemma FreshTracedStep(env: Env, tr: seq<State>, es: seq<Event>, i: nat)
    requires IsRun(env, tr, es) && i < |es| && FreshTraced(tr, es, i)
    ensures FreshTraced(tr, es, i + 1)
  {
    var st, e, st' := tr[i], es[i], tr[i + 1];
    assert Enabled(st, e) && st' == Next(env, st, e);
    OriginFrame(env, st, e);
    hide Next, IsRun, Snapshot, MadeFrom;
    forall a | a in st'.attempts && st'.attempts[a].Ready? && st'.attempts[a].local.retained.None?
      ensures OwnRows(tr, es, i + 1, a, st'.attempts[a].local)
    {
      if Unchanged(st, st', a) {
        assert OwnRows(tr, es, i, a, st.attempts[a].local);
      } else {
        FreshMadeFrom(env, st.db, e.requested);
        assert ReadAt(tr, es, i, st'.attempts[a].local.members, st'.attempts[a].local.mapping);
      }
    }
  }

  lemma {:induction false} RunTraced(env: Env, tr: seq<State>, es: seq<Event>, i: nat)
    requires IsRun(env, tr, es) && i < |tr|
    ensures StoreTraced(tr, es, i) && FreshTraced(tr, es, i)
  {
    if i > 0 {
      RunTraced(env, tr, es, i - 1);
      StoreTracedStep(env, tr, es, i - 1);
      FreshTracedStep(env, tr, es, i - 1);
    }
  }

  // ---- The profiles -----------------------------------------------------------------------------

  /** The members were made from the rows that were live at the beginning at step `k`, and each
      published index carries the profile of its own row among them. */
  ghost predicate FollowsRowsRead(tr: seq<State>, es: seq<Event>, k: nat, local: Local, outcomes: Outcomes)
  {
    && ReadAt(tr, es, k, local.members, local.mapping)
    && Attached(tr[k].db.rows, outcomes, ProfilesOf(local.members, outcomes, Inverse(local.mapping)))
  }

  /** Each published index carries the profile recorded under the number that the stored
      mapping gives for it, or under its own number where it gives none. */
  ghost predicate FollowsStored(r: Retained, local: Local, outcomes: Outcomes)
  {
    && r.members == local.members
    && forall p: nat, c: nat :: Profile(p, c) in ProfilesOf(local.members, outcomes, Inverse(local.mapping)) <==>
      HasProfile(local.members, outcomes, p, SourceIndex(Inverse(r.mapping), p), c)
  }

  ghost predicate FollowsInitial(s: Store, local: Local, outcomes: Outcomes)
  {
    exists key :: key in s && FollowsStored(s[key], local, outcomes)
  }

  ghost predicate HasProfile(members: seq<Member>, outcomes: Outcomes, p: nat, x: nat, c: Columns)
  {
    Published(members, p) && x in outcomes && outcomes[x] == Some(c)
  }

  ghost predicate Published(members: seq<Member>, p: nat)
  {
    exists m :: m in members && m.index == p && m.role == Data
  }

  /**
   The profiles an attempt publishes are those of the rows that were live when its manifest
   was made: by itself, if it does not resume; otherwise by an attempt that began earlier
   in the run, or, for a manifest stored before the run, by the mapping stored with it.
   */
  lemma ProfilesFollowTheManifest(env: Env, tr: seq<State>, es: seq<Event>, i: nat, a: nat, outcomes: Outcomes)
    requires IsRun(env, tr, es) && i < |tr| && a in tr[i].attempts && tr[i].attempts[a].Ready?
    ensures var local := tr[i].attempts[a].local;
      || (exists k: nat :: k < i && FollowsRowsRead(tr, es, k, local, outcomes)
            && (local.retained.None? ==> es[k].a == a))
      || (local.retained.Some? && FollowsInitial(tr[0].db.store, local, outcomes))
  {
    var local := tr[i].attempts[a].local;
    RunTraced(env, tr, es, i);
    ReadyIsTraced(env, tr, es, i, a);
    if local.retained.None? {
      assert OwnRows(tr, es, i, a, local);
      var k: nat :| k < i && ReadAt(tr, es, k, local.members, local.mapping) && es[k].a == a;
      RowsReadFollow(env, tr, es, k, local, outcomes);
    } else if k: nat :| k < i && ReadAt(tr, es, k, local.members, local.mapping) {
      RowsReadFollow(env, tr, es, k, local, outcomes);
    } else {
      var key :| key in tr[0].db.store && tr[0].db.store[key].members == local.members
        && MappingOf(tr[0].db.store[key]) == local.mapping;
      StoredFollows(tr[0].db.store[key], local, outcomes);
    }
  }

  lemma RowsReadFollow(env: Env, tr: seq<State>, es: seq<Event>, k: nat, local: Local, outcomes: Outcomes)
    requires IsRun(env, tr, es) && k < |tr| && ReadAt(tr, es, k, local.members, local.mapping)
    ensures FollowsRowsRead(tr, es, k, local, outcomes)
  {
    RunBase(env, tr, es, k);
    ProfilesComeFromTheirRows(tr[k].db.rows, outcomes);
  }

  lemma {:induction false} IdentityInverts(members: seq<Member>)
    ensures forall p: nat :: SourceIndex(Inverse(Identity(members)), p) == p
  {
    var mapping := Identity(members);
    if members != [] {
      var n := |members| - 1;
      IdentityInverts(members[..n]);
      assert mapping[..n] == Identity(members[..n]);
      var front := Inverse(mapping[..n]);
      assert Inverse(mapping) == front[members[n].index := members[n].index];
      forall p: nat ensures SourceIndex(Inverse(mapping), p) == p {
        assert SourceIndex(front, p) == p;
      }
    }
  }

  lemma StoredFollows(r: Retained, local: Local, outcomes: Outcomes)
    requires r.members == local.members && MappingOf(r) == local.mapping
    ensures FollowsStored(r, local, outcomes)
  {
    var sources := Inverse(local.mapping);
    IdentityInverts(local.members);
    ProfilesAreOfMembers(local.members, outcomes, sources);
    forall p: nat, c: nat ensures Profile(p, c) in ProfilesOf(local.members, outcomes, sources) <==>
      HasProfile(local.members, outcomes, p, SourceIndex(Inverse(r.mapping), p), c)
    {
      assert SourceIndex(sources, p) == SourceIndex(Inverse(r.mapping), p);
      if HasProfile(local.members, outcomes, p, SourceIndex(sources, p), c) {
        var m :| m in local.members && m.index == p && m.role == Data;
        assert ProfileOf(m, outcomes, sources) == Some(Profile(p, c));
      }
    }
  }
}
