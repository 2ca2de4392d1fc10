/**
 Publishing over many attempts: the live rows change, a process dies at any point, an
 acknowledgement is lost after the receiver took the data, and attempts of one dataset
 may overlap (app/routers/marketplace_publish.py, app/services/marketplace_push_service.py,
 app/services/sample_upload_client.py).

 A step is what happens between two awaits.  `received` and `samples` are what the
 receiver was sent for each version.
 */
module PublishRuns {
  import opened Wrappers
  import opened Publish

  datatype Attempt =
    | Ready(local: Local)                                   // the signed publish is on its way
    | Sending(local: Local, version: Version, next: nat)    // about to send the members from `next`
    | Sampling(local: Local, version: Version, at: nat)     // about to send the sample at position `at`
    | Closing(local: Local, version: Version, status: Status)
    | Ended

  datatype State = State(
    db: Db, attempts: map<nat, Attempt>, received: set<(Version, Member)>, samples: set<(Version, nat)>)

  /** A reply of the receiver: lost, or acknowledged with the status it carries, if any. */
  datatype Ack = Lost(taken: bool) | Acked(status: Option<Status>)

  datatype Event =
    | Register(rows: seq<Row>, root: Root)
    | Begin(a: nat, requested: Option<nat>)
    | Reply(a: nat, version: Version, status: Option<Status>)
    | SendChunk(a: nat, ack: Ack)
    | SendSample(a: nat, ack: Ack)
    | Unreadable(a: nat)            // the sample's bytes are missing or changed
    | Finish(a: nat)
    | Crash(a: nat)

  ghost predicate Enabled(st: State, e: Event)
  {
    match e
    case Register(rows, root) => Ordered(rows)
    case Begin(a, requested) => a !in st.attempts
    case Reply(a, v, status) => a in st.attempts && st.attempts[a].Ready?
    case SendChunk(a, ack) =>
      a in st.attempts && st.attempts[a].Sending? && st.attempts[a].next < |st.attempts[a].local.members|
    case SendSample(a, ack) =>
      a in st.attempts && st.attempts[a].Sampling? && st.attempts[a].at < |st.attempts[a].local.members|
    case Unreadable(a) => a in st.attempts && st.attempts[a].Sampling?
    case Finish(a) => a in st.attempts && st.attempts[a].Closing?
    case Crash(a) => a in st.attempts
  }

  function OrPending(s: Option<Status>): Status
  {
    if s.Some? then s.value else PendingMembers
  }

  predicate Terminal(s: Status) { s.Active? || s.Quarantined? || s.Superseded? }

  function With(st: State, a: nat, next: Attempt): State
  {
    st.(attempts := st.attempts[a := next])
  }

  predicate Owed(local: Local, i: nat)
    requires i < |local.members|
  {
    local.members[i].isSample && local.members[i].index !in local.accepted
  }

  /** The first sample from position `i` on that was not accepted before. */
  function NextSample(local: Local, i: nat): (j: nat)
    requires i <= |local.members|
    ensures i <= j <= |local.members|
    ensures forall k :: i <= k < j ==> !Owed(local, k)
    ensures j < |local.members| ==> Owed(local, j)
    decreases |local.members| - i
  {
    if i == |local.members| || Owed(local, i) then i else NextSample(local, i + 1)
  }

  function SamplesFrom(local: Local, v: Version, i: nat, status: Status): Attempt
    requires i <= |local.members|
  {
    var j := NextSample(local, i);
    if j < |local.members| then Sampling(local, v, j) else Closing(local, v, status)
  }

  function AfterChunks(local: Local, v: Version, status: Status): Attempt
  {
    if status == PendingMembers then SamplesFrom(local, v, 0, PendingMembers) else Closing(local, v, status)
  }

  function ChunksFrom(local: Local, v: Version, next: nat, status: Status): Attempt
  {
    if next < |local.members| then Sending(local, v, next) else AfterChunks(local, v, status)
  }

  /** Progress counts only for the version it was recorded for. */
  function ForVersion(local: Local, v: Version): Local
  {
    if local.retained == Some(v) then local else local.(offset := 0, accepted := {})
  }

  function OnReply(st: State, a: nat, v: Version, status: Option<Status>): State
    requires a in st.attempts && st.attempts[a].Ready?
  {
    var local := ForVersion(st.attempts[a].local, v);
    match Recorded(st.db, local, v, OrPending(status))
    case Err(code) => With(st, a, Ended)
    case Ok(db) =>
      With(st.(db := db), a,
        if status == Some(PendingMembers) then ChunksFrom(local, v, local.offset, PendingMembers)
        else Closing(local, v, OrPending(status)))
  }

  function ChunkEnd(env: Env, local: Local, next: nat): nat
  {
    if next + env.chunk <= |local.members| then next + env.chunk else |local.members|
  }

  function Taken(v: Version, members: seq<Member>): set<(Version, Member)>
  {
    set m | m in members :: (v, m)
  }

  function OnChunk(env: Env, st: State, a: nat, ack: Ack): State
    requires a in st.attempts && st.attempts[a].Sending? && st.attempts[a].next < |st.attempts[a].local.members|
  {
    var Sending(local, v, next) := st.attempts[a];
    var end := ChunkEnd(env, local, next);
    var sent := st.(received := st.received + Taken(v, local.members[next..end]));
    if ack.Lost? then With(if ack.taken then sent else st, a, Ended)
    else match Checkpointed(st.db, end, OrPending(ack.status), None)
      case Err(code) => With(sent, a, Ended)
      case Ok(db) =>
        With(sent.(db := db), a,
          if Terminal(OrPending(ack.status)) then AfterChunks(local, v, OrPending(ack.status))
          else ChunksFrom(local, v, end, OrPending(ack.status)))
  }

  function OnSample(st: State, a: nat, ack: Ack): State
    requires a in st.attempts && st.attempts[a].Sampling? && st.attempts[a].at < |st.attempts[a].local.members|
  {
    var Sampling(local, v, at) := st.attempts[a];
    var index := local.members[at].index;
    var sent := st.(samples := st.samples + {(v, index)});
    if ack.Lost? then With(if ack.taken then sent else st, a, Ended)
    else match Checkpointed(st.db, |local.members|, OrPending(ack.status), Some(index))
      case Err(code) => With(sent, a, Ended)
      case Ok(db) =>
        With(sent.(db := db), a,
          if Terminal(OrPending(ack.status)) then Closing(local, v, OrPending(ack.status))
          else SamplesFrom(local, v, at + 1, OrPending(ack.status)))
  }

  function OnFinish(st: State, a: nat): State
    requires a in st.attempts && st.attempts[a].Closing?
  {
    match Checkpointed(st.db, |st.attempts[a].local.members|, st.attempts[a].status, None)
    case Err(code) => With(st, a, Ended)
    case Ok(db) => With(st.(db := db), a, Ended)
  }

  ghost function Next(env: Env, st: State, e: Event): State
    requires Enabled(st, e)
  {
    match e
    case Register(rows, root) => st.(db := st.db.(rows := rows, root := root))
    case Begin(a, requested) =>
      var s := Snapshot(env, st.db, requested);
      With(st, a, if s.Ok? then Ready(s.value) else Ended)
    case Reply(a, v, status) => OnReply(st, a, v, status)
    case SendChunk(a, ack) => OnChunk(env, st, a, ack)
    case SendSample(a, ack) => OnSample(st, a, ack)
    case Unreadable(a) => With(st, a, Ended)
    case Finish(a) => OnFinish(st, a)
    case Crash(a) => With(st, a, Ended)
  }

  // ---- What holds whatever happens: manifests are frozen ---------------------------------------

  ghost predicate Extends(s: Store, t: Store)
  {
    forall k :: k in s ==> k in t && t[k] == s[k]
  }

  ghost predicate Hashed(env: Env, s: Store)
  {
    forall k :: k in s ==> k.1 == env.hash(s[k].members)
  }

  /** This attempt works from the manifest frozen for the version. */
  ghost predicate Frozen(s: Store, local: Local, v: Version)
  {
    (v, local.hash) in s && s[(v, local.hash)].members == local.members && s[(v, local.hash)].root == local.root
  }

  /** A resumed attempt also has the mapping that was frozen with it. */
  ghost predicate FrozenMapping(s: Store, local: Local)
  {
    local.retained.Some? ==>
      Frozen(s, local, local.retained.value) && local.mapping == MappingOf(s[(local.retained.value, local.hash)])
  }

  ghost predicate Sound(env: Env, s: Store, a: Attempt)
  {
    match a
    case Ready(local) => local.hash == env.hash(local.members) && FrozenMapping(s, local)
    case Sending(local, v, next) => Frozen(s, local, v)
    case Sampling(local, v, at) => Frozen(s, local, v) && at < |local.members| && local.members[at].isSample
    case Closing(local, v, status) => Frozen(s, local, v)
    case Ended => true
  }

  ghost predicate FromManifests(st: State)
  {
    forall v, m :: (v, m) in st.received ==> exists h :: (v, h) in st.db.store && m in st.db.store[(v, h)].members
  }

  ghost predicate Base(env: Env, st: State)
  {
    && Ordered(st.db.rows)
    && Hashed(env, st.db.store) && FromManifests(st)
    && (forall a :: a in st.attempts ==> Sound(env, st.db.store, st.attempts[a]))
  }

  lemma SnapshotSound(env: Env, db: Db, requested: Option<nat>)
    requires Ordered(db.rows) && Hashed(env, db.store) && Snapshot(env, db, requested).Ok?
    ensures Sound(env, db.store, Ready(Snapshot(env, db, requested).value))
  {
    if Resumable(db) {
      var k := (db.progress.value.version, db.progress.value.hash);
      assert db.store[k].members == Snapshot(env, db, requested).value.members;
    }
  }

  lemma SoundLater(env: Env, s: Store, t: Store, a: Attempt)
    requires Sound(env, s, a) && Extends(s, t)
    ensures Sound(env, t, a)
  {
  }

  lemma FreezeBase(env: Env, s: Store, v: Version, local: Local)
    requires Hashed(env, s) && local.hash == env.hash(local.members) && (v, local.hash) !in s
    ensures var t := s[(v, local.hash) := Freeze(local)]; Extends(s, t) && Hashed(env, t)
  {
  }

  lemma ReplyBase(env: Env, st: State, a: nat, v: Version, status: Option<Status>)
    requires Enabled(st, Reply(a, v, status)) && Base(env, st)
    ensures var st' := OnReply(st, a, v, status);
      && Extends(st.db.store, st'.db.store) && Hashed(env, st'.db.store)
      && Sound(env, st'.db.store, st'.attempts[a])
  {
    hide FromManifests, Ordered, Hashed;
    var local := ForVersion(st.attempts[a].local, v);
    assert Sound(env, st.db.store, st.attempts[a]);
    if Recorded(st.db, local, v, OrPending(status)).Ok? && (v, local.hash) !in st.db.store {
      FreezeBase(env, st.db.store, v, local);
    }
  }

  lemma ChunkBase(env: Env, st: State, a: nat, ack: Ack)
    requires Enabled(st, SendChunk(a, ack)) && Base(env, st)
    ensures var st' := OnChunk(env, st, a, ack);
      st'.db.store == st.db.store && FromManifests(st') && Sound(env, st'.db.store, st'.attempts[a])
  {
    hide Hashed, Ordered;
    var Sending(local, v, next) := st.attempts[a];
    var st' := OnChunk(env, st, a, ack);
    forall w, m | (w, m) in st'.received
      ensures exists h :: (w, h) in st'.db.store && m in st'.db.store[(w, h)].members
    {
      if (w, m) !in st.received {
        assert (w, local.hash) in st'.db.store;
      }
    }
  }

  lemma SampleBase(env: Env, st: State, a: nat, ack: Ack)
    requires Enabled(st, SendSample(a, ack)) && Base(env, st)
    ensures var st' := OnSample(st, a, ack);
      st'.db.store == st.db.store && st'.received == st.received && Sound(env, st'.db.store, st'.attempts[a])
  {
    hide Hashed, Ordered, FromManifests;
  }

  /** A step changes one attempt; only a reply adds a manifest; only a chunk is members sent. */
  lemma Frame(env: Env, st: State, e: Event)
    requires Enabled(st, e)
    ensures var st' := Next(env, st, e);
      && (forall b :: b in st'.attempts && (e.Register? || b != e.a) ==>
        b in st.attempts && st'.attempts[b] == st.attempts[b])
      && (!e.Register? ==> st'.db.rows == st.db.rows && e.a in st'.attempts)
      && (!e.Reply? ==> st'.db.store == st.db.store)
      && (!e.SendChunk? ==> st'.received == st.received)
      && (!e.SendSample? ==> st'.samples == st.samples)
  {
    hide Snapshot, Conflicts;
  }

  lemma BaseStep(env: Env, st: State, e: Event)
    requires Enabled(st, e) && Base(env, st)
    ensures Base(env, Next(env, st, e)) && Extends(st.db.store, Next(env, st, e).db.store)
  {
    var st' := Next(env, st, e);
    Frame(env, st, e);
    match e {
      case Begin(a, requested) => if Snapshot(env, st.db, requested).Ok? { SnapshotSound(env, st.db, requested); }
      case Reply(a, v, status) => ReplyBase(env, st, a, v, status);
      case SendChunk(a, ack) => ChunkBase(env, st, a, ack);
      case SendSample(a, ack) => SampleBase(env, st, a, ack);
      case _ =>
    }
    if !e.SendChunk? { ManifestsLater(st, st'); }
    hide Snapshot, Hashed, FromManifests, Ordered, OnReply, OnChunk, OnSample, OnFinish;
    forall b | b in st'.attempts ensures Sound(env, st'.db.store, st'.attempts[b]) {
      if e.Register? || b != e.a { SoundLater(env, st.db.store, st'.db.store, st.attempts[b]); }
    }
  }

  lemma ManifestsLater(st: State, st': State)
    requires FromManifests(st) && st'.received == st.received && Extends(st.db.store, st'.db.store)
    ensures FromManifests(st')
  {
    forall v, m | (v, m) in st'.received
      ensures exists h :: (v, h) in st'.db.store && m in st'.db.store[(v, h)].members
    {
      var h :| (v, h) in st.db.store && m in st.db.store[(v, h)].members;
      assert (v, h) in st'.db.store;
    }
  }

  // ---- What progress means ----------------------------------------------------------------------

  ghost predicate Covered(st: State, v: Version, members: seq<Member>, k: nat)
  {
    forall i :: 0 <= i < k && i < |members| ==> (v, members[i]) in st.received
  }

  ghost predicate Delivered(st: State, v: Version, indices: set<nat>)
  {
    forall x :: x in indices ==> (v, x) in st.samples
  }

  /** What the receiver still misses of the samples before position `at` is nothing. */
  ghost predicate SampledBefore(st: State, v: Version, local: Local, at: nat)
  {
    && Delivered(st, v, local.accepted)
    && forall i :: 0 <= i < at && i < |local.members| && local.members[i].isSample ==>
      (v, local.members[i].index) in st.samples
  }

  ghost predicate AllSent(st: State, v: Version, local: Local)
  {
    Covered(st, v, local.members, |local.members|) && SampledBefore(st, v, local, |local.members|)
  }

  /** A pending record tells no lie: what resuming it would skip was sent for its version. */
  ghost predicate Honest(st: State)
  {
    st.db.progress.Some? ==>
      var p := st.db.progress.value;
      && (p.version, p.hash) in st.db.store
      && Delivered(st, p.version, p.accepted)
      && (p.status == PendingMembers ==> Covered(st, p.version, st.db.store[(p.version, p.hash)].members, p.offset))
  }

  ghost predicate Earned(st: State, a: Attempt)
  {
    match a
    case Ready(local) =>
      if local.retained.Some? then
        Covered(st, local.retained.value, local.members, local.offset)
          && Delivered(st, local.retained.value, local.accepted)
      else local.offset == 0 && local.accepted == {}
    case Sending(local, v, next) => Covered(st, v, local.members, next) && Delivered(st, v, local.accepted)
    case Sampling(local, v, at) => Covered(st, v, local.members, |local.members|) && SampledBefore(st, v, local, at)
    case Closing(local, v, status) => status == PendingMembers ==> AllSent(st, v, local)
    case Ended => true
  }

  ghost predicate Inv(env: Env, st: State)
  {
    Base(env, st) && Honest(st) && forall a :: a in st.attempts ==> Earned(st, st.attempts[a])
  }

  /** The progress record is the one this attempt made. */
  predicate OwnProgress(st: State, local: Local, v: Version)
  {
    st.db.progress.Some? && st.db.progress.value.version == v && st.db.progress.value.hash == local.hash
  }

  /** Two things a caller can look at before the step: whether the reply says what state
      the version is in, and whose progress record a checkpoint is about to overwrite. */
  ghost predicate Careful(st: State, e: Event)
    requires Enabled(st, e)
  {
    match e
    case Reply(a, v, status) => status.Some?
    case SendChunk(a, ack) => ack.Acked? ==> OwnProgress(st, st.attempts[a].local, st.attempts[a].version)
    case SendSample(a, ack) => ack.Acked? ==> OwnProgress(st, st.attempts[a].local, st.attempts[a].version)
    case Finish(a) => OwnProgress(st, st.attempts[a].local, st.attempts[a].version)
    case _ => true
  }

  ghost predicate Grows(st: State, st': State)
  {
    st.received <= st'.received && st.samples <= st'.samples && Extends(st.db.store, st'.db.store)
  }

  lemma EarnedLater(st: State, st': State, a: Attempt)
    requires Earned(st, a) && Grows(st, st')
    ensures Earned(st', a)
  {
  }

  lemma HonestLater(st: State, st': State)
    requires Honest(st) && Grows(st, st') && st'.db.progress == st.db.progress
    ensures Honest(st')
  {
  }

  lemma BeginHonest(env: Env, st: State, requested: Option<nat>)
    requires Inv(env, st) && Snapshot(env, st.db, requested).Ok?
    ensures Earned(st, Ready(Snapshot(env, st.db, requested).value))
  {
    hide Base;
  }

  lemma ReplyHonest(env: Env, st: State, a: nat, v: Version, status: Option<Status>)
    requires Enabled(st, Reply(a, v, status)) && Inv(env, st) && status.Some?
    ensures Honest(OnReply(st, a, v, status))
      && Earned(OnReply(st, a, v, status), OnReply(st, a, v, status).attempts[a])
  {
    var local := ForVersion(st.attempts[a].local, v);
    var st' := OnReply(st, a, v, status);
    assert Covered(st', v, local.members, local.offset) && Delivered(st', v, local.accepted) by {
      assert Earned(st, st.attempts[a]);
    }
    if Recorded(st.db, local, v, OrPending(status)).Err? {
      HonestLater(st, st');
    } else if status == Some(PendingMembers) {
      ContinueEarned(st', local, v, local.offset, PendingMembers);
      hide Covered, Delivered, Base, Earned;
    }
  }

  lemma ContinueEarned(st: State, local: Local, v: Version, next: nat, status: Status)
    requires Covered(st, v, local.members, next) && Delivered(st, v, local.accepted)
    ensures Earned(st, ChunksFrom(local, v, next, status))
  {
    if next >= |local.members| {
      if status == PendingMembers { SamplesEarned(st, local, v, 0, status); }
    }
  }

  lemma SamplesEarned(st: State, local: Local, v: Version, i: nat, status: Status)
    requires i <= |local.members|
    requires Covered(st, v, local.members, |local.members|) && SampledBefore(st, v, local, i)
    ensures Earned(st, SamplesFrom(local, v, i, status))
  {
    var j := NextSample(local, i);
    forall k | 0 <= k < j && local.members[k].isSample ensures (v, local.members[k].index) in st.samples {
      if i <= k { assert !Owed(local, k); }
    }
    assert SampledBefore(st, v, local, j);
    hide Covered, SampledBefore;
  }

  lemma ChunkHonest(env: Env, st: State, a: nat, ack: Ack)
    requires Enabled(st, SendChunk(a, ack)) && Inv(env, st) && Careful(st, SendChunk(a, ack))
    ensures Honest(OnChunk(env, st, a, ack)) && Earned(OnChunk(env, st, a, ack), OnChunk(env, st, a, ack).attempts[a])
  {
    var Sending(local, v, next) := st.attempts[a];
    var st' := OnChunk(env, st, a, ack);
    assert Earned(st, st.attempts[a]) && Sound(env, st.db.store, st.attempts[a]);
    if ack.Acked? {
      var end := ChunkEnd(env, local, next);
      assert Covered(st', v, local.members, end) by { ChunkCovers(st, st', local, v, next, end); }
      hide Covered, Base;
      if !Terminal(OrPending(ack.status)) {
        ContinueEarned(st', local, v, end, OrPending(ack.status));
      }
    }
  }

  lemma ChunkCovers(st: State, st': State, local: Local, v: Version, next: nat, end: nat)
    requires Covered(st, v, local.members, next) && next <= end <= |local.members|
    requires st'.received == st.received + Taken(v, local.members[next..end])
    ensures Covered(st', v, local.members, end)
  {
    forall i | next <= i < end ensures (v, local.members[i]) in st'.received {
      assert local.members[i] == local.members[next..end][i - next];
    }
  }

  lemma SampleHonest(env: Env, st: State, a: nat, ack: Ack)
    requires Enabled(st, SendSample(a, ack)) && Inv(env, st) && Careful(st, SendSample(a, ack))
    ensures Honest(OnSample(st, a, ack)) && Earned(OnSample(st, a, ack), OnSample(st, a, ack).attempts[a])
  {
    var Sampling(local, v, at) := st.attempts[a];
    var st' := OnSample(st, a, ack);
    assert Earned(st, st.attempts[a]) && Sound(env, st.db.store, st.attempts[a]);
    hide Base;
    if ack.Acked? {
      assert SampledBefore(st', v, local, at + 1);
      assert Covered(st', v, local.members, |local.members|);
      hide Covered, SampledBefore;
      if !Terminal(OrPending(ack.status)) {
        SamplesEarned(st', local, v, at + 1, OrPending(ack.status));
      }
    }
  }

  lemma FinishHonest(env: Env, st: State, a: nat)
    requires Enabled(st, Finish(a)) && Inv(env, st) && Careful(st, Finish(a))
    ensures Honest(OnFinish(st, a))
  {
    assert Earned(st, st.attempts[a]) && Sound(env, st.db.store, st.attempts[a]);
    hide Base;
  }

  lemma InvStep(env: Env, st: State, e: Event)
    requires Enabled(st, e) && Inv(env, st) && Careful(st, e)
    ensures Inv(env, Next(env, st, e))
  {
    var st' := Next(env, st, e);
    BaseStep(env, st, e);
    Frame(env, st, e);
    StepGrows(env, st, e);
    match e {
      case Begin(a, requested) => if Snapshot(env, st.db, requested).Ok? { BeginHonest(env, st, requested); }
      case Reply(a, v, status) => ReplyHonest(env, st, a, v, status);
      case SendChunk(a, ack) => ChunkHonest(env, st, a, ack);
      case SendSample(a, ack) => SampleHonest(env, st, a, ack);
      case Finish(a) => FinishHonest(env, st, a);
      case _ =>
    }
    if e.Register? || e.Begin? || e.Unreadable? || e.Crash? { HonestLater(st, st'); }
    hide Base, Snapshot, Honest, OnReply, OnChunk, OnSample, OnFinish, Careful;
    forall b | b in st'.attempts ensures Earned(st', st'.attempts[b]) {
      if e.Register? || b != e.a {
        EarnedLater(st, st', st.attempts[b]);
      } else if e.Begin? && st'.attempts[b].Ready? {
        EarnedLater(st, st', st'.attempts[b]);
      }
    }
  }

  lemma StepGrows(env: Env, st: State, e: Event)
    requires Enabled(st, e) && Base(env, st)
    ensures Grows(st, Next(env, st, e))
  {
    BaseStep(env, st, e);
    hide Base, Snapshot, Extends;
  }

  // ---- Runs ---------------------------------------------------------------------------------------

  /** Any rows, and any manifests frozen earlier; nothing of this dataset under way. */
  ghost predicate Initial(env: Env, st: State)
  {
    && Ordered(st.db.rows) && Hashed(env, st.db.store)
    && st.db.progress.None? && st.attempts == map[] && st.received == {} && st.samples == {}
  }

  ghost predicate IsRun(env: Env, tr: seq<State>, es: seq<Event>)
  {
    && |tr| == |es| + 1 && Initial(env, tr[0])
    && forall i :: 0 <= i < |es| ==> Enabled(tr[i], es[i]) && tr[i + 1] == Next(env, tr[i], es[i])
  }

  ghost predicate IsCareful(tr: seq<State>, es: seq<Event>)
    requires |tr| == |es| + 1 && forall i :: 0 <= i < |es| ==> Enabled(tr[i], es[i])
  {
    forall i :: 0 <= i < |es| ==> Careful(tr[i], es[i])
  }

  lemma InitialBase(env: Env, st: State)
    requires Initial(env, st)
    ensures Base(env, st)
  {
    hide Hashed, Ordered;
  }

  lemma {:induction false} RunBase(env: Env, tr: seq<State>, es: seq<Event>, i: nat)
    requires IsRun(env, tr, es) && i < |tr|
    ensures Base(env, tr[i])
  {
    hide Base, Initial, Enabled, Next;
    if i > 0 {
      RunBase(env, tr, es, i - 1);
      assert Enabled(tr[i - 1], es[i - 1]) && tr[i - 1 + 1] == Next(env, tr[i - 1], es[i - 1]);
      BaseStep(env, tr[i - 1], es[i - 1]);
    } else {
      InitialBase(env, tr[0]);
    }
  }

  lemma {:induction false} RunInv(env: Env, tr: seq<State>, es: seq<Event>, i: nat)
    requires IsRun(env, tr, es) && IsCareful(tr, es) && i < |tr|
    ensures Inv(env, tr[i])
  {
    if i > 0 {
      hide Inv, Initial, Enabled, Next, Careful;
      RunInv(env, tr, es, i - 1);
      assert Enabled(tr[i - 1], es[i - 1]) && tr[i - 1 + 1] == Next(env, tr[i - 1], es[i - 1])
        && Careful(tr[i - 1], es[i - 1]);
      InvStep(env, tr[i - 1], es[i - 1]);
    } else {
      RunBase(env, tr, es, 0);
    }
  }

  /** A stored manifest never changes and is never dropped. */
  lemma {:induction false} StoreIsImmutable(env: Env, tr: seq<State>, es: seq<Event>, i: nat, j: nat)
    requires IsRun(env, tr, es) && i <= j < |tr|
    ensures forall k :: k in tr[i].db.store ==> k in tr[j].db.store && tr[j].db.store[k] == tr[i].db.store[k]
    decreases j - i
  {
    if i < j {
      StoreIsImmutable(env, tr, es, i, j - 1);
      RunBase(env, tr, es, j - 1);
      assert Enabled(tr[j - 1], es[j - 1]) && tr[j - 1 + 1] == Next(env, tr[j - 1], es[j - 1]);
      BaseStep(env, tr[j - 1], es[j - 1]);
    }
  }

  ghost predicate FrozenMember(s: Store, v: Version, h: Hash, m: Member)
  {
    (v, h) in s && m in s[(v, h)].members
  }

  ghost predicate KeptAs(s: Store, t: Store, k: (Version, Hash))
  {
    k in s && k in t && t[k] == s[k]
  }

  /** Crashes, retries and changed rows notwithstanding: every member the receiver is ever
      sent for a version belongs to a manifest frozen for that version, which still holds
      it, unchanged, at any later time. */
  lemma OnlyFrozenMembersAreSent(env: Env, tr: seq<State>, es: seq<Event>, i: nat, j: nat, v: Version, m: Member)
    requires IsRun(env, tr, es) && i <= j < |tr| && (v, m) in tr[i].received
    ensures exists h :: FrozenMember(tr[i].db.store, v, h, m) && KeptAs(tr[i].db.store, tr[j].db.store, (v, h))
  {
    RunBase(env, tr, es, i);
    StoreIsImmutable(env, tr, es, i, j);
    var h :| (v, h) in tr[i].db.store && m in tr[i].db.store[(v, h)].members;
    assert FrozenMember(tr[i].db.store, v, h, m) && KeptAs(tr[i].db.store, tr[j].db.store, (v, h));
  }

  /** A resumed attempt works from the manifest stored for its version and the mapping stored
      with it, and every attempt works from that manifest once it knows its version,
      whatever the rows have become. */
  lemma ResumeIsFrozen(env: Env, tr: seq<State>, es: seq<Event>, i: nat, a: nat)
    requires IsRun(env, tr, es) && i < |tr| && a in tr[i].attempts && !tr[i].attempts[a].Ended?
    ensures var at := tr[i].attempts[a];
      if at.Ready? then FrozenMapping(tr[i].db.store, at.local)
      else Frozen(tr[i].db.store, at.local, at.version)
  {
    RunBase(env, tr, es, i);
    assert Sound(env, tr[i].db.store, tr[i].attempts[a]);
  }

  /** What resuming skips was sent for that very version. */
  lemma SkippedWasSent(env: Env, tr: seq<State>, es: seq<Event>, i: nat, a: nat)
    requires IsRun(env, tr, es) && IsCareful(tr, es) && i < |tr| && a in tr[i].attempts
    requires tr[i].attempts[a].Ready? && tr[i].attempts[a].local.retained.Some?
    ensures var local := tr[i].attempts[a].local; var v := local.retained.value;
      && (forall k :: 0 <= k < local.offset && k < |local.members| ==> (v, local.members[k]) in tr[i].received)
      && (forall x :: x in local.accepted ==> (v, x) in tr[i].samples)
  {
    RunInv(env, tr, es, i);
    assert Earned(tr[i], tr[i].attempts[a]);
  }

  /** Past both loops, about to write its last checkpoint, and still pending. */
  predicate EndsPending(a: Attempt) { a.Closing? && a.status == PendingMembers }

  /** An attempt that ran to its end without the version leaving the pending state has had
      every member and every sample of its manifest sent, for that version; so has any
      pending record that says so. */
  lemma CompletionMeansAllSent(env: Env, tr: seq<State>, es: seq<Event>, i: nat)
    requires IsRun(env, tr, es) && IsCareful(tr, es) && i < |tr|
    ensures forall a :: a in tr[i].attempts && EndsPending(tr[i].attempts[a]) ==>
      var at := tr[i].attempts[a];
      forall m :: m in at.local.members ==>
        (at.version, m) in tr[i].received && (m.isSample ==> (at.version, m.index) in tr[i].samples)
    ensures Resumable(tr[i].db) ==>
      var p := tr[i].db.progress.value; var members := tr[i].db.store[(p.version, p.hash)].members;
      p.offset >= |members| ==> forall m :: m in members ==> (p.version, m) in tr[i].received
  {
    RunInv(env, tr, es, i);
    forall a | a in tr[i].attempts && EndsPending(tr[i].attempts[a])
      ensures AllSent(tr[i], tr[i].attempts[a].version, tr[i].attempts[a].local)
    {
      assert Earned(tr[i], tr[i].attempts[a]);
    }
  }

  // ---- Where progress is not what it says ---------------------------------------------------------

  ghost predicate Untouched(st: State, v: Version)
  {
    forall m :: (v, m) !in st.received
  }

  /** A reply that says nothing of the version's state is recorded as pending, skips both
      loops and is closed at the full offset.  When the upload is not entered, the record
      left behind is honest exactly when the reply carried a state. */
  lemma SilentReplyIsDishonest(env: Env, st: State, a: nat, v: Version, status: Option<Status>)
    requires Enabled(st, Reply(a, v, status)) && Inv(env, st) && status != Some(PendingMembers)
    requires !Conflicts(st.db.store, v, st.attempts[a].local)
    requires st.attempts[a].local.members != [] && Untouched(st, v)
    ensures var closing := Next(env, st, Reply(a, v, status));
      Enabled(closing, Finish(a)) && (Honest(Next(env, closing, Finish(a))) <==> status.Some?)
  {
    var local := ForVersion(st.attempts[a].local, v);
    var closing := OnReply(st, a, v, status);
    assert Sound(env, st.db.store, st.attempts[a]) && Earned(st, st.attempts[a]);
    if status.None? {
      var done := OnFinish(closing, a);
      assert done.db.store[(v, local.hash)].members[0] == local.members[0];
      assert (v, local.members[0]) !in done.received;
    } else {
      ReplyHonest(env, st, a, v, status);
      ReplyBase(env, st, a, v, status);
    }
  }

  /** A checkpoint taken while another attempt's record stands is written into that record.
      With none of that version's members sent, it is honest exactly when the record is
      the attempt's own. */
  lemma ForeignCheckpointIsDishonest(env: Env, st: State, a: nat, ack: Ack)
    requires Enabled(st, SendChunk(a, ack)) && Inv(env, st) && ack.Acked? && OrPending(ack.status) == PendingMembers
    requires st.db.progress.Some?
    requires var p := st.db.progress.value;
      OwnProgress(st, st.attempts[a].local, st.attempts[a].version)
      || (p.version != st.attempts[a].version && Untouched(st, p.version)
        && st.db.store[(p.version, p.hash)].members != [])
    ensures Honest(Next(env, st, SendChunk(a, ack))) <==> OwnProgress(st, st.attempts[a].local, st.attempts[a].version)
  {
    if OwnProgress(st, st.attempts[a].local, st.attempts[a].version) {
      ChunkHonest(env, st, a, ack);
    } else {
      var p, st' := st.db.progress.value, OnChunk(env, st, a, ack);
      var members := st.db.store[(p.version, p.hash)].members;
      assert (p.version, members[0]) !in st'.received;
    }
  }

  ghost predicate EndsUnsent(st: State, a: nat)
  {
    && a in st.attempts && EndsPending(st.attempts[a])
    && st.attempts[a].local.members != [] && st.received == {}
  }

  /** So a run without care can end with nothing sent: the publish is answered without a
      state, closed, and published again. */
  lemma CompletionCanMeanNothingSent()
    ensures exists env, tr, es, a :: IsRun(env, tr, es) && EndsUnsent(tr[|es|], a)
  {
    var tr := seq(6, i requires 0 <= i < 6 => UnsentAt(i));
    forall i | 0 <= i < 5
      ensures Enabled(UnsentAt(i), UnsentStep(i)) && Next(UnsentEnv(), UnsentAt(i), UnsentStep(i)) == UnsentAt(i + 1)
    {
      UnsentNext(i);
    }
    var es := seq(5, i requires 0 <= i < 5 => UnsentStep(i));
    hide Next, UnsentAt, UnsentStep, UnsentEnv;
    UnsentEnds();
    assert IsRun(UnsentEnv(), tr, es);
    assert EndsUnsent(tr[|es|], 1);
  }

  lemma UnsentEnds()
    ensures Initial(UnsentEnv(), UnsentAt(0)) && EndsUnsent(UnsentAt(5), 1)
  {
  }

  ghost function UnsentEnv(): Env
  {
    Env(ms => 0, ms => true, ms => true, 1)
  }

  const SOLE_ROW := Row(0, Current, 0, Data, false)
  const SOLE_MEMBER := Member(0, 0, Data, false)
  const UNSENT := Local(0, [SOLE_MEMBER], 0, FromHash(0), 0, {}, [(0, 0)], None)
  const RESUMED := UNSENT.(offset := 1, retained := Some(7))

  function UnsentStep(i: nat): Event
  {
    if i == 0 then Begin(0, None)
    else if i == 1 then Reply(0, 7, None)
    else if i == 2 then Finish(0)
    else if i == 3 then Begin(1, None)
    else Reply(1, 7, Some(PendingMembers))
  }

  function UnsentDb(offset: nat): Db
  {
    Db([SOLE_ROW], 0, Some(Progress(7, 0, FromHash(0), PendingMembers, offset, {})), map[(7, 0) := Freeze(UNSENT)])
  }

  function UnsentAt(i: nat): State
  {
    if i == 0 then State(Db([SOLE_ROW], 0, None, map[]), map[], {}, {})
    else if i == 1 then State(Db([SOLE_ROW], 0, None, map[]), map[0 := Ready(UNSENT)], {}, {})
    else if i == 2 then State(UnsentDb(0), map[0 := Closing(UNSENT, 7, PendingMembers)], {}, {})
    else if i == 3 then State(UnsentDb(1), map[0 := Ended], {}, {})
    else if i == 4 then State(UnsentDb(1), map[0 := Ended, 1 := Ready(RESUMED)], {}, {})
    else State(UnsentDb(1), map[0 := Ended, 1 := Closing(RESUMED, 7, PendingMembers)], {}, {})
  }

  lemma UnsentNext(i: nat)
    requires i < 5
    ensures Enabled(UnsentAt(i), UnsentStep(i)) && Next(UnsentEnv(), UnsentAt(i), UnsentStep(i)) == UnsentAt(i + 1)
  {
    if i == 0 {
      assert Kept([SOLE_ROW]) == [SOLE_ROW] by { assert [SOLE_ROW][1..] == []; }
      assert Renumbered([SOLE_ROW]) == [SOLE_MEMBER] && Mapping([SOLE_ROW]) == [(0, 0)];
    }
    if i == 0 || i == 3 {
      assert PaidMembers([SOLE_MEMBER]) == 1 by { assert [SOLE_MEMBER][..0] == []; }
    }
    if i == 4 {
      assert NextSample(RESUMED, 0) == 1;
    }
  }
}
