/**
 Resumable publishing of a local dataset (app/routers/marketplace_publish.py): the
 snapshot an attempt works from, the one transaction that freezes a manifest, the
 progress record, and the projection of stored column profiles.

 `Env` holds what the code computes elsewhere: the manifest hash, an arbitrary function
 of the members; the member and sample checks, arbitrary predicates of them; and the
 number of members sent in one request.
 */
module Publish {
  import opened Wrappers

  type Version = nat
  type Hash = nat
  type Root = nat
  type Columns = nat

  const CONFLICT := 409
  const INTERNAL := 500

  datatype Result<+T> = Ok(value: T) | Err(code: nat)

  datatype Role = Data | Documentation | OtherRole
  datatype RowStatus = Current | Removed | Missing | Unsupported

  /** A live registration row; `content` is everything else the manifest records of it. */
  datatype Row = Row(index: nat, status: RowStatus, content: nat, role: Role, isSample: bool)

  datatype Member = Member(index: nat, content: nat, role: Role, isSample: bool)

  datatype Title = Named(name: nat) | FromHash(hash: Hash)

  datatype Status = PendingMembers | Active | Quarantined | Superseded | OtherStatus(name: nat)

  datatype Progress = Progress(
    version: Version, hash: Hash, title: Title, status: Status, offset: nat, accepted: set<nat>)

  /** Registration index to published index, a dictionary in insertion order. */
  type IndexMapping = seq<(nat, nat)>

  /** An immutable row of the published manifests. */
  datatype Retained = Retained(root: Root, members: seq<Member>, mapping: IndexMapping)

  type Store = map<(Version, Hash), Retained>

  datatype Db = Db(rows: seq<Row>, root: Root, progress: Option<Progress>, store: Store)

  type Positive = n: nat | 0 < n witness 1

  datatype Env = Env(hash: seq<Member> -> Hash, wellFormed: seq<Member> -> bool, samplesFit: seq<Member> -> bool,
          chunk: Positive)

  /** What one publishing attempt carries. */
  datatype Local = Local(
    root: Root, members: seq<Member>, hash: Hash, title: Title, offset: nat, accepted: set<nat>,
    mapping: IndexMapping, retained: Option<Version>)

  // ---- Renumbering -------------------------------------------------------------------

  /** The order in which the query returns rows; the index is a key. */
  ghost predicate Ordered(rows: seq<Row>)
  {
    forall i, j :: 0 <= i < j < |rows| ==> rows[i].index < rows[j].index
  }

  /** The rows a manifest is made of, in registration order. */
  function Kept(rows: seq<Row>): seq<Row>
  {
    if rows == [] then []
    else if rows[0].status == Removed then Kept(rows[1..])
    else [rows[0]] + Kept(rows[1..])
  }

  function Renumbered(rows: seq<Row>): seq<Member>
  {
    seq(|rows|, i requires 0 <= i < |rows| => Member(i, rows[i].content, rows[i].role, rows[i].isSample))
  }

  function Mapping(rows: seq<Row>): IndexMapping
  {
    seq(|rows|, i requires 0 <= i < |rows| => (rows[i].index, i))
  }

  /** How many rows that are not removed come before index `x`. */
  function Below(rows: seq<Row>, x: nat): nat
  {
    if rows == [] then 0
    else (if rows[0].status != Removed && rows[0].index < x then 1 else 0) + Below(rows[1..], x)
  }

  ghost predicate Survives(rows: seq<Row>, x: nat)
  {
    exists r :: r in rows && r.status != Removed && r.index == x
  }

  lemma {:induction false} KeptIsOrdered(rows: seq<Row>)
    requires Ordered(rows)
    ensures Ordered(Kept(rows))
    ensures forall r :: r in Kept(rows) <==> r in rows && r.status != Removed
  {
    if rows != [] {
      KeptIsOrdered(rows[1..]);
      assert rows == [rows[0]] + rows[1..];
      forall r | r in Kept(rows[1..]) ensures rows[0].index < r.index {
        assert r in rows[1..];
      }
    }
  }

  lemma {:induction false} NoneBelow(rows: seq<Row>, x: nat)
    requires forall r :: r in rows ==> x < r.index
    ensures Below(rows, x) == 0
  {
    if rows != [] {
      assert rows[0] in rows && forall r :: r in rows[1..] ==> r in rows;
      NoneBelow(rows[1..], x);
    }
  }

  lemma {:induction false} KeptAtRank(rows: seq<Row>, p: nat)
    requires Ordered(rows) && p < |Kept(rows)|
    ensures Below(rows, Kept(rows)[p].index) == p
  {
    var rest := rows[1..];
    KeptIsOrdered(rest);
    if rows[0].status == Removed {
      KeptAtRank(rest, p);
    } else if p == 0 {
      forall r | r in rest ensures rows[0].index < r.index { }
      NoneBelow(rest, rows[0].index);
    } else {
      KeptAtRank(rest, p - 1);
      assert Kept(rest)[p - 1] in rest;
    }
  }

  /** Renumbering is a strictly increasing bijection from the indices that survive onto
      0..n-1: an index goes to the number of surviving ones before it. */
  lemma RenumberingIsTheRank(rows: seq<Row>)
    requires Ordered(rows)
    ensures forall x: nat, p: nat :: (x, p) in Mapping(Kept(rows)) <==> Survives(rows, x) && p == Below(rows, x)
    ensures forall i, j :: 0 <= i < j < |Mapping(Kept(rows))| ==> Mapping(Kept(rows))[i].0 < Mapping(Kept(rows))[j].0
    ensures forall p :: 0 <= p < |Mapping(Kept(rows))| ==> Mapping(Kept(rows))[p].1 == p
    ensures |Renumbered(Kept(rows))| == |Mapping(Kept(rows))|
  {
    var kept := Kept(rows);
    KeptIsOrdered(rows);
    forall x: nat, p: nat | (x, p) in Mapping(kept) ensures Survives(rows, x) && p == Below(rows, x) {
      assert kept[p] in kept;
      KeptAtRank(rows, p);
    }
    forall x: nat, p: nat | Survives(rows, x) && p == Below(rows, x) ensures (x, p) in Mapping(kept) {
      var r :| r in rows && r.status != Removed && r.index == x;
      var i :| 0 <= i < |kept| && kept[i] == r;
      KeptAtRank(rows, i);
      assert Mapping(kept)[i] == (x, p);
    }
  }

  // ---- Stored profiles -------------------------------------------------------------------

  /** The mapping turned round; a later entry overwrites an earlier one. */
  function Inverse(m: IndexMapping): map<nat, nat>
  {
    if m == [] then map[] else Inverse(m[..|m| - 1])[m[|m| - 1].1 := m[|m| - 1].0]
  }

  lemma {:induction false} InverseLooksUp(m: IndexMapping)
    requires forall i, j :: 0 <= i < j < |m| ==> m[i].1 != m[j].1
    ensures forall p: nat, x: nat :: p in Inverse(m) && Inverse(m)[p] == x <==> (x, p) in m
  {
    if m != [] {
      var n := |m| - 1;
      InverseLooksUp(m[..n]);
      assert m == m[..n] + [m[n]];
    }
  }

  /** What was recorded for each registration row: its columns, if it was profiled and
      its profile is well formed. */
  type Outcomes = map<nat, Option<Columns>>

  datatype Profile = Profile(index: nat, columns: Columns)

  function SourceIndex(sources: map<nat, nat>, index: nat): nat
  {
    if index in sources then sources[index] else index
  }

  function ProfileOf(m: Member, outcomes: Outcomes, sources: map<nat, nat>): Option<Profile>
  {
    var x := SourceIndex(sources, m.index);
    if m.role == Data && x in outcomes && outcomes[x].Some? then Some(Profile(m.index, outcomes[x].value)) else None
  }

  function ProfilesOf(members: seq<Member>, outcomes: Outcomes, sources: map<nat, nat>): seq<Profile>
  {
    if members == [] then []
    else
      var front := ProfilesOf(members[..|members| - 1], outcomes, sources);
      var p := ProfileOf(members[|members| - 1], outcomes, sources);
      if p.Some? then front + [p.value] else front
  }

  method LocalMemberProfiles(outcomes: Outcomes, members: seq<Member>, mapping: IndexMapping)
    returns (profiles: seq<Profile>)
    ensures profiles == ProfilesOf(members, outcomes, Inverse(mapping))
  {
    var sources := map[];
    for i := 0 to |mapping|
      invariant sources == Inverse(mapping[..i])
    {
      assert mapping[..i + 1][..i] == mapping[..i];
      sources := sources[mapping[i].1 := mapping[i].0];
    }
    assert mapping[..|mapping|] == mapping;
    profiles := [];
    for i := 0 to |members|
      invariant profiles == ProfilesOf(members[..i], outcomes, sources)
    {
      assert members[..i + 1][..i] == members[..i];
      var member := members[i];
      if member.role != Data { continue; }
      var source := SourceIndex(sources, member.index);
      if source !in outcomes || outcomes[source].None? { continue; }
      profiles := profiles + [Profile(member.index, outcomes[source].value)];
    }
    assert members[..|members|] == members;
  }

  lemma {:induction false} ProfilesAreOfMembers(members: seq<Member>, outcomes: Outcomes, sources: map<nat, nat>)
    ensures forall p :: p in ProfilesOf(members, outcomes, sources) <==>
      exists m :: m in members && ProfileOf(m, outcomes, sources) == Some(p)
  {
    if members != [] {
      var n := |members| - 1;
      ProfilesAreOfMembers(members[..n], outcomes, sources);
      assert members == members[..n] + [members[n]];
      forall p ensures p in ProfilesOf(members, outcomes, sources) <==>
        exists m :: m in members && ProfileOf(m, outcomes, sources) == Some(p)
      {
        if m :| m in members[..n] && ProfileOf(m, outcomes, sources) == Some(p) { assert m in members; }
        if ProfileOf(members[n], outcomes, sources) == Some(p) { assert members[n] in members; }
      }
    }
  }

  lemma {:induction false} ProfilesInOrder(members: seq<Member>, outcomes: Outcomes, sources: map<nat, nat>)
    requires forall i, j :: 0 <= i < j < |members| ==> members[i].index < members[j].index
    ensures forall i, j :: 0 <= i < j < |ProfilesOf(members, outcomes, sources)| ==>
      ProfilesOf(members, outcomes, sources)[i].index < ProfilesOf(members, outcomes, sources)[j].index
  {
    if members != [] {
      var n := |members| - 1;
      var front := members[..n];
      ProfilesInOrder(front, outcomes, sources);
      ProfilesAreOfMembers(front, outcomes, sources);
      forall p | p in ProfilesOf(front, outcomes, sources) ensures p.index < members[n].index {
        var m :| m in front && ProfileOf(m, outcomes, sources) == Some(p);
      }
    }
  }

  /** Each published index carries exactly the stored profile of the registration row it
      was renumbered from, once, in order; members without one carry none. */
  ghost predicate Attached(rows: seq<Row>, outcomes: Outcomes, profiles: seq<Profile>)
  {
    var kept := Kept(rows);
    && (forall p: nat, c: nat :: Profile(p, c) in profiles <==>
          0 <= p < |kept| && kept[p].role == Data && kept[p].index in outcomes && outcomes[kept[p].index] == Some(c))
    && (forall i, j :: 0 <= i < j < |profiles| ==> profiles[i].index < profiles[j].index)
  }

  lemma ProfilesComeFromTheirRows(rows: seq<Row>, outcomes: Outcomes)
    requires Ordered(rows)
    ensures Attached(rows, outcomes, ProfilesOf(Renumbered(Kept(rows)), outcomes, Inverse(Mapping(Kept(rows)))))
  {
    var kept := Kept(rows);
    var members, sources := Renumbered(kept), Inverse(Mapping(kept));
    InverseLooksUp(Mapping(kept));
    ProfilesAreOfMembers(members, outcomes, sources);
    ProfilesInOrder(members, outcomes, sources);
    forall p: nat | p < |kept| ensures SourceIndex(sources, p) == kept[p].index {
      assert Mapping(kept)[p] == (kept[p].index, p);
    }
    forall p: nat, c: nat ensures Profile(p, c) in ProfilesOf(members, outcomes, sources) <==>
      0 <= p < |kept| && kept[p].role == Data && kept[p].index in outcomes && outcomes[kept[p].index] == Some(c)
    {
      if 0 <= p < |kept| && ProfileOf(members[p], outcomes, sources) == Some(Profile(p, c)) {
        assert members[p] in members;
      }
      if m :| m in members && ProfileOf(m, outcomes, sources) == Some(Profile(p, c)) {
        assert m == members[p];
      }
    }
  }

  // ---- The snapshot ----------------------------------------------------------------------

  function Identity(members: seq<Member>): IndexMapping
  {
    seq(|members|, i requires 0 <= i < |members| => (members[i].index, members[i].index))
  }

  function PaidMembers(members: seq<Member>): int
  {
    if members == [] then 0
    else
      var m := members[|members| - 1];
      PaidMembers(members[..|members| - 1]) + (if m.role == Data then 1 else 0) - (if m.isSample then 1 else 0)
  }

  ghost function DataMembers(members: seq<Member>): set<nat>
  {
    set i: nat | i < |members| && members[i].role == Data
  }

  ghost function SampleMembers(members: seq<Member>): set<nat>
  {
    set i: nat | i < |members| && members[i].isSample
  }

  lemma {:induction false} PaidMembersCount(members: seq<Member>)
    ensures PaidMembers(members) == |DataMembers(members)| - |SampleMembers(members)|
  {
    if members != [] {
      PaidMembersCount(members[..|members| - 1]);
      LastCounts(members);
    }
  }

  lemma LastCounts(members: seq<Member>)
    requires members != []
    ensures var front, m := members[..|members| - 1], members[|members| - 1];
      && |DataMembers(members)| == |DataMembers(front)| + (if m.role == Data then 1 else 0)
      && |SampleMembers(members)| == |SampleMembers(front)| + (if m.isSample then 1 else 0)
  {
    var n := |members| - 1;
    var data, samples := DataMembers(members[..n]), SampleMembers(members[..n]);
    assert DataMembers(members) == if members[n].role == Data then data + {n} else data;
    assert SampleMembers(members) == if members[n].isSample then samples + {n} else samples;
  }

  /** The mapping a frozen manifest is read with: one without any is taken to number its
      members as they were registered. */
  function MappingOf(r: Retained): IndexMapping
  {
    if r.mapping == [] then Identity(r.members) else r.mapping
  }

  predicate Resumable(db: Db)
  {
    && db.progress.Some? && db.progress.value.status == PendingMembers
    && (db.progress.value.version, db.progress.value.hash) in db.store
  }

  /** The frozen manifest a pending publish resumes, with what was persisted of it. */
  function Resumed(env: Env, db: Db): Local
    requires Resumable(db)
  {
    var p := db.progress.value;
    var r := db.store[(p.version, p.hash)];
    Local(r.root, r.members, env.hash(r.members), p.title, p.offset, p.accepted, MappingOf(r), Some(p.version))
  }

  function Fresh(env: Env, db: Db, requested: Option<nat>): Local
  {
    var members := Renumbered(Kept(db.rows));
    var h := env.hash(members);
    Local(db.root, members, h, if requested.Some? then Named(requested.value) else FromHash(h), 0, {},
          Mapping(Kept(db.rows)), None)
  }

  predicate AnyMissing(rows: seq<Row>)
  {
    exists r :: r in rows && r.status == Missing
  }

  function Snapshot(env: Env, db: Db, requested: Option<nat>): Result<Local>
  {
    if !Resumable(db) && AnyMissing(db.rows) then Err(CONFLICT)
    else
      var local := if Resumable(db) then Resumed(env, db) else Fresh(env, db, requested);
      if !env.wellFormed(local.members) then Err(if Resumable(db) then INTERNAL else CONFLICT)
      else if PaidMembers(local.members) < 1 || !env.samplesFit(local.members) then Err(CONFLICT)
      else Ok(local)
  }

  /** Fewer samples than data members, every member well formed, the samples within limits. */
  ghost predicate Publishable(env: Env, members: seq<Member>)
  {
    env.wellFormed(members) && |SampleMembers(members)| < |DataMembers(members)| && env.samplesFit(members)
  }

  /** Every surviving row is the member at its rank, and there are no other members. */
  ghost predicate MadeOf(rows: seq<Row>, members: seq<Member>)
  {
    && (forall r :: r in rows && r.status != Removed ==> MemberOf(rows, r, members))
    && (forall p: nat :: p < |members| ==> HasRow(rows, p))
  }

  predicate MemberOf(rows: seq<Row>, r: Row, members: seq<Member>)
  {
    var p := Below(rows, r.index);
    p < |members| && members[p] == Member(p, r.content, r.role, r.isSample)
  }

  ghost predicate HasRow(rows: seq<Row>, p: nat)
  {
    exists r :: r in rows && r.status != Removed && Below(rows, r.index) == p
  }

  lemma RenumberedMadeOf(rows: seq<Row>)
    requires Ordered(rows)
    ensures MadeOf(rows, Renumbered(Kept(rows)))
  {
    var kept := Kept(rows);
    KeptIsOrdered(rows);
    hide Ordered, Below, Kept;
    forall p: nat | p < |kept| ensures HasRow(rows, p) {
      assert kept[p] in kept;
      KeptAtRank(rows, p);
    }
    forall r | r in rows && r.status != Removed ensures MemberOf(rows, r, Renumbered(kept)) {
      var i: nat :| i < |kept| && kept[i] == r;
      KeptAtRank(rows, i);
    }
  }

  /**
   What a snapshot answers.  A pending publish resumes from its frozen manifest and its
   checkpoint, whatever the rows; any other is made of the rows that are not removed, and
   refused if one is missing.  Either way the members must be publishable.
   */
  lemma SnapshotAnswer(env: Env, db: Db, requested: Option<nat>)
    requires Ordered(db.rows)
    ensures WaitsForMembers(db) ==> ResumedAnswer(env, db, Snapshot(env, db, requested))
    ensures !WaitsForMembers(db) ==>
      exists members :: MadeOf(db.rows, members)
        && FreshAnswer(env, db, requested, members, Snapshot(env, db, requested))
  {
    PaidMembersCount(if Resumable(db) then Resumed(env, db).members else Renumbered(Kept(db.rows)));
    if !Resumable(db) {
      RenumberedMadeOf(db.rows);
      assert FreshAnswer(env, db, requested, Renumbered(Kept(db.rows)), Snapshot(env, db, requested));
    }
  }

  /** The last publish waits for members, and the manifest it froze is stored. */
  predicate WaitsForMembers(db: Db)
  {
    match db.progress
    case None => false
    case Some(p) => p.status.PendingMembers? && (p.version, p.hash) in db.store
  }

  ghost predicate ResumedAnswer(env: Env, db: Db, s: Result<Local>)
    requires WaitsForMembers(db)
  {
    var p := db.progress.value;
    var r := db.store[(p.version, p.hash)];
    && (s.Ok? <==> Publishable(env, r.members))
    && (s.Err? ==> s.code == if env.wellFormed(r.members) then 409 else 500)
    && (s.Ok? ==>
          s.value == Local(r.root, r.members, env.hash(r.members), p.title, p.offset, p.accepted, MappingOf(r),
                           Some(p.version)))
  }

  ghost predicate FreshAnswer(env: Env, db: Db, requested: Option<nat>, members: seq<Member>, s: Result<Local>)
  {
    && (s.Ok? <==> (forall r :: r in db.rows ==> r.status != Missing) && Publishable(env, members))
    && (s.Err? ==> s.code == 409)
    && (s.Ok? ==>
          var title := if requested.Some? then Named(requested.value) else FromHash(env.hash(members));
          s.value == Local(db.root, members, env.hash(members), title, 0, {}, Mapping(Kept(db.rows)), None))
  }

  // ---- The two transactions ------------------------------------------------------------------

  function Freeze(local: Local): Retained
  {
    Retained(local.root, local.members, local.mapping)
  }

  predicate Conflicts(store: Store, v: Version, local: Local)
  {
    && (v, local.hash) in store
    && (store[(v, local.hash)].root != local.root || store[(v, local.hash)].members != local.members)
  }

  function Recorded(db: Db, local: Local, v: Version, status: Status): Result<Db>
  {
    if Conflicts(db.store, v, local) then Err(CONFLICT)
    else Ok(db.(
      store := if (v, local.hash) in db.store then db.store else db.store[(v, local.hash) := Freeze(local)],
      progress := Some(Progress(v, local.hash, local.title, status, local.offset, local.accepted))))
  }

  function Checkpointed(db: Db, offset: nat, status: Status, sample: Option<nat>): Result<Db>
  {
    if db.progress.None? then Err(CONFLICT)
    else
      var p := db.progress.value;
      Ok(db.(progress := Some(p.(offset := offset, status := status,
        accepted := if sample.Some? then p.accepted + {sample.value} else p.accepted))))
  }

  class LocalPublish {
    var rows: seq<Row>
    var root: Root
    var progress: Option<Progress>
    var manifests: Store

    function Contents(): Db
      reads this
    {
      Db(rows, root, progress, manifests)
    }

    constructor (rows: seq<Row>, root: Root, manifests: Store)
      ensures Contents() == Db(rows, root, None, manifests)
    {
      this.rows, this.root, progress, this.manifests := rows, root, None, manifests;
    }

    method RecordLocalPublish(local: Local, version: Version, status: Status) returns (error: Option<nat>)
      modifies this`manifests, this`progress
      ensures Recorded(old(Contents()), local, version, status) ==
        if error.Some? then Err(error.value) else Ok(Contents())
      ensures error.Some? ==> Contents() == old(Contents())
    {
      var key := (version, local.hash);
      if key in manifests && (manifests[key].root != local.root || manifests[key].members != local.members) {
        return Some(CONFLICT);
      }
      if key !in manifests {
        manifests := manifests[key := Retained(local.root, local.members, local.mapping)];
      }
      progress := Some(Progress(version, local.hash, local.title, status, local.offset, local.accepted));
      return None;
    }

    method LocalProgress(offset: nat, status: Status, sample: Option<nat>) returns (error: Option<nat>)
      modifies this`progress
      ensures Checkpointed(old(Contents()), offset, status, sample) ==
        if error.Some? then Err(error.value) else Ok(Contents())
      ensures error.Some? ==> Contents() == old(Contents())
    {
      if progress.None? { return Some(CONFLICT); }
      progress := Some(progress.value.(offset := offset, status := status));
      if sample.Some? {
        progress := Some(progress.value.(accepted := progress.value.accepted + {sample.value}));
      }
      return None;
    }
  }

  /** Once recorded as pending, a publish resumes as it was, whatever became of the rows,
      the root and the requested label: same bytes, same root, same title, same hash, so
      the same upload; and it continues from where the last checkpoint left it. */
  lemma RecordThenResume(env: Env, before: Db, asked: Option<nat>, db: Db, local: Local, v: Version,
                         offset: nat, sample: Option<nat>, rows: seq<Row>, root: Root, requested: Option<nat>)
    requires Snapshot(env, before, asked) == Ok(local)
    requires Recorded(db, local, v, PendingMembers).Ok?
    ensures var recorded := Recorded(db, local, v, PendingMembers).value;
      var later := Checkpointed(recorded, offset, PendingMembers, sample).value.(rows := rows, root := root);
      var r := Snapshot(env, later, requested);
      && r.Ok?
      && (r.value.members, r.value.root, r.value.title, r.value.hash) ==
        (local.members, local.root, local.title, local.hash)
      && r.value.retained == Some(v) && r.value.offset == offset
      && r.value.accepted == local.accepted + (if sample.Some? then {sample.value} else {})
  {
    var recorded := Recorded(db, local, v, PendingMembers).value;
    assert (v, local.hash) in recorded.store && recorded.store[(v, local.hash)].members == local.members;
  }
}
