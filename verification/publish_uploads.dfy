/**
 That an upload gets on (app/services/marketplace_push_service.py,
 app/services/sample_upload_client.py, called from app/routers/marketplace_publish.py):
 where each acknowledged step leaves an attempt, and after how many steps it is done.
 */
module PublishUploads {
  import opened Wrappers
  import opened Publish
  import opened PublishRuns

  // ---- One step ------------------------------------------------------------------------------

  /** The first sample of the manifest, from position `i` on, that was not accepted before. */
  ghost predicate FirstOwed(local: Local, i: nat, j: nat)
  {
    && i <= j < |local.members| && Owed(local, j)
    && forall k :: i <= k < j ==> !Owed(local, k)
  }

  /** All samples from position `i` on are dealt with: at the next one owed, or done. */
  ghost predicate AtSamples(a: Attempt, local: Local, v: Version, i: nat, status: Status)
  {
    || (exists j: nat :: FirstOwed(local, i, j) && a == Sampling(local, v, j))
    || ((forall k :: i <= k < |local.members| ==> !Owed(local, k)) && a == Closing(local, v, status))
  }

  lemma SamplesFromExactly(local: Local, v: Version, i: nat, status: Status)
    requires i <= |local.members|
    ensures AtSamples(SamplesFrom(local, v, i, status), local, v, i, status)
  {
    var j := NextSample(local, i);
    assert j < |local.members| ==> FirstOwed(local, i, j);
  }

  /** Where the members of one request end. */
  function RequestEnd(env: Env, local: Local, next: nat): nat
  {
    if |local.members| - next <= env.chunk then |local.members| else next + env.chunk
  }

  predicate Final(s: Status) { s.Active? || s.Quarantined? || s.Superseded? }

  /** A chunk acknowledged leaves its attempt past exactly the members sent: at the next chunk,
      at the samples if the version still waits for members, or at its end. */
  ghost predicate AfterChunk(a: Attempt, local: Local, v: Version, end: nat, status: Status)
  {
    if Final(status) then a == Closing(local, v, status)
    else if end < |local.members| then a == Sending(local, v, end)
    else if status == PendingMembers then AtSamples(a, local, v, 0, PendingMembers)
    else a == Closing(local, v, status)
  }

  lemma ChunkAnswer(env: Env, st: State, a: nat, ack: Ack)
    requires Enabled(st, SendChunk(a, ack)) && ack.Acked? && st.db.progress.Some?
    ensures var st', Sending(local, v, next) := OnChunk(env, st, a, ack), st.attempts[a];
      var end, status := RequestEnd(env, local, next), OrPending(ack.status);
      && next < end <= |local.members|
      && st'.received == st.received + (set k | next <= k < end :: (v, local.members[k]))
      && st'.db == st.db.(progress := Some(st.db.progress.value.(offset := end, status := status)))
      && AfterChunk(st'.attempts[a], local, v, end, status)
  {
    var Sending(local, v, next) := st.attempts[a];
    var end := RequestEnd(env, local, next);
    SamplesFromExactly(local, v, 0, PendingMembers);
    TakenExactly(v, local.members, next, end);
    hide Taken, AtSamples, SamplesFrom;
  }

  lemma TakenExactly(v: Version, members: seq<Member>, next: nat, end: nat)
    requires next <= end <= |members|
    ensures Taken(v, members[next..end]) == (set k | next <= k < end :: (v, members[k]))
  {
    forall k | next <= k < end ensures (v, members[k]) in Taken(v, members[next..end]) {
      assert members[next..end][k - next] == members[k];
    }
  }

  /** A sample acknowledged is recorded as accepted, and leaves its attempt past it. */
  lemma SampleAnswer(env: Env, st: State, a: nat, ack: Ack)
    requires Enabled(st, SendSample(a, ack)) && ack.Acked? && st.db.progress.Some?
    ensures var st', Sampling(local, v, at) := OnSample(st, a, ack), st.attempts[a];
      var p, index, status := st.db.progress.value, local.members[at].index, OrPending(ack.status);
      && st'.samples == st.samples + {(v, index)}
      && st'.db == st.db.(progress :=
        Some(p.(offset := |local.members|, status := status, accepted := p.accepted + {index})))
      && if Final(status) then st'.attempts[a] == Closing(local, v, status)
         else AtSamples(st'.attempts[a], local, v, at + 1, status)
  {
    var Sampling(local, v, at) := st.attempts[a];
    SamplesFromExactly(local, v, at + 1, OrPending(ack.status));
    hide AtSamples, SamplesFrom;
  }

  /** What is lost or cannot be read ends its attempt, and the record stays as it is; the receiver
      has what it took before the answer was lost. */
  lemma LossAnswer(env: Env, st: State, e: Event)
    requires Enabled(st, e) && (e.Unreadable? || e.Crash? || ((e.SendChunk? || e.SendSample?) && e.ack.Lost?))
    ensures var st' := Next(env, st, e);
      && st'.attempts == st.attempts[e.a := Ended] && st'.db == st.db
      && (e.SendChunk? && e.ack.taken ==>
            var Sending(local, v, next) := st.attempts[e.a];
            st'.received == st.received + (set k | next <= k < RequestEnd(env, local, next) :: (v, local.members[k])))
      && (e.SendSample? && e.ack.taken ==>
            var Sampling(local, v, at) := st.attempts[e.a];
            st'.samples == st.samples + {(v, local.members[at].index)})
  {
    if e.SendChunk? {
      var Sending(local, v, next) := st.attempts[e.a];
      TakenExactly(v, local.members, next, RequestEnd(env, local, next));
    }
    hide Taken;
  }

  // ---- How many steps are left ---------------------------------------------------------------

  /** Requests needed for this many members. */
  function Requests(n: nat, chunk: Positive): nat
  {
    if n <= chunk then (if n == 0 then 0 else 1) else 1 + Requests(n - chunk, chunk)
  }

  /** That is the quotient, rounded up. */
  lemma {:induction false} RequestsRoundUp(n: nat, chunk: Positive)
    ensures n <= Requests(n, chunk) * chunk < n + chunk
  {
    if n > chunk {
      RequestsRoundUp(n - chunk, chunk);
      assert Requests(n, chunk) * chunk == Requests(n - chunk, chunk) * chunk + chunk;
    }
  }

  /** How many samples from position `i` on are still owed. */
  function OwedFrom(local: Local, i: nat): nat
    requires i <= |local.members|
    decreases |local.members| - i
  {
    if i == |local.members| then 0 else (if Owed(local, i) then 1 else 0) + OwedFrom(local, i + 1)
  }

  predicate Uploading(a: Attempt)
  {
    match a
    case Sending(local, _, next) => next < |local.members|
    case Sampling(local, _, at) => at < |local.members| && Owed(local, at)
    case Closing(_, _, _) => true
    case _ => false
  }

  /** The acknowledged steps before an upload closes. */
  function Left(env: Env, a: Attempt): nat
    requires Uploading(a)
  {
    match a
    case Sending(local, _, next) => Requests(|local.members| - next, env.chunk) + OwedFrom(local, 0)
    case Sampling(local, _, at) => OwedFrom(local, at)
    case Closing(_, _, _) => 0
  }

  lemma {:induction false} SkipsNothing(local: Local, i: nat, j: nat)
    requires i <= j <= |local.members| && forall k :: i <= k < j ==> !Owed(local, k)
    ensures OwedFrom(local, i) == OwedFrom(local, j)
    decreases j - i
  {
    if i < j { SkipsNothing(local, i + 1, j); }
  }

  lemma AtSamplesLeft(env: Env, a: Attempt, local: Local, v: Version, i: nat, status: Status)
    requires AtSamples(a, local, v, i, status) && i <= |local.members|
    ensures Uploading(a) && Left(env, a) == OwedFrom(local, i)
  {
    if j: nat :| FirstOwed(local, i, j) && a == Sampling(local, v, j) {
      SkipsNothing(local, i, j);
    } else {
      SkipsNothing(local, i, |local.members|);
    }
  }

  lemma AfterChunkLeft(env: Env, a: Attempt, local: Local, v: Version, next: nat)
    requires next < |local.members| && AfterChunk(a, local, v, RequestEnd(env, local, next), PendingMembers)
    ensures Uploading(a) && Left(env, a) + 1 == Left(env, Sending(local, v, next))
  {
    if RequestEnd(env, local, next) == |local.members| { AtSamplesLeft(env, a, local, v, 0, PendingMembers); }
  }

  // ---- Whole runs ----------------------------------------------------------------------------

  /** The step is this attempt's, and acknowledged with the version still pending. */
  predicate Acknowledged(e: Event, a: nat)
  {
    && (e.SendChunk? || e.SendSample?) && e.a == a && e.ack.Acked? && OrPending(e.ack.status) == PendingMembers
  }

  predicate Own(e: Event, a: nat) { !e.Register? && e.a == a }

  /** How many of the steps from `i` to `j` are this attempt's own. */
  function Steps(es: seq<Event>, a: nat, i: nat, j: nat): nat
    requires i <= j <= |es|
    decreases j - i
  {
    if i == j then 0 else Steps(es, a, i, j - 1) + if Own(es[j - 1], a) then 1 else 0
  }

  /** What of the manifest the receiver has, from this position of the attempt back to where it
      was at `from`. */
  ghost predicate SentSince(st: State, from: Attempt, to: Attempt)
    requires Uploading(from) && Uploading(to)
  {
    && to.local == from.local && to.version == from.version
    && (forall k :: Position(from) <= k < Position(to) ==> (from.version, from.local.members[k]) in st.received)
    && (forall k :: SamplePosition(from) <= k < SamplePosition(to) && Owed(from.local, k) ==>
          (from.version, from.local.members[k].index) in st.samples)
  }

  /** How far the members, and the samples, have been gone through. */
  function Position(a: Attempt): nat
    requires Uploading(a)
  {
    if a.Sending? then a.next else |a.local.members|
  }

  function SamplePosition(a: Attempt): nat
    requires Uploading(a)
  {
    match a
    case Sending(_, _, _) => 0
    case Sampling(_, _, at) => at
    case Closing(local, _, _) => |local.members|
  }

  predicate StillPending(a: Attempt)
  {
    Uploading(a) && (a.Closing? ==> a.status == PendingMembers)
  }

  lemma ChunkProgress(env: Env, st: State, e: Event, from: Attempt)
    requires Enabled(st, e) && e.SendChunk? && Acknowledged(e, e.a) && st.db.progress.Some?
    requires Uploading(from) && SentSince(st, from, st.attempts[e.a])
    ensures var st' := OnChunk(env, st, e.a, e.ack);
      && StillPending(st'.attempts[e.a]) && SentSince(st', from, st'.attempts[e.a])
      && Left(env, st'.attempts[e.a]) + 1 == Left(env, st.attempts[e.a])
  {
    var Sending(local, v, next) := st.attempts[e.a];
    ChunkAnswer(env, st, e.a, e.ack);
    var st' := OnChunk(env, st, e.a, e.ack);
    var to := st'.attempts[e.a];
    hide OnChunk;
    AfterChunkLeft(env, to, local, v, next);
    AtStart(local, to);
    hide Left, Owed;
  }

  /** Coming to the samples skips none that is owed. */
  lemma AtStart(local: Local, to: Attempt)
    ensures forall v, i: nat, status :: AtSamples(to, local, v, i, status) && i <= |local.members| ==>
      Uploading(to) && Position(to) == |local.members| && i <= SamplePosition(to)
        && forall k :: i <= k < SamplePosition(to) ==> !Owed(local, k)
  {
  }

  lemma SampleProgress(env: Env, st: State, e: Event, from: Attempt)
    requires Enabled(st, e) && e.SendSample? && Acknowledged(e, e.a) && st.db.progress.Some?
    requires Uploading(from) && Uploading(st.attempts[e.a]) && SentSince(st, from, st.attempts[e.a])
    ensures var st' := OnSample(st, e.a, e.ack);
      && StillPending(st'.attempts[e.a]) && SentSince(st', from, st'.attempts[e.a])
      && Left(env, st'.attempts[e.a]) + 1 == Left(env, st.attempts[e.a])
  {
    var Sampling(local, v, at) := st.attempts[e.a];
    SampleAnswer(env, st, e.a, e.ack);
    var st' := OnSample(st, e.a, e.ack);
    SampleKeepsMembers(st, e.a, e.ack);
    hide OnSample;
    AtSamplesLeft(env, st'.attempts[e.a], local, v, at + 1, PendingMembers);
    AtStart(local, st'.attempts[e.a]);
    hide Left, Owed;
  }

  lemma SampleKeepsMembers(st: State, a: nat, ack: Ack)
    requires Enabled(st, SendSample(a, ack))
    ensures OnSample(st, a, ack).received == st.received
  {
  }

  lemma SentLater(st: State, st': State, from: Attempt, to: Attempt)
    requires Uploading(from) && Uploading(to) && SentSince(st, from, to)
    requires st.received <= st'.received && st.samples <= st'.samples
    ensures SentSince(st', from, to)
  {
    hide Owed, Position, SamplePosition;
  }

  lemma ReceiverGrows(env: Env, st: State, e: Event)
    requires Enabled(st, e)
    ensures st.received <= Next(env, st, e).received && st.samples <= Next(env, st, e).samples
  {
    hide Snapshot, Conflicts, Taken;
  }

  lemma UploadStep(env: Env, st: State, e: Event, a: nat, from: Attempt)
    requires Enabled(st, e) && a in st.attempts && StillPending(st.attempts[a]) && st.db.progress.Some?
    requires Uploading(from) && SentSince(st, from, st.attempts[a]) && (Own(e, a) ==> Acknowledged(e, a))
    ensures var st' := Next(env, st, e);
      && a in st'.attempts && StillPending(st'.attempts[a]) && SentSince(st', from, st'.attempts[a])
      && Left(env, st'.attempts[a]) + (if Own(e, a) then 1 else 0) == Left(env, st.attempts[a])
  {
    Frame(env, st, e);
    ReceiverGrows(env, st, e);
    if Own(e, a) {
      if e.SendChunk? { ChunkProgress(env, st, e, from); } else { SampleProgress(env, st, e, from); }
    } else {
      OthersStay(env, st, e, a);
      SentLater(st, Next(env, st, e), from, st.attempts[a]);
    }
    hide Enabled, OnChunk, OnSample, OnReply, OnFinish, Left, SentSince;
  }

  lemma OthersStay(env: Env, st: State, e: Event, a: nat)
    requires Enabled(st, e) && a in st.attempts && !Own(e, a)
    ensures a in Next(env, st, e).attempts && Next(env, st, e).attempts[a] == st.attempts[a]
  {
    hide Snapshot, Conflicts;
  }

  /** An attempt that knows its version has made a record, and the record stays. */
  ghost predicate Recording(st: State)
  {
    st.db.progress.None? ==> forall a :: a in st.attempts ==> st.attempts[a].Ready? || st.attempts[a].Ended?
  }

  lemma RecordingStep(env: Env, st: State, e: Event)
    requires Enabled(st, e) && Recording(st)
    ensures Recording(Next(env, st, e))
  {
    hide Conflicts, Snapshot;
  }

  lemma {:induction false} RunRecording(env: Env, tr: seq<State>, es: seq<Event>, i: nat)
    requires IsRun(env, tr, es) && i < |tr|
    ensures Recording(tr[i])
  {
    hide Enabled, Next;
    if i > 0 {
      RunRecording(env, tr, es, i - 1);
      assert Enabled(tr[i - 1], es[i - 1]) && tr[i - 1 + 1] == Next(env, tr[i - 1], es[i - 1]);
      RecordingStep(env, tr[i - 1], es[i - 1]);
    }
  }

  ghost predicate AllAcknowledged(es: seq<Event>, a: nat, i: nat, j: nat)
    requires i <= j <= |es|
  {
    forall k :: i <= k < j && Own(es[k], a) ==> Acknowledged(es[k], a)
  }

  /**
   An upload whose own steps are all acknowledged as pending gets on by exactly one with each of
   them, whatever other attempts do and whatever record stands: what it has left falls by
   one, and the receiver has what it went past.
   */
  lemma {:induction false} UploadAdvances(env: Env, tr: seq<State>, es: seq<Event>, i: nat, j: nat, a: nat)
    requires IsRun(env, tr, es) && i <= j < |tr| && a in tr[i].attempts && StillPending(tr[i].attempts[a])
    requires AllAcknowledged(es, a, i, j)
    ensures a in tr[j].attempts && StillPending(tr[j].attempts[a])
    ensures Left(env, tr[j].attempts[a]) + Steps(es, a, i, j) == Left(env, tr[i].attempts[a])
    ensures SentSince(tr[j], tr[i].attempts[a], tr[j].attempts[a])
    decreases j - i
  {
    hide Enabled, Next, Left, StillPending, SentSince, Acknowledged, Own;
    if i < j {
      UploadAdvances(env, tr, es, i, j - 1, a);
      assert Enabled(tr[j - 1], es[j - 1]) && tr[j - 1 + 1] == Next(env, tr[j - 1], es[j - 1]);
      RunRecording(env, tr, es, j - 1);
      PendingHasRecord(tr[j - 1], a);
      PendingIsUploading(tr[i].attempts[a]);
      UploadStep(env, tr[j - 1], es[j - 1], a, tr[i].attempts[a]);
    } else {
      SentNothing(tr[i], tr[i].attempts[a]);
    }
  }

  lemma PendingIsUploading(a: Attempt)
    requires StillPending(a)
    ensures Uploading(a)
  {
  }

  lemma PendingHasRecord(st: State, a: nat)
    requires Recording(st) && a in st.attempts && StillPending(st.attempts[a])
    ensures st.db.progress.Some?
  {
  }

  lemma SentNothing(st: State, a: Attempt)
    requires StillPending(a)
    ensures Uploading(a) && SentSince(st, a, a)
  {
  }

  /** An upload with something left can take its next step. */
  lemma UploadIsEnabled(env: Env, st: State, a: nat, ack: Ack)
    requires a in st.attempts && Uploading(st.attempts[a])
    ensures Left(env, st.attempts[a]) > 0 ==> Enabled(st, SendChunk(a, ack)) || Enabled(st, SendSample(a, ack))
    ensures Left(env, st.attempts[a]) == 0 <==> st.attempts[a].Closing?
  {
  }

  // ---- From the reply to the end ---------------------------------------------------------------

  /** A different manifest is stored under this version and hash. */
  predicate Contradicts(s: Store, v: Version, local: Local)
  {
    (v, local.hash) in s && (s[(v, local.hash)].root, s[(v, local.hash)].members) != (local.root, local.members)
  }

  /** Where the publish itself leaves an attempt: at the first member that was not acknowledged
      for this version, if the version waits for members, or at its end. */
  ghost predicate AfterReply(a: Attempt, local: Local, v: Version, status: Option<Status>)
  {
    if status != Some(PendingMembers) then a == Closing(local, v, if status.Some? then status.value else PendingMembers)
    else if local.offset < |local.members| then a == Sending(local, v, local.offset)
    else AtSamples(a, local, v, 0, PendingMembers)
  }

  lemma ReplyAnswer(env: Env, st: State, a: nat, v: Version, status: Option<Status>)
    requires Enabled(st, Reply(a, v, status))
    ensures var st', was := OnReply(st, a, v, status), st.attempts[a].local;
      var local := if was.retained == Some(v) then was else was.(offset := 0, accepted := {});
      if Contradicts(st.db.store, v, was) then st' == st.(attempts := st.attempts[a := Ended])
      else
        && AfterReply(st'.attempts[a], local, v, status)
        && st'.db == st.db.(
          store := if (v, was.hash) in st.db.store then st.db.store
                   else st.db.store[(v, was.hash) := Retained(was.root, was.members, was.mapping)],
          progress := Some(Progress(v, was.hash, was.title, if status.Some? then status.value else PendingMembers,
                                    local.offset, local.accepted)))
  {
    var local := ForVersion(st.attempts[a].local, v);
    SamplesFromExactly(local, v, 0, PendingMembers);
    hide SamplesFrom, AtSamples;
  }

  /** An attempt that begins is ready with its snapshot, or over if that is refused. */
  lemma BeginAnswer(env: Env, st: State, a: nat, requested: Option<nat>)
    requires Enabled(st, Begin(a, requested))
    ensures var s := Snapshot(env, st.db, requested);
      Next(env, st, Begin(a, requested)) == st.(attempts := st.attempts[a := if s.Ok? then Ready(s.value) else Ended])
  {
    hide Snapshot;
  }

  /** The last checkpoint claims every member, with the state the upload ended in. */
  lemma FinishAnswer(env: Env, st: State, a: nat)
    requires Enabled(st, Finish(a)) && st.db.progress.Some?
    ensures var st', at := OnFinish(st, a), st.attempts[a];
      && st'.attempts == st.attempts[a := Ended]
      && st'.db == st.db.(
        progress := Some(st.db.progress.value.(offset := |at.local.members|, status := at.status)))
  {
  }

  /** A resumed attempt that is answered with its own version goes on. */
  lemma ResumeGoesOn(env: Env, tr: seq<State>, es: seq<Event>, i: nat, a: nat, v: Version, status: Option<Status>)
    requires IsRun(env, tr, es) && i < |es| && es[i] == Reply(a, v, status)
    requires a in tr[i].attempts && tr[i].attempts[a].Ready? && tr[i].attempts[a].local.retained == Some(v)
    ensures a in tr[i + 1].attempts && AfterReply(tr[i + 1].attempts[a], tr[i].attempts[a].local, v, status)
  {
    assert Enabled(tr[i], es[i]) && tr[i + 1] == Next(env, tr[i], es[i]);
    ResumeIsFrozen(env, tr, es, i, a);
    ReplyAnswer(env, tr[i], a, v, status);
    hide AfterReply;
  }

  lemma AfterReplyLeft(env: Env, a: Attempt, local: Local, v: Version)
    requires AfterReply(a, local, v, Some(PendingMembers))
    ensures StillPending(a) && a.local == local && a.version == v && SamplePosition(a) >= 0
    ensures Left(env, a) ==
      Requests(if local.offset < |local.members| then |local.members| - local.offset else 0, env.chunk)
      + OwedFrom(local, 0)
    ensures Position(a) == if local.offset < |local.members| then local.offset else |local.members|
    ensures forall k :: 0 <= k < SamplePosition(a) ==> !Owed(local, k)
  {
    if local.offset >= |local.members| {
      AtSamplesLeft(env, a, local, v, 0, PendingMembers);
      AtStart(local, a);
    }
  }

  /**
   A publish that is answered as pending at `i` and all of whose own steps after that are
   acknowledged as pending is done after as many steps as there are requests for the members
   that were not acknowledged before and samples that were not accepted before; the
   receiver has then been sent all of these.
   */
  lemma UploadCompletes(env: Env, tr: seq<State>, es: seq<Event>, i: nat, j: nat, a: nat, v: Version)
    requires IsRun(env, tr, es) && i < j < |tr| && es[i] == Reply(a, v, Some(PendingMembers))
    requires a in tr[i + 1].attempts && !tr[i + 1].attempts[a].Ended?
    requires AllAcknowledged(es, a, i + 1, j)
    requires var local := tr[i + 1].attempts[a].local;
      Steps(es, a, i + 1, j) ==
        Requests(if local.offset < |local.members| then |local.members| - local.offset else 0, env.chunk)
        + OwedFrom(local, 0)
    ensures var local := tr[i + 1].attempts[a].local;
      && a in tr[j].attempts && tr[j].attempts[a] == Closing(local, v, PendingMembers)
      && (forall k :: local.offset <= k < |local.members| ==> (v, local.members[k]) in tr[j].received)
      && (forall k :: 0 <= k < |local.members| && Owed(local, k) ==> (v, local.members[k].index) in tr[j].samples)
  {
    hide Next, Enabled, AfterReply, Left, Steps, OwedFrom, Owed;
    assert Enabled(tr[i], es[i]) && tr[i + 1] == Next(env, tr[i], es[i]);
    NextIsReply(env, tr[i], a, v, Some(PendingMembers));
    ReplyAnswer(env, tr[i], a, v, Some(PendingMembers));
    var from := tr[i + 1].attempts[a];
    var was := tr[i].attempts[a].local;
    AfterReplyLeft(env, from, if was.retained == Some(v) then was else was.(offset := 0, accepted := {}), v);
    UploadAdvances(env, tr, es, i + 1, j, a);
    UploadIsEnabled(env, tr[j], a, Lost(false));
  }

  lemma NextIsReply(env: Env, st: State, a: nat, v: Version, status: Option<Status>)
    requires Enabled(st, Reply(a, v, status))
    ensures Next(env, st, Reply(a, v, status)) == OnReply(st, a, v, status)
    ensures a in st.attempts && st.attempts[a].Ready?
  {
    hide OnReply;
  }
}
