/**
 The synthetic platform that answers disclosure requests
 (scripts/build_preview_producer_evidence.py): saved results by request id, and for
 each seller and listing the version of the current disclosure.

 `digest` stands for the request digest, an arbitrary function where nothing is said
 about it and an injective one where it is.
 */
module DisclosureReplay {
  import opened Wrappers
  import opened Disclosure

  type Owner = (nat, nat)
  type Key = (nat, nat, nat)

  datatype Outcome = Decided(decisionId: nat, version: nat, decision: Decision)

  datatype LifecycleError = RequestIdConflict | StaleExpectedHead

  datatype Answer = Ok(outcome: Outcome) | Err(error: LifecycleError)

  datatype Replay = Replay(results: map<Key, (Digest, Outcome)>, heads: map<Owner, nat>)

  const EMPTY := Replay(map[], map[])

  function OwnerOf(r: Request): Owner { (r.binding.seller, r.binding.listing) }

  function KeyOf(r: Request): Key { (r.binding.seller, r.binding.listing, r.binding.requestId) }

  function OutcomeOf(r: Request): Outcome { Decided(r.binding.requestId, r.binding.version, r.binding.decision) }

  function Head(p: Replay, owner: Owner): Option<nat>
  {
    if owner in p.heads then Some(p.heads[owner]) else None
  }

  /** A request not answered before that names the current head. */
  predicate Takes(p: Replay, r: Request)
  {
    KeyOf(r) !in p.results && r.binding.expected == Head(p, OwnerOf(r))
  }

  function Applied(p: Replay, r: Request, digest: Request -> Digest): (Replay, Answer)
  {
    if KeyOf(r) in p.results then
      (p, if p.results[KeyOf(r)].0 == digest(r) then Ok(p.results[KeyOf(r)].1) else Err(RequestIdConflict))
    else if !Takes(p, r) then (p, Err(StaleExpectedHead))
    else (Replay(p.results[KeyOf(r) := (digest(r), OutcomeOf(r))], p.heads[OwnerOf(r) := r.binding.version]),
      Ok(OutcomeOf(r)))
  }

  predicate IsCurrent(p: Replay, b: Binding)
  {
    Head(p, (b.seller, b.listing)) == Some(b.version) && b.decision == Approve && b.sampleApproved
  }

  class FixtureReplay {
    var results: map<Key, (Digest, Outcome)>
    var heads: map<Owner, nat>

    function Contents(): Replay
      reads this
    {
      Replay(results, heads)
    }

    constructor ()
      ensures Contents() == EMPTY
    {
      results, heads := map[], map[];
    }

    method Apply(request: Request, digest: Request -> Digest) returns (answer: Answer)
      modifies this
      ensures (Contents(), answer) == Applied(old(Contents()), request, digest)
    {
      var d, binding := digest(request), request.binding;
      var key := (binding.seller, binding.listing, binding.requestId);
      if key in results {
        var saved := results[key];
        if saved.0 != d { return Err(RequestIdConflict); }
        return Ok(saved.1);
      }
      var owner := (key.0, key.1);
      if binding.expected != (if owner in heads then Some(heads[owner]) else None) { return Err(StaleExpectedHead); }
      var outcome := Decided(binding.requestId, binding.version, binding.decision);
      results := results[key := (d, outcome)];
      heads := heads[owner := binding.version];
      return Ok(outcome);
    }

    method Current(binding: Binding) returns (current: bool)
      ensures current == IsCurrent(Contents(), binding)
    {
      var owner := (binding.seller, binding.listing);
      return owner in heads && heads[owner] == binding.version && binding.decision == Approve && binding.sampleApproved;
    }
  }

  // ---- Runs --------------------------------------------------------------------------------------

  function After(rs: seq<Request>, digest: Request -> Digest): Replay
  {
    if rs == [] then EMPTY else Applied(After(rs[..|rs| - 1], digest), rs[|rs| - 1], digest).0
  }

  /** The requests of one owner that were decided, in order. */
  function Chain(rs: seq<Request>, owner: Owner, digest: Request -> Digest): seq<Request>
  {
    if rs == [] then []
    else
      var front, r := rs[..|rs| - 1], rs[|rs| - 1];
      Chain(front, owner, digest) + if OwnerOf(r) == owner && Takes(After(front, digest), r) then [r] else []
  }

  lemma {:induction false} HeadIsLast(rs: seq<Request>, owner: Owner, digest: Request -> Digest)
    ensures var c := Chain(rs, owner, digest);
      Head(After(rs, digest), owner) == if c == [] then None else Some(c[|c| - 1].binding.version)
  {
    if rs != [] { HeadIsLast(rs[..|rs| - 1], owner, digest); }
  }

  /** Every decision names the one before as the head it expects, the first names none. */
  ghost predicate Linked(c: seq<Request>)
  {
    forall i :: 0 <= i < |c| ==> LinkedAt(c, i)
  }

  predicate LinkedAt(c: seq<Request>, i: nat)
    requires i < |c|
  {
    c[i].binding.expected == if i == 0 then None else Some(c[i - 1].binding.version)
  }

  lemma LinkedOneMore(c: seq<Request>, r: Request)
    requires Linked(c) && r.binding.expected == if c == [] then None else Some(c[|c| - 1].binding.version)
    ensures Linked(c + [r])
  {
    forall i: nat | i < |c| + 1 ensures LinkedAt(c + [r], i) {
      if i < |c| { assert LinkedAt(c, i); }
    }
  }

  lemma OneMore(rs: seq<Request>, r: Request, owner: Owner, digest: Request -> Digest)
    ensures After(rs + [r], digest) == Applied(After(rs, digest), r, digest).0
    ensures Chain(rs + [r], owner, digest) ==
      Chain(rs, owner, digest) + if OwnerOf(r) == owner && Takes(After(rs, digest), r) then [r] else []
  {
    assert (rs + [r])[..|rs|] == rs;
  }

  lemma {:induction false} ChainIsLinked(rs: seq<Request>, owner: Owner, digest: Request -> Digest)
    ensures Linked(Chain(rs, owner, digest))
    ensures forall r :: r in Chain(rs, owner, digest) ==> r in rs && OwnerOf(r) == owner
  {
    if rs != [] {
      var n := |rs| - 1;
      var c := Chain(rs[..n], owner, digest);
      ChainIsLinked(rs[..n], owner, digest);
      HeadIsLast(rs[..n], owner, digest);
      assert rs == rs[..n] + [rs[n]];
      OneMore(rs[..n], rs[n], owner, digest);
      hide Chain, Linked, After;
      if OwnerOf(rs[n]) == owner && Takes(After(rs[..n], digest), rs[n]) {
        LinkedOneMore(c, rs[n]);
      } else {
        assert c + [] == c;
      }
    }
  }

  /** With the binding rules, the decisions of an owner form one line: each supersedes
      exactly the one accepted just before, and the first supersedes nothing, so it is no
      withdrawal. */
  lemma DecisionsFormOneLine(rs: seq<Request>, owner: Owner, digest: Request -> Digest, o: Oracle)
    requires forall r :: r in rs ==> BindingRules(o, r.binding).None?
    ensures var c := Chain(rs, owner, digest);
      && (c != [] ==> c[0].binding.supersedes.None? && c[0].binding.decision == Approve)
      && (forall i :: 0 < i < |c| ==>
            c[i].binding.supersedes == Some(c[i - 1].binding.version)
              && c[i].binding.version != c[i - 1].binding.version)
  {
    var c := Chain(rs, owner, digest);
    ChainIsLinked(rs, owner, digest);
    hide Chain, BindingRules;
    forall i | 0 <= i < |c| ensures ValidHead(c[i].binding) && LinkedAt(c, i) {
      assert LinkedAt(c, i) && c[i] in c && c[i] in rs;
      RulesFixTheHead(o, c[i].binding);
    }
  }

  predicate ValidHead(b: Binding)
  {
    && b.supersedes == b.expected && b.supersedes != Some(b.version)
    && (b.decision == Withdraw ==> b.supersedes.Some?)
  }

  lemma RulesFixTheHead(o: Oracle, b: Binding)
    requires BindingRules(o, b).None?
    ensures ValidHead(b)
  {
    hide SampleRules, NoGrant;
  }

  lemma {:induction false} SavedAreDecided(rs: seq<Request>, k: Key, digest: Request -> Digest)
    ensures k in After(rs, digest).results <==> exists r :: r in Chain(rs, (k.0, k.1), digest) && KeyOf(r) == k
    ensures k in After(rs, digest).results ==>
      exists r :: r in Chain(rs, (k.0, k.1), digest) && KeyOf(r) == k
        && After(rs, digest).results[k] == (digest(r), OutcomeOf(r))
  {
    if rs != [] {
      var front, r := rs[..|rs| - 1], rs[|rs| - 1];
      var owner := (k.0, k.1);
      SavedAreDecided(front, k, digest);
      if Takes(After(front, digest), r) && KeyOf(r) == k {
        assert Chain(rs, owner, digest)[|Chain(rs, owner, digest)| - 1] == r;
        assert r in Chain(rs, owner, digest) && After(rs, digest).results[k] == (digest(r), OutcomeOf(r));
      } else {
        assert k in After(rs, digest).results <==> k in After(front, digest).results;
        if k in After(front, digest).results {
          var q :| q in Chain(front, owner, digest) && KeyOf(q) == k
            && After(front, digest).results[k] == (digest(q), OutcomeOf(q));
          assert q in Chain(rs, owner, digest) && After(rs, digest).results[k] == (digest(q), OutcomeOf(q));
        }
      }
    }
  }

  ghost predicate Injective(digest: Request -> Digest)
  {
    forall r, q :: digest(r) == digest(q) ==> r == q
  }

  /** A request decided before changes nothing, whatever has happened since: the identical
      one gets the original result, any other under its id a conflict. */
  lemma ReplayIsIdempotent(rs: seq<Request>, r: Request, q: Request, digest: Request -> Digest)
    requires Injective(digest) && r in Chain(rs, OwnerOf(r), digest) && KeyOf(q) == KeyOf(r)
    ensures Applied(After(rs, digest), q, digest) ==
      (After(rs, digest), if q == r then Ok(OutcomeOf(r)) else Err(RequestIdConflict))
  {
    SavedAreDecided(rs, KeyOf(r), digest);
    var d :| d in Chain(rs, OwnerOf(r), digest) && KeyOf(d) == KeyOf(r)
      && After(rs, digest).results[KeyOf(r)] == (digest(d), OutcomeOf(d));
    DecidedOnce(rs, r, d, digest);
  }

  /** No request id is decided twice. */
  lemma {:induction false} DecidedOnce(rs: seq<Request>, r: Request, q: Request, digest: Request -> Digest)
    requires r in Chain(rs, OwnerOf(r), digest) && q in Chain(rs, OwnerOf(r), digest) && KeyOf(r) == KeyOf(q)
    ensures r == q
  {
    var front, last := rs[..|rs| - 1], rs[|rs| - 1];
    SavedAreDecided(front, KeyOf(r), digest);
    if r in Chain(front, OwnerOf(r), digest) && q in Chain(front, OwnerOf(r), digest) {
      DecidedOnce(front, r, q, digest);
    }
  }

  /** The last decision in a line, if any. */
  function LastVersion(c: seq<Request>): Option<nat>
  {
    if c == [] then None else Some(c[|c| - 1].binding.version)
  }

  /** The decision in the line that was made under the same request id. */
  ghost predicate Answers(c: seq<Request>, q: Request, r: Request)
  {
    q in c && q.binding.requestId == r.binding.requestId
  }

  /**
   Every answer, after any run: a request id that was decided gets the saved outcome if the
   request is the same and a conflict if it is not; any other request is decided, and becomes
   the last of its owner's line, exactly when it names the version of the last one.
   */
  lemma DecisionAnswer(rs: seq<Request>, r: Request, digest: Request -> Digest)
    ensures var c, a := Chain(rs, OwnerOf(r), digest), Applied(After(rs, digest), r, digest).1;
      && (forall q :: Answers(c, q, r) ==>
            a == if digest(q) == digest(r) then Ok(Decided(q.binding.requestId, q.binding.version, q.binding.decision))
                 else Err(RequestIdConflict))
      && ((forall q :: !Answers(c, q, r)) ==>
            a == if r.binding.expected == LastVersion(c)
                 then Ok(Decided(r.binding.requestId, r.binding.version, r.binding.decision))
                 else Err(StaleExpectedHead))
      && Chain(rs + [r], OwnerOf(r), digest) ==
        if (forall q :: !Answers(c, q, r)) && r.binding.expected == LastVersion(c) then c + [r] else c
  {
    var c := Chain(rs, OwnerOf(r), digest);
    SavedAreDecided(rs, KeyOf(r), digest);
    HeadIsLast(rs, OwnerOf(r), digest);
    ChainIsLinked(rs, OwnerOf(r), digest);
    OneMore(rs, r, OwnerOf(r), digest);
    assert c + [] == c;
    hide Chain, After, Linked;
    forall q | Answers(c, q, r)
      ensures KeyOf(r) in After(rs, digest).results
      ensures After(rs, digest).results[KeyOf(r)] == (digest(q), OutcomeOf(q))
    {
      assert OwnerOf(q) == OwnerOf(r) && KeyOf(q) == KeyOf(r);
      var d :| d in c && KeyOf(d) == KeyOf(r) && After(rs, digest).results[KeyOf(r)] == (digest(d), OutcomeOf(d));
      DecidedOnce(rs, q, d, digest);
    }
  }

  /** In every run a decided disclosure is current exactly when it approves a sample and the
      last decision of its owner carries its version, which is its own or one reused. */
  lemma CurrentIffLastVersion(rs: seq<Request>, owner: Owner, i: nat, digest: Request -> Digest)
    requires i < |Chain(rs, owner, digest)|
    ensures var c := Chain(rs, owner, digest);
      IsCurrent(After(rs, digest), c[i].binding) <==>
        c[i].binding.version == c[|c| - 1].binding.version && c[i].binding.decision == Approve
          && c[i].binding.sampleApproved
  {
    HeadIsLast(rs, owner, digest);
    ChainIsLinked(rs, owner, digest);
    assert Chain(rs, owner, digest)[i] in Chain(rs, owner, digest);
  }

  /** So, where an owner uses each version once, exactly while it is the last one decided. */
  lemma CurrentIffLast(rs: seq<Request>, owner: Owner, i: nat, digest: Request -> Digest)
    requires i < |Chain(rs, owner, digest)|
    requires forall j, k :: 0 <= j < k < |Chain(rs, owner, digest)| ==>
      Chain(rs, owner, digest)[j].binding.version != Chain(rs, owner, digest)[k].binding.version
    ensures var c := Chain(rs, owner, digest);
      IsCurrent(After(rs, digest), c[i].binding) <==>
        i == |c| - 1 && c[i].binding.decision == Approve && c[i].binding.sampleApproved
  {
    CurrentIffLastVersion(rs, owner, i, digest);
  }

  lemma {:induction false} ChainGrows(rs: seq<Request>, more: seq<Request>, owner: Owner, digest: Request -> Digest)
    ensures Chain(rs, owner, digest) <= Chain(rs + more, owner, digest)
  {
    if more == [] {
      assert rs + more == rs;
    } else {
      ChainGrows(rs, more[..|more| - 1], owner, digest);
      assert (rs + more)[..|rs + more| - 1] == rs + more[..|more| - 1];
    }
  }

  /** Whatever follows, a decided disclosure is current later exactly when a later last decision
      carries its version again. */
  lemma ComesBackIff(rs: seq<Request>, more: seq<Request>, owner: Owner, i: nat, digest: Request -> Digest)
    requires i < |Chain(rs, owner, digest)|
    ensures |Chain(rs + more, owner, digest)| >= |Chain(rs, owner, digest)|
    ensures var was, c := Chain(rs, owner, digest)[i].binding, Chain(rs + more, owner, digest);
      IsCurrent(After(rs + more, digest), was) <==>
        was.version == c[|c| - 1].binding.version && was.decision == Approve && was.sampleApproved
  {
    ChainGrows(rs, more, owner, digest);
    CurrentIffLastVersion(rs + more, owner, i, digest);
  }

  /** So, with distinct versions, one that was superseded is never current again, however
      often it is sent. */
  lemma SupersededStaysSuperseded(rs: seq<Request>, more: seq<Request>, owner: Owner, i: nat, digest: Request -> Digest)
    requires i + 1 < |Chain(rs, owner, digest)|
    requires var c := Chain(rs + more, owner, digest);
      forall j, k :: 0 <= j < k < |c| ==> c[j].binding.version != c[k].binding.version
    ensures !IsCurrent(After(rs + more, digest), Chain(rs, owner, digest)[i].binding)
  {
    ChainGrows(rs, more, owner, digest);
    CurrentIffLast(rs + more, owner, i, digest);
  }

  // ---- Versions must be distinct -----------------------------------------------------------------

  /** Nothing in the replay keeps a version from coming back later: after three decisions
      in a row the first is current again exactly when the third reuses its version. */
  lemma ReusedVersionComesBack(a: Request, b: Request, c: Request, digest: Request -> Digest)
    requires OwnerOf(a) == OwnerOf(b) == OwnerOf(c) && Distinct([KeyOf(a), KeyOf(b), KeyOf(c)])
    requires a.binding.expected.None? && b.binding.expected == Some(a.binding.version)
    requires c.binding.expected == Some(b.binding.version) && b.binding.version != a.binding.version
    requires a.binding.decision == Approve && a.binding.sampleApproved
    ensures Chain([a, b, c], OwnerOf(a), digest) == [a, b, c]
    ensures !IsCurrent(After([a, b], digest), a.binding)
    ensures IsCurrent(After([a, b, c], digest), a.binding) <==> c.binding.version == a.binding.version
  {
    var owner, keys := OwnerOf(a), [KeyOf(a), KeyOf(b), KeyOf(c)];
    assert keys[0] != keys[1] && keys[0] != keys[2] && keys[1] != keys[2];
    assert [] + [a] == [a] && [a] + [b] == [a, b] && [a, b] + [c] == [a, b, c];
    OneMore([], a, owner, digest);
    OneMore([a], b, owner, digest);
    OneMore([a, b], c, owner, digest);
    assert Chain([a], owner, digest) == [a];
    assert Chain([a, b], owner, digest) == [a, b];
    assert Chain([a, b, c], owner, digest) == [a, b, c];
    CurrentIffLastVersion([a, b], owner, 0, digest);
    CurrentIffLastVersion([a, b, c], owner, 0, digest);
  }
}
