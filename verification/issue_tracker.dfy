/**
 The bounded tracker of recent issues (app/core/issue_tracker.py): an ordered dictionary
 by code, least recently recorded first.
 */
module IssueTracking {
  type Code = string
  type Time = real

  const AUTO_CLEAR: Time := 3600.0

  datatype Issue = Issue(code: Code, component: string, count: nat, firstSeen: Time, lastSeen: Time)

  datatype Entry = Entry(code: Code, component: string, at: Time)

  function Codes(s: seq<Issue>): seq<Code>
  {
    seq(|s|, i requires 0 <= i < |s| => s[i].code)
  }

  predicate Tracks(s: seq<Issue>, c: Code)
  {
    exists i :: 0 <= i < |s| && s[i].code == c
  }

  /** Keys of a dictionary. */
  ghost predicate Keyed(s: seq<Issue>)
  {
    forall i, j :: 0 <= i < j < |s| ==> s[i].code != s[j].code
  }

  function Newest<T>(s: seq<T>, n: nat): seq<T>
  {
    if |s| <= n then s else s[|s| - n..]
  }

  function Find(s: seq<Issue>, c: Code): (i: nat)
    requires Tracks(s, c)
    ensures i < |s| && s[i].code == c
  {
    if s[0].code == c then 0 else
      assert exists i :: 0 <= i < |s[1..]| && s[1..][i].code == c by {
        var i :| 0 <= i < |s| && s[i].code == c;
        assert s[1..][i - 1].code == c;
      }
      1 + Find(s[1..], c)
  }

  function Recorded(s: seq<Issue>, e: Entry, maxSize: nat): seq<Issue>
  {
    if Tracks(s, e.code) then
      var i := Find(s, e.code);
      s[..i] + s[i + 1..] + [s[i].(count := s[i].count + 1, lastSeen := e.at)]
    else Newest(s + [Issue(e.code, e.component, 1, e.at, e.at)], maxSize)
  }

  function Active(s: seq<Issue>, now: Time): seq<Issue>
  {
    if s == [] then []
    else Active(s[..|s| - 1], now) + if s[|s| - 1].lastSeen >= now - AUTO_CLEAR then [s[|s| - 1]] else []
  }

  lemma DropOldest<T>(s: seq<T>, n: nat)
    requires |s| > n
    ensures Newest(s[1..], n) == Newest(s, n)
  {
    assert s[1..][|s| - 1 - n..] == s[|s| - n..];
  }

  class IssueTracker {
    var issues: seq<Issue>
    const maxSize: nat

    constructor (maxSize: nat)
      ensures issues == [] && this.maxSize == maxSize
    {
      issues, this.maxSize := [], maxSize;
    }

    method Record(e: Entry)
      requires Keyed(issues)
      modifies this`issues
      ensures issues == Recorded(old(issues), e, maxSize)
    {
      var i := 0;
      while i < |issues| && issues[i].code != e.code
        invariant i <= |issues| && issues == old(issues)
        invariant forall k :: 0 <= k < i ==> issues[k].code != e.code
      {
        i := i + 1;
      }
      if i < |issues| {
        var issue := issues[i];
        issue := issue.(count := issue.count + 1, lastSeen := e.at);
        issues := issues[..i] + issues[i + 1..] + [issue];
        FindIs(old(issues), i);
      } else {
        issues := issues + [Issue(e.code, e.component, 1, e.at, e.at)];
        ghost var all := issues;
        while |issues| > maxSize
          invariant Newest(issues, maxSize) == Newest(all, maxSize)
        {
          DropOldest(issues, maxSize);
          issues := issues[1..];
        }
      }
    }

    method GetActiveIssues(now: Time) returns (active: seq<Issue>)
      ensures active == Active(issues, now)
    {
      var cutoff := now - AUTO_CLEAR;
      active := [];
      for i := 0 to |issues|
        invariant active == Active(issues[..i], now)
      {
        assert issues[..i + 1][..i] == issues[..i];
        if issues[i].lastSeen >= cutoff { active := active + [issues[i]]; }
      }
      assert issues[..|issues|] == issues;
    }
  }

  lemma FindIs(s: seq<Issue>, i: nat)
    requires Keyed(s) && i < |s|
    ensures Tracks(s, s[i].code) && Find(s, s[i].code) == i
  {
    assert Tracks(s, s[i].code);
  }

  // ---- What the tracker holds ----------------------------------------------------------------------

  function After(h: seq<Entry>, maxSize: nat): seq<Issue>
  {
    if h == [] then [] else Recorded(After(h[..|h| - 1], maxSize), h[|h| - 1], maxSize)
  }

  /** A code dropped from a list, the others left in order. */
  function Without(cs: seq<Code>, c: Code): seq<Code>
  {
    if cs == [] then []
    else Without(cs[..|cs| - 1], c) + if cs[|cs| - 1] == c then [] else [cs[|cs| - 1]]
  }

  /** The distinct codes of a history, by last occurrence. */
  function ByLastSeen(h: seq<Entry>): seq<Code>
  {
    if h == [] then [] else Without(ByLastSeen(h[..|h| - 1]), h[|h| - 1].code) + [h[|h| - 1].code]
  }

  ghost predicate Distinct(cs: seq<Code>)
  {
    forall i, j :: 0 <= i < j < |cs| ==> cs[i] != cs[j]
  }

  lemma DistinctSnoc(cs: seq<Code>, c: Code)
    requires Distinct(cs) && c !in cs
    ensures Distinct(cs + [c]) && Distinct(cs + [])
  {
    assert cs + [] == cs;
  }

  lemma {:induction false} WithoutMembers(cs: seq<Code>, c: Code)
    ensures forall d :: d in Without(cs, c) <==> d in cs && d != c
    ensures c !in cs ==> Without(cs, c) == cs
  {
    if cs != [] {
      var n := |cs| - 1;
      WithoutMembers(cs[..n], c);
      assert cs == cs[..n] + [cs[n]];
    }
  }

  lemma {:induction false} WithoutJoin(a: seq<Code>, b: seq<Code>, c: Code)
    ensures Without(a + b, c) == Without(a, c) + Without(b, c)
  {
    if b == [] {
      assert a + b == a;
    } else {
      var n := |b| - 1;
      WithoutJoin(a, b[..n], c);
      assert (a + b)[..|a + b| - 1] == a + b[..n];
    }
  }

  lemma WithoutAround(a: seq<Code>, c: Code, b: seq<Code>)
    requires c !in a && c !in b
    ensures Without(a + [c] + b, c) == a + b
  {
    WithoutJoin(a + [c], b, c);
    WithoutMembers(a, c);
    WithoutMembers(b, c);
    assert (a + [c])[..|a|] == a;
    assert a + [] == a;
  }

  lemma WithoutAt(cs: seq<Code>, i: nat)
    requires Distinct(cs) && i < |cs|
    ensures Without(cs, cs[i]) == cs[..i] + cs[i + 1..]
  {
    assert cs == cs[..i] + [cs[i]] + cs[i + 1..];
    WithoutAround(cs[..i], cs[i], cs[i + 1..]);
  }

  lemma {:induction false} WithoutDistinct(cs: seq<Code>, c: Code)
    requires Distinct(cs)
    ensures Distinct(Without(cs, c))
  {
    if cs != [] {
      var n := |cs| - 1;
      WithoutDistinct(cs[..n], c);
      WithoutMembers(cs[..n], c);
      DistinctSnoc(Without(cs[..n], c), cs[n]);
    }
  }

  lemma NewestOfTail<T>(p: seq<T>, t: seq<T>, n: nat)
    requires |t| >= n || p == []
    ensures Newest(p + t, n) == Newest(t, n)
  {
    if p == [] {
      assert p + t == t;
    } else {
      assert (p + t)[|p + t| - n..] == t[|t| - n..];
    }
  }

  lemma NewestCodes(s: seq<Issue>, n: nat)
    ensures Codes(Newest(s, n)) == Newest(Codes(s), n)
  {
  }

  lemma {:induction false} ByLastSeenDistinct(h: seq<Entry>)
    ensures Distinct(ByLastSeen(h))
    ensures forall c :: c in ByLastSeen(h) <==> exists e :: e in h && e.code == c
  {
    if h != [] {
      var front, e := h[..|h| - 1], h[|h| - 1];
      ByLastSeenDistinct(front);
      WithoutDistinct(ByLastSeen(front), e.code);
      WithoutMembers(ByLastSeen(front), e.code);
      DistinctSnoc(Without(ByLastSeen(front), e.code), e.code);
      assert h == front + [e];
      forall c ensures c in ByLastSeen(h) <==> exists x :: x in h && x.code == c {
        if x :| x in h && x.code == c && c != e.code { assert x in front; }
        assert e in h;
      }
    }
  }

  lemma KeyedCodes(s: seq<Issue>)
    ensures Keyed(s) <==> Distinct(Codes(s))
    ensures forall c :: Tracks(s, c) <==> c in Codes(s)
  {
    forall c ensures Tracks(s, c) <==> c in Codes(s) {
      if i :| 0 <= i < |s| && s[i].code == c { assert Codes(s)[i] == c; }
    }
    if Distinct(Codes(s)) {
      forall i, j | 0 <= i < j < |s| ensures s[i].code != s[j].code { assert Codes(s)[i] != Codes(s)[j]; }
    }
  }

  lemma CodesJoin(a: seq<Issue>, b: seq<Issue>)
    ensures Codes(a + b) == Codes(a) + Codes(b)
  {
  }

  lemma CodesSlices(s: seq<Issue>, i: nat)
    requires i < |s|
    ensures Codes(s[..i]) == Codes(s)[..i] && Codes(s[i + 1..]) == Codes(s)[i + 1..] && Codes(s)[i] == s[i].code
  {
  }

  lemma RecordedAgain(s: seq<Issue>, e: Entry, maxSize: nat)
    requires Keyed(s) && Tracks(s, e.code)
    ensures Codes(Recorded(s, e, maxSize)) == Without(Codes(s), e.code) + [e.code]
  {
    var i := Find(s, e.code);
    var again := [s[i].(count := s[i].count + 1, lastSeen := e.at)];
    KeyedCodes(s);
    CodesSlices(s, i);
    WithoutAt(Codes(s), i);
    CodesJoin(s[..i], s[i + 1..]);
    CodesJoin(s[..i] + s[i + 1..], again);
    assert Codes(again) == [e.code];
    hide Codes, Without, Keyed, Tracks;
    assert Recorded(s, e, maxSize) == s[..i] + s[i + 1..] + again;
  }

  lemma RecordedNew(s: seq<Issue>, e: Entry, maxSize: nat)
    requires !Tracks(s, e.code)
    ensures Codes(Recorded(s, e, maxSize)) == Newest(Codes(s) + [e.code], maxSize)
  {
    var added := s + [Issue(e.code, e.component, 1, e.at, e.at)];
    NewestCodes(added, maxSize);
    assert Codes(added) == Codes(s) + [e.code];
  }

  lemma WithoutOneShorter(cs: seq<Code>, c: Code)
    requires Distinct(cs) && c in cs
    ensures |Without(cs, c)| == |cs| - 1
  {
    var i :| 0 <= i < |cs| && cs[i] == c;
    WithoutAt(cs, i);
  }

  lemma MovedToTheEnd(older: seq<Code>, kept: seq<Code>, c: Code, n: nat)
    requires c !in older && c in kept && Distinct(kept) && |kept| <= n && (|kept| == n || older == [])
    ensures Newest(Without(older + kept, c) + [c], n) == Without(kept, c) + [c]
  {
    WithoutJoin(older, kept, c);
    WithoutMembers(older, c);
    WithoutOneShorter(kept, c);
    hide Without;
    assert older + Without(kept, c) + [c] == older + (Without(kept, c) + [c]);
    NewestOfTail(older, Without(kept, c) + [c], n);
  }

  lemma AddedAtTheEnd(older: seq<Code>, kept: seq<Code>, c: Code, n: nat)
    requires c !in kept && (|kept| == n || older == [])
    ensures Newest(Without(older + kept, c) + [c], n) == Newest(kept + [c], n)
  {
    WithoutJoin(older, kept, c);
    WithoutMembers(kept, c);
    assert older == [] ==> Without(older, c) == [];
    hide Without;
    assert Without(older, c) + kept + [c] == Without(older, c) + (kept + [c]);
    NewestOfTail(Without(older, c), kept + [c], n);
  }

  lemma NewestSplits(all: seq<Code>, n: nat) returns (older: seq<Code>)
    ensures all == older + Newest(all, n) && |Newest(all, n)| <= n && (|Newest(all, n)| == n || older == [])
    ensures Distinct(all) ==> Distinct(Newest(all, n)) && forall c :: c in Newest(all, n) ==> c !in older
  {
    older := all[..|all| - |Newest(all, n)|];
    assert all == older + Newest(all, n);
    if Distinct(all) {
      DistinctParts(older, Newest(all, n));
    }
  }

  lemma DistinctParts(p: seq<Code>, t: seq<Code>)
    requires Distinct(p + t)
    ensures Distinct(t) && forall c :: c in t ==> c !in p
  {
    var all := p + t;
    forall i, j | 0 <= i < |p| && 0 <= j < |t| ensures p[i] != t[j] { assert all[i] != all[|p| + j]; }
    forall i, j | 0 <= i < j < |t| ensures t[i] != t[j] { assert all[|p| + i] != all[|p| + j]; }
  }

  lemma RecordKeepsTheNewest(s: seq<Issue>, all: seq<Code>, e: Entry, maxSize: nat)
    requires Distinct(all) && Keyed(s) && Codes(s) == Newest(all, maxSize)
    ensures Codes(Recorded(s, e, maxSize)) == Newest(Without(all, e.code) + [e.code], maxSize)
  {
    var older := NewestSplits(all, maxSize);
    KeyedCodes(s);
    hide Codes, Newest, Without, Recorded, Distinct, Keyed;
    if Tracks(s, e.code) {
      RecordedAgain(s, e, maxSize);
      MovedToTheEnd(older, Newest(all, maxSize), e.code, maxSize);
    } else {
      RecordedNew(s, e, maxSize);
      AddedAtTheEnd(older, Newest(all, maxSize), e.code, maxSize);
    }
  }

  /** After any history the tracker holds, in order, exactly the newest `maxSize` of its
      distinct codes by last occurrence. */
  lemma {:induction false} TrackerHoldsTheNewest(h: seq<Entry>, maxSize: nat)
    ensures Codes(After(h, maxSize)) == Newest(ByLastSeen(h), maxSize)
    ensures Keyed(After(h, maxSize)) && |After(h, maxSize)| <= maxSize
  {
    if h != [] {
      var front := h[..|h| - 1];
      TrackerHoldsTheNewest(front, maxSize);
      ByLastSeenDistinct(front);
      RecordKeepsTheNewest(After(front, maxSize), ByLastSeen(front), h[|h| - 1], maxSize);
    }
    ByLastSeenDistinct(h);
    KeyedCodes(After(h, maxSize));
    assert |Codes(After(h, maxSize))| == |After(h, maxSize)|;
  }

  // ---- The same without the list: how many codes came since ----------------------------------------

  ghost predicate Occurs(h: seq<Entry>, c: Code)
  {
    exists e :: e in h && e.code == c
  }

  /** The distinct codes recorded after the last occurrence of `c`. */
  ghost function Since(h: seq<Entry>, c: Code): set<Code>
  {
    if h == [] || h[|h| - 1].code == c then {} else Since(h[..|h| - 1], c) + {h[|h| - 1].code}
  }

  /** A code that was not the last to be recorded: where it stood before, and what came since. */
  lemma PositionMoves(h: seq<Entry>, i: nat) returns (j: nat)
    requires h != [] && i < |ByLastSeen(h)| - 1
    ensures var front, d := h[..|h| - 1], h[|h| - 1].code;
      && ByLastSeen(h)[i] != d && j < |ByLastSeen(front)| && ByLastSeen(front)[j] == ByLastSeen(h)[i]
      && Later(ByLastSeen(h), i) == Later(ByLastSeen(front), j) + {d}
  {
    var d, before, all := h[|h| - 1].code, ByLastSeen(h[..|h| - 1]), ByLastSeen(h);
    ByLastSeenDistinct(h);
    ByLastSeenDistinct(h[..|h| - 1]);
    assert all == Without(before, d) + [d];
    assert all[i] != all[|all| - 1];
    hide ByLastSeen;
    if d in before {
      var m :| 0 <= m < |before| && before[m] == d;
      WithoutAt(before, m);
      j := if i < m then i else i + 1;
      LaterWithout(before, m, i, j);
    } else {
      WithoutMembers(before, d);
      j := i;
      LaterSnoc(before, d, i);
    }
  }

  lemma {:induction false} PositionIsSince(h: seq<Entry>, i: nat)
    requires i < |ByLastSeen(h)|
    ensures Since(h, ByLastSeen(h)[i]) == Later(ByLastSeen(h), i)
  {
    var all := ByLastSeen(h);
    if i < |all| - 1 {
      var j := PositionMoves(h, i);
      PositionIsSince(h[..|h| - 1], j);
    } else {
      assert all[i] == h[|h| - 1].code;
      hide ByLastSeen;
      assert Later(all, i) == {};
    }
  }

  ghost function Later(cs: seq<Code>, i: nat): set<Code>
  {
    set k | i < k < |cs| :: cs[k]
  }

  lemma LaterSnoc(cs: seq<Code>, d: Code, i: nat)
    requires i < |cs|
    ensures Later(cs + [d], i) == Later(cs, i) + {d}
  {
    forall x | x in Later(cs, i) + {d} ensures x in Later(cs + [d], i) {
      if x == d {
        assert (cs + [d])[|cs|] == d;
      } else {
        var k :| i < k < |cs| && cs[k] == x;
        assert (cs + [d])[k] == x;
      }
    }
  }

  lemma LaterWithout(cs: seq<Code>, m: nat, i: nat, j: nat)
    requires Distinct(cs) && m < |cs| && i < |cs| - 1 && j == if i < m then i else i + 1
    ensures Later(cs[..m] + cs[m + 1..] + [cs[m]], i) == Later(cs, j) + {cs[m]}
  {
    var moved := cs[..m] + cs[m + 1..] + [cs[m]];
    forall x | x in Later(moved, i) ensures x in Later(cs, j) + {cs[m]} {
      var k :| i < k < |moved| && moved[k] == x;
      if k < |moved| - 1 {
        var n := if k < m then k else k + 1;
        assert cs[n] == x && j < n;
      }
    }
    forall x | x in Later(cs, j) + {cs[m]} ensures x in Later(moved, i) {
      if x == cs[m] {
        assert moved[|moved| - 1] == x;
      } else {
        var n :| j < n < |cs| && cs[n] == x;
        assert moved[if n < m then n else n - 1] == x;
      }
    }
  }

  lemma {:induction false} LaterSize(cs: seq<Code>, i: nat)
    requires Distinct(cs) && i < |cs|
    ensures |Later(cs, i)| == |cs| - 1 - i
    decreases |cs| - i
  {
    if i == |cs| - 1 {
      assert Later(cs, i) == {};
    } else {
      LaterSize(cs, i + 1);
      assert Later(cs, i) == Later(cs, i + 1) + {cs[i + 1]};
    }
  }

  /** A code is tracked exactly when it occurred and fewer than `maxSize` distinct codes
      were recorded after its last occurrence. */
  lemma TrackedIffFewSince(h: seq<Entry>, c: Code, maxSize: nat)
    ensures Tracks(After(h, maxSize), c) <==> Occurs(h, c) && |Since(h, c)| < maxSize
  {
    TrackerHoldsTheNewest(h, maxSize);
    KeyedCodes(After(h, maxSize));
    ByLastSeenDistinct(h);
    var all := ByLastSeen(h);
    hide After, ByLastSeen, Codes, Tracks, Since;
    if c in all {
      var i :| 0 <= i < |all| && all[i] == c;
      PositionIsSince(h, i);
      LaterSize(all, i);
      NewestHas(all, i, maxSize);
    } else if c in Newest(all, maxSize) {
      NewestFrom(all, c, maxSize);
    }
  }

  lemma NewestFrom(all: seq<Code>, c: Code, n: nat)
    requires c in Newest(all, n)
    ensures c in all
  {
  }

  lemma NewestHas(all: seq<Code>, i: nat, n: nat)
    requires Distinct(all) && i < |all|
    ensures all[i] in Newest(all, n) <==> |all| - 1 - i < n
  {
    var kept := Newest(all, n);
    if |all| - 1 - i < n {
      assert kept[i - (|all| - |kept|)] == all[i];
    } else {
      forall k | 0 <= k < |kept| ensures kept[k] != all[i] { assert kept[k] == all[k + (|all| - |kept|)]; }
    }
  }

  // ---- What an issue says ---------------------------------------------------------------------------

  function Occurrences(h: seq<Entry>, c: Code): nat
  {
    if h == [] then 0 else Occurrences(h[..|h| - 1], c) + if h[|h| - 1].code == c then 1 else 0
  }

  function LastAt(h: seq<Entry>, c: Code): Time
  {
    if h == [] then 0.0 else if h[|h| - 1].code == c then h[|h| - 1].at else LastAt(h[..|h| - 1], c)
  }

  /** Inserted at `j` and tracked ever since. */
  ghost predicate InsertedAt(h: seq<Entry>, maxSize: nat, c: Code, j: nat)
  {
    && j < |h| && h[j].code == c && !Tracks(After(h[..j], maxSize), c)
    && forall k: nat :: j < k <= |h| ==> Tracks(After(h[..k], maxSize), c)
  }

  ghost predicate Tells(h: seq<Entry>, maxSize: nat, issue: Issue, j: nat)
  {
    && InsertedAt(h, maxSize, issue.code, j)
    && issue.count == Occurrences(h[j..], issue.code)
    && issue.firstSeen == h[j].at && issue.component == h[j].component
    && issue.lastSeen == LastAt(h, issue.code)
  }

  lemma RecordedMembers(s: seq<Issue>, e: Entry, maxSize: nat, issue: Issue)
    requires Keyed(s) && issue in Recorded(s, e, maxSize)
    ensures (issue in s && issue.code != e.code)
      || (issue.code == e.code && Tracks(s, e.code)
          && issue == s[Find(s, e.code)].(count := s[Find(s, e.code)].count + 1, lastSeen := e.at))
      || (issue == Issue(e.code, e.component, 1, e.at, e.at) && !Tracks(s, e.code))
  {
    if Tracks(s, e.code) {
      var i := Find(s, e.code);
      if issue in s[..i] + s[i + 1..] {
        var k :| 0 <= k < |s| && k != i && s[k] == issue;
        if k < i { assert s[k].code != s[i].code; } else { assert s[i].code != s[k].code; }
      }
    } else {
      assert issue in s ==> Tracks(s, issue.code);
    }
  }

  lemma TellsLater(h: seq<Entry>, e: Entry, maxSize: nat, before: Issue, issue: Issue, j: nat)
    requires Tells(h, maxSize, before, j) && Tracks(After(h + [e], maxSize), before.code)
    requires issue == if e.code == before.code then before.(count := before.count + 1, lastSeen := e.at) else before
    ensures Tells(h + [e], maxSize, issue, j)
  {
    InsertedLater(h, e, maxSize, before.code, j);
    hide InsertedAt, Tracks, After;
    CountsOneMore(h, e, before.code, j);
    assert (h + [e])[..|h|] == h;
  }

  lemma InsertedLater(h: seq<Entry>, e: Entry, maxSize: nat, c: Code, j: nat)
    requires InsertedAt(h, maxSize, c, j) && Tracks(After(h + [e], maxSize), c)
    ensures InsertedAt(h + [e], maxSize, c, j)
  {
    var h' := h + [e];
    hide After, Tracks;
    assert h'[..j] == h[..j];
    forall k: nat | j < k <= |h'| ensures Tracks(After(h'[..k], maxSize), c) {
      if k <= |h| { assert h'[..k] == h[..k]; } else { assert h'[..k] == h'; }
    }
  }

  lemma CountsOneMore(h: seq<Entry>, e: Entry, c: Code, j: nat)
    requires j < |h|
    ensures Occurrences((h + [e])[j..], c) == Occurrences(h[j..], c) + if e.code == c then 1 else 0
  {
    var h' := h + [e];
    assert h'[j..] == h[j..] + [e] && h'[j..][..|h'[j..]| - 1] == h[j..];
  }

  lemma TellsAgain(h: seq<Entry>, e: Entry, maxSize: nat, before: Issue, issue: Issue)
    requires exists j: nat :: Tells(h, maxSize, before, j)
    requires Tracks(After(h + [e], maxSize), before.code)
    requires issue == if e.code == before.code then before.(count := before.count + 1, lastSeen := e.at) else before
    ensures exists j: nat :: Tells(h + [e], maxSize, issue, j)
  {
    var j: nat :| Tells(h, maxSize, before, j);
    TellsLater(h, e, maxSize, before, issue, j);
    hide Tells;
    assert Tells(h + [e], maxSize, issue, j);
  }

  lemma TellsFirst(h: seq<Entry>, e: Entry, maxSize: nat, issue: Issue)
    requires !Tracks(After(h, maxSize), e.code) && Tracks(After(h + [e], maxSize), e.code)
    requires issue == Issue(e.code, e.component, 1, e.at, e.at)
    ensures Tells(h + [e], maxSize, issue, |h|)
  {
    var h', j := h + [e], |h|;
    hide After, Tracks;
    assert h'[j..] == [e] && h'[..j] == h && [e][..0] == [];
    assert Occurrences([e], e.code) == 1;
    forall k: nat | j < k <= |h'| ensures Tracks(After(h'[..k], maxSize), e.code) { assert h'[..k] == h'; }
    assert issue.lastSeen == e.at && LastAt(h', e.code) == h'[|h'| - 1].at;
  }

  /** Each count is the number of records since the code was last inserted, from when its
      component and first time are; its last time is that of the code's last record. */
  lemma {:induction false} CountsAreSinceInsertion(h: seq<Entry>, maxSize: nat, issue: Issue)
    requires issue in After(h, maxSize)
    ensures exists j: nat :: Tells(h, maxSize, issue, j)
  {
    var front, e := h[..|h| - 1], h[|h| - 1];
    var s := After(front, maxSize);
    assert h == front + [e];
    TrackerHoldsTheNewest(front, maxSize);
    RecordedMembers(s, e, maxSize, issue);
    IsTracked(After(h, maxSize), issue);
    hide After, Tells, Recorded, Keyed, Codes, Newest;
    if issue in s && issue.code != e.code {
      CountsAreSinceInsertion(front, maxSize, issue);
      TellsAgain(front, e, maxSize, issue, issue);
    } else if Tracks(s, e.code) {
      var before := s[Find(s, e.code)];
      CountsAreSinceInsertion(front, maxSize, before);
      TellsAgain(front, e, maxSize, before, issue);
    } else {
      TellsFirst(front, e, maxSize, issue);
      assert Tells(h, maxSize, issue, |front|);
    }
  }

  lemma IsTracked(s: seq<Issue>, issue: Issue)
    requires issue in s
    ensures Tracks(s, issue.code)
  {
  }

  lemma {:induction false} ActiveMembers(s: seq<Issue>, now: Time)
    ensures forall issue :: issue in Active(s, now) <==> issue in s && issue.lastSeen >= now - AUTO_CLEAR
    ensures Keyed(s) ==> Keyed(Active(s, now))
  {
    if s != [] {
      var n := |s| - 1;
      ActiveMembers(s[..n], now);
      assert s == s[..n] + [s[n]];
      if Keyed(s) {
        var front := Active(s[..n], now);
        forall k | 0 <= k < |front| ensures front[k].code != s[n].code {
          assert front[k] in s[..n];
        }
      }
    }
  }

  /** What is listed as active: the codes among the newest `maxSize` whose last record is at
      most an hour old. */
  lemma ActiveAreRecent(h: seq<Entry>, maxSize: nat, now: Time, c: Code)
    ensures Tracks(Active(After(h, maxSize), now), c) <==>
      Occurs(h, c) && |Since(h, c)| < maxSize && LastAt(h, c) >= now - 3600.0
  {
    var s := After(h, maxSize);
    TrackerHoldsTheNewest(h, maxSize);
    TrackedIffFewSince(h, c, maxSize);
    ActiveMembers(s, now);
    if Tracks(s, c) {
      var i :| 0 <= i < |s| && s[i].code == c;
      CountsAreSinceInsertion(h, maxSize, s[i]);
      assert s[i] in s;
      if s[i].lastSeen >= now - AUTO_CLEAR { IsTracked(Active(s, now), s[i]); }
    }
    if Tracks(Active(s, now), c) {
      var k :| 0 <= k < |Active(s, now)| && Active(s, now)[k].code == c;
      assert Active(s, now)[k] in s;
      IsTracked(s, Active(s, now)[k]);
      CountsAreSinceInsertion(h, maxSize, Active(s, now)[k]);
    }
  }
}
