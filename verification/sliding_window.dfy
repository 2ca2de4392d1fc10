/**
 Sliding-window rate limiting as the Co-Pilot and the portal do it
 (app/routers/copilot.py, app/models/portal.py): prune the times that left the window,
 refuse when as many as the limit are left, otherwise record a time.

 A call is checked at one reading of the clock and recorded at a later one; for the
 Co-Pilot limiters the two are the same reading.
 */
module SlidingWindow {
  type Time = real
  type Limit = n: nat | 0 < n witness 1

  datatype Rule = Rule(limit: Limit, window: Time)

  datatype Call = Call(check: Time, record: Time)

  /** The times still inside the window that ends at `now`, in order. */
  function Pruned(ts: seq<Time>, now: Time, window: Time): seq<Time>
  {
    if ts == [] then []
    else
      var n := |ts| - 1;
      Pruned(ts[..n], now, window) + if now - ts[n] < window then [ts[n]] else []
  }

  predicate Admits(ts: seq<Time>, c: Call, rule: Rule)
  {
    |Pruned(ts, c.check, rule.window)| < rule.limit
  }

  function After(ts: seq<Time>, c: Call, rule: Rule): seq<Time>
  {
    Pruned(ts, c.check, rule.window) + if Admits(ts, c, rule) then [c.record] else []
  }

  /** What the limiter remembers after some calls. */
  function Kept(calls: seq<Call>, rule: Rule): seq<Time>
  {
    if calls == [] then []
    else After(Kept(calls[..|calls| - 1], rule), calls[|calls| - 1], rule)
  }

  /** When calls were admitted, all of them from the beginning. */
  function Admitted(calls: seq<Call>, rule: Rule): seq<Time>
  {
    if calls == [] then []
    else
      var front, c := calls[..|calls| - 1], calls[|calls| - 1];
      Admitted(front, rule) + if Admits(Kept(front, rule), c, rule) then [c.record] else []
  }

  lemma OneMoreCall(calls: seq<Call>, c: Call, rule: Rule)
    ensures Kept(calls + [c], rule) == After(Kept(calls, rule), c, rule)
    ensures Admitted(calls + [c], rule) ==
      if Admits(Kept(calls, rule), c, rule) then Admitted(calls, rule) + [c.record] else Admitted(calls, rule)
  {
    hide Admits, After;
    assert (calls + [c])[..|calls|] == calls;
  }

  /** The clock does not run backwards. */
  ghost predicate InOrder(calls: seq<Call>)
  {
    && (forall i :: 0 <= i < |calls| ==> calls[i].check <= calls[i].record)
    && (forall i, j :: 0 <= i < j < |calls| ==> calls[i].record <= calls[j].check)
  }

  /** How many of the times lie in the window of that length ending at `end`. */
  function Count(ts: seq<Time>, end: Time, window: Time): nat
  {
    if ts == [] then 0
    else
      var t := ts[|ts| - 1];
      Count(ts[..|ts| - 1], end, window) + if end - window < t <= end then 1 else 0
  }

  // ---- Pruning -----------------------------------------------------------------------------

  lemma {:induction false} PrunedMembers(ts: seq<Time>, now: Time, window: Time)
    ensures forall t :: t in Pruned(ts, now, window) <==> t in ts && now - t < window
  {
    if ts != [] {
      var n := |ts| - 1;
      PrunedMembers(ts[..n], now, window);
      assert ts == ts[..n] + [ts[n]];
    }
  }

  lemma {:induction false} PrunedJoin(a: seq<Time>, b: seq<Time>, now: Time, window: Time)
    ensures Pruned(a + b, now, window) == Pruned(a, now, window) + Pruned(b, now, window)
  {
    if b == [] {
      assert a + b == a;
    } else {
      var n := |b| - 1;
      PrunedJoin(a, b[..n], now, window);
      assert (a + b)[..|a + b| - 1] == a + b[..n];
    }
  }

  /** Pruning earlier changes nothing for a later window. */
  lemma {:induction false} PrunedTwice(ts: seq<Time>, early: Time, late: Time, window: Time)
    requires early <= late
    ensures Pruned(Pruned(ts, early, window), late, window) == Pruned(ts, late, window)
  {
    if ts != [] {
      var n := |ts| - 1;
      PrunedTwice(ts[..n], early, late, window);
      if early - ts[n] < window {
        PrunedJoin(Pruned(ts[..n], early, window), [ts[n]], late, window);
        PrunedOne(ts[n], late, window);
      } else {
        assert Pruned(ts, early, window) == Pruned(ts[..n], early, window);
      }
    }
  }

  lemma PrunedOne(t: Time, now: Time, window: Time)
    ensures Pruned([t], now, window) == if now - t < window then [t] else []
  {
    assert [t][..0] == [];
  }

  lemma InOrderFront(calls: seq<Call>)
    requires InOrder(calls) && calls != []
    ensures InOrder(calls[..|calls| - 1])
  {
  }

  /** Forgetting loses nothing: in any later window the limiter sees every admitted call. */
  lemma {:induction false} KeptIsWhatMatters(calls: seq<Call>, rule: Rule, now: Time)
    requires InOrder(calls) && (calls != [] ==> calls[|calls| - 1].check <= now)
    ensures Pruned(Kept(calls, rule), now, rule.window) == Pruned(Admitted(calls, rule), now, rule.window)
  {
    if calls != [] {
      var n := |calls| - 1;
      var front, c := calls[..n], calls[n];
      InOrderFront(calls);
      KeptIsWhatMatters(front, rule, now);
      var last := if Admits(Kept(front, rule), c, rule) then [c.record] else [];
      PrunedJoin(Pruned(Kept(front, rule), c.check, rule.window), last, now, rule.window);
      PrunedTwice(Kept(front, rule), c.check, now, rule.window);
      PrunedJoin(Admitted(front, rule), last, now, rule.window);
    }
  }

  lemma {:induction false} CountIsPruned(ts: seq<Time>, end: Time, now: Time, window: Time)
    requires end >= now
    ensures Count(ts, end, window) <= |Pruned(ts, now, window)|
    ensures end == now && (forall t :: t in ts ==> t <= now) ==> Count(ts, now, window) == |Pruned(ts, now, window)|
  {
    if ts != [] {
      var n := |ts| - 1;
      CountIsPruned(ts[..n], end, now, window);
      assert forall t :: t in ts[..n] ==> t in ts;
      assert ts[n] in ts;
    }
  }

  lemma {:induction false} AdmittedAreRecords(calls: seq<Call>, rule: Rule, t: Time)
    requires t in Admitted(calls, rule)
    ensures exists i :: 0 <= i < |calls| && calls[i].record == t
  {
    var n := |calls| - 1;
    if t in Admitted(calls[..n], rule) {
      AdmittedAreRecords(calls[..n], rule, t);
      var i :| 0 <= i < n && calls[..n][i].record == t;
      assert calls[i].record == t;
    } else {
      assert calls[n].record == t;
    }
  }

  // ---- What the limiter means ------------------------------------------------------------------

  /** Over the whole trace, wherever the window is put: never more than the limit. */
  lemma {:induction false} AtMostTheLimit(calls: seq<Call>, rule: Rule, end: Time)
    requires InOrder(calls)
    ensures Count(Admitted(calls, rule), end, rule.window) <= rule.limit
  {
    if calls != [] {
      var n := |calls| - 1;
      var front, c := calls[..n], calls[n];
      InOrderFront(calls);
      AtMostTheLimit(front, rule, end);
      assert (Admitted(front, rule) + [c.record])[..|Admitted(front, rule)|] == Admitted(front, rule);
      assert Admitted(front, rule) + [] == Admitted(front, rule);
      if Admits(Kept(front, rule), c, rule) && c.record <= end {
        KeptIsWhatMatters(front, rule, c.check);
        CountIsPruned(Admitted(front, rule), end, c.check, rule.window);
      }
    }
  }

  /** A call is refused exactly when the limit of admitted ones really lies in the window
      that ends at its check. */
  lemma RefusedIffFull(calls: seq<Call>, c: Call, rule: Rule)
    requires InOrder(calls + [c])
    ensures !Admits(Kept(calls, rule), c, rule) <==> Count(Admitted(calls, rule), c.check, rule.window) == rule.limit
  {
    var all := calls + [c];
    assert InOrder(calls) by {
      InOrderFront(all);
      assert all[..|all| - 1] == calls;
    }
    forall i | 0 <= i < |calls| ensures calls[i].check <= c.check && calls[i].record <= c.check {
      assert all[i] == calls[i] && all[|calls|] == c;
    }
    forall t | t in Admitted(calls, rule) ensures t <= c.check { AdmittedAreRecords(calls, rule, t); }
    KeptIsWhatMatters(calls, rule, c.check);
    CountIsPruned(Admitted(calls, rule), c.check, c.check, rule.window);
    AtMostTheLimit(calls, rule, c.check);
  }

  // ---- When to come back -----------------------------------------------------------------------

  /** What a refused caller is told to wait. */
  function ResetAfter(ts: seq<Time>, now: Time, rule: Rule): Time
    requires Pruned(ts, now, rule.window) != []
  {
    var reset := rule.window - (now - Pruned(ts, now, rule.window)[0]);
    if reset < 0.0 then 0.0 else reset
  }

  ghost predicate Ascending(ts: seq<Time>)
  {
    forall i, j :: 0 <= i < j < |ts| ==> ts[i] <= ts[j]
  }

  lemma AscendingSnoc(ts: seq<Time>, t: Time)
    requires Ascending(ts) && forall u :: u in ts ==> u <= t
    ensures Ascending(ts + [t]) && Ascending(ts + [])
  {
    assert ts + [] == ts;
    forall i | 0 <= i < |ts| ensures ts[i] <= t { assert ts[i] in ts; }
  }

  lemma {:induction false} PrunedAscending(ts: seq<Time>, now: Time, window: Time)
    requires Ascending(ts)
    ensures Ascending(Pruned(ts, now, window))
  {
    if ts != [] {
      var n := |ts| - 1;
      PrunedAscending(ts[..n], now, window);
      PrunedMembers(ts[..n], now, window);
      forall t | t in Pruned(ts[..n], now, window) ensures t <= ts[n] {
        assert t in ts[..n];
      }
      AscendingSnoc(Pruned(ts[..n], now, window), ts[n]);
    }
  }

  lemma {:induction false} KeptAscending(calls: seq<Call>, rule: Rule)
    requires InOrder(calls)
    ensures Ascending(Kept(calls, rule))
    ensures forall t :: t in Kept(calls, rule) ==> calls != [] && t <= calls[|calls| - 1].record
  {
    if calls != [] {
      var n := |calls| - 1;
      InOrderFront(calls);
      KeptAscending(calls[..n], rule);
      PrunedAscending(Kept(calls[..n], rule), calls[n].check, rule.window);
      var before := Pruned(Kept(calls[..n], rule), calls[n].check, rule.window);
      PrunedMembers(Kept(calls[..n], rule), calls[n].check, rule.window);
      forall t | t in before ensures t <= calls[n].check {
        assert n > 0 && calls[..n][n - 1] == calls[n - 1];
      }
      AscendingSnoc(before, calls[n].record);
    }
  }

  lemma {:induction false} AllInside(ts: seq<Time>, now: Time, window: Time)
    requires forall t :: t in ts ==> now - t < window
    ensures Pruned(ts, now, window) == ts
  {
    if ts != [] {
      var n := |ts| - 1;
      assert ts == ts[..n] + [ts[n]] && ts[n] in ts;
      forall t | t in ts[..n] ensures now - t < window { assert t in ts; }
      AllInside(ts[..n], now, window);
    }
  }

  lemma {:induction false} ShorterWithout(ts: seq<Time>, now: Time, window: Time)
    ensures |Pruned(ts, now, window)| <= |ts|
    ensures (exists t :: t in ts && now - t >= window) ==> |Pruned(ts, now, window)| < |ts|
  {
    if ts != [] {
      var n := |ts| - 1;
      ShorterWithout(ts[..n], now, window);
      assert ts == ts[..n] + [ts[n]];
    }
  }

  /** A refused caller that comes back with nothing in between is admitted exactly from
      `now + reset_after` on. */
  lemma RetryIsAdmittedFromReset(calls: seq<Call>, now: Time, later: Time, rule: Rule)
    requires InOrder(calls + [Call(now, now)]) && now <= later
    requires !Admits(Kept(calls, rule), Call(now, now), rule)
    ensures Pruned(Kept(calls, rule), now, rule.window) != []
    ensures Admits(Kept(calls + [Call(now, now)], rule), Call(later, later), rule)
      <==> later >= now + ResetAfter(Kept(calls, rule), now, rule)
  {
    var c, all := Call(now, now), calls + [Call(now, now)];
    assert all[..|all| - 1] == calls;
    InOrderFront(all);
    var full := Pruned(Kept(calls, rule), now, rule.window);
    assert Kept(all, rule) == full;
    RefusedIffFull(calls, c, rule);
    forall i | 0 <= i < |calls| ensures calls[i].check <= now && calls[i].record <= now {
      assert all[i] == calls[i] && all[|calls|] == c;
    }
    forall t | t in Admitted(calls, rule) ensures t <= now { AdmittedAreRecords(calls, rule, t); }
    KeptIsWhatMatters(calls, rule, now);
    CountIsPruned(Admitted(calls, rule), now, now, rule.window);
    assert |full| == rule.limit;
    KeptAscending(calls, rule);
    PrunedAscending(Kept(calls, rule), now, rule.window);
    PrunedMembers(Kept(calls, rule), now, rule.window);
    assert full[0] in full;
    if later - full[0] < rule.window {
      AllInside(full, later, rule.window);
    } else {
      ShorterWithout(full, later, rule.window);
    }
  }
}
