/**
 When a first frame is refused (app/routers/mcp.py): exactly which bodies, and exactly what
 a client gets for any sequence of messages the SDK sends.
 */
module McpFrameVerdicts {
  import opened Wrappers
  import opened McpFirstFrame

  ghost predicate Contains(b: Bytes, marker: Bytes)
  {
    exists i: nat :: At(b, marker, i)
  }

  /** A blank line is in the body, in one of its two forms, or there are too many bytes. */
  ghost predicate Decided(b: Bytes)
  {
    |b| > 4096 || Contains(b, "\n\n") || Contains(b, "\r\n\r\n")
  }

  /** One endpoint event of at most 4096 bytes, ending in one of the two markers. */
  ghost predicate Recognised(b: Bytes, id: Bytes)
  {
    |b| <= 4096 && IsEndpointEvent(b, id) && EndsInMarker(b)
  }

  lemma FindIffContains(b: Bytes, marker: Bytes)
    ensures Find(b, marker, 0).Some? <==> Contains(b, marker)
  {
    if i: nat :| At(b, marker, i) {
      assert 0 <= i;
    }
  }

  lemma WaitIff(b: Bytes)
    ensures Recognise(b).Wait? <==> !Decided(b)
  {
    FindIffContains(b, CRLF_CRLF);
    FindIffContains(b, LF_LF);
    hide MatchEndpoint, Contains;
  }

  /** A body is waited on while it holds no blank line and is not too long, recognised when it
      is one endpoint event, and refused in every other case. */
  lemma VerdictIff(b: Bytes)
    ensures Recognise(b).Wait? <==> !Decided(b)
    ensures forall id :: Recognise(b) == Endpoint(id) <==> Recognised(b, id)
    ensures Recognise(b).Reject? <==> Decided(b) && !exists id :: Recognised(b, id)
  {
    WaitIff(b);
    forall id ensures Recognise(b) == Endpoint(id) <==> Recognised(b, id) { RecogniseIff(b, id); }
    hide Recognise, Decided, Recognised;
    if Recognise(b).Endpoint? { assert Recognised(b, Recognise(b).id); }
  }

  // ---- Whole runs ----------------------------------------------------------------------------

  /** All the bodies of the first `n` messages together. */
  function Collected(cs: seq<Call>, n: nat): Bytes
    requires n <= |cs|
  {
    Bodies(Messages(cs[..n]))
  }

  ghost predicate Undecided(cs: seq<Call>, n: nat)
    requires n <= |cs|
  {
    forall i: nat :: i <= n ==> !Decided(Collected(cs, i))
  }

  /** As long as the bodies are undecided, everything is held back. */
  lemma {:induction false} HeldBack(cs: seq<Call>, n: nat)
    requires n <= |cs| && Undecided(cs, n)
    ensures Run(FRESH, cs[..n]) == View(Buffering, Messages(cs[..n]), Collected(cs, n), None, [])
  {
    hide Recognise, Messages, Bodies, Run, Decided;
    if n == 0 {
      NothingSent(cs);
    } else {
      HeldBack(cs, n - 1);
      RunSnoc(FRESH, cs, n - 1);
      MessagesSnoc(cs, n - 1);
      WaitIff(Collected(cs, n));
      EarlyChunk(View(Buffering, Messages(cs[..n - 1]), Collected(cs, n - 1), None, []), cs[n - 1]);
    }
  }

  /** What the deciding call makes of the guard. */
  ghost predicate DecidedWell(v: View, cs: seq<Call>, n: nat)
    requires n < |cs|
  {
    var body, ms := Collected(cs, n + 1), Messages(cs[..n + 1]);
    if cs[n].granted && exists id :: Recognised(body, id) then
      && v.session.Some? && Recognised(body, v.session.value)
      && if cs[n].delivered <= n then v.phase == Cut && v.sent == ms[..cs[n].delivered]
         else v.phase == Open && v.sent == ms && v.buffered == []
    else v.phase == Rejected && v.sent == []
  }

  lemma DecidingChunk(v: View, c: Call)
    requires v == View(Buffering, v.buffered, v.body, None, []) && c.message.Body?
    requires !Recognise(v.body + BytesOf(c.message)).Wait?
    ensures var w, body, ms := Run(v, [c]), v.body + BytesOf(c.message), v.buffered + [c.message];
      if c.granted && Recognise(body).Endpoint? then
        && w.session == Some(Recognise(body).id)
        && if c.delivered < |ms| then w.phase == Cut && w.sent == ms[..c.delivered]
           else w.phase == Open && w.sent == ms && w.buffered == []
      else w.phase == Rejected && w.sent == []
  {
    hide Recognise;
    assert Run(v, [c]) == Run(Sent(v, c), []);
  }

  /**
   The call with which the bodies are first decided settles it: the client gets what was held
   back, in order, if the bodies are then one endpoint event and the promotion is granted;
   otherwise it is refused and gets nothing of it.
   */
  lemma FirstDecision(cs: seq<Call>, n: nat)
    requires n < |cs| && Undecided(cs, n) && Decided(Collected(cs, n + 1))
    ensures DecidedWell(Run(FRESH, cs[..n + 1]), cs, n)
  {
    hide Recognise, Messages, Bodies, Run, Decided, Recognised;
    var v := View(Buffering, Messages(cs[..n]), Collected(cs, n), None, []);
    var body := Collected(cs, n + 1);
    HeldBack(cs, n);
    RunSnoc(FRESH, cs, n);
    MessagesSnoc(cs, n);
    MessagesLength(cs[..n]);
    OtherAddsNothing(Collected(cs, n), cs[n].message);
    VerdictIff(body);
    DecidingChunk(v, cs[n]);
  }

  lemma OtherAddsNothing(b: Bytes, m: Message)
    ensures !m.Body? ==> b + BytesOf(m) == b
  {
  }

  lemma MessagesLength(cs: seq<Call>)
    ensures |Messages(cs)| == |cs|
  {
  }

  /** A client that was refused, or whose transport failed, gets nothing more. */
  lemma SettledStays(cs: seq<Call>, n: nat)
    requires n <= |cs| && !Running(Run(FRESH, cs[..n]))
    ensures Run(FRESH, cs) == Run(FRESH, cs[..n])
  {
    RunSplit(FRESH, cs, n);
  }

  /** After a promotion each message goes out as it comes, up to the first that fails. */
  lemma {:induction false} PassedOn(cs: seq<Call>, n: nat, m: nat)
    requires n <= m <= |cs| && Run(FRESH, cs[..n]).phase.Open? && Run(FRESH, cs[..n]).sent == Messages(cs[..n])
    requires forall i :: n <= i < m ==> cs[i].delivered > 0
    ensures Run(FRESH, cs[..m]).phase.Open? && Run(FRESH, cs[..m]).sent == Messages(cs[..m])
    ensures m < |cs| && cs[m].delivered == 0 ==>
      Run(FRESH, cs).phase.Cut? && Run(FRESH, cs).sent == Messages(cs[..m])
  {
    hide Run, Messages, Bodies;
    if n < m {
      PassedOn(cs, n, m - 1);
      RunSnoc(FRESH, cs, m - 1);
      MessagesSnoc(cs, m - 1);
      OpenSends(Run(FRESH, cs[..m - 1]), cs[m - 1]);
    }
    if m < |cs| && cs[m].delivered == 0 {
      RunSnoc(FRESH, cs, m);
      OpenSends(Run(FRESH, cs[..m]), cs[m]);
      SettledStays(cs, m + 1);
    }
  }

  lemma OpenSends(v: View, c: Call)
    requires v.phase.Open?
    ensures Run(v, [c]) == if c.delivered == 0 then v.(phase := Cut) else v.(sent := v.sent + [c.message])
  {
    hide Recognise;
    RunOne(v, c);
  }
}
