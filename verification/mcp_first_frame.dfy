/**
 The output guard of an MCP GET (`guarded_send` in app/routers/mcp.py): nothing the
 SDK sends reaches the client until the accumulated body is one endpoint event and
 the session has been promoted.  Event framing is that of section 9.2.5 of the HTML
 Standard.  Bytes are characters, one each.

 Assumed: the SDK makes one `send` call at a time and makes none after one has raised.
 */
module McpFirstFrame {
  import opened Wrappers

  type Bytes = string

  const MAX_FIRST_FRAME_BYTES := 4096
  const EVENT_LINE: Bytes := "event: endpoint"
  const DATA_LINE: Bytes := "data: /mcp/messages/?session_id="
  const LF_LF: Bytes := "\n\n"
  const CRLF_CRLF: Bytes := "\r\n\r\n"

  predicate IsHex(c: char) { '0' <= c <= '9' || 'a' <= c <= 'f' }

  predicate IsEol(e: Bytes) { e == "\n" || e == "\r\n" }

  predicate IsSessionId(s: Bytes) { |s| == 32 && forall i :: 0 <= i < |s| ==> IsHex(s[i]) }

  /** The endpoint event, written out. */
  function Event(e1: Bytes, id: Bytes, e2: Bytes, e3: Bytes): Bytes
  {
    EVENT_LINE + (e1 + (DATA_LINE + (id + (e2 + e3))))
  }

  /** What a well-formed endpoint event is. */
  ghost predicate IsEndpointEvent(b: Bytes, id: Bytes)
  {
    exists e1, e2, e3 :: IsEol(e1) && IsEol(e2) && IsEol(e3) && IsSessionId(id) && b == Event(e1, id, e2, e3)
  }

  // ---- The recogniser -----------------------------------------------------------------

  function After(b: Bytes, prefix: Bytes): Option<Bytes>
  {
    if prefix <= b then Some(b[|prefix|..]) else None
  }

  /** An optional carriage return and a line feed. */
  function AfterEol(b: Bytes): Option<Bytes>
  {
    if "\r\n" <= b then Some(b[2..]) else After(b, "\n")
  }

  /** The regular expression, matched against the whole frame; its group 2. */
  function MatchEndpoint(b: Bytes): Option<Bytes>
  {
    var r1 := After(b, EVENT_LINE);
    if r1.None? then None else
    var r2 := AfterEol(r1.value);
    if r2.None? then None else
    var r3 := After(r2.value, DATA_LINE);
    if r3.None? then None else MatchTail(r3.value)
  }

  predicate At(b: Bytes, marker: Bytes, i: nat)
  {
    i + |marker| <= |b| && b[i..i + |marker|] == marker
  }

  /** The first place, from `i` on, where `marker` occurs. */
  function Find(b: Bytes, marker: Bytes, i: nat): (r: Option<nat>)
    ensures r.Some? ==> i <= r.value && At(b, marker, r.value) && forall j :: i <= j < r.value ==> !At(b, marker, j)
    ensures r.None? ==> forall j :: i <= j ==> !At(b, marker, j)
    decreases |b| - i
  {
    if i + |marker| > |b| then None
    else if At(b, marker, i) then Some(i)
    else if i == |b| then None
    else Find(b, marker, i + 1)
  }

  datatype Verdict = Wait | Reject | Endpoint(id: Bytes)

  function Recognise(b: Bytes): Verdict
  {
    if |b| > MAX_FIRST_FRAME_BYTES then Reject
    else
      var marker := if Find(b, CRLF_CRLF, 0).Some? then CRLF_CRLF else LF_LF;
      var at := Find(b, marker, 0);
      if at.None? then Wait
      else
        var frame, remainder := b[..at.value] + marker, b[at.value + |marker|..];
        var id := MatchEndpoint(frame);
        if id.None? || remainder != "" then Reject else Endpoint(id.value)
  }

  // ---- What the recogniser recognises ----------------------------------------------------

  lemma PrefixSplit(b: Bytes, prefix: Bytes, rest: Bytes)
    ensures After(b, prefix) == Some(rest) <==> b == prefix + rest
  {
  }

  lemma EolSplit(b: Bytes, rest: Bytes)
    ensures AfterEol(b) == Some(rest) ==> exists e :: IsEol(e) && b == e + rest
    ensures forall e :: IsEol(e) && b == e + rest ==> AfterEol(b) == Some(rest)
  {
    if AfterEol(b) == Some(rest) {
      if "\r\n" <= b { assert IsEol("\r\n") && b == "\r\n" + rest; } else { assert IsEol("\n") && b == "\n" + rest; }
    }
    forall e | IsEol(e) && b == e + rest ensures AfterEol(b) == Some(rest) {
      assert b[|e|..] == rest;
      if e == "\n" { assert b[0] == '\n'; }
    }
  }

  /** The tail of the frame, from the session id on. */
  function MatchTail(b: Bytes): Option<Bytes>
  {
    if |b| < 32 || !IsSessionId(b[..32]) then None else
    var r4 := AfterEol(b[32..]);
    if r4.None? then None else
    var r5 := AfterEol(r4.value);
    if r5 == Some("") then Some(b[..32]) else None
  }

  lemma TailSound(b: Bytes)
    requires MatchTail(b).Some?
    ensures IsSessionId(MatchTail(b).value)
    ensures exists e2, e3 :: IsEol(e2) && IsEol(e3) && b == MatchTail(b).value + (e2 + e3)
  {
    var id, t := b[..32], b[32..];
    var r4 := AfterEol(t).value;
    EolSplit(t, r4);
    var e2 :| IsEol(e2) && t == e2 + r4;
    EolSplit(r4, "");
    var e3 :| IsEol(e3) && r4 == e3 + "";
    assert r4 == e3;
    assert b == id + (e2 + e3);
  }

  lemma TailComplete(id: Bytes, e2: Bytes, e3: Bytes)
    requires IsEol(e2) && IsEol(e3) && IsSessionId(id)
    ensures MatchTail(id + (e2 + e3)) == Some(id)
  {
    var b := id + (e2 + e3);
    assert b[..32] == id && b[32..] == e2 + e3;
    EolSplit(e2 + e3, e3);
    assert e3 == e3 + "";
    EolSplit(e3, "");
  }

  lemma MatchSound(b: Bytes)
    requires MatchEndpoint(b).Some?
    ensures IsEndpointEvent(b, MatchEndpoint(b).value)
  {
    hide After, AfterEol, MatchTail, IsSessionId, IsEol;
    var r1 := After(b, EVENT_LINE).value;
    PrefixSplit(b, EVENT_LINE, r1);
    var r2 := AfterEol(r1).value;
    EolSplit(r1, r2);
    var e1 :| IsEol(e1) && r1 == e1 + r2;
    var r3 := After(r2, DATA_LINE).value;
    PrefixSplit(r2, DATA_LINE, r3);
    TailSound(r3);
    var e2, e3 :| IsEol(e2) && IsEol(e3) && IsSessionId(MatchTail(r3).value) && r3 == MatchTail(r3).value + (e2 + e3);
    assert b == Event(e1, MatchTail(r3).value, e2, e3);
  }

  lemma MatchComplete(e1: Bytes, id: Bytes, e2: Bytes, e3: Bytes)
    requires IsEol(e1) && IsEol(e2) && IsEol(e3) && IsSessionId(id)
    ensures MatchEndpoint(Event(e1, id, e2, e3)) == Some(id)
  {
    hide After, AfterEol, MatchTail, IsSessionId, IsEol;
    var r3 := id + (e2 + e3);
    var r2 := DATA_LINE + r3;
    var r1 := e1 + r2;
    PrefixSplit(EVENT_LINE + r1, EVENT_LINE, r1);
    EolSplit(r1, r2);
    PrefixSplit(r2, DATA_LINE, r3);
    TailComplete(id, e2, e3);
  }

  predicate NoLineEnd(s: Bytes)
  {
    forall i :: 0 <= i < |s| ==> s[i] != '\n' && s[i] != '\r'
  }

  /** Either marker can only stand at the very end of an endpoint event. */
  lemma MarkerOnlyAtEnd(e1: Bytes, id: Bytes, e2: Bytes, e3: Bytes, marker: Bytes, i: nat)
    requires IsEol(e1) && IsEol(e2) && IsEol(e3) && IsSessionId(id)
    requires marker == LF_LF || marker == CRLF_CRLF
    requires At(Event(e1, id, e2, e3), marker, i)
    ensures i + |marker| == |Event(e1, id, e2, e3)|
    ensures marker == CRLF_CRLF ==> e2 == e3 == "\r\n"
    ensures marker == LF_LF ==> e3 == "\n"
  {
    LineIsPlain(id);
    Regroup(EVENT_LINE, e1, DATA_LINE, id, e2, e3);
    MarkerInLines(EVENT_LINE, e1, DATA_LINE + id, e2, e3, Event(e1, id, e2, e3), marker, i);
  }

  lemma Regroup(x: Bytes, e1: Bytes, y: Bytes, id: Bytes, e2: Bytes, e3: Bytes)
    ensures x + (e1 + (y + (id + (e2 + e3)))) == x + e1 + (y + id) + e2 + e3
  {
  }

  lemma LineIsPlain(id: Bytes)
    requires IsSessionId(id)
    ensures NoLineEnd(EVENT_LINE) && NoLineEnd(DATA_LINE + id)
  {
  }

  lemma MarkerInLines(x: Bytes, e1: Bytes, y: Bytes, e2: Bytes, e3: Bytes, b: Bytes, marker: Bytes, i: nat)
    requires NoLineEnd(x) && NoLineEnd(y) && IsEol(e1) && IsEol(e2) && IsEol(e3) && |y| >= 4
    requires b == x + e1 + y + e2 + e3
    requires marker == LF_LF || marker == CRLF_CRLF
    requires At(b, marker, i)
    ensures i + |marker| == |b|
    ensures marker == CRLF_CRLF ==> e2 == e3 == "\r\n"
    ensures marker == LF_LF ==> e3 == "\n"
  {
    LineFeeds(x, e1, y, e2, e3, b);
    forall k | 0 <= k < |marker| ensures b[i + k] == marker[k] {
      assert b[i..i + |marker|][k] == marker[k];
    }
    if marker == CRLF_CRLF {
      assert b[i + 1] == '\n' && b[i + 3] == '\n' && b[i] == '\r' && b[i + 2] == '\r';
    } else {
      assert b[i] == '\n' && b[i + 1] == '\n';
    }
  }

  /** The only line feeds end the three line ends. */
  lemma LineFeeds(x: Bytes, e1: Bytes, y: Bytes, e2: Bytes, e3: Bytes, b: Bytes)
    requires NoLineEnd(x) && NoLineEnd(y) && IsEol(e1) && IsEol(e2) && IsEol(e3) && |y| >= 4
    requires b == x + e1 + y + e2 + e3
    ensures forall i :: 0 <= i < |b| && b[i] == '\n' ==>
      i == |x| + |e1| - 1 || i == |b| - |e3| - 1 || i == |b| - 1
    ensures |b| - |e3| - 1 > |x| + |e1| + 2
    ensures b[|b| - |e3| - 2] == '\r' <==> e2 == "\r\n"
    ensures b[|b| - 2] == '\r' <==> e3 == "\r\n"
  {
    var p := |x| + |e1|;
    var q := p + |y|;
    forall i | 0 <= i < |b|
      ensures b[i] == if i < |x| then x[i] else if i < p then e1[i - |x|] else if i < q then y[i - p]
                      else if i < q + |e2| then e2[i - q] else e3[i - q - |e2|]
    {
    }
  }

  ghost predicate EndsInMarker(b: Bytes)
  {
    |b| >= 4 && (b[|b| - 2..] == LF_LF || b[|b| - 4..] == CRLF_CRLF)
  }

  /**
   The body is recognised exactly when it is one well-formed endpoint event of at most
   4096 bytes that ends in one of the two markers.  (An event whose data line ends in a
   line feed alone and whose blank line in a carriage return and line feed satisfies
   the regular expression, but never gets that far.)
   */
  lemma RecogniseIff(b: Bytes, id: Bytes)
    ensures Recognise(b) == Endpoint(id) <==>
      |b| <= MAX_FIRST_FRAME_BYTES && IsEndpointEvent(b, id) && EndsInMarker(b)
  {
    if Recognise(b) == Endpoint(id) {
      RecogniseSound(b);
    }
    if |b| <= MAX_FIRST_FRAME_BYTES && IsEndpointEvent(b, id) && EndsInMarker(b) {
      var e1, e2, e3 :| IsEol(e1) && IsEol(e2) && IsEol(e3) && IsSessionId(id) && b == Event(e1, id, e2, e3);
      RecogniseComplete(e1, id, e2, e3);
    }
  }

  lemma RecogniseSound(b: Bytes)
    requires Recognise(b).Endpoint?
    ensures |b| <= MAX_FIRST_FRAME_BYTES && IsEndpointEvent(b, Recognise(b).id) && EndsInMarker(b)
  {
    RecogniseMatches(b);
    MatchSound(b);
    hide Recognise, MatchEndpoint;
    assert IsEndpointEvent(b, Recognise(b).id);
  }

  /** What is left when nothing follows the marker: the whole body is the frame. */
  lemma RecogniseMatches(b: Bytes)
    requires Recognise(b).Endpoint?
    ensures |b| <= MAX_FIRST_FRAME_BYTES && MatchEndpoint(b) == Some(Recognise(b).id) && EndsInMarker(b)
  {
    var marker := if Find(b, CRLF_CRLF, 0).Some? then CRLF_CRLF else LF_LF;
    var at := Find(b, marker, 0).value;
    hide MatchEndpoint, Find;
    FrameIsAll(b, marker, at);
  }

  lemma FrameIsAll(b: Bytes, marker: Bytes, at: nat)
    requires At(b, marker, at) && b[at + |marker|..] == ""
    ensures b == b[..at] + marker && b[|b| - |marker|..] == marker
  {
    assert b == b[..at] + b[at..at + |marker|] + b[at + |marker|..];
  }

  lemma RecogniseComplete(e1: Bytes, id: Bytes, e2: Bytes, e3: Bytes)
    requires IsEol(e1) && IsEol(e2) && IsEol(e3) && IsSessionId(id)
    requires |Event(e1, id, e2, e3)| <= MAX_FIRST_FRAME_BYTES && EndsInMarker(Event(e1, id, e2, e3))
    ensures Recognise(Event(e1, id, e2, e3)) == Endpoint(id)
  {
    hide Event, MatchEndpoint, IsSessionId, IsEol;
    var b := Event(e1, id, e2, e3);
    var n := |b|;
    MatchComplete(e1, id, e2, e3);
    if b[n - 4..] == CRLF_CRLF {
      assert At(b, CRLF_CRLF, n - 4);
      EndOfFrame(e1, id, e2, e3, CRLF_CRLF, n - 4);
    } else {
      assert At(b, LF_LF, n - 2);
      forall i: nat | At(b, CRLF_CRLF, i) ensures i == n - 4 {
        MarkerOnlyAtEnd(e1, id, e2, e3, CRLF_CRLF, i);
      }
      assert Find(b, CRLF_CRLF, 0).None?;
      EndOfFrame(e1, id, e2, e3, LF_LF, n - 2);
    }
  }

  lemma EndOfFrame(e1: Bytes, id: Bytes, e2: Bytes, e3: Bytes, marker: Bytes, at: nat)
    requires IsEol(e1) && IsEol(e2) && IsEol(e3) && IsSessionId(id)
    requires marker == LF_LF || marker == CRLF_CRLF
    requires At(Event(e1, id, e2, e3), marker, at)
    ensures var b := Event(e1, id, e2, e3);
      Find(b, marker, 0) == Some(at) && at + |marker| == |b| && b[..at] + marker == b
  {
    hide Event, IsSessionId, IsEol;
    var b := Event(e1, id, e2, e3);
    var first := Find(b, marker, 0);
    assert first.Some?;
    MarkerOnlyAtEnd(e1, id, e2, e3, marker, at);
    MarkerOnlyAtEnd(e1, id, e2, e3, marker, first.value);
  }

  /** Matching the regular expression is not enough: this event is waited on, and nothing that
      may follow makes it recognised. */
  lemma MixedEndingIsNeverRecognised(e1: Bytes, id: Bytes, more: Bytes)
    requires IsEol(e1) && IsSessionId(id)
    ensures MatchEndpoint(Event(e1, id, "\n", "\r\n")) == Some(id)
    ensures Recognise(Event(e1, id, "\n", "\r\n")) == Wait
    ensures !Recognise(Event(e1, id, "\n", "\r\n") + more).Endpoint?
  {
    var b := Event(e1, id, "\n", "\r\n");
    MatchComplete(e1, id, "\n", "\r\n");
    forall marker, i: nat | (marker == LF_LF || marker == CRLF_CRLF) ensures !At(b, marker, i) {
      if At(b, marker, i) { MarkerOnlyAtEnd(e1, id, "\n", "\r\n", marker, i); }
    }
    assert b + "" == b;
    hide Event, MatchEndpoint, IsSessionId;
    if Recognise(b + more).Endpoint? {
      RecogniseSound(b + more);
      NothingFollows(e1, id, "\n", "\r\n", more, Recognise(b + more).id);
    }
  }

  /** No endpoint event continues another: each has its third line feed at its end. */
  lemma NothingFollows(e1: Bytes, id: Bytes, e2: Bytes, e3: Bytes, more: Bytes, other: Bytes)
    requires IsEol(e1) && IsEol(e2) && IsEol(e3) && IsSessionId(id)
    requires IsEndpointEvent(Event(e1, id, e2, e3) + more, other)
    ensures more == ""
  {
    var b := Event(e1, id, e2, e3);
    var f1, f2, f3 :|
      IsEol(f1) && IsEol(f2) && IsEol(f3) && IsSessionId(other) && b + more == Event(f1, other, f2, f3);
    EventFeeds(e1, id, e2, e3);
    EventFeeds(f1, other, f2, f3);
    hide Event, IsSessionId;
    forall i | 0 <= i < |b| ensures (b + more)[i] == b[i] { }
  }

  /** Where the three line feeds of an event are. */
  lemma EventFeeds(e1: Bytes, id: Bytes, e2: Bytes, e3: Bytes)
    requires IsEol(e1) && IsEol(e2) && IsEol(e3) && IsSessionId(id)
    ensures var b, n1 := Event(e1, id, e2, e3), |EVENT_LINE| + |e1|;
      var n2 := n1 + |DATA_LINE| + 32 + |e2|;
      && |b| == n2 + |e3| && b[n1 - 1] == b[n2 - 1] == b[|b| - 1] == '\n'
      && (forall i :: 0 <= i < |b| && i != n1 - 1 && i != n2 - 1 && i != |b| - 1 ==> b[i] != '\n')
  {
    LineIsPlain(id);
    Regroup(EVENT_LINE, e1, DATA_LINE, id, e2, e3);
    FeedsOfLines(EVENT_LINE, e1, DATA_LINE + id, e2, e3);
  }

  lemma FeedsOfLines(x: Bytes, e1: Bytes, y: Bytes, e2: Bytes, e3: Bytes)
    requires NoLineEnd(x) && NoLineEnd(y) && IsEol(e1) && IsEol(e2) && IsEol(e3) && |y| >= 4
    ensures var b, n1 := x + e1 + y + e2 + e3, |x| + |e1|;
      var n2 := n1 + |y| + |e2|;
      && |b| == n2 + |e3| && b[n1 - 1] == b[n2 - 1] == b[|b| - 1] == '\n'
      && (forall i :: 0 <= i < |b| && i != n1 - 1 && i != n2 - 1 && i != |b| - 1 ==> b[i] != '\n')
  {
    LineFeeds(x, e1, y, e2, e3, x + e1 + y + e2 + e3);
  }

  /** While an event is still incomplete, the recogniser waits. */
  lemma PrefixWaits(b: Bytes, p: Bytes)
    requires Recognise(b).Endpoint? && p <= b && |p| < |b|
    ensures Recognise(p) == Wait
  {
    RecogniseSound(b);
    var id := Recognise(b).id;
    var e1, e2, e3 :| IsEol(e1) && IsEol(e2) && IsEol(e3) && IsSessionId(id) && b == Event(e1, id, e2, e3);
    forall marker, i: nat | (marker == LF_LF || marker == CRLF_CRLF) && i + |marker| <= |p| ensures !At(p, marker, i) {
      PrefixHasNoMarker(e1, id, e2, e3, p, marker, i);
    }
  }

  lemma PrefixHasNoMarker(e1: Bytes, id: Bytes, e2: Bytes, e3: Bytes, p: Bytes, marker: Bytes, i: nat)
    requires IsEol(e1) && IsEol(e2) && IsEol(e3) && IsSessionId(id)
    requires p <= Event(e1, id, e2, e3) && |p| < |Event(e1, id, e2, e3)|
    requires (marker == LF_LF || marker == CRLF_CRLF) && i + |marker| <= |p|
    ensures !At(p, marker, i)
  {
    hide Event, IsSessionId, IsEol;
    var b := Event(e1, id, e2, e3);
    assert b[i..i + |marker|] == p[i..i + |marker|];
    if At(b, marker, i) { MarkerOnlyAtEnd(e1, id, e2, e3, marker, i); }
  }

  // ---- The guarded send --------------------------------------------------------------------

  datatype Message = Body(bytes: Bytes) | Other(id: nat)

  datatype Phase =
    | Buffering
    | Open       // promoted
    | Rejected   // first frame refused: the client gets the 503
    | Cut        // the client's transport failed

  /** One `send` by the SDK; `granted` is the verdict of the promotion section, and
      `delivered` how many of the transport sends it leads to go through. */
  datatype Call = Call(message: Message, granted: bool, delivered: nat)

  datatype View = View(phase: Phase, buffered: seq<Message>, body: Bytes, session: Option<Bytes>, sent: seq<Message>)

  const FRESH := View(Buffering, [], "", None, [])

  function BytesOf(m: Message): Bytes
  {
    if m.Body? then m.bytes else ""
  }

  function Flush(v: View, delivered: nat): View
  {
    if delivered < |v.buffered|
    then v.(phase := Cut, sent := v.buffered[..delivered])
    else v.(phase := Open, sent := v.buffered, buffered := [])
  }

  function Sent(v: View, c: Call): View
  {
    if v.phase.Open? then
      if c.delivered == 0 then v.(phase := Cut) else v.(sent := v.sent + [c.message])
    else
      var w := v.(buffered := v.buffered + [c.message], body := v.body + BytesOf(c.message));
      if !c.message.Body? then w
      else match Recognise(w.body)
        case Wait => w
        case Reject => w.(phase := Rejected)
        case Endpoint(id) =>
          if c.granted then Flush(w.(session := Some(id)), c.delivered) else w.(phase := Rejected, session := Some(id))
  }

  class OutputGuard {
    var phase: Phase
    var buffered: seq<Message>
    var firstFrame: Bytes
    var promotedSession: Option<Bytes>
    var sent: seq<Message>

    function Contents(): View
      reads this
    {
      View(phase, buffered, firstFrame, promotedSession, sent)
    }

    constructor ()
      ensures Contents() == FRESH
    {
      phase, buffered, firstFrame, promotedSession, sent := Buffering, [], "", None, [];
    }

    method GuardedSend(message: Message, granted: bool, delivered: nat)
      requires phase.Buffering? || phase.Open?
      requires phase.Buffering? ==> sent == []
      modifies this
      ensures Contents() == Sent(old(Contents()), Call(message, granted, delivered))
    {
      if phase.Open? {
        if delivered == 0 { phase := Cut; } else { sent := sent + [message]; }
        return;
      }
      buffered := buffered + [message];
      match message {
        case Other(_) =>
        case Body(bytes) =>
          firstFrame := firstFrame + bytes;
          match Recognise(firstFrame) {
            case Wait =>
            case Reject => phase := Rejected;
            case Endpoint(id) =>
              promotedSession := Some(id);
              if granted { FlushBuffered(delivered); } else { phase := Rejected; }
          }
      }
      assert old(firstFrame) + "" == old(firstFrame);
    }

    method FlushBuffered(delivered: nat)
      requires sent == []
      modifies this`phase, this`buffered, this`sent
      ensures Contents() == Flush(old(Contents()), delivered)
    {
      var i := 0;
      while i < |buffered| && i < delivered
        invariant i <= |buffered| && i <= delivered && buffered == old(buffered) && sent == buffered[..i]
      {
        sent := sent + [buffered[i]];
        i := i + 1;
      }
      if i < |buffered| {
        phase := Cut;
      } else {
        phase, buffered := Open, [];
      }
    }
  }

  // ---- Whole runs ------------------------------------------------------------------------------

  predicate Running(v: View) { v.phase.Buffering? || v.phase.Open? }

  /** The SDK's sends, until one raises. */
  function Run(v: View, cs: seq<Call>): View
    decreases |cs|
  {
    if cs == [] || !Running(v) then v else Run(Sent(v, cs[0]), cs[1..])
  }

  function Messages(cs: seq<Call>): seq<Message>
  {
    seq(|cs|, i requires 0 <= i < |cs| => cs[i].message)
  }

  function Bodies(ms: seq<Message>): Bytes
  {
    if ms == [] then "" else Bodies(ms[..|ms| - 1]) + BytesOf(ms[|ms| - 1])
  }

  /** The call that completed a recognised event, and was granted its promotion. */
  ghost predicate PromotesAt(cs: seq<Call>, i: nat, id: Bytes)
  {
    0 < i <= |cs| && cs[i - 1].granted && Recognise(Bodies(Messages(cs[..i]))) == Endpoint(id)
  }

  ghost predicate Promoted(cs: seq<Call>, id: Bytes)
  {
    exists i: nat :: PromotesAt(cs, i, id)
  }

  ghost predicate Faithful(v: View, cs: seq<Call>)
  {
    var ms := Messages(cs);
    && (v.phase.Buffering? ==> v.buffered == ms && v.body == Bodies(ms) && v.sent == [] && v.session.None?)
    && (v.phase.Open? ==> v.sent == ms)
    && (v.phase.Rejected? ==> v.sent == [])
    && v.sent <= ms
    && (v.phase.Open? || v.sent != [] ==> v.session.Some? && Promoted(cs, v.session.value))
  }

  lemma PromotedLater(cs: seq<Call>, more: seq<Call>, id: Bytes)
    requires Promoted(cs, id)
    ensures Promoted(cs + more, id)
  {
    hide Recognise, Messages, Bodies;
    var i: nat :| PromotesAt(cs, i, id);
    assert (cs + more)[..i] == cs[..i];
    assert PromotesAt(cs + more, i, id);
  }

  lemma SentFaithful(v: View, cs: seq<Call>, c: Call)
    requires Running(v) && Faithful(v, cs)
    ensures Faithful(Sent(v, c), cs + [c])
  {
    OneMore(cs, c);
    if v.phase.Open? {
      PromotedLater(cs, [c], v.session.value);
      hide Recognise, Bodies, Promoted;
    } else if c.message.Body? && c.granted && Recognise(v.body + BytesOf(c.message)).Endpoint? {
      var id := Recognise(v.body + BytesOf(c.message)).id;
      PromotedNow(cs, c, id);
      var w := v.(buffered := v.buffered + [c.message], body := v.body + BytesOf(c.message), session := Some(id));
      hide Recognise, Bodies, Promoted, Messages;
      FlushFaithful(w, cs + [c], c.delivered);
      hide Flush, Faithful;
    } else {
      hide Recognise, Bodies, Promoted, Messages, Flush;
    }
  }

  lemma FlushFaithful(w: View, cs: seq<Call>, delivered: nat)
    requires w.buffered == Messages(cs) && w.session.Some? && Promoted(cs, w.session.value)
    ensures Faithful(Flush(w, delivered), cs)
  {
    hide Recognise, Bodies, Promoted, Messages;
  }

  lemma OneMore(cs: seq<Call>, c: Call)
    ensures Messages(cs + [c]) == Messages(cs) + [c.message]
    ensures Bodies(Messages(cs + [c])) == Bodies(Messages(cs)) + BytesOf(c.message)
  {
    assert (cs + [c])[..|cs|] == cs && (cs + [c])[..|cs| + 1] == cs + [c];
    MessagesSnoc(cs + [c], |cs|);
  }

  lemma PromotedNow(cs: seq<Call>, c: Call, id: Bytes)
    requires c.granted && Recognise(Bodies(Messages(cs)) + BytesOf(c.message)) == Endpoint(id)
    ensures Promoted(cs + [c], id)
  {
    OneMore(cs, c);
    hide Recognise, Messages, Bodies;
    assert (cs + [c])[..|cs| + 1] == cs + [c];
    assert PromotesAt(cs + [c], |cs| + 1, id);
  }

  ghost predicate SoundOutcome(v: View, cs: seq<Call>)
  {
    && (v.phase.Rejected? ==> v.sent == [])
    && v.sent <= Messages(cs)
    && (v.sent != [] ==> v.session.Some? && Promoted(cs, v.session.value))
  }

  lemma {:induction false} RunFaithful(cs: seq<Call>)
    ensures SoundOutcome(Run(FRESH, cs), cs)
    ensures Running(Run(FRESH, cs)) ==> Faithful(Run(FRESH, cs), cs)
  {
    hide Run, Faithful, SoundOutcome;
    if cs == [] {
      NothingRun();
    } else {
      var n := |cs| - 1;
      RunFaithful(cs[..n]);
      OneMoreRun(cs[..n], cs[n]);
      Reassembled(cs, n);
    }
  }

  lemma NothingRun()
    ensures SoundOutcome(Run(FRESH, []), []) && Faithful(Run(FRESH, []), [])
  {
    hide Recognise;
    FaithfulIsSound(FRESH, []);
  }

  lemma Reassembled(cs: seq<Call>, n: nat)
    requires n + 1 == |cs|
    ensures cs[..n] + [cs[n]] == cs
  {
  }

  lemma OneMoreRun(cs: seq<Call>, c: Call)
    requires SoundOutcome(Run(FRESH, cs), cs) && (Running(Run(FRESH, cs)) ==> Faithful(Run(FRESH, cs), cs))
    ensures SoundOutcome(Run(FRESH, cs + [c]), cs + [c])
    ensures Running(Run(FRESH, cs + [c])) ==> Faithful(Run(FRESH, cs + [c]), cs + [c])
  {
    hide Run, Sent, Faithful, SoundOutcome;
    var v := Run(FRESH, cs);
    RunAppend(FRESH, cs, c);
    RunOne(v, c);
    if Running(v) {
      SentFaithful(v, cs, c);
      FaithfulIsSound(Sent(v, c), cs + [c]);
    } else {
      SoundLonger(v, cs, [c]);
    }
  }

  lemma RunAppend(v: View, cs: seq<Call>, c: Call)
    ensures Run(v, cs + [c]) == Run(Run(v, cs), [c])
  {
    hide Run;
    RunSplit(v, cs + [c], |cs|);
    assert (cs + [c])[..|cs|] == cs && (cs + [c])[|cs|..] == [c];
  }

  lemma RunOne(v: View, c: Call)
    ensures Run(v, [c]) == if Running(v) then Sent(v, c) else v
  {
    hide Sent;
    assert [c][1..] == [];
  }

  lemma FaithfulIsSound(v: View, cs: seq<Call>)
    ensures Faithful(v, cs) ==> SoundOutcome(v, cs)
  {
  }

  lemma SoundLonger(v: View, cs: seq<Call>, more: seq<Call>)
    requires SoundOutcome(v, cs)
    ensures SoundOutcome(v, cs + more)
  {
    assert Messages(cs) <= Messages(cs + more);
    if v.sent != [] { PromotedLater(cs, more, v.session.value); }
  }

  /** The bodies are, together, one well-formed endpoint event within the limit. */
  ghost predicate OneEvent(ms: seq<Message>, id: Bytes)
  {
    |Bodies(ms)| <= 4096 && IsEndpointEvent(Bodies(ms), id)
  }

  /** The promotion of this session was granted at the call with which the bodies became one
      endpoint event. */
  ghost predicate PromotedByEvent(cs: seq<Call>, id: Bytes)
  {
    exists i: nat :: 0 < i <= |cs| && cs[i - 1].granted && OneEvent(Messages(cs[..i]), id)
  }

  /**
   Whatever the chunking: a refused client is sent none of the SDK's messages, any
   client is sent an in-order verbatim prefix of them, and it is sent one only after
   a promotion was granted at a call with which the bodies were exactly one endpoint event
   of at most 4096 bytes.
   */
  lemma ClientSeesAPrefix(cs: seq<Call>)
    ensures Run(FRESH, cs).phase.Rejected? ==> Run(FRESH, cs).sent == []
    ensures Run(FRESH, cs).sent <= Messages(cs)
    ensures Run(FRESH, cs).phase.Open? ==> Run(FRESH, cs).sent == Messages(cs)
    ensures Run(FRESH, cs).sent != [] ==>
      Run(FRESH, cs).session.Some? && PromotedByEvent(cs, Run(FRESH, cs).session.value)
  {
    RunFaithful(cs);
    if Run(FRESH, cs).sent != [] { PromotedMeansEvent(cs, Run(FRESH, cs).session.value); }
    OpenIsFaithful(Run(FRESH, cs), cs);
    hide Run, Recognise, Messages, Bodies, Faithful, Promoted, PromotedByEvent;
  }

  lemma OpenIsFaithful(v: View, cs: seq<Call>)
    ensures Faithful(v, cs) && v.phase.Open? ==> v.sent == Messages(cs)
  {
  }

  lemma PromotedMeansEvent(cs: seq<Call>, id: Bytes)
    requires Promoted(cs, id)
    ensures PromotedByEvent(cs, id)
  {
    hide Recognise, Messages, Bodies, IsEndpointEvent;
    var i: nat :| PromotesAt(cs, i, id);
    RecogniseIff(Bodies(Messages(cs[..i])), id);
    assert OneEvent(Messages(cs[..i]), id);
  }

  /** A recognised event is recognised however it is cut into chunks: no chunk before
      the last is refused, and with promotion granted and the transport up all of it is
      sent at the chunk that completes it. */
  lemma {:induction false} AnyChunkingPromotes(cs: seq<Call>)
    requires cs != [] && Recognise(Bodies(Messages(cs))).Endpoint?
    requires BytesOf(cs[|cs| - 1].message) != ""
    requires cs[|cs| - 1].granted && cs[|cs| - 1].delivered >= |cs|
    ensures Run(FRESH, cs) ==
      View(Open, [], Bodies(Messages(cs)), Some(Recognise(Bodies(Messages(cs))).id), Messages(cs))
  {
    var n, event := |cs| - 1, Bodies(Messages(cs));
    RunBuffers(cs, n, event);
    RunSplit(FRESH, cs, n);
    MessagesSnoc(cs, n);
    assert cs[..n + 1] == cs;
    hide Recognise, Messages, Bodies, Flush;
    LastChunk(View(Buffering, Messages(cs[..n]), Bodies(Messages(cs[..n])), None, []), cs[n], event);
  }

  lemma LastChunk(v: View, c: Call, event: Bytes)
    requires v == View(Buffering, v.buffered, v.body, None, []) && v.body + BytesOf(c.message) == event
    requires Recognise(event).Endpoint? && c.message.Body? && c.granted && c.delivered > |v.buffered|
    ensures Run(v, [c]) == View(Open, [], event, Some(Recognise(event).id), v.buffered + [c.message])
  {
    hide Recognise;
    var sent := Sent(v, c);
    assert (v.buffered + [c.message])[..|v.buffered| + 1] == v.buffered + [c.message];
    assert Run(v, [c]) == Run(sent, []);
  }

  lemma MessagesSnoc(cs: seq<Call>, k: nat)
    requires k < |cs|
    ensures Messages(cs[..k + 1]) == Messages(cs[..k]) + [cs[k].message]
    ensures Bodies(Messages(cs[..k + 1])) == Bodies(Messages(cs[..k])) + BytesOf(cs[k].message)
    ensures cs[k..][0] == cs[k] && cs[k..k + 1] == [cs[k]]
  {
    var ms := Messages(cs[..k + 1]);
    assert ms == Messages(cs[..k]) + [cs[k].message];
    assert ms[..k] == Messages(cs[..k]);
  }

  lemma {:induction false} RunSplit(v: View, cs: seq<Call>, k: nat)
    requires k <= |cs|
    ensures Run(v, cs) == Run(Run(v, cs[..k]), cs[k..])
    decreases k
  {
    if k == 0 {
      assert cs[0..] == cs;
    } else if Running(v) {
      assert cs[1..][..k - 1] == cs[..k][1..] && cs[1..][k - 1..] == cs[k..];
      RunSplit(Sent(v, cs[0]), cs[1..], k - 1);
    }
  }

  lemma {:induction false} RunBuffers(cs: seq<Call>, k: nat, event: Bytes)
    requires k < |cs| && Recognise(event).Endpoint? && event == Bodies(Messages(cs))
    requires BytesOf(cs[|cs| - 1].message) != ""
    ensures Run(FRESH, cs[..k]) == View(Buffering, Messages(cs[..k]), Bodies(Messages(cs[..k])), None, [])
  {
    hide Recognise, Messages, Bodies, Run;
    if k == 0 {
      NothingSent(cs);
    } else {
      RunBuffers(cs, k - 1, event);
      RunSnoc(FRESH, cs, k - 1);
      MessagesSnoc(cs, k - 1);
      EarlierWaits(cs, k, event);
      EarlyChunk(View(Buffering, Messages(cs[..k - 1]), Bodies(Messages(cs[..k - 1])), None, []), cs[k - 1]);
    }
  }

  lemma NothingSent(cs: seq<Call>)
    ensures Messages(cs[..0]) == [] && Bodies(Messages(cs[..0])) == "" && Run(FRESH, cs[..0]) == FRESH
  {
  }

  lemma RunSnoc(v: View, cs: seq<Call>, k: nat)
    requires k < |cs|
    ensures Run(v, cs[..k + 1]) == Run(Run(v, cs[..k]), [cs[k]])
  {
    hide Run;
    RunAppend(v, cs[..k], cs[k]);
    assert cs[..k] + [cs[k]] == cs[..k + 1];
  }

  lemma EarlierWaits(cs: seq<Call>, k: nat, event: Bytes)
    requires k < |cs| && Recognise(event).Endpoint? && event == Bodies(Messages(cs))
    requires BytesOf(cs[|cs| - 1].message) != ""
    ensures Recognise(Bodies(Messages(cs[..k]))).Wait?
  {
    hide Recognise, Bodies, Messages;
    var ms := Messages(cs);
    MessagesBefore(cs, k);
    BodiesGrow(ms, k);
    PrefixWaits(event, Bodies(ms[..k]));
  }

  lemma MessagesBefore(cs: seq<Call>, k: nat)
    requires k < |cs|
    ensures var ms := Messages(cs); k < |ms| && ms[..k] == Messages(cs[..k]) && ms[|ms| - 1] == cs[|cs| - 1].message
  {
  }

  lemma EarlyChunk(v: View, c: Call)
    requires v == View(Buffering, v.buffered, v.body, None, []) && Recognise(v.body + BytesOf(c.message)).Wait?
    ensures Run(v, [c]) == View(Buffering, v.buffered + [c.message], v.body + BytesOf(c.message), None, [])
  {
    hide Recognise;
    assert Run(v, [c]) == Run(Sent(v, c), []);
  }

  lemma {:induction false} BodiesGrow(ms: seq<Message>, k: nat)
    requires k < |ms| && BytesOf(ms[|ms| - 1]) != ""
    ensures Bodies(ms[..k]) <= Bodies(ms) && |Bodies(ms[..k])| < |Bodies(ms)|
  {
    BodiesPrefix(ms[..|ms| - 1], k);
    assert ms[..|ms| - 1][..k] == ms[..k];
  }

  lemma {:induction false} BodiesPrefix(ms: seq<Message>, k: nat)
    requires k <= |ms|
    ensures Bodies(ms[..k]) <= Bodies(ms)
  {
    if k == |ms| {
      assert ms[..k] == ms;
    } else {
      BodiesPrefix(ms[..|ms| - 1], k);
      assert ms[..|ms| - 1][..k] == ms[..k];
    }
  }
}
