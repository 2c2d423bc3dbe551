/**
 The filter on the client-to-server direction of a desktop session: it forwards the byte
 stream but drops SetDesktopSize messages of a viewer that is not primary. The input comes
 in arbitrary chunks, and the viewer may be promoted at any moment, also inside a call; the
 theorems show that the chunking never matters and give the output in terms of the messages
 the whole stream encodes.
 */
module RfbFilter {
  import opened Common
  import opened RfbMessages
  import opened DesktopViewers

  /** ProtocolVersion (12), chosen security type (1) and ClientInit (1). */
  const HANDSHAKE: nat := 14

  /*
   The filter reads its session's primary flag once for each resize, and the flag only ever
   changes from false to true. So its readings, in order, are some number of false ones and
   then only true ones. That number is called `blind`: 0 for a viewer that is primary from the
   start, and at least the number of resizes for one that is never promoted.
   */

  /** What draining a buffer leaves: output, unparsed rest, bypass flag, last size recorded, blind readings. */
  datatype Drained = Drained(out: Bytes, buffer: Bytes, bypass: bool, last: Bytes, blind: nat)

  /** The blind readings left after a message. */
  function BlindAfter(blind: nat, resize: bool): nat {
    if resize && blind > 0 then blind - 1 else blind
  }

  /** The parse loop on a buffer. */
  function Drain(buf: Bytes, blind: nat, last: Bytes): (d: Drained)
    decreases |buf|
  {
    if PeekMessageLength(buf) == Unknown then Drained(buf, [], true, last, blind)
    else if !HasMessage(buf) then Drained([], buf, false, last, blind)
    else
      var n := PeekMessageLength(buf).length;
      var resize := buf[0] == SET_DESKTOP_SIZE;
      var rest := Drain(buf[n..], BlindAfter(blind, resize), if resize then buf[..n] else last);
      rest.(out := (if resize && blind > 0 then [] else buf[..n]) + rest.out)
  }

  /** The filter's fields together with the size the session remembers. */
  datatype FilterState = FilterState(handshakeRemaining: nat, buffer: Bytes, bypass: bool, last: Bytes, blind: nat)

  function Fresh(blind: nat): FilterState {
    FilterState(HANDSHAKE, [], false, [], blind)
  }

  /** The effect of one `Process` call: new state and forwarded bytes. */
  function Feed(st: FilterState, chunk: Bytes): (FilterState, Bytes) {
    if st.bypass then (st, chunk)
    else
      var n := if st.handshakeRemaining > |chunk| then |chunk| else st.handshakeRemaining;
      var d := Drain(st.buffer + chunk[n..], st.blind, st.last);
      (FilterState(st.handshakeRemaining - n, d.buffer, d.bypass, d.last, d.blind), chunk[..n] + d.out)
  }

  class RfbClientFilter {
    const session: ViewerSession
    var handshakeRemaining: nat
    var msgBuffer: Bytes
    var bypass: bool
    var blind: nat          // how many more readings of the flag come before its promotion

    function State(): FilterState
      reads this, session
    {
      FilterState(handshakeRemaining, msgBuffer, bypass, session.lastSetDesktopSize, blind)
    }

    /** Between calls the buffer holds at most an unfinished message. */
    ghost predicate Valid()
      reads this, session
    {
      Settled(State()) && (session.primary ==> blind == 0)
    }

    constructor (session: ViewerSession, blind: nat)
      requires session.lastSetDesktopSize == [] && (session.primary ==> blind == 0)
      ensures this.session == session && Valid() && State() == Fresh(blind)
      ensures State() == FilterState(14, [], false, [], blind)
    {
      this.session := session;
      handshakeRemaining := HANDSHAKE;
      msgBuffer := [];
      bypass := false;
      this.blind := blind;
    }

    /** A reading of the session's atomic flag, which the registry may set between any two readings. */
    method IsPrimary() returns (primary: bool)
      modifies this`blind
      ensures primary == (old(blind) == 0) && blind == BlindAfter(old(blind), true)
    {
      primary := blind == 0;
      if !primary {
        blind := blind - 1;
      }
    }

    method Process(chunk: Bytes) returns (out: Bytes)
      requires Valid()
      modifies this, session`lastSetDesktopSize
      ensures Valid()
      ensures (State(), out) == Feed(old(State()), chunk)
    {
      hide PeekMessageLength, Drain, Feed, Settled;
      FeedSettles(State(), chunk);
      FeedUnfolds(State(), chunk);
      if bypass {
        return chunk;
      }
      out := [];
      var input := chunk;
      if handshakeRemaining > 0 {
        var n := if handshakeRemaining > |input| then |input| else handshakeRemaining;
        out := input[..n];
        handshakeRemaining := handshakeRemaining - n;
        input := input[n..];
        if |input| == 0 {
          return;
        }
      }
      msgBuffer := msgBuffer + input;
      ghost var goal := Drain(msgBuffer, blind, session.lastSetDesktopSize);
      ghost var total, handshake := out + goal.out, handshakeRemaining;
      while |msgBuffer| > 0
        invariant !bypass && handshakeRemaining == handshake && (session.primary ==> blind == 0)
        invariant var d := Drain(msgBuffer, blind, session.lastSetDesktopSize);
                  && goal == d.(out := goal.out)
                  && total == out + d.out
        decreases |msgBuffer|
      {
        DrainStops(msgBuffer, blind, session.lastSetDesktopSize);
        var head := PeekMessageLength(msgBuffer);
        if head == NeedMore {
          break;
        }
        if head == Unknown {
          bypass := true;
          out := out + msgBuffer;
          msgBuffer := [];
          return;
        }
        if head.length > |msgBuffer| {
          break;
        }
        var msg := msgBuffer[..head.length];
        DrainRound(msgBuffer, blind, session.lastSetDesktopSize, out);
        if msg[0] == SET_DESKTOP_SIZE {
          session.RecordSetDesktopSize(msg);
          var primary := IsPrimary();
          if primary {
            out := out + msg;
          }
        } else {
          out := out + msg;
        }
        msgBuffer := msgBuffer[head.length..];
      }
      DrainStops(msgBuffer, blind, session.lastSetDesktopSize);
      assert out + [] == out;
    }
  }

  /** The three ways a `Process` call goes: bypass, handshake only, or a drained buffer. */
  lemma FeedUnfolds(st: FilterState, chunk: Bytes)
    requires Settled(st)
    ensures st.bypass ==> Feed(st, chunk) == (st, chunk)
    ensures !st.bypass ==>
              var n := if st.handshakeRemaining > |chunk| then |chunk| else st.handshakeRemaining;
              var d := Drain(st.buffer + chunk[n..], st.blind, st.last);
              Feed(st, chunk) ==
              (FilterState(st.handshakeRemaining - n, d.buffer, d.bypass, d.last, d.blind), chunk[..n] + d.out)
    ensures 0 < st.handshakeRemaining && |chunk| <= st.handshakeRemaining ==>
              Feed(st, chunk) == (st.(handshakeRemaining := st.handshakeRemaining - |chunk|), chunk[..|chunk|])
    ensures st.handshakeRemaining == 0 ==> chunk[0..] == chunk && forall out: Bytes :: chunk[..0] + out == [] + out
  {
    if 0 < st.handshakeRemaining && |chunk| <= st.handshakeRemaining {
      FeedHandshake(st, chunk);
      assert chunk[..|chunk|] == chunk;
    }
  }

  /** Where the parse loop ends: on an unknown type, or with no whole message. */
  lemma DrainStops(buf: Bytes, blind: nat, last: Bytes)
    ensures PeekMessageLength(buf) == Unknown ==> Drain(buf, blind, last) == Drained(buf, [], true, last, blind)
    ensures Stalled(buf) ==> Drain(buf, blind, last) == Drained([], buf, false, last, blind)
  {}

  /** One round of the parse loop, after `out` has been forwarded. */
  lemma DrainRound(buf: Bytes, blind: nat, last: Bytes, out: Bytes)
    requires HasMessage(buf)
    ensures var n := PeekMessageLength(buf).length;
            var resize := buf[0] == SET_DESKTOP_SIZE;
            var kept := if resize && blind > 0 then [] else buf[..n];
            var before := Drain(buf, blind, last);
            var after := Drain(buf[n..], BlindAfter(blind, resize), if resize then buf[..n] else last);
            before == after.(out := kept + after.out) && out + before.out == (out + kept) + after.out
            && out + [] == out
  {
    hide PeekMessageLength;
    var n := PeekMessageLength(buf).length;
    var resize := buf[0] == SET_DESKTOP_SIZE;
    ConcatAssociates(out, if resize && blind > 0 then [] else buf[..n],
                     Drain(buf[n..], BlindAfter(blind, resize), if resize then buf[..n] else last).out);
  }

  // ----- Chunking does not matter ------------------------------------------------------

  /** During the handshake nothing is buffered; afterwards only an unfinished message is. */
  ghost predicate Settled(st: FilterState) {
    && (st.handshakeRemaining > 0 ==> st.buffer == [] && !st.bypass)
    && (st.bypass ==> st.buffer == [])
    && Stalled(st.buffer)
  }

  lemma {:induction false} DrainSettles(buf: Bytes, blind: nat, last: Bytes)
    ensures var d := Drain(buf, blind, last);
            Stalled(d.buffer) && (d.bypass ==> d.buffer == [])
    decreases |buf|
  {
    if HasMessage(buf) {
      var n := PeekMessageLength(buf).length;
      var resize := buf[0] == SET_DESKTOP_SIZE;
      DrainSettles(buf[n..], BlindAfter(blind, resize), if resize then buf[..n] else last);
    }
  }

  /** A chunk that only feeds the handshake is forwarded and leaves the buffer empty. */
  lemma FeedHandshake(st: FilterState, chunk: Bytes)
    requires Settled(st) && 0 < st.handshakeRemaining && |chunk| <= st.handshakeRemaining
    ensures Feed(st, chunk) == (st.(handshakeRemaining := st.handshakeRemaining - |chunk|), chunk)
  {
    assert st.buffer + chunk[|chunk|..] == [];
    assert chunk[..|chunk|] == chunk;
    assert chunk + [] == chunk;
  }

  lemma FeedSettles(st: FilterState, chunk: Bytes)
    requires Settled(st)
    ensures Settled(Feed(st, chunk).0)
  {
    if !st.bypass {
      var n := if st.handshakeRemaining > |chunk| then |chunk| else st.handshakeRemaining;
      DrainSettles(st.buffer + chunk[n..], st.blind, st.last);
      if st.handshakeRemaining > |chunk| {
        assert st.buffer + chunk[n..] == [];
      }
    }
  }

  /** Draining a longer buffer resumes where draining the shorter one stopped. */
  lemma {:induction false} DrainResumes(buf: Bytes, more: Bytes, blind: nat, last: Bytes)
    ensures var d := Drain(buf, blind, last);
            var whole := Drain(buf + more, blind, last);
            if d.bypass then whole == d.(out := d.out + more)
            else var rest := Drain(d.buffer + more, d.blind, d.last); whole == rest.(out := d.out + rest.out)
    decreases |buf|
  {
    hide PeekMessageLength;
    PeekIsStable(buf, more);
    if HasMessage(buf) {
      var n := PeekMessageLength(buf).length;
      var blind' := BlindAfter(blind, buf[0] == SET_DESKTOP_SIZE);
      var last' := if buf[0] == SET_DESKTOP_SIZE then buf[..n] else last;
      var kept := if buf[0] == SET_DESKTOP_SIZE && blind > 0 then [] else buf[..n];
      var d := Drain(buf[n..], blind', last');
      DrainResumes(buf[n..], more, blind', last');
      DrainHead(buf, more, blind, last);
      ConcatAssociates(kept, d.out, if d.bypass then more else Drain(d.buffer + more, d.blind, d.last).out);
    }
  }

  /** One round of the loop looks only at the head message, whatever follows it. */
  lemma DrainHead(buf: Bytes, more: Bytes, blind: nat, last: Bytes)
    requires HasMessage(buf)
    ensures var n := PeekMessageLength(buf).length;
            var blind' := BlindAfter(blind, buf[0] == SET_DESKTOP_SIZE);
            var last' := if buf[0] == SET_DESKTOP_SIZE then buf[..n] else last;
            var kept := if buf[0] == SET_DESKTOP_SIZE && blind > 0 then [] else buf[..n];
            var d := Drain(buf[n..] + more, blind', last');
            Drain(buf + more, blind, last) == d.(out := kept + d.out)
  {
    hide PeekMessageLength;
    PeekIsStable(buf, more);
    var n := PeekMessageLength(buf).length;
    assert (buf + more)[..n] == buf[..n];
    assert (buf + more)[n..] == buf[n..] + more;
  }

  /** Feeding two chunks is feeding their concatenation. */
  lemma FeedTwice(st: FilterState, a: Bytes, b: Bytes)
    requires Settled(st)
    ensures var (mid, out1) := Feed(st, a);
            var (end, out2) := Feed(mid, b);
            Feed(st, a + b) == (end, out1 + out2)
  {
    if !st.bypass {
      if st.handshakeRemaining > |a| {
        FeedTwiceInHandshake(st, a, b);
      } else {
        FeedTwiceAfterHandshake(st, a, b);
      }
    }
  }

  lemma FeedTwiceInHandshake(st: FilterState, a: Bytes, b: Bytes)
    requires Settled(st) && |a| < st.handshakeRemaining
    ensures var (mid, out1) := Feed(st, a);
            var (end, out2) := Feed(mid, b);
            Feed(st, a + b) == (end, out1 + out2)
  {
    hide PeekMessageLength, Drain;
    FeedHandshake(st, a);
    var h := st.handshakeRemaining - |a|;
    var n := if h > |b| then |b| else h;
    assert (a + b)[..|a| + n] == a + b[..n];
    assert (a + b)[|a| + n..] == b[n..];
    ConcatAssociates(a, b[..n], Drain(st.buffer + b[n..], st.blind, st.last).out);
  }

  lemma FeedTwiceAfterHandshake(st: FilterState, a: Bytes, b: Bytes)
    requires Settled(st) && !st.bypass && st.handshakeRemaining <= |a|
    ensures var (mid, out1) := Feed(st, a);
            var (end, out2) := Feed(mid, b);
            Feed(st, a + b) == (end, out1 + out2)
  {
    hide PeekMessageLength, Drain, Settled;
    var h := st.handshakeRemaining;
    var buf := st.buffer + a[h..];
    var d := Drain(buf, st.blind, st.last);
    assert (a + b)[..h] == a[..h];
    assert st.buffer + (a + b)[h..] == buf + b;
    DrainResumes(buf, b, st.blind, st.last);
    var second := if d.bypass then b else Drain(d.buffer + b, d.blind, d.last).out;
    assert b[0..] == b && b[..0] + second == second;
    ConcatAssociates(a[..h], d.out, second);
  }

  /** A whole run over a list of chunks. */
  function Run(st: FilterState, chunks: seq<Bytes>): (FilterState, Bytes)
    decreases |chunks|
  {
    if chunks == [] then (st, [])
    else
      var (mid, out) := Feed(st, chunks[0]);
      var (end, rest) := Run(mid, chunks[1..]);
      (end, out + rest)
  }

  /** Any way of cutting the stream gives the output and state of feeding it at once. */
  lemma {:induction false} ChunkingIsIrrelevant(st: FilterState, chunks: seq<Bytes>)
    requires Settled(st)
    ensures Run(st, chunks) == Feed(st, Flatten(chunks))
    ensures Settled(Run(st, chunks).0)
    decreases |chunks|
  {
    if chunks == [] {
      FeedNothing(st);
    } else {
      FeedSettles(st, chunks[0]);
      ChunkingIsIrrelevant(Feed(st, chunks[0]).0, chunks[1..]);
      FeedTwice(st, chunks[0], Flatten(chunks[1..]));
    }
  }

  lemma FeedNothing(st: FilterState)
    requires Settled(st)
    ensures Feed(st, []) == (st, [])
  {
    hide PeekMessageLength;
    if !st.bypass {
      var none: Bytes := [];
      assert st.buffer + none[0..] == st.buffer;
      assert Drain(st.buffer, st.blind, st.last) == Drained([], st.buffer, st.bypass, st.last, st.blind);
      assert none[..0] + none == none;
    }
  }

  // ----- The output in terms of messages -----------------------------------------------

  /** The messages the filter lets through: all but the resizes of the blind readings. */
  function Permitted(messages: seq<ClientMessage>, blind: nat): (kept: seq<ClientMessage>)
    ensures AllValid(messages) ==> AllValid(kept)
  {
    if messages == [] then []
    else
      var resize := messages[0].SetDesktopSize?;
      (if resize && blind > 0 then [] else [messages[0]]) + Permitted(messages[1..], BlindAfter(blind, resize))
  }

  function ResizeCount(messages: seq<ClientMessage>): nat {
    if messages == [] then 0 else (if messages[0].SetDesktopSize? then 1 else 0) + ResizeCount(messages[1..])
  }

  function WithoutResizes(messages: seq<ClientMessage>): (kept: seq<ClientMessage>)
    ensures AllValid(messages) ==> AllValid(kept)
  {
    if messages == [] then []
    else (if messages[0].SetDesktopSize? then [] else [messages[0]]) + WithoutResizes(messages[1..])
  }

  lemma {:induction false} WithoutResizesKeeps(messages: seq<ClientMessage>, m: ClientMessage)
    ensures m in WithoutResizes(messages) <==> m in messages && !m.SetDesktopSize?
  {
    if messages != [] {
      WithoutResizesKeeps(messages[1..], m);
      assert m in messages <==> m == messages[0] || m in messages[1..];
    }
  }

  function Minus(blind: nat, readings: nat): nat {
    if readings < blind then blind - readings else 0
  }

  /** The encoding of the last resize among the messages, or `last` when there is none. */
  function LastResize(messages: seq<ClientMessage>, last: Bytes): Bytes
    requires AllValid(messages)
  {
    if messages == [] then last
    else LastResize(messages[1..], if messages[0].SetDesktopSize? then messages[0].Encode() else last)
  }

  /** It is the last resize in the list, whatever other messages follow. */
  lemma {:induction false} LastResizeIs(before: seq<ClientMessage>, m: ClientMessage,
                                        after: seq<ClientMessage>, last: Bytes)
    requires AllValid(before + ([m] + after)) && m.SetDesktopSize? && ResizeCount(after) == 0
    ensures LastResize(before + ([m] + after), last) == m.Encode()
    decreases |before|
  {
    if before == [] {
      assert before + ([m] + after) == [m] + after && ([m] + after)[1..] == after;
      NoResizeKeepsLast(after, m.Encode());
    } else {
      assert (before + ([m] + after))[1..] == before[1..] + ([m] + after);
      LastResizeIs(before[1..], m, after, if before[0].SetDesktopSize? then before[0].Encode() else last);
    }
  }

  lemma {:induction false} NoResizeKeepsLast(messages: seq<ClientMessage>, last: Bytes)
    requires AllValid(messages) && ResizeCount(messages) == 0
    ensures LastResize(messages, last) == last
  {
    if messages != [] {
      NoResizeKeepsLast(messages[1..], last);
    }
  }

  /** A stream's message part: encoded messages, then a rest that no longer parses. */
  ghost predicate IsParse(stream: Bytes, messages: seq<ClientMessage>, rest: Bytes) {
    AllValid(messages) && stream == EncodeAll(messages) + rest && (UnknownHead(rest) || Unfinished(rest))
  }

  lemma {:induction false} EveryStreamParses(stream: Bytes) returns (messages: seq<ClientMessage>, rest: Bytes)
    ensures IsParse(stream, messages, rest)
    decreases |stream|
  {
    hide PeekMessageLength, ClientMessage.Encode, ClientMessage.Valid, DecodeHead;
    UnfinishedIffStalled(stream);
    UnknownIffHead(stream);
    if HasMessage(stream) {
      var n := PeekMessageLength(stream).length;
      DecodeInverse(stream);
      messages, rest := EveryStreamParses(stream[n..]);
      ParseCons(DecodeHead(stream), stream[n..], messages, rest);
      assert stream == stream[..n] + stream[n..];
      messages := [DecodeHead(stream)] + messages;
    } else {
      messages, rest := [], stream;
      assert [] + stream == stream;
    }
  }

  lemma ParseCons(m: ClientMessage, stream: Bytes, messages: seq<ClientMessage>, rest: Bytes)
    requires m.Valid() && IsParse(stream, messages, rest)
    ensures IsParse(m.Encode() + stream, [m] + messages, rest)
  {
    hide PeekMessageLength, ClientMessage.Encode;
    assert ([m] + messages)[1..] == messages;
    ConcatAssociates(m.Encode(), EncodeAll(messages), rest);
  }

  /** What no longer parses is forwarded when its type is unknown and kept otherwise. */
  lemma DrainOfRest(rest: Bytes, blind: nat, last: Bytes)
    requires UnknownHead(rest) || Unfinished(rest)
    ensures Drain(rest, blind, last) ==
            if UnknownHead(rest) then Drained(rest, [], true, last, blind) else Drained([], rest, false, last, blind)
  {
    UnfinishedIffStalled(rest);
    UnknownIffHead(rest);
    DrainStops(rest, blind, last);
  }

  /** Draining an encoded message list forwards the permitted ones and then looks at the rest. */
  lemma {:induction false} DrainOfParse(messages: seq<ClientMessage>, rest: Bytes, blind: nat, last: Bytes)
    requires AllValid(messages) && (UnknownHead(rest) || Unfinished(rest))
    ensures Drain(EncodeAll(messages) + rest, blind, last) ==
            (var kept := EncodeAll(Permitted(messages, blind));
             var left := Minus(blind, ResizeCount(messages));
             if UnknownHead(rest) then Drained(kept + rest, [], true, LastResize(messages, last), left)
             else Drained(kept, rest, false, LastResize(messages, last), left))
    decreases |messages|
  {
    hide PeekMessageLength, ClientMessage.Encode, Unfinished, UnknownHead, Drain;
    if messages == [] {
      DrainOfRest(rest, blind, last);
      assert EncodeAll(messages) + rest == rest;
      assert [] + rest == rest;
    } else {
      var m := messages[0];
      var tail := EncodeAll(messages[1..]) + rest;
      var blind' := BlindAfter(blind, m.SetDesktopSize?);
      var last' := if m.SetDesktopSize? then m.Encode() else last;
      PeekMeasuresEncoding(m, []);
      assert m.Encode() + [] == m.Encode();
      var n := |m.Encode()|;
      assert m.Encode()[n..] == [] && m.Encode()[..n] == m.Encode() && [] + tail == tail;
      DrainHead(m.Encode(), tail, blind, last);
      ConcatAssociates(m.Encode(), EncodeAll(messages[1..]), rest);
      DrainOfParse(messages[1..], rest, blind', last');
      var kept := Permitted(messages[1..], blind');
      if m.SetDesktopSize? && blind > 0 {
        assert Permitted(messages, blind) == kept;
      } else {
        assert Permitted(messages, blind) == [m] + kept && ([m] + kept)[1..] == kept;
        ConcatAssociates(m.Encode(), EncodeAll(kept), rest);
      }
    }
  }

  /**
   For every chunking of a stream that gets past the handshake, and every moment of promotion:
   14 handshake bytes, the permitted messages in order, then everything verbatim from the first
   unknown type on. An unfinished last message stays in the buffer; the last resize is remembered.
   */
  lemma FilterMeetsSpecification(chunks: seq<Bytes>, blind: nat,
                                 handshake: Bytes, messages: seq<ClientMessage>, rest: Bytes)
    requires |handshake| == 14
    requires AllValid(messages) && (UnknownHead(rest) || Unfinished(rest))
    requires Flatten(chunks) == handshake + (EncodeAll(messages) + rest)
    ensures var unknown := UnknownHead(rest);
            Run(Fresh(blind), chunks) ==
            (FilterState(0, if unknown then [] else rest, unknown, LastResize(messages, []),
                         Minus(blind, ResizeCount(messages))),
             handshake + EncodeAll(Permitted(messages, blind)) + (if unknown then rest else []))
  {
    hide PeekMessageLength;
    hide ClientMessage.Encode;
    var stream := Flatten(chunks);
    ChunkingIsIrrelevant(Fresh(blind), chunks);
    assert stream[..HANDSHAKE] == handshake && [] + stream[HANDSHAKE..] == EncodeAll(messages) + rest;
    DrainOfParse(messages, rest, blind, []);
    var kept := EncodeAll(Permitted(messages, blind));
    ConcatAssociates(handshake, kept, rest);
    assert (handshake + kept) + [] == handshake + kept;
  }

  /** A stream that ends inside the handshake is forwarded as it is. */
  lemma HandshakeIsForwarded(chunks: seq<Bytes>, blind: nat)
    requires |Flatten(chunks)| <= 14
    ensures Run(Fresh(blind), chunks) ==
            (Fresh(blind).(handshakeRemaining := 14 - |Flatten(chunks)|), Flatten(chunks))
  {
    ChunkingIsIrrelevant(Fresh(blind), chunks);
    FeedHandshake(Fresh(blind), Flatten(chunks));
  }

  /** Resizes read before the promotion are dropped, all other messages stay. */
  lemma {:induction false} PermittedSplits(early: seq<ClientMessage>, late: seq<ClientMessage>, blind: nat)
    requires ResizeCount(early) == blind || (ResizeCount(early) < blind && late == [])
    ensures Permitted(early + late, blind) == WithoutResizes(early) + late
  {
    if early == [] {
      assert early + late == late;
      NothingBlind(late);
    } else {
      assert (early + late)[1..] == early[1..] + late;
      PermittedSplits(early[1..], late, BlindAfter(blind, early[0].SetDesktopSize?));
      var kept := if early[0].SetDesktopSize? then [] else [early[0]];
      ConcatAssociates(kept, WithoutResizes(early[1..]), late);
      if early[0].SetDesktopSize? {
        NoBlindResize(early, blind);
      }
    }
  }

  lemma NoBlindResize(messages: seq<ClientMessage>, blind: nat)
    requires messages != [] && messages[0].SetDesktopSize? && ResizeCount(messages) <= blind
    ensures blind > 0
  {}

  lemma {:induction false} NothingBlind(messages: seq<ClientMessage>)
    ensures Permitted(messages, 0) == messages
  {
    if messages != [] {
      NothingBlind(messages[1..]);
    }
  }

  /** A primary loses nothing: output followed by the pending buffer is the input. */
  lemma PrimaryLosesNothing(chunks: seq<Bytes>)
    ensures var (end, out) := Run(Fresh(0), chunks); out + end.buffer == Flatten(chunks)
  {
    hide PeekMessageLength, ClientMessage.Encode, Drain;
    var stream := Flatten(chunks);
    if |stream| <= HANDSHAKE {
      HandshakeIsForwarded(chunks, 0);
    } else {
      var messages, rest := EveryStreamParses(stream[HANDSHAKE..]);
      assert stream == stream[..HANDSHAKE] + stream[HANDSHAKE..];
      FilterMeetsSpecification(chunks, 0, stream[..HANDSHAKE], messages, rest);
      NothingBlind(messages);
    }
  }

  /**
   Promotion at any point of the stream and of a call, or never (`late` is then empty): resizes
   read before it are dropped, those read later are forwarded, and all other traffic is untouched.
   */
  lemma PromotionSplitsTheStream(chunks: seq<Bytes>, blind: nat, handshake: Bytes,
                                 early: seq<ClientMessage>, late: seq<ClientMessage>, rest: Bytes)
    requires |handshake| == 14
    requires AllValid(early + late) && (UnknownHead(rest) || Unfinished(rest))
    requires ResizeCount(early) == blind || (ResizeCount(early) < blind && late == [])
    requires Flatten(chunks) == handshake + (EncodeAll(early + late) + rest)
    ensures AllValid(WithoutResizes(early) + late)
    ensures var (end, out) := Run(Fresh(blind), chunks);
            && out == handshake + EncodeAll(WithoutResizes(early) + late)
                      + (if UnknownHead(rest) then rest else [])
            && end.last == LastResize(early + late, [])
  {
    hide PeekMessageLength, ClientMessage.Encode, Run;
    PermittedSplits(early, late, blind);
    FilterMeetsSpecification(chunks, blind, handshake, early + late, rest);
  }

  /** Every stream's messages split so, whenever the promotion comes. */
  lemma {:induction false} EveryPromotionSplits(messages: seq<ClientMessage>, blind: nat)
    returns (early: seq<ClientMessage>, late: seq<ClientMessage>)
    ensures messages == early + late
    ensures ResizeCount(early) == blind || (ResizeCount(early) < blind && late == [])
  {
    if messages == [] || blind == 0 {
      early, late := [], messages;
    } else {
      early, late := EveryPromotionSplits(messages[1..], BlindAfter(blind, messages[0].SetDesktopSize?));
      early := [messages[0]] + early;
      assert early[1..] + late == messages[1..];
    }
  }
}
