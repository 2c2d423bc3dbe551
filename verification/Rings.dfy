/**
 The two rings that keep only recent history: the terminal scrollback of raw bytes and the
 per-instance log of connection events. Each is shown to hold the last part of everything
 that was ever written to it.
 */
module Rings {
  import opened Common

  /** The last `n` elements, or all of them. */
  function Last<T>(s: seq<T>, n: nat): (t: seq<T>)
    ensures |t| == if |s| < n then |s| else n
  {
    if |s| < n then s else s[|s| - n..]
  }

  lemma LastEndsIt<T>(before: seq<T>, end: seq<T>, n: nat)
    ensures |end| == n ==> Last(before + end, n) == end
    ensures |end| <= n ==> Last(end, n) == end
  {
    assert (before + end)[|before|..] == end;
  }

  /** Only the last `n` elements of what came before still matter after an append. */
  lemma LastOfAppend<T>(s: seq<T>, more: seq<T>, n: nat)
    ensures Last(Last(s, n) + more, n) == Last(s + more, n)
  {}

  /** The ring as a sequence, read from `pos` once it has wrapped. */
  function Ordered<T>(ring: seq<T>, pos: nat, full: bool): seq<T>
    requires pos <= |ring|
  {
    if full then ring[pos..] + ring[..pos] else ring[..pos]
  }

  /** Writing at the position drops as many of the oldest elements as no longer fit. */
  lemma RingStep<T>(ring: seq<T>, pos: nat, full: bool, piece: seq<T>)
    requires pos + |piece| <= |ring|
    ensures var next := ring[..pos] + piece + ring[pos + |piece|..];
            var end := pos + |piece|;
            Ordered(next, if end == |ring| then 0 else end, full || end == |ring|) ==
            Last(Ordered(ring, pos, full) + piece, |ring|)
  {
  }

  // ----- Terminal scrollback -----------------------------------------------------------------

  const BYTES_PER_LINE := 120
  const MIN_SIZE := 1024

  class ScrollbackBuffer {
    var data: array<Byte>
    var pos: nat
    var full: bool
    ghost var written: Bytes       // everything ever written

    ghost predicate Valid()
      reads this, data
    {
      && pos < data.Length
      && (!full ==> |written| == pos)
      && (full ==> |written| >= data.Length)
      && Ordered(data[..], pos, full) == Last(written, data.Length)
    }

    constructor (lines: int)
      ensures Valid() && fresh(data) && written == []
      ensures data.Length == if lines * 120 < 1024 then 1024 else lines * 120
    {
      var size := lines * BYTES_PER_LINE;
      if size < MIN_SIZE {
        size := MIN_SIZE;
      }
      data := new Byte[size](_ => 0);
      pos, full := 0, false;
      written := [];
    }

    /** How many of `n` bytes fit between the write position and the end of the ring. */
    function Room(n: nat): nat
      requires pos <= data.Length
      reads this
    {
      if n < data.Length - pos then n else data.Length - pos
    }

    /** Copies as much of `p` as fits between the write position and the end of the ring. */
    method CopyIn(p: Bytes) returns (n: nat)
      requires Valid()
      modifies data
      ensures n == Room(|p|)
      ensures data[..] == old(data[..])[..pos] + p[..n] + old(data[..])[pos + n..]
    {
      n := Room(|p|);
      forall k | 0 <= k < n {
        data[pos + k] := p[k];
      }
    }

    method Write(p: Bytes)
      requires Valid()
      modifies this`pos, this`full, this`written, data
      ensures Valid() && data == old(data)
      ensures written == old(written) + p
    {
      hide Ordered, Last;
      var rest := p;
      while |rest| > 0
        invariant Valid()
        invariant written + rest == old(written) + p
        decreases |rest|
      {
        RingStep(data[..], pos, full, rest[..Room(|rest|)]);
        LastOfAppend(written, rest[..Room(|rest|)], data.Length);
        var n := CopyIn(rest);
        ConcatAssociates(written, rest[..n], rest[n..]);
        assert rest[..n] + rest[n..] == rest;
        pos := pos + n;
        written := written + rest[..n];
        rest := rest[n..];
        if pos >= data.Length {
          pos := 0;
          full := true;
        }
      }
      assert written + [] == written;
    }

    method Bytes() returns (result: array<Byte>)
      requires Valid()
      ensures fresh(result) && result[..] == Last(written, data.Length)
    {
      if !full {
        result := new Byte[pos](_ => 0);
        forall k | 0 <= k < pos {
          result[k] := data[k];
        }
        assert result[..] == data[..pos];
        return;
      }
      var tail := data.Length - pos;
      result := new Byte[data.Length](_ => 0);
      forall k | 0 <= k < tail {
        result[k] := data[pos + k];
      }
      forall k | 0 <= k < pos {
        result[tail + k] := data[k];
      }
      assert result[..] == data[pos..] + data[..pos];
    }

    method Len() returns (n: nat)
      requires Valid()
      ensures n == |Last(written, data.Length)|
    {
      n := if full then data.Length else pos;
    }
  }

  // ----- Connection events -------------------------------------------------------------------

  const EVENT_BUFFER_SIZE: nat := 100

  datatype ConnectionEvent = ConnectionEvent(instance: nat, kind: string, timestamp: int, details: string)

  const NoEvent := ConnectionEvent(0, "", 0, "")

  class EventBuffer {
    const events: array<ConnectionEvent>
    var head: nat
    var count: nat
    ghost var recorded: seq<ConnectionEvent>       // everything ever recorded

    ghost predicate Valid()
      reads this, events
    {
      && events.Length == EVENT_BUFFER_SIZE
      && head < EVENT_BUFFER_SIZE
      && count == (if |recorded| < EVENT_BUFFER_SIZE then |recorded| else EVENT_BUFFER_SIZE)
      && (count < EVENT_BUFFER_SIZE ==> head == count)
      && Ordered(events[..], head, count == EVENT_BUFFER_SIZE) == Last(recorded, EVENT_BUFFER_SIZE)
    }

    constructor ()
      ensures Valid() && fresh(events) && recorded == []
    {
      events := new ConnectionEvent[EVENT_BUFFER_SIZE](_ => NoEvent);
      head, count := 0, 0;
      recorded := [];
    }

    method Record(event: ConnectionEvent)
      requires Valid()
      modifies this`head, this`count, this`recorded, events
      ensures Valid() && recorded == old(recorded) + [event]
    {
      hide Ordered, Last;
      RingStep(events[..], head, count == EVENT_BUFFER_SIZE, [event]);
      LastOfAppend(recorded, [event], EVENT_BUFFER_SIZE);
      events[head] := event;
      assert events[..] == old(events[..])[..head] + [event] + old(events[..])[head + 1..];
      head := (head + 1) % EVENT_BUFFER_SIZE;
      if count < EVENT_BUFFER_SIZE {
        count := count + 1;
      }
      recorded := recorded + [event];
    }

    method History() returns (result: seq<ConnectionEvent>)
      requires Valid()
      ensures result == Last(recorded, 100)
    {
      if count == 0 {
        return [];
      }
      if count < EVENT_BUFFER_SIZE {
        result := events[..count];
      } else {
        result := events[head..] + events[..head];
      }
    }
  }

  class EventLog {
    var buffers: map<nat, EventBuffer>

    ghost function Buffers(): set<EventBuffer>
      reads this
    {
      set id <- buffers :: buffers[id]
    }

    ghost function Rings(): set<array<ConnectionEvent>>
      reads this
    {
      set id <- buffers :: buffers[id].events
    }

    ghost predicate Valid()
      reads this, Buffers(), Rings()
    {
      && (forall id <- buffers :: buffers[id].Valid())
      && (forall id, other :: id in buffers && other in buffers && id != other
            ==> buffers[id] != buffers[other] && buffers[id].events != buffers[other].events)
    }

    /** All events of an instance since its last removal; none for an absent one. */
    ghost function Seen(id: nat): seq<ConnectionEvent>
      reads this, Buffers()
    {
      if id in buffers then buffers[id].recorded else []
    }

    constructor ()
      ensures Valid() && forall id :: Seen(id) == []
    {
      buffers := map[];
    }

    /** The instance's buffer, created on first use. */
    method BufferFor(id: nat) returns (buffer: EventBuffer)
      requires Valid()
      modifies this
      ensures Valid() && id in buffers && buffers[id] == buffer
      ensures buffers == old(buffers)[id := buffer]
      ensures id in old(buffers) ==> buffer == old(buffers[id])
      ensures id !in old(buffers) ==> fresh(buffer) && fresh(buffer.events) && buffer.recorded == []
    {
      if id !in buffers {
        buffer := new EventBuffer();
        buffers := buffers[id := buffer];
      } else {
        buffer := buffers[id];
      }
    }

    method RecordEvent(event: ConnectionEvent)
      requires Valid()
      modifies this, Buffers(), Rings()
      ensures Valid()
      ensures Seen(event.instance) == old(Seen(event.instance)) + [event]
      ensures forall id :: id != event.instance ==> Seen(id) == old(Seen(id))
      ensures event.instance in buffers && buffers == old(buffers)[event.instance := buffers[event.instance]]
    {
      hide EventBuffer.Valid;
      var buffer := BufferFor(event.instance);
      buffer.Record(event);
      assert forall id <- buffers :: id != event.instance ==> buffers[id].Valid();
    }

    /** The last hundred events of that instance, oldest first. */
    method GetEvents(id: nat) returns (result: seq<ConnectionEvent>)
      requires Valid()
      ensures result == Last(Seen(id), 100)
    {
      if id !in buffers {
        return [];
      }
      result := buffers[id].History();
    }

    method Remove(id: nat)
      requires Valid()
      modifies this
      ensures Valid() && Seen(id) == []
      ensures forall other :: other != id ==> Seen(other) == old(Seen(other))
    {
      buffers := buffers - {id};
    }
  }
}
