// The ring of bytes behind a stream: writes are taken whole or not at all, a drain takes everything.
module Streams {

  const STREAM_BYTES := 4096

  type Byte = bv8

  // The place in the ring of the i-th byte from start.
  function Place(start: nat, i: nat): nat {
    if start + i < STREAM_BYTES then start + i else start + i - STREAM_BYTES
  }

  ghost predicate Stored(data: seq<Byte>, start: nat, queue: seq<Byte>) {
    && |data| == STREAM_BYTES && start <= STREAM_BYTES && |queue| <= STREAM_BYTES
    && forall i: nat | i < |queue| :: data[Place(start, i)] == queue[i]
  }

  lemma StoreOne(data: seq<Byte>, start: nat, queue: seq<Byte>, b: Byte)
    requires Stored(data, start, queue) && |queue| < STREAM_BYTES
    ensures Stored(data[Place(start, |queue|) := b], start, queue + [b])
  {
  }

  lemma PrefixGrows(before: seq<Byte>, bytes: seq<Byte>, n: nat)
    requires n < |bytes|
    ensures before + bytes[..n] + [bytes[n]] == before + bytes[..n + 1]
  {
  }

  // Where writing goes on.
  function EndOf(start: nat, n: nat): nat {
    if start + n <= STREAM_BYTES then start + n else start + n - STREAM_BYTES
  }

  class Ring {
    const data: array<Byte>
    var start: nat
    var end: nat
    var free: nat
    var closed: bool
    var isNull: bool
    var undefinied: bool
    var meta: seq<Byte>
    // The bytes accepted and not drained yet.
    ghost var queue: seq<Byte>

    constructor ()
      ensures Valid() && fresh(data) && queue == [] && start == 0 && !closed && !isNull
    {
      data := new Byte[STREAM_BYTES](_ => 0);
      start, end, free := 0, 0, STREAM_BYTES;
      closed, isNull, undefinied := false, false, false;
      meta := [];
      queue := [];
    }

    ghost predicate Valid()
      reads this, data
    {
      && data.Length == STREAM_BYTES && start <= STREAM_BYTES && Stored(data[..], start, queue)
      && free == STREAM_BYTES - |queue| && end == EndOf(start, |queue|)
    }

    // Filled to the last byte, but not from the first: the two markers meet as if nothing was there.
    predicate Overrun()
      reads this
    {
      free == 0 && start > 0
    }

    // What a caller sees of the ring.
    ghost function State(): Pending
      reads this
    {
      Pending(start, queue, closed, isNull)
    }

    // One byte more.
    method Send(b: Byte)
      requires data.Length == STREAM_BYTES && Stored(data[..], start, queue) && |queue| < STREAM_BYTES && end == Place(start, |queue|)
      modifies this`end, this`queue, data
      ensures Stored(data[..], start, queue) && queue == old(queue) + [b] && end == old(end) + 1
    {
      StoreOne(data[..], start, queue, b);
      data[end] := b;
      queue := queue + [b];
      end := end + 1;
    }

    // kernel_stream_out
    method Out(bytes: seq<Byte>) returns (accepted: bool)
      requires Valid()
      modifies this`end, this`free, this`undefinied, this`queue, data
      ensures Valid()
      ensures accepted <==> |bytes| <= STREAM_BYTES && !closed && !isNull && |bytes| <= old(free)
      ensures queue == if accepted then old(queue) + bytes else old(queue)
      ensures accepted ==> undefinied && free == old(free) - |bytes|
      ensures !accepted ==> free == old(free) && end == old(end) && undefinied == old(undefinied) && data[..] == old(data[..])
    {
      if |bytes| > STREAM_BYTES || closed || isNull {
        return false;
      }
      if free < |bytes| {
        return false;
      }
      hide Stored;
      ghost var before := queue;
      var sent := 0;
      if end >= start {
        while sent != |bytes| && end < STREAM_BYTES
          invariant 0 <= sent <= |bytes| && free == old(free) && end <= STREAM_BYTES
          invariant (|bytes| == 0 && end == old(end)) || end == start + |before| + sent
          invariant queue == before + bytes[..sent] && |before| + sent <= STREAM_BYTES
          invariant Stored(data[..], start, queue)
          decreases |bytes| - sent
        {
          PrefixGrows(before, bytes, sent);
          Send(bytes[sent]);
          sent := sent + 1;
        }
        if sent != |bytes| {
          end := 0;
        }
      }
      while sent != |bytes|
        invariant 0 <= sent <= |bytes| && |before| + sent <= STREAM_BYTES && free == old(free)
        invariant queue == before + bytes[..sent]
        invariant sent < |bytes| ==> end == start + |before| + sent - STREAM_BYTES && end < STREAM_BYTES
        invariant sent == |bytes| ==> end == EndOf(start, |queue|)
        invariant Stored(data[..], start, queue)
        decreases |bytes| - sent
      {
        PrefixGrows(before, bytes, sent);
        Send(bytes[sent]);
        sent := sent + 1;
      }
      assert bytes[..sent] == bytes;
      free := free - |bytes|;
      undefinied := true;
      return true;
    }

    // kernel_stream_in
    method In() returns (cache: seq<Byte>)
      requires Valid()
      modifies this`start, this`free, this`queue
      ensures Valid()
      ensures closed || old(queue) == [] ==> cache == [] && queue == old(queue) && start == old(start)
      ensures !closed ==> start == old(end)
      ensures !closed && old(queue) != [] ==> queue == [] && free == STREAM_BYTES
      ensures !closed ==> cache == if old(Overrun()) then [] else old(queue)
    {
      cache := [];
      if closed || free == STREAM_BYTES {
        return;
      }
      ghost var first := start;
      if start > end {
        while start < STREAM_BYTES
          invariant first <= start <= STREAM_BYTES && |cache| == start - first && queue == old(queue) && free == old(free)
          invariant cache == queue[..start - first]
          decreases STREAM_BYTES - start
        {
          assert Place(first, start - first) == start;
          cache := cache + [data[start]];
          start := start + 1;
        }
        start := 0;
      }
      ghost var done := |cache|;
      ghost var from := start;
      while start != end
        invariant from <= start <= end && |cache| == done + (start - from) && queue == old(queue) && free == old(free)
        invariant !old(Overrun()) ==> |cache| <= |queue| && cache == queue[..|cache|]
        invariant old(Overrun()) ==> cache == []
        decreases end - start
      {
        assert old(Overrun()) || Place(first, |cache|) == start;
        cache := cache + [data[start]];
        start := start + 1;
      }
      free := STREAM_BYTES;
      queue := [];
    }

    // kernel_stream_set: what is said about a stream is replaced only while the markers meet, which is when
    // it is empty, or overrun.
    method SetMeta(bytes: seq<Byte>)
      requires Valid()
      modifies this`meta, this`undefinied
      ensures Valid()
      ensures if queue == [] || Overrun() then meta == bytes && !undefinied else meta == old(meta) && undefinied == old(undefinied)
    {
      if start == end {
        meta := bytes;
        undefinied := false;
      }
    }
  }

  // ---- whole sessions --------------------------------------------------------------------------

  datatype Pending = Pending(start: nat, queue: seq<Byte>, closed: bool, isNull: bool)

  datatype Call = Write(bytes: seq<Byte>) | Drain

  predicate Sound(s: Pending) {
    s.start <= STREAM_BYTES && |s.queue| <= STREAM_BYTES
  }

  // A write is taken if there is room for all of it.
  predicate Taken(s: Pending, bytes: seq<Byte>) {
    !s.closed && !s.isNull && |bytes| <= STREAM_BYTES - |s.queue|
  }

  // A drain meets a ring filled to the last byte, but not from the first.
  predicate Lost(s: Pending, call: Call) {
    call.Drain? && !s.closed && |s.queue| == STREAM_BYTES && s.start > 0
  }

  function Step(s: Pending, call: Call): (t: Pending)
    ensures Sound(s) ==> Sound(t)
  {
    match call
    case Write(bytes) => if Taken(s, bytes) then s.(queue := s.queue + bytes) else s
    case Drain => if s.closed then s else s.(start := EndOf(s.start, |s.queue|), queue := [])
  }

  function Gained(s: Pending, call: Call): seq<Byte> {
    if call.Write? && Taken(s, call.bytes) then call.bytes else []
  }

  function Handed(s: Pending, call: Call): seq<Byte> {
    if call.Write? || s.closed || Lost(s, call) then [] else s.queue
  }

  // What becomes of a ring, call by call; what it takes and what it hands out.
  function After(s: Pending, calls: seq<Call>): Pending
    decreases |calls|
  {
    if calls == [] then s else After(Step(s, calls[0]), calls[1..])
  }

  function Accepted(s: Pending, calls: seq<Call>): seq<Byte>
    decreases |calls|
  {
    if calls == [] then [] else Gained(s, calls[0]) + Accepted(Step(s, calls[0]), calls[1..])
  }

  function Drained(s: Pending, calls: seq<Call>): seq<Byte>
    decreases |calls|
  {
    if calls == [] then [] else Handed(s, calls[0]) + Drained(Step(s, calls[0]), calls[1..])
  }

  // Some drain of the session meets the ring filled that way.
  predicate MeetsOverrun(s: Pending, calls: seq<Call>)
    decreases |calls|
  {
    calls != [] && (Lost(s, calls[0]) || MeetsOverrun(Step(s, calls[0]), calls[1..]))
  }

  lemma {:induction false} NothingIsMadeUp(s: Pending, calls: seq<Call>)
    requires Sound(s)
    ensures |s.queue| + |Accepted(s, calls)| >= |Drained(s, calls)| + |After(s, calls).queue|
    ensures MeetsOverrun(s, calls) ==> |s.queue| + |Accepted(s, calls)| > |Drained(s, calls)| + |After(s, calls).queue|
    decreases |calls|
  {
    if calls != [] {
      NothingIsMadeUp(Step(s, calls[0]), calls[1..]);
    }
  }

  lemma {:induction false} InOrder(s: Pending, calls: seq<Call>)
    requires Sound(s) && !MeetsOverrun(s, calls)
    ensures s.queue + Accepted(s, calls) == Drained(s, calls) + After(s, calls).queue
    decreases |calls|
  {
    if calls == [] {
      assert s.queue + [] == [] + s.queue;
    } else {
      var t := Step(s, calls[0]);
      InOrder(t, calls[1..]);
      OneInOrder(s, calls[0]);
      Chain(s.queue, Gained(s, calls[0]), Handed(s, calls[0]), t.queue, Accepted(t, calls[1..]), Drained(t, calls[1..]), After(t, calls[1..]).queue);
    }
  }

  lemma OneInOrder(s: Pending, call: Call)
    requires Sound(s) && !Lost(s, call)
    ensures s.queue + Gained(s, call) == Handed(s, call) + Step(s, call).queue
  {
    assert s.queue + [] == [] + s.queue;
  }

  lemma Chain(a: seq<Byte>, b: seq<Byte>, c: seq<Byte>, d: seq<Byte>, e: seq<Byte>, f: seq<Byte>, g: seq<Byte>)
    requires a + b == c + d && d + e == f + g
    ensures a + (b + e) == (c + f) + g
  {
    assert a + (b + e) == (a + b) + e;
    assert (c + d) + e == c + (d + e);
    assert c + (f + g) == (c + f) + g;
  }

  // Over every session, what is drained, and then what is still there, is what was accepted, in order, if
  // and only if no drain meets the ring filled to its last byte from a place other than the first.
  lemma FirstInFirstOut(s: Pending, calls: seq<Call>)
    requires Sound(s)
    ensures s.queue + Accepted(s, calls) == Drained(s, calls) + After(s, calls).queue <==> !MeetsOverrun(s, calls)
  {
    NothingIsMadeUp(s, calls);
    if MeetsOverrun(s, calls) {
      assert |s.queue + Accepted(s, calls)| > |Drained(s, calls) + After(s, calls).queue|;
    } else {
      InOrder(s, calls);
    }
  }

  lemma FirstCall(s: Pending, call: Call, rest: seq<Call>)
    ensures After(s, [call] + rest) == After(Step(s, call), rest)
    ensures Accepted(s, [call] + rest) == Gained(s, call) + Accepted(Step(s, call), rest)
    ensures Drained(s, [call] + rest) == Handed(s, call) + Drained(Step(s, call), rest)
    ensures MeetsOverrun(s, [call] + rest) <==> Lost(s, call) || MeetsOverrun(Step(s, call), rest)
  {
    assert ([call] + rest)[1..] == rest;
  }

  // It does happen: one byte in and out, then as many as the ring has room for. They are accepted and
  // never come out.
  lemma OverrunLoses(b: Byte, bytes: seq<Byte>)
    requires |bytes| == 4096
    ensures var s := Pending(0, [], false, false);
            var calls := [Write([b]), Drain, Write(bytes), Drain];
            && Accepted(s, calls) == [b] + bytes && Drained(s, calls) == [b] && After(s, calls).queue == []
            && MeetsOverrun(s, calls)
  {
    var s := Pending(0, [], false, false);
    var t := Pending(1, [], false, false);
    assert [Drain] + [] == [Drain] && [Write(bytes)] + [Drain] == [Write(bytes), Drain];
    assert [Drain] + [Write(bytes), Drain] == [Drain, Write(bytes), Drain];
    assert [Write([b])] + [Drain, Write(bytes), Drain] == [Write([b]), Drain, Write(bytes), Drain];
    FirstCall(s, Write([b]), [Drain, Write(bytes), Drain]);
    FirstCall(s.(queue := [b]), Drain, [Write(bytes), Drain]);
    assert [] + bytes == bytes;
    FirstCall(t, Write(bytes), [Drain]);
    FirstCall(t.(queue := bytes), Drain, []);
  }

  lemma {:induction false} OneCallMore(s: Pending, calls: seq<Call>, call: Call)
    ensures After(s, calls + [call]) == Step(After(s, calls), call)
    ensures Accepted(s, calls + [call]) == Accepted(s, calls) + Gained(After(s, calls), call)
    ensures Drained(s, calls + [call]) == Drained(s, calls) + Handed(After(s, calls), call)
    decreases |calls|
  {
    if calls == [] {
      assert [] + [call] == [call];
    } else {
      assert (calls + [call])[1..] == calls[1..] + [call];
      OneCallMore(Step(s, calls[0]), calls[1..], call);
    }
  }

  // The ring behaves so, whatever the calls.
  method Session(ring: Ring, calls: seq<Call>) returns (accepted: seq<Byte>, drained: seq<Byte>)
    requires ring.Valid()
    modifies ring, ring.data
    ensures ring.Valid() && ring.State() == After(old(ring.State()), calls)
    ensures accepted == Accepted(old(ring.State()), calls) && drained == Drained(old(ring.State()), calls)
  {
    hide Stored, EndOf;
    accepted, drained := [], [];
    ghost var s := ring.State();
    for i := 0 to |calls|
      invariant ring.Valid() && ring.State() == After(s, calls[..i])
      invariant accepted == Accepted(s, calls[..i]) && drained == Drained(s, calls[..i])
    {
      OneCallMore(s, calls[..i], calls[i]);
      assert calls[..i + 1] == calls[..i] + [calls[i]];
      match calls[i]
      case Write(bytes) =>
        var took := ring.Out(bytes);
        if took {
          accepted := accepted + bytes;
        }
      case Drain =>
        var cache := ring.In();
        drained := drained + cache;
    }
    assert calls[..|calls|] == calls;
  }
}
