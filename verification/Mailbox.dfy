// Messages between tasks: a table of slots that free themselves when their time has run out.
module Mailbox {

  const SLOTS := 512
  const TTL := 100
  const DATA_BYTES := 40
  const ANY: bv8 := 0

  type Data = d: seq<bv8> | |d| == DATA_BYTES witness seq(DATA_BYTES, _ => 0)

  datatype Message = Message(ttl: nat, source: nat, target: nat, data: Data)

  datatype Option<T> = None | Some(value: T)

  // A message for a task that asks for one type or for any.
  predicate Wanted(m: Message, target: nat, kind: bv8, now: nat) {
    m.ttl > now && m.target == target && (kind == ANY || m.data[0] == kind)
  }

  // The clock as it is read, again and again: it never goes back.
  ghost predicate Monotone(clock: nat -> nat) {
    forall i: nat, j: nat | i <= j :: clock(i) <= clock(j)
  }

  // Slot i is free, or holds message holds[i] as it was sent, and nobody has received it.
  ghost predicate Kept(slots: seq<Message>, holds: seq<nat>, sent: seq<Message>, received: set<nat>, i: nat)
    requires i < |slots| && i < |holds|
  {
    slots[i].ttl > 0 ==> holds[i] < |sent| && sent[holds[i]] == slots[i] && holds[i] !in received
  }

  // Message n was received, or its time has run out, or it is there.
  ghost predicate There(slots: seq<Message>, holds: seq<nat>, sent: seq<Message>, received: set<nat>, now: nat, n: nat)
    requires n < |sent|
  {
    n in received || sent[n].ttl < now || exists i: nat :: i < |slots| && i < |holds| && holds[i] == n && slots[i] == sent[n]
  }

  ghost predicate Sound(slots: seq<Message>, holds: seq<nat>, sent: seq<Message>, received: set<nat>, now: nat) {
    && |slots| == SLOTS && |holds| == SLOTS
    && (forall i: nat | i < SLOTS :: Kept(slots, holds, sent, received, i) && slots[i].ttl <= now + TTL)
    && (forall i: nat, j: nat | i < SLOTS && j < SLOTS && slots[i].ttl > 0 && slots[j].ttl > 0 && holds[i] == holds[j] :: i == j)
    && (forall n: nat | n < |sent| :: sent[n].ttl > 0 && There(slots, holds, sent, received, now, n))
    && (forall n | n in received :: n < |sent|)
  }

  lemma Later(slots: seq<Message>, holds: seq<nat>, sent: seq<Message>, received: set<nat>, now: nat, later: nat)
    requires Sound(slots, holds, sent, received, now) && now <= later
    ensures Sound(slots, holds, sent, received, later)
  {
    forall n: nat | n < |sent| ensures There(slots, holds, sent, received, later, n) {
      assert There(slots, holds, sent, received, now, n);
    }
    forall i: nat | i < SLOTS ensures slots[i].ttl <= later + TTL {
      assert Kept(slots, holds, sent, received, i) && slots[i].ttl <= now + TTL;
    }
  }

  lemma SentOne(slots: seq<Message>, holds: seq<nat>, sent: seq<Message>, received: set<nat>, now: nat, i: nat, m: Message)
    requires Sound(slots, holds, sent, received, now) && i < SLOTS && slots[i].ttl < now && m.ttl == now + TTL
    ensures Sound(slots[i := m], holds[i := |sent|], sent + [m], received, now)
  {
    var slots', holds', sent' := slots[i := m], holds[i := |sent|], sent + [m];
    forall j: nat | j < SLOTS ensures Kept(slots', holds', sent', received, j) {
      assert Kept(slots, holds, sent, received, j);
    }
    forall n: nat | n < |sent'| ensures There(slots', holds', sent', received, now, n) {
      if n == |sent| {
        assert holds'[i] == n && slots'[i] == sent'[n];
      } else {
        assert There(slots, holds, sent, received, now, n);
        if n !in received && sent[n].ttl >= now {
          var j: nat :| j < SLOTS && holds[j] == n && slots[j] == sent[n];
          assert j != i && holds'[j] == n && slots'[j] == sent'[n];
        }
      }
    }
    forall j: nat, l: nat | j < SLOTS && l < SLOTS && slots'[j].ttl > 0 && slots'[l].ttl > 0 && holds'[j] == holds'[l] ensures j == l {
      assert Kept(slots, holds, sent, received, j) && Kept(slots, holds, sent, received, l);
    }
  }

  lemma ReceivedOne(slots: seq<Message>, holds: seq<nat>, sent: seq<Message>, received: set<nat>, now: nat, i: nat)
    requires Sound(slots, holds, sent, received, now) && i < SLOTS && slots[i].ttl > now
    ensures holds[i] < |sent| && holds[i] !in received && sent[holds[i]] == slots[i]
    ensures Sound(slots[i := slots[i].(ttl := 0)], holds, sent, received + {holds[i]}, now)
  {
    assert Kept(slots, holds, sent, received, i);
    var slots', received' := slots[i := slots[i].(ttl := 0)], received + {holds[i]};
    forall j: nat | j < SLOTS ensures Kept(slots', holds, sent, received', j) && slots'[j].ttl <= now + TTL {
      assert Kept(slots, holds, sent, received, j);
    }
    forall n: nat | n < |sent| ensures There(slots', holds, sent, received', now, n) {
      assert There(slots, holds, sent, received, now, n);
      if n !in received' && sent[n].ttl >= now {
        var j: nat :| j < SLOTS && holds[j] == n && slots[j] == sent[n];
        assert j != i && slots'[j] == sent[n];
      }
    }
  }

  class Box {
    var slots: seq<Message>
    // All messages ever sent, which of them each slot got last, and which have been received.
    ghost var sent: seq<Message>
    ghost var holds: seq<nat>
    ghost var received: set<nat>

    constructor ()
      ensures forall now: nat :: Valid(now)
      ensures sent == [] && received == {}
    {
      slots := seq(SLOTS, _ => Message(0, 0, 0, seq(DATA_BYTES, _ => 0)));
      sent := [];
      holds := seq(SLOTS, _ => 0);
      received := {};
    }

    ghost predicate Valid(now: nat)
      reads this
    {
      Sound(slots, holds, sent, received, now)
    }

    // kernel_service_ipc_send: waits for a slot whose time has run out. There is one as soon as the clock
    // has gone on by more than the time a message lives; what is still alive stays as it is.
    method Send(source: nat, target: nat, data: Data, clock: nat -> nat, ghost far: nat) returns (read: nat)
      requires Valid(clock(0)) && Monotone(clock) && clock(far) > clock(0) + TTL
      modifies this
      ensures read <= far && Valid(clock(read + 1)) && received == old(received)
      ensures sent == old(sent) + [Message(clock(read + 1) + 100, source, target, data)]
      ensures |slots| == |old(slots)| && forall i | 0 <= i < |slots| && old(slots)[i].ttl >= clock(read) :: slots[i] == old(slots)[i]
    {
      hide Kept, There;
      read := 0;
      var i := 0;
      while slots[i].ttl >= clock(read)
        invariant 0 <= i < SLOTS && read <= far
        invariant slots == old(slots) && sent == old(sent) && holds == old(holds) && received == old(received)
        decreases far - read
      {
        assert slots[i].ttl <= clock(0) + TTL;
        i := i + 1;
        if i >= SLOTS {
          i := 0;
        }
        read := read + 1;
      }
      assert clock(0) <= clock(read + 1) && clock(read) <= clock(read + 1);
      var m := Message(clock(read + 1) + TTL, source, target, data);
      Later(slots, holds, sent, received, clock(0), clock(read + 1));
      SentOne(slots, holds, sent, received, clock(read + 1), i, m);
      slots := slots[i := m];
      holds := holds[i := |sent|];
      sent := sent + [m];
    }

    // kernel_service_ipc_receive: the first message in the table that the task wants. It was sent to the
    // task, with just that data, its time had not run out when its slot was looked at, and nobody has received
    // it or will again. The clock is read again for every slot; if there is no message, none was wanted when it
    // was read last.
    method Receive(target: nat, kind: bv8, clock: nat -> nat) returns (message: Option<Message>, ghost n: nat, ghost read: nat)
      requires Valid(clock(0)) && Monotone(clock)
      modifies this
      ensures read < SLOTS && Valid(clock(read)) && sent == old(sent)
      ensures message.Some? ==>
                && n < |sent| && n !in old(received) && received == old(received) + {n}
                && message.value == sent[n] && Wanted(sent[n], target, kind, clock(read))
      ensures message.None? ==> slots == old(slots) && received == old(received) && holds == old(holds)
      ensures message.None? ==> forall m | 0 <= m < |sent| && m !in received :: !Wanted(sent[m], target, kind, clock(read))
    {
      hide Kept, There;
      message, n, read := None, 0, 0;
      var i := 0;
      while i < SLOTS
        invariant 0 <= i <= SLOTS && read == (if i == 0 then 0 else i - 1) && Valid(clock(read))
        invariant slots == old(slots) && sent == old(sent) && received == old(received) && holds == old(holds)
        invariant forall j | 0 <= j < i :: !Wanted(slots[j], target, kind, clock(read))
      {
        assert clock(read) <= clock(i);
        Later(slots, holds, sent, received, clock(read), clock(i));
        read := i;
        if slots[i].ttl > clock(i) {
          if (kind == ANY || slots[i].data[0] == kind) && slots[i].target == target {
            ReceivedOne(slots, holds, sent, received, clock(i), i);
            message, n := Some(slots[i]), holds[i];
            slots := slots[i := slots[i].(ttl := 0)];
            received := received + {n};
            return;
          }
        }
        i := i + 1;
      }
      NoneWanted(slots, holds, sent, received, clock(read), target, kind);
    }
  }

  // What no slot holds nobody can want.
  lemma NoneWanted(slots: seq<Message>, holds: seq<nat>, sent: seq<Message>, received: set<nat>, now: nat, target: nat, kind: bv8)
    requires Sound(slots, holds, sent, received, now) && forall j | 0 <= j < SLOTS :: !Wanted(slots[j], target, kind, now)
    ensures forall m | 0 <= m < |sent| && m !in received :: !Wanted(sent[m], target, kind, now)
  {
    forall m: nat | m < |sent| && m !in received ensures !Wanted(sent[m], target, kind, now) {
      assert There(slots, holds, sent, received, now, m);
    }
  }
}
