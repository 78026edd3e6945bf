/** Mailboxes of src/mailbox.c: a power-of-two ring with wrapping 32-bit indices, and one parked
    receiver per mailbox. */
module Mailbox {
  import opened Bits
  import opened Wrappers

  /** Handles of mailboxes, signals and coroutines; never reused (module HandleTable). 0 is invalid. */
  type Id = nat
  const INVALID: Id := 0

  type Message = int

  // ----- a mailbox as a bounded queue -----

  /** The messages in the ring, oldest first, and the signal of the coroutine parked on it. */
  datatype Box = Box(capacity: nat, queue: seq<Message>, signal: Id)

  datatype Sending = Sending(box: Box, sent: bool, raised: Id)

  function Sent(b: Box, m: Message): Sending {
    if |b.queue| < b.capacity then Sending(b.(queue := b.queue + [m], signal := INVALID), true, b.signal)
    else Sending(b, false, INVALID)
  }

  function Take(b: Box): (Box, Option<Message>) {
    if b.queue == [] then (b, None) else (b.(queue := b.queue[1..]), Some(b.queue[0]))
  }

  /** How the first half of a receive ends: with a message, asleep on its new signal, or refused. */
  datatype Begun = Took(message: Message) | Parked | Refused

  function BeginReceive(b: Box, made: Id): (Box, Begun) {
    if b.queue != [] then (Take(b).0, Took(b.queue[0]))
    else if b.signal == INVALID then (b.(signal := made), Parked)
    else (b, Refused)
  }

  // ----- the ring -----

  ghost predicate IsCapacity(capacity: nat) {
    0 < capacity <= 0x8000_0000 && IsPow2(capacity)
  }

  lemma Exponent(capacity: nat) returns (k: nat)
    requires IsCapacity(capacity)
    ensures capacity == Pow2(k) && k <= 32
  {
    k :| capacity == Pow2(k);
    Pow2Of32();
    if k > 32 { Pow2Grows(32, k); }
  }

  lemma SlotFits(x: nat, capacity: nat)
    requires IsCapacity(capacity)
    ensures MaskIndex(x % U32, capacity) < capacity
  {
    var k := Exponent(capacity);
    WrappedIndex(x, k);
  }

  /** The slot of the message that a 32-bit index `x` counts to. */
  ghost function Slot(x: nat, capacity: nat): (k: nat)
    requires IsCapacity(capacity)
    ensures k < capacity
  {
    SlotFits(x, capacity);
    MaskIndex(x % U32, capacity)
  }

  /** The `n` messages from index `read` on. */
  ghost function Stored(data: seq<Message>, read: nat, n: nat): (q: seq<Message>)
    requires n > 0 ==> IsCapacity(|data|)
    ensures |q| == n
  {
    seq(n, i requires 0 <= i < n => data[Slot(read + i, |data|)])
  }

  lemma SlotsDiffer(i: nat, j: nat, capacity: nat)
    requires IsCapacity(capacity) && i < j < i + capacity
    ensures Slot(i, capacity) != Slot(j, capacity)
  {
    var k := Exponent(capacity);
    WrappedIndex(i, k);
    WrappedIndex(j, k);
    LowDistinct(i, j, k);
  }

  /** A message written at the next index joins the queue at its end and overwrites none of it. */
  lemma StoreAppends(data: seq<Message>, read: nat, n: nat, m: Message)
    requires IsCapacity(|data|) && n < |data|
    ensures Stored(data[Slot(read + n, |data|) := m], read, n + 1) == Stored(data, read, n) + [m]
  {
    var after := Stored(data[Slot(read + n, |data|) := m], read, n + 1);
    forall i | 0 <= i < n
      ensures after[i] == Stored(data, read, n)[i]
    {
      SlotsDiffer(read + i, read + n, |data|);
    }
    assert after == Stored(data, read, n) + [m];
  }

  lemma SameSlot(x: nat, y: nat, capacity: nat)
    requires IsCapacity(capacity) && x % U32 == y % U32
    ensures Slot(x, capacity) == Slot(y, capacity)
  {
  }

  /** Moving the read index on, wrapped or not, drops the first message. */
  lemma ReadDrops(data: seq<Message>, read: nat, n: nat)
    requires IsCapacity(|data|) && n > 0
    ensures Stored(data, (read + 1) % U32, n - 1) == Stored(data, read, n)[1..]
  {
    var after := Stored(data, (read + 1) % U32, n - 1);
    forall i | 0 <= i < n - 1
      ensures after[i] == Stored(data, read, n)[i + 1]
    {
      WrapShifts(read + 1, i);
      SameSlot((read + 1) % U32 + i, read + (i + 1), |data|);
    }
    assert after == Stored(data, read, n)[1..];
  }

  lemma WrapShifts(x: nat, i: nat)
    ensures (x % U32 + i) % U32 == (x + i) % U32
  {
  }

  /** `write - read` in 32 bits. */
  function Distance(read: nat, write: nat): (n: nat)
    requires read < U32 && write < U32
    ensures n < U32 && (n == 0 <==> read == write)
    ensures (read + n) % U32 == write
  {
    (write - read) % U32
  }

  lemma DistanceGrows(read: nat, write: nat)
    requires read < U32 && write < U32 && Distance(read, write) < 0x8000_0000
    ensures Distance(read, (write + 1) % U32) == Distance(read, write) + 1
  {
  }

  lemma DistanceShrinks(read: nat, write: nat)
    requires read < U32 && write < U32 && read != write
    ensures Distance((read + 1) % U32, write) == Distance(read, write) - 1
  {
  }

  lemma WriteSlot(read: nat, write: nat, capacity: nat)
    requires IsCapacity(capacity) && read < U32 && write < U32
    ensures Slot(read + Distance(read, write), capacity) == MaskIndex(write, capacity)
  {
  }

  lemma WriteAppends(data: seq<Message>, read: nat, write: nat, m: Message)
    requires IsCapacity(|data|) && read < U32 && write < U32 && Distance(read, write) < |data|
    ensures MaskIndex(write, |data|) < |data|
    ensures Distance(read, (write + 1) % U32) == Distance(read, write) + 1
    ensures Stored(data[MaskIndex(write, |data|) := m], read, Distance(read, write) + 1)
         == Stored(data, read, Distance(read, write)) + [m]
  {
    WriteSlot(read, write, |data|);
    DistanceGrows(read, write);
    StoreAppends(data, read, Distance(read, write), m);
  }

  class Ring {
    const capacity: nat
    var read: nat
    var write: nat
    var signal: Id
    const data: array<Message>

    ghost predicate Valid()
      reads this
    {
      && capacity == data.Length
      && (capacity > 0 ==> IsCapacity(capacity))
      && read < U32 && write < U32
      && Distance(read, write) <= capacity
    }

    ghost function View(): Box
      reads this, data
      requires Valid()
    {
      Box(capacity, Stored(data[..], read, Distance(read, write)), signal)
    }

    constructor (asked: nat)
      requires asked < U32
      ensures Valid() && fresh(data)
      ensures View() == Box(capacity, [], INVALID)
      ensures capacity == 0 <==> asked == 0 || asked > 0x8000_0000
      ensures capacity > 0 ==> asked <= capacity && forall p: nat | IsPow2(p) && asked <= p :: capacity <= p
    {
      var next := NextPow2(asked);
      capacity := next;
      data := new Message[next];
      read := 0;
      write := 0;
      signal := INVALID;
    }

    /** `raised` is the signal it raises, if any. */
    method Send(m: Message) returns (sent: bool, raised: Id)
      requires Valid()
      modifies this, data
      ensures Valid()
      ensures Sending(View(), sent, raised) == Sent(old(View()), m)
    {
      if Distance(read, write) >= capacity {
        return false, INVALID;
      }
      WriteAppends(data[..], read, write, m);
      var index := MaskIndex(write, capacity);
      write := (write + 1) % U32;
      data[index] := m;
      assert data[..] == old(data[..])[index := m];
      raised := signal;
      signal := INVALID;
      sent := true;
    }

    method TakeFirst() returns (m: Message)
      requires Valid() && read != write
      modifies this`read
      ensures Valid()
      ensures (View(), Some(m)) == Take(old(View()))
    {
      SlotFits(read, capacity);
      m := data[MaskIndex(read, capacity)];
      assert m == Stored(data[..], read, Distance(read, write))[0] by {
        assert data[..][Slot(read, capacity)] == m;
      }
      DistanceShrinks(read, write);
      ReadDrops(data[..], read, Distance(read, write));
      read := (read + 1) % U32;
    }

    /** The first half of a receive; `made` is the signal it would make. */
    method StartReceive(made: Id) returns (begun: Begun)
      requires Valid()
      modifies this
      ensures Valid()
      ensures (View(), begun) == BeginReceive(old(View()), made)
    {
      if read == write {
        if signal == INVALID {
          signal := made;
          return Parked;
        }
        return Refused;
      }
      var m := TakeFirst();
      return Took(m);
    }

    /** The second half, once the signal was raised and the mailbox was found again. */
    method FinishReceive() returns (m: Option<Message>)
      requires Valid()
      modifies this
      ensures Valid()
      ensures (View(), m) == Take(old(View()))
    {
      if read == write {
        return None;
      }
      var first := TakeFirst();
      return Some(first);
    }

    method CanReceive() returns (can: bool)
      requires Valid()
      ensures can <==> View().queue != []
    {
      can := read != write;
    }

    method CanSend() returns (can: bool)
      requires Valid()
      ensures can <==> |View().queue| < View().capacity
    {
      can := Distance(read, write) < capacity;
    }
  }
}
