/** The transmit FIFO (include/mqtt/tx_queue.hpp): a linear buffer whose unsent bytes are
    buffer[head..tail], moved down when room is needed at the tail. */
module TxQueue {
  import opened Types
  import opened Codec
  import Encoder

  class Queue {
    const buffer: array<byte>
    var head: nat
    var tail: nat

    ghost predicate Valid()
      reads this
    {
      head <= tail <= buffer.Length
    }

    /** The bytes waiting to go out. */
    ghost function Pending(): bytes
      requires Valid()
      reads this, buffer
    {
      buffer[head..tail]
    }

    constructor (capacity: nat)
      ensures Valid() && Pending() == [] && buffer.Length == capacity && fresh(buffer)
    {
      buffer := new byte[capacity];
      head, tail := 0, 0;
    }

    predicate Empty()
      reads this
    {
      head == tail
    }

    /** Makes room for n contiguous bytes at the tail: succeeds exactly when n bytes fit beside
        those pending, and never alters the pending bytes. */
    method Reserve(n: nat) returns (ok: bool)
      requires Valid()
      modifies this, buffer
      ensures Valid() && Pending() == old(Pending())
      ensures ok <==> n <= buffer.Length - |Pending()|
      ensures ok ==> n <= buffer.Length - tail
    {
      if n > buffer.Length { return false; }
      if buffer.Length - tail >= n { return true; }
      Compact();
      ok := buffer.Length - tail >= n;
    }

    /** The overlapping move to the front, in ascending order. */
    method Compact()
      requires Valid()
      modifies this, buffer
      ensures Valid() && Pending() == old(Pending()) && head == 0
    {
      if head == 0 { return; }
      var n := tail - head;
      var i := 0;
      while i < n
        invariant i <= n && head == old(head) && tail == old(tail)
        invariant forall k :: 0 <= k < i ==> buffer[k] == old(buffer[head + k])
        invariant forall k :: head + i <= k < tail ==> buffer[k] == old(buffer[k])
      {
        buffer[i] := buffer[head + i];
        i := i + 1;
      }
      head, tail := 0, n;
    }

    /** Takes in n bytes already written at the tail, or as many as there is room for. */
    method Commit(n: nat)
      requires Valid()
      modifies this
      ensures Valid() && head == old(head)
      ensures tail == if n < buffer.Length - old(tail) then old(tail) + n else buffer.Length
      ensures Pending() == old(Pending()) + buffer[old(tail)..tail]
    {
      var room := buffer.Length - tail;
      tail := tail + if n < room then n else room;
    }

    method Peek() returns (out: bytes)
      requires Valid()
      ensures out == Pending()
    {
      out := buffer[head..tail];
    }

    /** Drops n bytes from the front, or all there are. */
    method Consume(n: nat)
      requires Valid()
      modifies this
      ensures Valid()
      ensures Pending() == old(Pending())[if n < |old(Pending())| then n else |old(Pending())|..]
      ensures Empty() ==> head == 0 && tail == 0
    {
      var avail := tail - head;
      head := head + if n < avail then n else avail;
      if head == tail { head, tail := 0, 0; }
    }

    method Clear()
      modifies this
      ensures Valid() && Pending() == [] && head == 0 && tail == 0
    {
      head, tail := 0, 0;
    }

    /** Queues a copy of `data`, or nothing. */
    method Enqueue(data: bytes) returns (e: Error)
      requires Valid()
      modifies this, buffer
      ensures Valid()
      ensures e == if |data| <= buffer.Length - |old(Pending())| then Ok else TxQueueFull
      ensures Pending() == if e == Ok then old(Pending()) + data else old(Pending())
    {
      var ok := Reserve(|data|);
      if !ok { return TxQueueFull; }
      var i := 0;
      ghost var before := Pending();
      while i < |data|
        invariant i <= |data| <= buffer.Length - tail && Valid() && Pending() == before
        invariant forall k :: 0 <= k < i ==> buffer[tail + k] == data[k]
      {
        buffer[tail + i] := data[i];
        i := i + 1;
      }
      assert buffer[tail..tail + |data|] == data;
      Commit(|data|);
      return Ok;
    }

    /** Reserves `size` bytes and encodes straight into the queue. Given the packet's true size it
        queues the whole packet or nothing. */
    method EnqueueSized(size: nat, o: Outgoing) returns (e: Error)
      requires Valid()
      requires Encodable(o) ==> size == |Image(o)|
      modifies this, buffer
      ensures Valid()
      ensures size > buffer.Length ==> e == BufferTooSmall
      ensures size <= buffer.Length && size > buffer.Length - |old(Pending())| ==> e == TxQueueFull
      ensures size <= buffer.Length - |old(Pending())| ==> e == if Encodable(o) then Ok else Encoder.EncodeError(o)
      ensures Pending() == if e == Ok then old(Pending()) + Image(o) else old(Pending())
      ensures e == Ok ==> Encodable(o)
    {
      if size > buffer.Length { return BufferTooSmall; }
      var ok := Reserve(size);
      if !ok { return TxQueueFull; }
      hide Encodable;
      hide Image;
      ghost var before := Pending();
      var n := Encoder.Encode(buffer, tail, tail + size, o);
      assert buffer[head..tail] == before;
      if n.Failure? { return n.error; }
      Commit(n.value);
      return Ok;
    }
  }
}
