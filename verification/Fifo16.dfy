/** struct fifo16 as one side sees it when the other is at rest. */
module Fifo16 {
  import opened Fifo

  class Fifo16 {
    var head: nat
    var tail: nat
    const size: nat
    const buf: array<nat>

    ghost predicate Valid()
      reads this
    {
      size >= 2 && buf.Length == size && head < size && tail < size
    }

    /** The items in the queue, the oldest first. */
    ghost function Contents(): (r: seq<nat>)
      reads this, buf
      requires Valid()
      ensures |r| == Used(size, head, tail) && |r| <= size - 1
    {
      if head <= tail then buf[head..tail] else buf[head..] + buf[..tail]
    }

    /** fifo16_new, for the sizes it accepts. */
    constructor (items: nat)
      requires items >= 2
      ensures Valid() && size == items && Contents() == [] && fresh(buf)
    {
      head, tail, size := 0, 0, items;
      buf := new nat[items];
    }

    method Push(item: nat) returns (ok: bool)
      requires Valid()
      modifies this`tail, buf
      ensures Valid() && ok == (|old(Contents())| < size - 1)
      ensures Contents() == if ok then old(Contents()) + [item] else old(Contents())
    {
      var currTail := tail;
      var nextTail := (currTail + 1) % size;
      Following(currTail, size);
      if nextTail == head { return false; }
      buf[currTail] := item;
      tail := nextTail;
      ok := true;
    }

    method Pop() returns (ok: bool, out: nat)
      requires Valid()
      modifies this`head
      ensures Valid() && ok == (old(Contents()) != [])
      ensures ok ==> [out] + Contents() == old(Contents())
      ensures !ok ==> Contents() == old(Contents())
    {
      var currHead := head;
      if currHead == tail { return false, 0; }
      out := buf[currHead];
      head := (currHead + 1) % size;
      Following(currHead, size);
      ok := true;
    }

    method NumUsed() returns (used: nat)
      requires Valid()
      ensures used == |Contents()|
    {
      var head1, t := head, tail;
      var u: int := t + size - head1;
      if t >= head1 { u := t - head1; }
      used := u;
    }

    method NumFree() returns (free: nat)
      requires Valid()
      ensures free == size - |Contents()|
    {
      var used := NumUsed();
      free := size - used;
    }

    /** One slot always stays unused, and fifo16_num_free counts it: the queue never looks full, not even
        when it refuses a push. */
    method IsFull() returns (full: bool)
      requires Valid()
      ensures !full
    {
      var free := NumFree();
      full := free == 0;
    }

    method IsEmpty() returns (empty: bool)
      requires Valid()
      ensures empty <==> Contents() == []
    {
      var used := NumUsed();
      empty := used == 0;
    }
  }

  lemma Following(i: nat, size: nat)
    requires i < size
    ensures (i + 1) % size == if i + 1 == size then 0 else i + 1
  {
    if i + 1 == size { Unique(i + 1, size, 1, 0); } else { Unique(i + 1, size, 0, i + 1); }
  }

  /** A queue that refuses a push although fifo16_is_full says there is room. */
  method RefusesUnfull(q: Fifo16, v: nat) returns (ok: bool, full: bool)
    requires q.Valid() && |q.Contents()| == q.size - 1
    modifies q, q.buf
    ensures !ok && !full
  {
    full := q.IsFull();
    ok := q.Push(v);
  }
}
