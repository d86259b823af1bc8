/** The byte buffer with a read and a write position (src/utils/buffer.c): a bounded queue that is compacted in place. */
module Buffer {
  import opened Basics

  class ByteBuffer {
    const data: array<byte>
    var read: nat
    var write: nat

    ghost predicate Valid()
      reads this
    {
      read <= write <= data.Length
    }

    /** The queue. */
    ghost function Contents(): seq<byte>
      requires Valid()
      reads this, data
    {
      data[read..write]
    }

    /** buffer_init */
    constructor (data: array<byte>)
      ensures Valid() && this.data == data && Contents() == [] && Space() == data.Length
    {
      this.data := data;
      read, write := 0, 0;
    }

    /** buffer_reset */
    method Reset()
      modifies this
      ensures Valid() && Contents() == [] && Space() == data.Length
    {
      read, write := 0, 0;
    }

    /** The room buffer_write_ptr reports. */
    function Space(): nat
      requires Valid()
      reads this
    {
      data.Length - write
    }

    /** What buffer_read_ptr reports. */
    function Available(): (n: nat)
      requires Valid()
      reads this, data
      ensures n == |Contents()|
    {
      write - read
    }

    /** buffer_can_write */
    predicate CanWrite()
      requires Valid()
      reads this
    {
      Space() > 0
    }

    /** buffer_can_read */
    predicate CanRead()
      requires Valid()
      reads this, data
    {
      Available() > 0
    }

    /** buffer_write_adv: what the caller stored behind the write position joins the queue. A negative count, as
        recv returns on failure, changes nothing. */
    method WriteAdv(bytes: int)
      requires Valid() && bytes <= Space()
      modifies this
      ensures Valid() && read == old(read)
      ensures Contents() == old(Contents()) + (if bytes > 0 then old(data[write..write + bytes]) else [])
    {
      if bytes > -1 {
        write := write + bytes;
      }
    }

    /** buffer_read_adv: the front of the queue goes; an emptied buffer starts over. */
    method ReadAdv(bytes: int)
      requires Valid() && bytes <= Available()
      modifies this, data
      ensures Valid()
      ensures Contents() == if bytes > 0 then old(Contents())[bytes..] else old(Contents())
      ensures read == if bytes < 0 then old(read) else if Contents() == [] then 0 else old(read) + bytes
    {
      if bytes > -1 {
        read := read + bytes;
        if read == write {
          Compact();
        }
      }
    }

    /** buffer_read: the first byte of the queue, or 0. */
    method ReadByte() returns (c: byte)
      requires Valid()
      modifies this, data
      ensures Valid()
      ensures old(Contents()) == [] ==> c == 0 && Contents() == []
      ensures old(Contents()) != [] ==> [c] + Contents() == old(Contents())
    {
      if CanRead() {
        c := data[read];
        ReadAdv(1);
      } else {
        c := 0;
      }
    }

    /** buffer_write: one more byte, if there is room. */
    method WriteByte(c: byte)
      requires Valid()
      modifies this, data
      ensures Valid()
      ensures Contents() == if old(Space()) > 0 then old(Contents()) + [c] else old(Contents())
    {
      if CanWrite() {
        data[write] := c;
        WriteAdv(1);
      }
    }

    /** buffer_compact: the queue moves to the front, which gives all consumed space back. */
    method Compact()
      requires Valid()
      modifies this, data
      ensures Valid() && Contents() == old(Contents())
      ensures read == 0 && Space() == data.Length - |Contents()|
    {
      if read == 0 {
      } else if read == write {
        read, write := 0, 0;
      } else {
        var n := write - read;
        var i := 0;
        while i < n
          invariant 0 <= i <= n && read == old(read) && write == old(write)
          invariant forall k | 0 <= k < i :: data[k] == old(data[read + k])
          invariant forall k | read + i <= k < write :: data[k] == old(data[k])
        {
          data[i] := data[read + i];
          i := i + 1;
        }
        read, write := 0, n;
      }
    }

    /** The way it is used for input: receive into the free space, then advance. */
    method Receive(bytes: seq<byte>) returns (n: nat)
      requires Valid()
      modifies this, data
      ensures Valid() && n == Min(|bytes|, old(Space())) && read == old(read)
      ensures Contents() == old(Contents()) + bytes[..n]
    {
      n := Min(|bytes|, Space());
      var i := 0;
      while i < n
        invariant 0 <= i <= n && read == old(read) && write == old(write) && n <= data.Length - write
        invariant data[write..write + i] == bytes[..i]
        invariant data[read..write] == old(data[read..write])
      {
        data[write + i] := bytes[i];
        i := i + 1;
      }
      WriteAdv(n);
    }

    /** The way it is used for output: send from the front, then advance. */
    method Send(want: nat) returns (sent: seq<byte>)
      requires Valid()
      modifies this, data
      ensures Valid() && sent == Take(old(Contents()), want) && sent + Contents() == old(Contents())
      ensures read == if Contents() == [] then 0 else old(read) + |sent|
    {
      var n := Min(want, Available());
      sent := data[read..read + n];
      ReadAdv(n);
    }

    /** The queue with the consumed space in front of it. */
    ghost function State(taken: seq<byte>, accepted: seq<byte>): Queue
      requires Valid()
      reads this, data
    {
      Queue(Contents(), read, taken, accepted)
    }

    /** Receive, send and compact in any order: the buffer is a bounded queue. */
    method Operate(ops: seq<Op>) returns (taken: seq<byte>, accepted: seq<byte>)
      requires Valid()
      modifies this, data
      ensures Valid()
      ensures State(taken, accepted) == AfterAll(old(State([], [])), data.Length, ops)
    {
      hide Valid, State, After;
      taken, accepted := [], [];
      for k := 0 to |ops|
        invariant Valid() && State(taken, accepted) == AfterAll(old(State([], [])), data.Length, ops[..k])
      {
        assert ops[..k + 1][..k] == ops[..k];
        taken, accepted := OperateOnce(ops[k], taken, accepted);
      }
      assert ops[..|ops|] == ops;
    }

    /** One operation, with what went out and in so far. */
    method OperateOnce(op: Op, taken0: seq<byte>, accepted0: seq<byte>) returns (taken: seq<byte>, accepted: seq<byte>)
      requires Valid()
      modifies this, data
      ensures Valid() && State(taken, accepted) == After(old(State(taken0, accepted0)), data.Length, op)
    {
      taken, accepted := taken0, accepted0;
      match op {
        case Put(bytes) =>
          var n := Receive(bytes);
          accepted := accepted + bytes[..n];
        case Get(want) =>
          var sent := Send(want);
          taken := taken + sent;
        case Squeeze =>
          Compact();
      }
    }
  }

  datatype Op = Put(bytes: seq<byte>) | Get(want: nat) | Squeeze

  /** A bounded queue: what it holds, how much consumed space is not yet given back, and what went out and in. */
  datatype Queue = Queue(held: seq<byte>, wasted: nat, taken: seq<byte>, accepted: seq<byte>)

  ghost function After(q: Queue, capacity: nat, op: Op): Queue {
    match op
    case Put(bytes) =>
      var got := Take(bytes, if q.wasted + |q.held| <= capacity then capacity - q.wasted - |q.held| else 0);
      q.(held := q.held + got, accepted := q.accepted + got)
    case Get(want) =>
      var n := |Take(q.held, want)|;
      Queue(q.held[n..], if n == |q.held| then 0 else q.wasted + n, q.taken + q.held[..n], q.accepted)
    case Squeeze => q.(wasted := 0)
  }

  ghost function AfterAll(q: Queue, capacity: nat, ops: seq<Op>): Queue {
    if ops == [] then q else After(AfterAll(q, capacity, ops[..|ops| - 1]), capacity, ops[|ops| - 1])
  }

  /** How much moves: as many bytes come in as there is room for, as many go out as are wanted and held, from the front; and
      squeezing gives all consumed space back. */
  lemma OperationsMove(q: Queue, capacity: nat, bytes: seq<byte>, want: nat)
    requires q.wasted + |q.held| <= capacity
    ensures var room := capacity - q.wasted - |q.held|; var n := if |bytes| <= room then |bytes| else room;
            After(q, capacity, Put(bytes)) == q.(held := q.held + bytes[..n], accepted := q.accepted + bytes[..n])
    ensures var n := if want <= |q.held| then want else |q.held|; var r := After(q, capacity, Get(want));
            r.held == q.held[n..] && r.taken == q.taken + q.held[..n] && r.accepted == q.accepted && (n == |q.held| ==> r.wasted == 0)
    ensures After(q, capacity, Squeeze) == q.(wasted := 0)
  {
    assert bytes[..|bytes|] == bytes;
  }

  /** First in, first out: what came out followed by what is held is what was accepted, and nothing overflows. */
  lemma {:induction false} QueueConserves(q: Queue, capacity: nat, ops: seq<Op>)
    requires q.taken + q.held == q.accepted && q.wasted + |q.held| <= capacity
    ensures var r := AfterAll(q, capacity, ops); r.taken + r.held == r.accepted && r.wasted + |r.held| <= capacity
  {
    if ops != [] {
      var n := |ops| - 1;
      QueueConserves(q, capacity, ops[..n]);
      var p := AfterAll(q, capacity, ops[..n]);
      match ops[n] {
        case Put(bytes) =>
          var got := Take(bytes, capacity - p.wasted - |p.held|);
          assert p.taken + (p.held + got) == (p.taken + p.held) + got;
        case Get(want) =>
          var k := |Take(p.held, want)|;
          assert (p.taken + p.held[..k]) + p.held[k..] == p.taken + p.held;
        case Squeeze =>
      }
    }
  }
}
