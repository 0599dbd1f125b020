/**
 The linear I/O buffer of `buffer.c`: a byte array with a read and a write cursor, compacted when a write does not
 fit behind the write cursor. It refines a bounded FIFO queue of bytes.
 */
module IoBuffer {

  type Byte = bv8

  /** `size_t` arithmetic is modulo this. */
  const SIZE := 0x1_0000_0000_0000_0000

  class Buffer {
    const data: array<Byte>
    var writePos: nat
    var readPos: nat

    /** What every operation keeps, however the cursors are moved. */
    predicate InBounds()
      reads this
    {
      readPos <= data.Length && writePos <= data.Length < SIZE
    }

    /** The reader has not overtaken the writer. */
    predicate Valid()
      reads this
    {
      InBounds() && readPos <= writePos
    }

    /** The readable bytes. */
    function Contents(): seq<Byte>
      requires Valid()
      reads this, data
    {
      data[readPos..writePos]
    }

    constructor (size: nat)
      requires size < SIZE
      ensures Valid() && fresh(data) && data.Length == size && Contents() == [] && WritableCount() == size
    {
      data := new Byte[size];
      writePos := 0;
      readPos := 0;
    }

    /** `ox_buffer_init`: whatever is in the buffer is dropped, also after the reader has overtaken the writer. */
    method Init()
      requires InBounds()
      modifies this
      ensures Valid() && Contents() == [] && ReadableCount() == 0 && WritableCount() == data.Length
    {
      readPos := 0;
      writePos := 0;
    }

    /** Wraps around once the reader has overtaken the writer. */
    function ReadableCount(): (n: nat)
      requires InBounds()
      reads this, data
      ensures Valid() ==> n == |Contents()|
      ensures !Valid() ==> n == SIZE - (readPos - writePos)
    {
      (writePos - readPos) % SIZE
    }

    function WritableCount(): (n: nat)
      requires InBounds()
      reads this, data
      ensures Valid() ==> n + |Contents()| <= data.Length
    {
      data.Length - writePos
    }

    /** The room beside the readable bytes. */
    function LeftCount(): (n: nat)
      requires InBounds()
      reads this, data
      ensures Valid() ==> n == data.Length - |Contents()|
    {
      (data.Length - ReadableCount()) % SIZE
    }

    /** Moves the readable bytes to the start of the array. */
    method AdjustToHead()
      requires Valid()
      modifies this, data
      ensures Valid() && Contents() == old(Contents())
      ensures WritableCount() == data.Length - |Contents()|
    {
      if readPos > 0 {
        var len := ReadableCount();
        ghost var was := Contents();
        if len > 0 {
          forall i | 0 <= i < len {
            data[i] := data[readPos + i];
          }
        }
        readPos := 0;
        writePos := len;
        assert forall i | 0 <= i < len :: Contents()[i] == was[i];
      }
    }

    /** What the caller has put behind the write cursor becomes readable; a move out of the array is ignored. */
    method AddWritePos(value: nat)
      requires InBounds() && value < SIZE
      modifies this`writePos
      ensures InBounds()
      ensures old(Valid()) && value <= old(WritableCount()) ==>
        && Valid() && Contents() == old(Contents()) + data[old(writePos)..old(writePos) + value]
        && WritableCount() == old(WritableCount()) - value
      ensures writePos == old(writePos) || old(writePos + value) % SIZE == writePos
      ensures value > old(WritableCount()) && value < SIZE - data.Length ==> writePos == old(writePos)
    {
      var temp := (writePos + value) % SIZE;
      if temp <= data.Length {
        writePos := temp;
      }
    }

    /**
     Takes bytes off the front. The reader stays behind the writer if and only if the move lands, modulo 2^64,
     outside the array or not past the writer.
     */
    method AddReadPos(value: nat)
      requires InBounds() && value < SIZE
      modifies this`readPos
      ensures InBounds()
      ensures WritableCount() == old(WritableCount())
      ensures old(Valid()) && value <= |old(Contents())| ==> Valid() && Contents() == old(Contents())[value..]
      ensures old(Valid()) ==> (Valid() <==> !(writePos < (old(readPos) + value) % SIZE <= data.Length))
    {
      var temp := (readPos + value) % SIZE;
      if temp <= data.Length {
        readPos := temp;
      }
    }

    /** C `memcpy` into the array. */
    method Copy(p: nat, src: seq<Byte>)
      requires p + |src| <= data.Length
      modifies data
      ensures data[..p] == old(data[..p]) && data[p..p + |src|] == src
    {
      for k := 0 to |src|
        invariant data[..p] == old(data[..p]) && data[p..p + k] == src[..k]
      {
        data[p + k] := src[k];
        assert data[p..p + k + 1] == data[p..p + k] + [src[k]];
      }
    }

    /**
     Bytes copied behind the write cursor, which is then moved; also what a caller does that fills the array itself.
     */
    method Append(src: seq<Byte>)
      requires Valid() && |src| <= WritableCount()
      modifies this`writePos, data
      ensures Valid() && Contents() == old(Contents()) + src && WritableCount() == old(WritableCount()) - |src|
    {
      Copy(writePos, src);
      assert Contents() == data[..writePos][readPos..];
      AddWritePos(|src|);
    }

    /** Appends all of `src` if it fits beside the readable bytes, after at most one compaction and self-call. */
    method Write(src: seq<Byte>) returns (ok: bool)
      requires Valid() && |src| < SIZE
      modifies this, data
      ensures Valid()
      ensures ok <==> |old(Contents())| + |src| <= data.Length
      ensures ok ==> Contents() == old(Contents()) + src
      ensures ok ==>
        WritableCount() == if |src| <= old(WritableCount()) then old(WritableCount()) - |src|
          else data.Length - |Contents()|
      ensures !ok ==> readPos == old(readPos) && writePos == old(writePos) && data[..] == old(data[..])
      decreases if WritableCount() >= |src| then 0 else 1
    {
      hide LeftCount, ReadableCount;
      ok := true;
      if WritableCount() >= |src| {
        Append(src);
      } else {
        if LeftCount() >= |src| {
          AdjustToHead();
          var again := Write(src);
        } else {
          ok := false;
        }
      }
    }
  }

  // ----- whole runs -----

  /** `Receive` is a caller that fills the array behind the write cursor itself. */
  datatype Op = Write(src: seq<Byte>) | Receive(src: seq<Byte>) | Take(count: nat) | Compact | Reset

  /** Bytes that leave the front of the queue: taken by the reader, or dropped when the buffer is initialised again. */
  datatype Exit = Taken(bytes: seq<Byte>) | Dropped(bytes: seq<Byte>)

  /**
   A bounded queue, with all bytes that have entered and left it, and the room that a caller filling the array itself
   has before the next compaction.
   */
  datatype Queue = Queue(capacity: nat, room: nat, entered: seq<Byte>, left: seq<Exit>, waiting: seq<Byte>)

  /** All bytes that have left, and those that the reader has got. */
  function Gone(left: seq<Exit>): seq<Byte> {
    if left == [] then [] else Gone(left[..|left| - 1]) + left[|left| - 1].bytes
  }

  function Got(left: seq<Exit>): seq<Byte> {
    if left == [] then []
    else Got(left[..|left| - 1]) + if left[|left| - 1].Taken? then left[|left| - 1].bytes else []
  }

  /** One operation on the queue; a write of too much is refused, and no more is taken than there is. */
  function After(q: Queue, op: Op): Queue {
    match op
    case Write(src) =>
      if |q.waiting| + |src| > q.capacity then q
      else
        Queue(q.capacity, if |src| <= q.room then q.room - |src| else q.capacity - |q.waiting| - |src|,
              q.entered + src, q.left, q.waiting + src)
    case Receive(src) =>
      if |src| > q.room then q
      else q.(room := q.room - |src|, entered := q.entered + src, waiting := q.waiting + src)
    case Take(n) =>
      if n > |q.waiting| then q
      else q.(left := q.left + [Taken(q.waiting[..n])], waiting := q.waiting[n..])
    case Compact =>
      if |q.waiting| > q.capacity then q else q.(room := q.capacity - |q.waiting|)
    case Reset =>
      q.(room := q.capacity, left := q.left + [Dropped(q.waiting)], waiting := [])
  }

  function AfterAll(size: nat, ops: seq<Op>): Queue {
    if ops == [] then Queue(size, size, [], [], []) else After(AfterAll(size, ops[..|ops| - 1]), ops[|ops| - 1])
  }

  /** First in, first out: nothing is duplicated or reordered, or lost unless dropped, and the capacity is kept. */
  predicate Fifo(q: Queue) {
    q.entered == Gone(q.left) + q.waiting && |q.waiting| + q.room <= q.capacity
  }

  lemma LeftSnoc(left: seq<Exit>, e: Exit)
    ensures Gone(left + [e]) == Gone(left) + e.bytes
    ensures Got(left + [e]) == Got(left) + if e.Taken? then e.bytes else []
  {
    assert (left + [e])[..|left|] == left;
  }

  lemma AfterFifo(q: Queue, op: Op)
    requires Fifo(q)
    ensures Fifo(After(q, op))
  {
    hide Gone, Got;
    match op
    case Write(src) => assert q.entered + src == Gone(q.left) + (q.waiting + src);
    case Receive(src) => assert q.entered + src == Gone(q.left) + (q.waiting + src);
    case Take(n) => TakeFifo(q, n);
    case Compact =>
    case Reset => LeftSnoc(q.left, Dropped(q.waiting));
  }

  lemma TakeFifo(q: Queue, n: nat)
    requires Fifo(q)
    ensures Fifo(After(q, Take(n)))
  {
    hide Gone, Got;
    if n <= |q.waiting| {
      LeftSnoc(q.left, Taken(q.waiting[..n]));
      assert q.waiting == q.waiting[..n] + q.waiting[n..];
    }
  }

  /** Over every run what has left, taken or dropped, is a prefix of what has entered, and the rest waits. */
  lemma {:induction false} AlwaysFifo(size: nat, ops: seq<Op>)
    ensures Fifo(AfterAll(size, ops)) && AfterAll(size, ops).capacity == size
  {
    if ops != [] {
      AlwaysFifo(size, ops[..|ops| - 1]);
      AfterFifo(AfterAll(size, ops[..|ops| - 1]), ops[|ops| - 1]);
    }
  }

  /** The buffer is in the state of the queue. */
  ghost predicate Refines(b: Buffer, q: Queue)
    reads b, b.data
  {
    && b.Valid() && Fifo(q) && q.capacity == b.data.Length
    && q.waiting == b.Contents() && q.room == b.WritableCount()
  }

  /** The readable bytes, taken by a caller that advances the read cursor by what it has used. */
  method TakeBytes(b: Buffer, n: nat) returns (bytes: seq<Byte>)
    requires b.Valid() && n <= |b.Contents()|
    modifies b`readPos
    ensures b.Valid() && bytes + b.Contents() == old(b.Contents()) && |bytes| == n &&
      b.WritableCount() == old(b.WritableCount())
  {
    bytes := b.data[b.readPos..b.readPos + n];
    b.AddReadPos(n);
  }

  /** Every operation on the buffer is that operation on the queue. */
  method Perform(b: Buffer, op: Op, ghost q: Queue) returns (out: seq<Byte>)
    requires Refines(b, q) && (op.Write? ==> |op.src| < SIZE)
    modifies b, b.data
    ensures Refines(b, After(q, op)) && Got(After(q, op).left) == Got(q.left) + out
  {
    out := [];
    AfterFifo(q, op);
    match op
    case Write(src) =>
      var ok := b.Write(src);
    case Receive(src) =>
      if |src| <= b.WritableCount() {
        b.Append(src);
      }
    case Take(n) =>
      if n <= b.ReadableCount() {
        out := TakeBytes(b, n);
        LeftSnoc(q.left, Taken(out));
        assert q.waiting[..n] == out;
      }
    case Compact =>
      b.AdjustToHead();
    case Reset =>
      LeftSnoc(q.left, Dropped(q.waiting));
      b.Init();
  }

  /**
   Every run from an empty buffer is that run of the queue, and the bytes read are those that left it for the reader.
   */
  method RunOps(size: nat, ops: seq<Op>) returns (b: Buffer, out: seq<Byte>)
    requires size < SIZE && forall i | 0 <= i < |ops| && ops[i].Write? :: |ops[i].src| < SIZE
    ensures fresh(b) && Refines(b, AfterAll(size, ops)) && out == Got(AfterAll(size, ops).left)
  {
    b := new Buffer(size);
    out := [];
    for i := 0 to |ops|
      invariant fresh(b) && fresh(b.data) && Refines(b, AfterAll(size, ops[..i])) &&
        out == Got(AfterAll(size, ops[..i]).left)
    {
      assert ops[..i + 1][..i] == ops[..i];
      var part := Perform(b, ops[i], AfterAll(size, ops[..i]));
      out := out + part;
    }
    assert ops[..|ops|] == ops;
  }
}
