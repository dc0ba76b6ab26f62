/** The circular byte store of round_buffer.c, first as a value and then as the object the
    C code updates in place. */
module Ring {
  import opened Basics

  /** `Shipped` is the code as it is. `Corrected` carries the two smallest repairs: writing
      segments that start behind the data when the data wraps, and a decoder that leaves an
      escape byte without its follower for the next call. */
  datatype Variant = Shipped | Corrected

  /** One `struct iovec`: `len` slots from slot `start` of the store. */
  datatype Seg = Seg(start: nat, len: nat)

  datatype Ring = Ring(offset: nat, length: nat, data: seq<byte>) {
    predicate Valid() {
      length <= |data| && (offset < |data| || offset == 0)
    }

    function Free(): nat
      requires Valid()
    {
      |data| - length
    }

    /** The slot `k` places behind slot `from`, going round. */
    function Slot(from: nat, k: nat): nat {
      Turn(|data|, from, k)
    }

    /** The abstract value: the stored bytes, oldest first. */
    function Contents(): (s: seq<byte>)
      requires Valid()
    {
      Around(data, offset, length)
    }

    /** The data wraps past the end of the store and the store is not full. */
    predicate Clobbers() {
      length < |data| < offset + length
    }

    function ReadingSegs(): seq<Seg>
      requires Valid()
    {
      if length == 0 then []
      else if offset + length <= |data| then [Seg(offset, length)]
      else [Seg(offset, |data| - offset), Seg(0, offset + length - |data|)]
    }

    function WritingSegs(v: Variant): seq<Seg>
      requires Valid()
    {
      if length == |data| then []
      else if v.Corrected? && Clobbers() then [Seg(offset + length - |data|, |data| - length)]
      else
        (if offset + length < |data| then [Seg(offset + length, |data| - offset - length)] else [])
        + (if offset > 0 then [Seg(0, offset)] else [])
    }

    /** The slot that receives the first written byte. */
    function WriteBase(v: Variant): (b: nat)
      requires Valid()
    {
      if offset + length < |data| then offset + length
      else if v.Corrected? then offset + length - |data|
      else 0
    }

    /** How many places behind `base` slot `i` is. */
    function Rank(base: nat, i: nat): nat
      requires base <= |data|
    {
      if i >= base then i - base else i + |data| - base
    }

    /** The store after `out` went through the writing segments in order. */
    function Stored(v: Variant, out: seq<byte>): (d: seq<byte>)
      requires Valid()
      ensures |d| == |data|
    {
      seq(|data|, i requires 0 <= i < |data| =>
        var k := Rank(WriteBase(v), i); if k < |out| then out[k] else data[i])
    }

    /** Bytes `out` written through the writing segments, then the write pointer advanced. */
    function Fill(v: Variant, out: seq<byte>): (r: Ring)
      requires Valid()
      ensures r.Valid() && r.offset == offset && |r.data| == |data|
    {
      Ring(offset, Min(|data|, length + |out|), Stored(v, out))
    }

    /** The read pointer advanced by `n`. */
    function Drop(n: nat): (r: Ring)
      requires Valid()
      ensures r.Valid() && r.data == data
    {
      var m := Min(n, length);
      if m == length then Ring(0, 0, data) else Ring(Slot(offset, m), length - m, data)
    }
  }

  function SegTotal(segs: seq<Seg>): nat {
    if segs == [] then 0 else segs[0].len + SegTotal(segs[1..])
  }

  /** The slot that the `k`-th byte of a segment list lies in. */
  function SegSlot(segs: seq<Seg>, k: nat): nat
    requires k < SegTotal(segs)
  {
    if k < segs[0].len then segs[0].start + k else SegSlot(segs[1..], k - segs[0].len)
  }

  /** The slots of a segment list in order. */
  function Slots(segs: seq<Seg>): seq<nat> {
    seq(SegTotal(segs), k requires 0 <= k < SegTotal(segs) => SegSlot(segs, k))
  }

  /** The slots that do not hold data, in the order in which appended bytes must take them. */
  function FreeSlots(r: Ring): seq<nat>
    requires r.Valid()
  {
    seq(r.Free(), k requires 0 <= k < r.Free() => r.Slot(r.Slot(r.offset, r.length), k))
  }

  /** The bytes found by following a segment list. */
  function Gather(data: seq<byte>, segs: seq<Seg>): seq<byte>
    requires forall k :: 0 <= k < SegTotal(segs) ==> SegSlot(segs, k) < |data|
  {
    seq(SegTotal(segs), k requires 0 <= k < SegTotal(segs) => data[SegSlot(segs, k)])
  }

  lemma SegsOfTwo(segs: seq<Seg>)
    requires |segs| <= 2
    ensures |segs| == 0 ==> SegTotal(segs) == 0
    ensures |segs| == 1 ==> SegTotal(segs) == segs[0].len
    ensures |segs| == 2 ==> SegTotal(segs) == segs[0].len + segs[1].len
    ensures forall k :: 0 <= k < SegTotal(segs) ==>
      SegSlot(segs, k) == if k < segs[0].len then segs[0].start + k else segs[1].start + (k - segs[0].len)
  {
    if |segs| == 2 {
      assert segs[1..] == [segs[1]] && segs[1..][1..] == [];
    } else if |segs| == 1 {
      assert segs[1..] == [];
    }
  }

  /** The reading segments, followed in order, give exactly the stored bytes. */
  lemma ReadingSegsGatherContents(r: Ring)
    requires r.Valid()
    ensures SegTotal(r.ReadingSegs()) == r.length
    ensures forall k :: 0 <= k < r.length ==> SegSlot(r.ReadingSegs(), k) == r.Slot(r.offset, k) < |r.data|
    ensures Gather(r.data, r.ReadingSegs()) == r.Contents()
  {
    SegsOfTwo(r.ReadingSegs());
  }

  /** Where the `k`-th byte written through the writing segments lands. */
  lemma WritingSegsSlots(v: Variant, r: Ring)
    requires r.Valid()
    ensures r.Free() <= SegTotal(r.WritingSegs(v)) <= |r.data|
    ensures !(v.Shipped? && r.Clobbers()) ==> SegTotal(r.WritingSegs(v)) == r.Free()
    ensures forall k :: 0 <= k < SegTotal(r.WritingSegs(v)) ==>
      SegSlot(r.WritingSegs(v), k) == r.Slot(r.WriteBase(v), k) < |r.data|
  {
    SegsOfTwo(r.WritingSegs(v));
  }

  /** The writing segments are the free slots in append order exactly when the data does not
      wrap in a store with room left; otherwise the first slot handed out holds live data. */
  lemma WritingSegsAreFreeSlotsIff(r: Ring)
    requires r.Valid()
    ensures Slots(r.WritingSegs(Shipped)) == FreeSlots(r) <==> !r.Clobbers()
    ensures r.Clobbers() ==>
      0 < |r.data| - r.offset < r.length
      && SegSlot(r.WritingSegs(Shipped), 0) == r.Slot(r.offset, |r.data| - r.offset)
    ensures Slots(r.WritingSegs(Corrected)) == FreeSlots(r)
  {
    WritingSegsSlots(Shipped, r);
    WritingSegsSlots(Corrected, r);
    if r.Clobbers() {
      assert Slots(r.WritingSegs(Shipped))[0] == 0;
      assert FreeSlots(r)[0] == r.offset + r.length - |r.data|;
    }
  }

  /** Data slots and free slots never meet and together are the whole store. */
  lemma SlotsPartitionStore(r: Ring, i: nat)
    requires r.Valid() && i < |r.data|
    ensures (exists k :: 0 <= k < r.length && r.Slot(r.offset, k) == i) <==> i !in FreeSlots(r)
  {
    var k := r.Rank(r.offset, i);
    assert r.Slot(r.offset, k) == i;
    if k >= r.length {
      assert FreeSlots(r)[k - r.length] == i;
    }
  }

  /** One more byte through the writing segments. */
  lemma StoredOneMore(v: Variant, r: Ring, out: seq<byte>, b: byte)
    requires r.Valid() && |out| < SegTotal(r.WritingSegs(v))
    ensures r.Slot(r.WriteBase(v), |out|) < |r.data|
    ensures r.Stored(v, out)[r.Slot(r.WriteBase(v), |out|) := b] == r.Stored(v, out + [b])
  {
    WritingSegsSlots(v, r);
  }

  /** Writing appends when it does not clobber. */
  lemma FillAppends(v: Variant, r: Ring, out: seq<byte>)
    requires r.Valid() && |out| <= r.Free() && (v.Shipped? && r.Clobbers() ==> out == [])
    ensures r.Fill(v, out).Contents() == r.Contents() + out
  {
    var f := r.Fill(v, out);
    forall k | 0 <= k < f.length
      ensures f.Contents()[k] == (r.Contents() + out)[k]
    {
      if k >= r.length {
        assert r.Rank(r.WriteBase(v), r.Slot(r.offset, k)) == k - r.length;
      } else if out != [] {
        assert r.Rank(r.WriteBase(v), r.Slot(r.offset, k)) >= r.Free();
      }
    }
  }

  /** A shipped write on a wrapped store with room changes a stored byte. */
  lemma WrapShifts(r: Ring, b: byte)
    requires r.Valid() && r.Clobbers() && b != r.data[0]
    ensures r.Fill(Shipped, [b]).Contents() != r.Contents() + [b]
  {
    var k := |r.data| - r.offset;
    var f := r.Fill(Shipped, [b]);
    assert f.data[0] == b;
    assert f.Contents()[k] == b && r.Contents()[k] == r.data[0];
    assert (r.Contents() + [b])[k] == r.data[0];
  }

  /** Every one-byte write appends exactly when the data does not wrap. */
  lemma ShippedWriteAppendsIff(r: Ring)
    requires r.Valid() && r.length < |r.data|
    ensures (forall b: byte :: r.Fill(Shipped, [b]).Contents() == r.Contents() + [b]) <==> !r.Clobbers()
  {
    if r.Clobbers() {
      WrapShifts(r, if r.data[0] == 0 then 1 else 0);
    } else {
      forall b: byte
        ensures r.Fill(Shipped, [b]).Contents() == r.Contents() + [b]
      {
        FillAppends(Shipped, r, [b]);
      }
    }
  }

  lemma ContentsLength(r: Ring)
    requires r.Valid()
    ensures |r.Contents()| == r.length
  {
  }

  /** An emptied buffer starts at the first slot again, where no write can meet a wrap. */
  lemma EmptiedStartsAgain(r: Ring, n: nat)
    requires r.Valid()
    ensures n >= r.length ==> r.Drop(n).offset == 0 && !r.Drop(n).Clobbers()
  {
  }

  lemma DropDropsPrefix(r: Ring, n: nat)
    requires r.Valid()
    ensures r.Drop(n).Contents() == r.Contents()[Min(n, r.length)..]
  {
  }

  datatype Op = Put(bytes: seq<byte>) | Take(n: nat)

  /** A bounded sequence: what the ring is meant to be. */
  function SeqRun(s: seq<byte>, cap: nat, ops: seq<Op>): seq<byte>
    decreases ops
  {
    if ops == [] then s
    else
      match ops[0]
      case Put(bs) => SeqRun(s + bs[..Min(|bs|, if |s| <= cap then cap - |s| else 0)], cap, ops[1..])
      case Take(n) => SeqRun(s[Min(n, |s|)..], cap, ops[1..])
  }

  function RingStep(v: Variant, r: Ring, op: Op): (r': Ring)
    requires r.Valid()
    ensures r'.Valid() && |r'.data| == |r.data|
  {
    match op
    case Put(bs) => r.Fill(v, bs[..Min(|bs|, r.Free())])
    case Take(n) => r.Drop(n)
  }

  function RingRun(v: Variant, r: Ring, ops: seq<Op>): (r': Ring)
    requires r.Valid()
    ensures r'.Valid()
    decreases ops
  {
    if ops == [] then r else RingRun(v, RingStep(v, r, ops[0]), ops[1..])
  }

  /** No write of the run meets a wrapped store with room left. */
  predicate NeverClobbers(r: Ring, ops: seq<Op>)
    requires r.Valid()
    decreases ops
  {
    ops == [] ||
    ((ops[0].Put? && ops[0].bytes != [] ==> !r.Clobbers())
     && NeverClobbers(RingStep(Shipped, r, ops[0]), ops[1..]))
  }

  /** Over every run of writes and advances the ring is the bounded sequence: always with the
      corrected segments, and with the shipped ones as long as no write meets a wrap. */
  lemma {:induction false} RingRefinesSequence(v: Variant, r: Ring, ops: seq<Op>)
    requires r.Valid() && (v.Shipped? ==> NeverClobbers(r, ops))
    ensures RingRun(v, r, ops).Contents() == SeqRun(r.Contents(), |r.data|, ops)
    decreases ops
  {
    if ops != [] {
      match ops[0] {
        case Put(bs) => FillAppends(v, r, bs[..Min(|bs|, r.Free())]);
        case Take(n) => DropDropsPrefix(r, n);
      }
      RingRefinesSequence(v, RingStep(v, r, ops[0]), ops[1..]);
    }
  }

  lemma RunsOn(v: Variant, r: Ring, op: Op, rest: seq<Op>)
    requires r.Valid()
    ensures RingRun(v, r, [op] + rest) == RingRun(v, RingStep(v, r, op), rest)
  {
    assert ([op] + rest)[1..] == rest;
  }

  lemma RunEnds(v: Variant, r: Ring)
    requires r.Valid()
    ensures RingRun(v, r, []) == r
  {
  }

  /** The shipped code reaches a wrapped store with room left from an empty one. */
  lemma WrapIsReached()
    ensures RingRun(Shipped, Ring(0, 0, [0, 0, 0, 0]), [Put([1, 0, 10, 20]), Take(2), Put([30])])
            == Ring(2, 3, [30, 0, 10, 20])
  {
    hide RingRun;
    var r0, r1, r2, r3 := Ring(0, 0, [0, 0, 0, 0]), Ring(0, 4, [1, 0, 10, 20]),
      Ring(2, 2, [1, 0, 10, 20]), Ring(2, 3, [30, 0, 10, 20]);
    assert [1, 0, 10, 20][..4] == [1, 0, 10, 20];
    assert RingStep(Shipped, r0, Put([1, 0, 10, 20])) == r1;
    assert RingStep(Shipped, r1, Take(2)) == r2;
    assert [30][..1] == [30];
    assert RingStep(Shipped, r2, Put([30])) == r3;
    assert [Put([1, 0, 10, 20])] + [Take(2), Put([30])] == [Put([1, 0, 10, 20]), Take(2), Put([30])];
    assert [Take(2)] + [Put([30])] == [Take(2), Put([30])];
    assert [Put([30])] + [] == [Put([30])];
    RunsOn(Shipped, r0, Put([1, 0, 10, 20]), [Take(2), Put([30])]);
    RunsOn(Shipped, r1, Take(2), [Put([30])]);
    RunsOn(Shipped, r2, Put([30]), []);
    RunEnds(Shipped, r3);
  }

  /** A wrapped state that the code reaches, and the byte it overwrites there. */
  lemma ShippedWriteClobbersExample()
    ensures
      var r := RingRun(Shipped, Ring(0, 0, [0, 0, 0, 0]), [Put([1, 0, 10, 20]), Take(2), Put([30])]);
      r.Contents() == [10, 20, 30]
      && r.WritingSegs(Shipped) == [Seg(0, 2)]
      && FreeSlots(r) == [1]
      && r.Fill(Shipped, [40]).Contents() == [10, 20, 40, 0]
      && r.Fill(Corrected, [40]).Contents() == [10, 20, 30, 40]
  {
    hide RingRun;
    WrapIsReached();
  }
}
