/** The object of round_buffer.c: offset and length move in place over a fixed store. */
module RoundBuffers {
  import opened Basics
  import opened Ring

  class RoundBuffer {
    var offset: nat
    var length: nat
    const buffer: array<byte>

    /** The value of the buffer; every method is specified by what it does to it. */
    ghost function Model(): Ring
      reads this, buffer
    {
      Ring(offset, length, buffer[..])
    }

    ghost predicate Valid()
      reads this, buffer
    {
      Model().Valid()
    }

    constructor (capacity: nat)
      ensures Valid() && fresh(buffer)
      ensures buffer.Length == capacity && Model().Contents() == []
    {
      offset, length := 0, 0;
      buffer := new byte[capacity];
    }

    method FreeLength() returns (n: nat)
      requires Valid()
      ensures n == Model().Free()
    {
      n := buffer.Length - length;
    }

    /** The segments a write may fill, as the C code computes them. */
    method WritingIov() returns (iov: seq<Seg>)
      requires Valid()
      ensures iov == Model().WritingSegs(Shipped)
      ensures Slots(iov) == FreeSlots(Model()) <==> !Model().Clobbers()
    {
      WritingSegsAreFreeSlotsIff(Model());
      if length == buffer.Length {
        return [];
      }
      iov := [];
      var partStart := offset + length;
      if partStart < buffer.Length {
        iov := iov + [Seg(partStart, buffer.Length - partStart)];
      }
      if offset > 0 {
        iov := iov + [Seg(0, offset)];
      }
    }

    method ReadingIov() returns (iov: seq<Seg>)
      requires Valid()
      ensures iov == Model().ReadingSegs()
      ensures SegTotal(iov) == length
      ensures forall k :: 0 <= k < length ==> SegSlot(iov, k) < buffer.Length
      ensures Gather(buffer[..], iov) == Model().Contents()
    {
      ReadingSegsGatherContents(Model());
      if length == 0 {
        return [];
      }
      var end := offset + length;
      if end <= buffer.Length {
        return [Seg(offset, length)];
      }
      return [Seg(offset, buffer.Length - offset), Seg(0, end - buffer.Length)];
    }

    method AdvanceReadPtr(n: nat) returns (m: nat)
      requires Valid()
      modifies this
      ensures m == Min(n, old(length))
      ensures Model() == old(Model()).Drop(n)
      ensures Model().Contents() == old(Model().Contents())[m..]
    {
      DropDropsPrefix(Model(), n);
      m := n;
      if length < m {
        m := length;
      }
      if m == length {
        length, offset := 0, 0;
      } else {
        length := length - m;
        ModIsOneTurn(offset + m, buffer.Length);
        offset := (offset + m) % buffer.Length;
      }
    }

    method AdvanceWritePtr(n: nat) returns (m: nat)
      requires Valid()
      modifies this
      ensures m == Min(n, buffer.Length - old(length))
      ensures offset == old(offset) && length == old(length) + m
    {
      var max := FreeLength();
      m := n;
      if max < m {
        m := max;
      }
      length := length + m;
    }

    method PeekByte() returns (b: Option<byte>)
      requires Valid()
      ensures b == if length == 0 then None else Some(Model().Contents()[0])
    {
      if length == 0 {
        return None;
      }
      return Some(buffer[offset]);
    }

    /** Copies the first `len` bytes, or all of them when there are fewer, without consuming. */
    method Peek(len: nat) returns (res: Option<seq<byte>>)
      requires Valid()
      ensures res == if length == 0 then None else Some(Model().Contents()[..Min(len, length)])
    {
      var iov := ReadingIov();
      if |iov| == 0 {
        return None;
      }
      var left, i, out := len, 0, [];
      SegsOfTwo(iov);
      while i < |iov| && left > 0
        invariant 0 <= i <= |iov| && |out| + left == len
        invariant left > 0 ==> |out| == if i == 0 then 0 else if i == 1 then iov[0].len else length
        invariant |out| <= length && out == Model().Contents()[..|out|]
      {
        var l := left;
        if iov[i].len < left {
          l := iov[i].len;
        }
        out := out + buffer[iov[i].start..iov[i].start + l];
        left := left - l;
        i := i + 1;
      }
      return Some(out);
    }

    /** `readv` delivered `got` into the writing segments. */
    method ReadFrom(got: seq<byte>) returns (m: nat)
      requires Valid() && |got| <= SegTotal(Model().WritingSegs(Shipped))
      modifies this, buffer
      ensures Model() == old(Model()).Fill(Shipped, got)
      ensures m == length - old(length)
    {
      ghost var r := Model();
      WritingSegsSlots(Shipped, r);
      var iov := WritingIov();
      var done := 0;
      assert buffer[..] == r.Stored(Shipped, []);
      while done < |got|
        modifies buffer
        invariant done <= |got|
        invariant buffer[..] == r.Stored(Shipped, got[..done])
      {
        StoredOneMore(Shipped, r, got[..done], got[done]);
        assert got[..done] + [got[done]] == got[..done + 1];
        buffer[SegSlot(iov, done)] := got[done];
        done := done + 1;
      }
      assert got[..done] == got;
      m := AdvanceWritePtr(|got|);
    }

    /** `writev` accepted the first `n` bytes. */
    method WriteTo(n: nat) returns (sent: seq<byte>)
      requires Valid() && n <= length
      modifies this
      ensures sent == old(Model().Contents())[..n]
      ensures Model() == old(Model()).Drop(n)
    {
      var taken := Peek(n);
      sent := if taken.Some? then taken.value else [];
      var _ := AdvanceReadPtr(n);
    }
  }
}
