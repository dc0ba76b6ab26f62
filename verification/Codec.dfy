/** `encode`, `decode` and `encode_command` of pump.c: they walk over the segments of the ring
    buffers with iterators and copy byte by byte, without moving the data in between. */
module Codec {
  import opened Basics
  import opened Ring
  import opened RoundBuffers
  import opened Framing

  /** `struct buf_iter`. `k` counts the bytes passed. */
  class BufIter {
    const iov: seq<Seg>
    var iovInd: nat
    var ptr: nat
    var rem: nat
    ghost var k: nat

    ghost predicate Valid()
      reads this
    {
      && |iov| <= 2 && (forall i :: 0 <= i < |iov| ==> iov[i].len > 0)
      && k <= SegTotal(iov)
      && (k < SegTotal(iov) ==>
            && iovInd < |iov| && 0 < rem <= iov[iovInd].len
            && ptr == SegSlot(iov, k) == iov[iovInd].start + (iov[iovInd].len - rem)
            && k == (if iovInd == 0 then 0 else iov[0].len) + (iov[iovInd].len - rem))
    }

    /** `prepare_buf_iter`. */
    constructor (iov: seq<Seg>)
      requires |iov| <= 2 && forall i :: 0 <= i < |iov| ==> iov[i].len > 0
      ensures Valid() && this.iov == iov && k == 0
    {
      SegsOfTwo(iov);
      this.iov := iov;
      iovInd := 0;
      k := 0;
      if |iov| > 0 {
        ptr, rem := iov[0].start, iov[0].len;
      } else {
        ptr, rem := 0, 0;
      }
    }

    /** `buf_iter_next`: steps to the next byte, into the second segment behind the first; says
        no behind the last byte. */
    method Next() returns (more: bool)
      requires Valid() && k < SegTotal(iov)
      modifies this
      ensures Valid() && k == old(k) + 1
      ensures more <==> k < SegTotal(iov)
    {
      SegsOfTwo(iov);
      k := k + 1;
      ptr := ptr + 1;
      rem := rem - 1;
      if rem == 0 {
        iovInd := iovInd + 1;
        if iovInd == |iov| {
          return false;
        }
        rem := iov[iovInd].len;
        ptr := iov[iovInd].start;
      }
      return true;
    }
  }

  /** The iterator walks over the bytes `s` in the store. */
  ghost predicate Reading(buf: RoundBuffer, it: BufIter, s: seq<byte>)
    reads buf, buf.buffer, it
  {
    it.Valid() && SegTotal(it.iov) == |s|
    && forall k :: 0 <= k < |s| ==>
         SegSlot(it.iov, k) < buf.buffer.Length && buf.buffer[SegSlot(it.iov, k)] == s[k]
  }

  /** `*it.ptr`. */
  method Get(buf: RoundBuffer, it: BufIter, ghost s: seq<byte>) returns (b: byte)
    requires Reading(buf, it, s) && it.k < |s|
    ensures b == s[it.k]
  {
    b := buf.buffer[it.ptr];
  }

  method Advance(buf: RoundBuffer, it: BufIter, ghost s: seq<byte>) returns (more: bool)
    requires Reading(buf, it, s) && it.k < |s|
    modifies it
    ensures Reading(buf, it, s) && it.k == old(it.k) + 1
    ensures more <==> it.k < |s|
  {
    more := it.Next();
  }

  method GetReadIter(buf: RoundBuffer) returns (it: BufIter)
    requires buf.Valid()
    ensures fresh(it) && it.k == 0 && Reading(buf, it, buf.Model().Contents())
  {
    ReadingSegsGatherContents(buf.Model());
    var iov := buf.ReadingIov();
    it := new BufIter(iov);
  }

  method GetWriteIter(buf: RoundBuffer) returns (it: BufIter)
    requires buf.Valid()
    ensures fresh(it) && it.Valid() && it.k == 0 && it.iov == buf.Model().WritingSegs(Shipped)
  {
    var iov := buf.WritingIov();
    it := new BufIter(iov);
  }

  /** The iterator stands behind `out`, which has been written since the ring was in state `r`. */
  ghost predicate Written(buf: RoundBuffer, it: BufIter, r: Ring, out: seq<byte>)
    reads buf, buf.buffer, it
  {
    && r.Valid() && it.Valid() && it.iov == r.WritingSegs(Shipped) && it.k == |out| <= r.Free()
    && buf.buffer[..] == r.Stored(Shipped, out)
  }

  /** `*it.ptr = b`, and a step to the next slot. */
  method Put(buf: RoundBuffer, it: BufIter, b: byte, ghost r: Ring, ghost out: seq<byte>)
    requires Written(buf, it, r, out) && |out| < r.Free()
    modifies buf.buffer, it
    ensures Written(buf, it, r, out + [b])
  {
    WritingSegsSlots(Shipped, r);
    StoredOneMore(Shipped, r, out, b);
    buf.buffer[it.ptr] := b;
    var _ := it.Next();
  }

  /** The stuffed form of one byte. */
  method PutStuffed(buf: RoundBuffer, it: BufIter, b: byte, ghost r: Ring, ghost out: seq<byte>)
    requires Written(buf, it, r, out) && |out| + |StuffByte(b)| <= r.Free()
    modifies buf.buffer, it
    ensures Written(buf, it, r, out + StuffByte(b))
  {
    hide Written;
    ghost var out' := out;
    if b == ESC_BYTE || b == END_BYTE {
      Put(buf, it, ESC_BYTE, r, out);
      out' := out + [ESC_BYTE];
    }
    Put(buf, it, b, r, out');
    assert out' + [b] == out + StuffByte(b);
  }

  lemma StuffStep(head: seq<byte>, s: seq<byte>, n: nat)
    requires n < |s|
    ensures head + Stuff(s, n) + StuffByte(s[n]) == head + Stuff(s, n + 1)
    ensures |Stuff(s, n + 1)| == |Stuff(s, n)| + |StuffByte(s[n])|
  {
  }

  /** The loop of `encode`: copies bytes in stuffed form while they fit into `room`. */
  method CopyStuffed(
      src: RoundBuffer, srcIt: BufIter, dst: RoundBuffer, dstIt: BufIter, room: nat,
      ghost s: seq<byte>, ghost r: Ring, ghost head: seq<byte>)
    returns (srcTotal: nat, written: nat)
    requires Reading(src, srcIt, s) && srcIt.k == 0 && s != []
    requires Written(dst, dstIt, r, head) && |head| + room < r.Free()
    requires src.buffer != dst.buffer && srcIt != dstIt
    modifies srcIt, dstIt, dst.buffer
    ensures srcTotal == Fit(s, 0, room) && written == |Stuff(s, srcTotal)| <= room
    ensures Written(dst, dstIt, r, head + Stuff(s, srcTotal))
  {
    hide Reading, Written;
    srcTotal, written := 0, 0;
    var dstRem: nat := room;
    ghost var out := head;
    assert out == head + Stuff(s, 0);
    while dstRem > 0
      modifies srcIt, dstIt, dst.buffer
      invariant Reading(src, srcIt, s) && srcIt.k == srcTotal < |s|
      invariant Written(dst, dstIt, r, out) && out == head + Stuff(s, srcTotal)
      invariant written == |Stuff(s, srcTotal)| && written + dstRem == room
      invariant Fit(s, srcTotal, dstRem) == Fit(s, 0, room)
    {
      var b := Get(src, srcIt, s);
      if (b == ESC_BYTE || b == END_BYTE) && dstRem < 2 {
        break;
      }
      PutStuffed(dst, dstIt, b, r, out);
      out := out + StuffByte(b);
      written, dstRem := written + |StuffByte(b)|, dstRem - |StuffByte(b)|;
      StuffStep(head, s, srcTotal);
      srcTotal := srcTotal + 1;
      var more := Advance(src, srcIt, s);
      if !more {
        break;
      }
    }
  }

  /** Everything written is in the store; the write pointer follows. */
  method Commit(dst: RoundBuffer, it: BufIter, total: nat, ghost r: Ring, ghost out: seq<byte>)
    requires Written(dst, it, r, out) && total == |out|
    requires dst.offset == r.offset && dst.length == r.length
    modifies dst
    ensures dst.Model() == r.Fill(Shipped, out)
  {
    var _ := dst.AdvanceWritePtr(total);
  }

  method BeginWrite(dst: RoundBuffer) returns (it: BufIter)
    requires dst.Valid()
    ensures fresh(it) && Written(dst, it, dst.Model(), [])
  {
    it := GetWriteIter(dst);
    assert dst.buffer[..] == dst.Model().Stored(Shipped, []);
  }

  method PutHead(dst: RoundBuffer, it: BufIter, id: byte, ghost r: Ring)
    requires Written(dst, it, r, []) && r.Free() >= 2
    modifies dst.buffer, it
    ensures Written(dst, it, r, [END_BYTE, id])
  {
    hide Written;
    assert [] + [END_BYTE] == [END_BYTE];
    Put(dst, it, END_BYTE, r, []);
    Put(dst, it, id, r, [END_BYTE]);
    assert [END_BYTE] + [id] == [END_BYTE, id];
  }

  lemma FrameParts(id: byte, s: seq<byte>, n: nat)
    requires n <= |s|
    ensures [END_BYTE, id] + Stuff(s, n) + [END_BYTE] == Frame(id, s[..n])
  {
    StuffOfPrefix(s, s[..n], n);
  }

  lemma EncodeCases(src: Ring, dst: Ring, id: byte, n: nat)
    requires src.Valid() && dst.Valid()
    ensures src.length == 0 ==> EncodeStep(Shipped, src, dst, id) == Encoded(true, src, dst, None)
    ensures
      var s := src.Contents();
      s != [] && !HasRoom(s, dst.Free()) ==>
        EncodeStep(Shipped, src, dst, id) == Encoded(false, src, dst, None)
    ensures
      var s := src.Contents();
      s != [] && HasRoom(s, dst.Free()) && n == Fit(s, 0, dst.Free() - 3) ==>
        EncodeStep(Shipped, src, dst, id)
        == Encoded(true, src.Drop(n), dst.Fill(Shipped, Frame(id, s[..n])), Some(s[..n]))
  {
  }

  /** `encode`: as many bytes of `src` as fit go into one frame in `dst`. */
  method Encode(src: RoundBuffer, dst: RoundBuffer, id: byte) returns (ok: bool)
    requires src.Valid() && dst.Valid() && src != dst && src.buffer != dst.buffer
    modifies src, dst, dst.buffer
    ensures
      var e := EncodeStep(Shipped, old(src.Model()), old(dst.Model()), id);
      ok == e.ok && src.Model() == e.src && dst.Model() == e.dst
  {
    hide Reading, Written, Stuff, Fit, Frame, EncodeStep;
    ghost var s := src.Model().Contents();
    ghost var r := dst.Model();
    ghost var was := src.Model();
    EncodeCases(was, r, id, 0);
    if src.length == 0 {
      return true;
    }
    var srcIt := GetReadIter(src);
    var dstIt := BeginWrite(dst);
    var dstAvail := dst.FreeLength();
    var first := Get(src, srcIt, s);
    if dstAvail < 4 || (first == ESC_BYTE && dstAvail < 5) {
      return false;
    }
    ghost var head := [END_BYTE, id];
    PutHead(dst, dstIt, id, r);
    var srcTotal, written := CopyStuffed(src, srcIt, dst, dstIt, dstAvail - 3, s, r, head);
    Put(dst, dstIt, END_BYTE, r, head + Stuff(s, srcTotal));
    FrameParts(id, s, srcTotal);
    EncodeCases(was, r, id, srcTotal);
    Commit(dst, dstIt, written + 3, r, Frame(id, s[..srcTotal]));
    var _ := src.AdvanceReadPtr(srcTotal);
    return true;
  }

  /** The loop of `decode`: copies payload bytes until an end byte, the end of the bytes or
      `room` bytes. `overrun` reports the step past the available bytes that the C code takes
      when an escape byte is the last one; nothing more is said about that case. */
  method CopyPlain(
      src: RoundBuffer, srcIt: BufIter, dst: RoundBuffer, dstIt: BufIter, room: nat,
      ghost s: seq<byte>, ghost r: Ring)
    returns (srcTotal: nat, dstTotal: nat, ended: bool, overrun: bool)
    requires Reading(src, srcIt, s) && srcIt.k == 0 && s != []
    requires Written(dst, dstIt, r, []) && room == r.Free()
    requires src.buffer != dst.buffer && srcIt != dstIt
    modifies srcIt, dstIt, dst.buffer
    ensures
      var d := Decode(Shipped, s, 0, |s|, room, []);
      && overrun == d.status.Overrun?
      && (!overrun ==>
            srcTotal == d.pos && dstTotal == |d.out| && ended == d.status.Ended?
            && Written(dst, dstIt, r, d.out))
  {
    hide Reading, Written;
    srcTotal, dstTotal, ended, overrun := 0, 0, false, false;
    var dstRem: nat := room;
    ghost var out: seq<byte> := [];
    while dstRem > 0
      invariant Reading(src, srcIt, s) && srcIt.k == srcTotal < |s|
      invariant Written(dst, dstIt, r, out) && |out| == dstTotal && dstTotal + dstRem == room
      invariant Decode(Shipped, s, 0, |s|, room, []) == Decode(Shipped, s, srcTotal, |s|, room, out)
    {
      var b := Get(src, srcIt, s);
      srcTotal := srcTotal + 1;
      if b == END_BYTE {
        ended := true;
        break;
      }
      if b == ESC_BYTE {
        var there := Advance(src, srcIt, s);
        if !there {
          overrun := true;
          break;
        }
        b := Get(src, srcIt, s);
        srcTotal := srcTotal + 1;
      }
      Put(dst, dstIt, b, r, out);
      out := out + [b];
      dstTotal, dstRem := dstTotal + 1, dstRem - 1;
      var more := Advance(src, srcIt, s);
      if !more {
        break;
      }
    }
  }

  /** `decode`. */
  method DecodeInto(src: RoundBuffer, dst: RoundBuffer) returns (ended: bool, overrun: bool)
    requires src.Valid() && dst.Valid() && src != dst && src.buffer != dst.buffer && src.length > 0
    modifies src, dst, dst.buffer
    ensures
      var d := DecodeStep(Shipped, old(src.Model()), old(dst.Model()));
      && overrun == d.status.Overrun?
      && (!overrun ==> ended == d.status.Ended? && src.Model() == d.src && dst.Model() == d.dst)
  {
    hide Reading, Written, Decode;
    ghost var s := src.Model().Contents();
    ghost var r := dst.Model();
    var srcIt := GetReadIter(src);
    var dstIt := BeginWrite(dst);
    var room := dst.FreeLength();
    var srcTotal, dstTotal: nat;
    srcTotal, dstTotal, ended, overrun := CopyPlain(src, srcIt, dst, dstIt, room, s, r);
    if !overrun {
      Commit(dst, dstIt, dstTotal, r, Decode(Shipped, s, 0, |s|, room, []).out);
      var _ := src.AdvanceReadPtr(srcTotal);
    }
  }

  /** `encode_command`: five bytes or nothing. */
  method EncodeCommand(buf: RoundBuffer, c: Command) returns (ok: bool)
    requires buf.Valid()
    modifies buf, buf.buffer
    ensures ok == (old(buf.Model()).Free() >= 5)
    ensures buf.Model() == if ok then old(buf.Model()).Fill(Shipped, CommandFrame(c.cmd, c.arg))
                           else old(buf.Model())
  {
    hide Written;
    ghost var r := buf.Model();
    var avail := buf.FreeLength();
    if avail < 5 {
      return false;
    }
    var it := BeginWrite(buf);
    assert [] + [END_BYTE] == [END_BYTE];
    Put(buf, it, END_BYTE, r, []);
    Put(buf, it, 0, r, [END_BYTE]);
    Put(buf, it, c.cmd, r, [END_BYTE] + [0]);
    Put(buf, it, c.arg, r, [END_BYTE] + [0] + [c.cmd]);
    Put(buf, it, END_BYTE, r, [END_BYTE] + [0] + [c.cmd] + [c.arg]);
    assert [END_BYTE] + [0] + [c.cmd] + [c.arg] + [END_BYTE] == CommandFrame(c.cmd, c.arg);
    Commit(buf, it, 5, r, CommandFrame(c.cmd, c.arg));
    return true;
  }
}
