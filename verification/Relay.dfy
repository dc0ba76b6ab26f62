/** The proxy on values: pairs of sockets with a ring buffer for each direction, two poll entries
    that both directions share, and the table of all pairs. */
module Relay {
  import opened Basics
  import opened Ring
  import opened PollFds
  import opened Runs

  /** What `readv` or `writev` came to: a result of zero and a broken connection end the
      direction, a call that would block or was interrupted changes nothing. */
  datatype ReadReply = Got(bytes: seq<byte>) | NothingYet | ReadFailed
  datatype WriteReply = Took(n: nat) | NoRoomYet | WriteFailed

  /** One direction: whether it is active, its buffer, and the record of what was read and
      written; `mixed` once a read met a wrapped buffer and went over bytes that were still to be
      written. The program goes on with such a buffer. */
  datatype Way = Way(active: bool, buf: Ring, got: seq<byte>, sent: seq<byte>, mixed: bool)

  /** `read_rb`, which adds what was read to the length without a limit. */
  function Extended(v: Variant, r: Ring, bytes: seq<byte>): (r': Ring)
    requires r.Valid()
  {
    Ring(r.offset, r.length + |bytes|, r.Stored(v, bytes))
  }

  /** A read within the segments leaves a sound buffer, unless it is the shipped one on a wrap. */
  lemma ExtendedIsFill(v: Variant, r: Ring, bytes: seq<byte>)
    requires r.Valid() && |bytes| <= SegTotal(r.WritingSegs(v)) && !(v.Shipped? && r.Clobbers())
    ensures Extended(v, r, bytes) == r.Fill(v, bytes)
  {
    hide Ring.Stored;
    WritingSegsSlots(v, r);
  }

  /** The read that fills the segments of a wrapped buffer leaves more than the capacity. */
  lemma WrappedReadOverflows(r: Ring, bytes: seq<byte>)
    requires r.Valid() && r.Clobbers() && |bytes| == r.offset
    ensures |bytes| == SegTotal(r.WritingSegs(Shipped)) && !Extended(Shipped, r, bytes).Valid()
  {
    hide Ring.Stored;
    SegsOfTwo(r.WritingSegs(Shipped));
  }

  /** With the shipped segments a read can leave a length beyond the capacity exactly when it meets
      a wrapped buffer with room left. */
  lemma ReadOverflowsIff(r: Ring)
    requires r.Valid()
    ensures r.Clobbers() <==>
      exists bytes: seq<byte> ::
        |bytes| <= SegTotal(r.WritingSegs(Shipped)) && !Extended(Shipped, r, bytes).Valid()
  {
    hide SegTotal, Ring.WritingSegs, Extended, Ring.Clobbers;
    if r.Clobbers() {
      var bytes: seq<byte> := seq(r.offset, i => 0);
      WrappedReadOverflows(r, bytes);
    } else {
      forall bytes: seq<byte> | |bytes| <= SegTotal(r.WritingSegs(Shipped))
        ensures Extended(Shipped, r, bytes).Valid()
      {
        ExtendedIsFill(Shipped, r, bytes);
      }
    }
  }

  /** The bytes a read delivers: no more than the segments take. */
  function Delivered(v: Variant, r: Ring, bytes: seq<byte>): seq<byte>
    requires r.Valid()
  {
    bytes[..Min(|bytes|, SegTotal(r.WritingSegs(v)))]
  }

  predicate EndsRead(v: Variant, r: Ring, reply: ReadReply)
    requires r.Valid()
  {
    reply.ReadFailed? || (reply.Got? && Delivered(v, r, reply.bytes) == [])
  }

  predicate EndsWrite(reply: WriteReply) {
    reply.WriteFailed? || reply == Took(0)
  }

  function Fed(v: Variant, w: Way, reply: ReadReply): Way
    requires w.buf.Valid()
  {
    if !reply.Got? then w
    else
      var bytes := Delivered(v, w.buf, reply.bytes);
      Way(w.active, Extended(v, w.buf, bytes), w.got + bytes, w.sent,
          w.mixed || (v.Shipped? && w.buf.Clobbers()))
  }

  function Drained(w: Way, reply: WriteReply): Way
    requires w.buf.Valid()
  {
    if !reply.Took? then w
    else
      Way(w.active, w.buf.Drop(reply.n), w.got,
          w.sent + w.buf.Contents()[..Min(reply.n, w.buf.length)], w.mixed)
  }

  function Ended(w: Way): Way {
    Way(false, w.buf, w.got, w.sent, w.mixed)
  }

  /** The two poll entries and the direction after `transfer`; `calls` are the numbers it passed
      to readv and writev. */
  datatype Transferred = Transferred(inp: PollFd, out: PollFd, way: Way, calls: seq<int>)

  function Closing(inp: PollFd, out: PollFd, w: Way, calls: seq<int>): Transferred {
    Transferred(inp.Clear(true, false), out.Clear(false, true), Ended(w), calls)
  }

  /** `transfer` from the write on. */
  function TransferOut(inp: PollFd, out: PollFd, w: Way, writable: bool, wr: WriteReply, calls: seq<int>): Transferred
    requires w.buf.Valid()
  {
    if writable && w.buf.length > 0 then
      if EndsWrite(wr) then Closing(inp, out, w, calls + [out.fd])
      else Rearmed(inp, out, Drained(w, wr), calls + [out.fd])
    else Rearmed(inp, out, w, calls)
  }

  function Rearmed(inp: PollFd, out: PollFd, w: Way, calls: seq<int>): Transferred {
    Transferred(inp, if w.buf.length == 0 then out.Clear(false, true) else out.Set(false, true), w, calls)
  }

  /** `transfer`. It stops behind a read that leaves more than the capacity: what the program does
      then lies outside the store. */
  function Transfer(
      v: Variant, inp: PollFd, out: PollFd, w: Way,
      readable: bool, writable: bool, rd: ReadReply, wr: WriteReply): Transferred
    requires w.buf.Valid()
  {
    if readable && w.buf.length < |w.buf.data| then
      if EndsRead(v, w.buf, rd) then Closing(inp, out, w, [inp.fd])
      else
        var w' := Fed(v, w, rd);
        if !w'.buf.Valid() then Transferred(inp, out, w', [inp.fd])
        else TransferOut(inp, out, w', writable, wr, [inp.fd])
    else TransferOut(inp, out, w, writable, wr, [])
  }

  // ---------------------------------------------------------------- streams

  /** As long as no read went over stored bytes: what was written is the beginning of what was read,
      and an active direction holds the rest in its buffer. In any case no byte is written that was
      not read, and an active direction holds as many bytes as are missing. */
  predicate StreamOk(w: Way) {
    && |w.sent| <= |w.got| && (w.active ==> |w.sent| + w.buf.length == |w.got|)
    && (!w.mixed ==> w.sent <= w.got && w.buf.Valid() && (w.active ==> w.got == w.sent + w.buf.Contents()))
  }

  lemma FedStream(v: Variant, w: Way, reply: ReadReply)
    requires StreamOk(w) && w.active && w.buf.Valid()
    ensures StreamOk(Fed(v, w, reply)) && Fed(v, w, reply).active
  {
    if reply.Got? {
      var bytes := Delivered(v, w.buf, reply.bytes);
      WritingSegsSlots(v, w.buf);
      if !w.mixed && !(v.Shipped? && w.buf.Clobbers()) {
        assert Extended(v, w.buf, bytes) == w.buf.Fill(v, bytes);
        FillAppends(v, w.buf, bytes);
        assert w.sent + (w.buf.Contents() + bytes) == w.got + bytes;
      }
    }
  }

  lemma DrainedStream(w: Way, reply: WriteReply)
    requires StreamOk(w) && w.active && w.buf.Valid()
    ensures StreamOk(Drained(w, reply)) && Drained(w, reply).active && Drained(w, reply).mixed == w.mixed
  {
    if reply.Took? {
      DropDropsPrefix(w.buf, reply.n);
      ContentsLength(w.buf);
      ContentsLength(w.buf.Drop(reply.n));
      var c, m := w.buf.Contents(), Min(reply.n, w.buf.length);
      assert c[..m] + c[m..] == c;
      assert w.sent + c[..m] + c[m..] == w.sent + c;
    }
  }

  /** Under any short reads, short writes, errors and ends. */
  lemma TransferKeepsStream(
      v: Variant, inp: PollFd, out: PollFd, w: Way,
      readable: bool, writable: bool, rd: ReadReply, wr: WriteReply)
    requires StreamOk(w) && w.active && w.buf.Valid()
    ensures StreamOk(Transfer(v, inp, out, w, readable, writable, rd, wr).way)
  {
    hide Fed, Drained, EndsRead, Ring.Contents, Ring.Valid;
    var w1 := w;
    if readable && w.buf.length < |w.buf.data| && !EndsRead(v, w.buf, rd) {
      FedStream(v, w, rd);
      w1 := Fed(v, w, rd);
    }
    if w1.buf.Valid() {
      DrainedStream(w1, wr);
    }
  }

  /** A read of one byte on a wrapped buffer with room, followed by a write of everything. */
  lemma WrapBreaksPrefix(inp: PollFd, out: PollFd, w: Way, b: byte)
    requires StreamOk(w) && w.active && !w.mixed && w.buf.Clobbers() && b != w.buf.data[0]
    ensures
      var t := Transfer(Shipped, inp, out, w, true, true, Got([b]), Took(w.buf.length + 1)).way;
      t.buf.Valid() && !(t.sent <= t.got)
  {
    var f := w.buf.Fill(Shipped, [b]);
    SegsOfTwo(w.buf.WritingSegs(Shipped));
    assert Delivered(Shipped, w.buf, [b]) == [b];
    assert Extended(Shipped, w.buf, [b]) == f;
    WrapShifts(w.buf, b);
    ContentsLength(f);
    ContentsLength(w.buf);
    var n := w.buf.length + 1;
    assert f.Contents()[..n] == f.Contents();
    var t := Transfer(Shipped, inp, out, w, true, true, Got([b]), Took(n)).way;
    assert t.sent == w.sent + f.Contents() && t.got == w.sent + (w.buf.Contents() + [b]);
    PrefixCancels(w.sent, f.Contents(), w.buf.Contents() + [b]);
  }

  lemma PrefixCancels<T>(a: seq<T>, b: seq<T>, c: seq<T>)
    requires |b| == |c|
    ensures a + b <= a + c ==> b == c
  {
    if a + b <= a + c {
      assert b == (a + b)[|a|..] && c == (a + c)[|a|..];
    }
  }

  /** From a direction that has kept the order and has room, whatever the next `transfer` reads and
      writes, what was written stays the beginning of what was read if and only if the data in the
      buffer does not wrap. */
  lemma ShippedKeepsPrefixIff(inp: PollFd, out: PollFd, w: Way)
    requires StreamOk(w) && w.active && !w.mixed && w.buf.length < |w.buf.data|
    ensures
      (forall rd: ReadReply, wr: WriteReply ::
        var t := Transfer(Shipped, inp, out, w, true, true, rd, wr).way; t.sent <= t.got)
      <==> !w.buf.Clobbers()
  {
    if w.buf.Clobbers() {
      var b: byte := if w.buf.data[0] == 0 then 1 else 0;
      WrapBreaksPrefix(inp, out, w, b);
    } else {
      forall rd: ReadReply, wr: WriteReply
        ensures var t := Transfer(Shipped, inp, out, w, true, true, rd, wr).way; t.sent <= t.got
      {
        TransferKeepsStream(Shipped, inp, out, w, true, true, rd, wr);
        MixesOnlyOnWrap(Shipped, inp, out, w, true, true, rd, wr);
      }
    }
  }

  /** A direction is mixed only by a shipped read on a wrapped buffer. */
  lemma MixesOnlyOnWrap(
      v: Variant, inp: PollFd, out: PollFd, w: Way,
      readable: bool, writable: bool, rd: ReadReply, wr: WriteReply)
    requires w.buf.Valid() && !w.mixed && !(v.Shipped? && w.buf.Clobbers())
    ensures !Transfer(v, inp, out, w, readable, writable, rd, wr).way.mixed
  {
    hide EndsRead, EndsWrite, Extended, Delivered;
  }

  /** One `transfer` that reads all of `bytes` and writes the first `n` of what is stored then. */
  lemma Exchange(inp: PollFd, out: PollFd, w: Way, bytes: seq<byte>, n: nat, f: Ring)
    requires w.buf.Valid() && f == w.buf.Fill(Shipped, bytes) && 0 < n <= f.length
    requires 0 < |bytes| <= SegTotal(w.buf.WritingSegs(Shipped)) && w.buf.length + |bytes| <= |w.buf.data|
    ensures Transfer(Shipped, inp, out, w, true, true, Got(bytes), Took(n)).way
         == Way(w.active, f.Drop(n), w.got + bytes, w.sent + f.Contents()[..n], w.mixed || w.buf.Clobbers())
  {
    hide Ring.Stored, Ring.Contents, SegTotal;
    assert bytes[..|bytes|] == bytes;
    assert Extended(Shipped, w.buf, bytes) == f;
  }

  /** Three calls on an empty store of four slots. The third read meets a wrap; the buffer stays
      within its capacity, and what is written then is not what was read. */
  lemma PrefixBrokenExample(inp: PollFd, out: PollFd)
    ensures
      var w0 := Way(true, Ring(0, 0, [0, 0, 0, 0]), [], [], false);
      var w1 := Transfer(Shipped, inp, out, w0, true, true, Got([1, 0, 10, 20]), Took(2)).way;
      && w1.buf.Valid()
      && var w2 := Transfer(Shipped, inp, out, w1, true, true, Got([30]), Took(1)).way;
      && w2.buf.Valid() && w2.got == [1, 0, 10, 20, 30] && w2.sent == [1, 0, 10]
      && var w3 := Transfer(Shipped, inp, out, w2, true, true, Got([40]), Took(3)).way;
      && w3.buf.Valid() && w3.got == [1, 0, 10, 20, 30, 40] && w3.sent == [1, 0, 10, 20, 40, 0]
  {
    hide Transfer;
    var w0 := Way(true, Ring(0, 0, [0, 0, 0, 0]), [], [], false);
    var w1 := Way(true, Ring(2, 2, [1, 0, 10, 20]), [1, 0, 10, 20], [1, 0], false);
    var w2 := Way(true, Ring(3, 2, [30, 0, 10, 20]), [1, 0, 10, 20, 30], [1, 0, 10], false);
    FirstRings();
    SecondRings();
    ThirdRings();
    Exchange(inp, out, w0, [1, 0, 10, 20], 2, Ring(0, 4, [1, 0, 10, 20]));
    Exchange(inp, out, w1, [30], 1, Ring(2, 3, [30, 0, 10, 20]));
    Exchange(inp, out, w2, [40], 3, Ring(3, 3, [40, 0, 10, 20]));
    assert [] + [1, 0, 10, 20] == [1, 0, 10, 20] && [] + [1, 0] == [1, 0];
  }

  lemma FirstRings()
    ensures SegTotal(Ring(0, 0, [0, 0, 0, 0]).WritingSegs(Shipped)) == 4
    ensures Ring(0, 0, [0, 0, 0, 0]).Fill(Shipped, [1, 0, 10, 20]) == Ring(0, 4, [1, 0, 10, 20])
    ensures Ring(0, 4, [1, 0, 10, 20]).Drop(2) == Ring(2, 2, [1, 0, 10, 20])
    ensures Ring(0, 4, [1, 0, 10, 20]).Contents()[..2] == [1, 0]
  {
    SegsOfTwo(Ring(0, 0, [0, 0, 0, 0]).WritingSegs(Shipped));
  }

  lemma SecondRings()
    ensures SegTotal(Ring(2, 2, [1, 0, 10, 20]).WritingSegs(Shipped)) == 2
    ensures Ring(2, 2, [1, 0, 10, 20]).Fill(Shipped, [30]) == Ring(2, 3, [30, 0, 10, 20])
    ensures Ring(2, 3, [30, 0, 10, 20]).Drop(1) == Ring(3, 2, [30, 0, 10, 20])
    ensures Ring(2, 3, [30, 0, 10, 20]).Contents()[..1] == [10]
  {
    SegsOfTwo(Ring(2, 2, [1, 0, 10, 20]).WritingSegs(Shipped));
  }

  lemma ThirdRings()
    ensures SegTotal(Ring(3, 2, [30, 0, 10, 20]).WritingSegs(Shipped)) == 3
    ensures Ring(3, 2, [30, 0, 10, 20]).Fill(Shipped, [40]) == Ring(3, 3, [40, 0, 10, 20])
    ensures Ring(3, 3, [40, 0, 10, 20]).Drop(3) == Ring(0, 0, [40, 0, 10, 20])
    ensures Ring(3, 3, [40, 0, 10, 20]).Contents()[..3] == [20, 40, 0]
  {
    SegsOfTwo(Ring(3, 2, [30, 0, 10, 20]).WritingSegs(Shipped));
  }

  // ---------------------------------------------------------------- what a transfer must do

  /** The source is read: it is ready, and there is room. */
  predicate Reads(w: Way, readable: bool) {
    readable && w.buf.length < |w.buf.data|
  }

  /** The read comes to an end or fails. */
  predicate ReadEnds(w: Way, readable: bool, rd: ReadReply) {
    Reads(w, readable) && (rd.ReadFailed? || rd == Got([]))
  }

  /** What the read brings: as many bytes as the segments take. */
  function News(v: Variant, w: Way, readable: bool, rd: ReadReply): seq<byte>
    requires w.buf.Valid()
  {
    if Reads(w, readable) && rd.Got? then rd.bytes[..Min(|rd.bytes|, SegTotal(w.buf.WritingSegs(v)))] else []
  }

  /** The read leaves no more than the capacity. */
  predicate WithinCapacity(v: Variant, w: Way, readable: bool, rd: ReadReply)
    requires w.buf.Valid()
  {
    w.buf.length + |News(v, w, readable, rd)| <= |w.buf.data|
  }

  /** The bytes that wait behind the read: those before it and its news, unless the shipped read goes
      over stored bytes. */
  function Waiting(v: Variant, w: Way, readable: bool, rd: ReadReply): seq<byte>
    requires w.buf.Valid() && WithinCapacity(v, w, readable, rd)
  {
    var news := News(v, w, readable, rd);
    if v.Shipped? && w.buf.Clobbers() && news != [] then Extended(v, w.buf, news).Contents()
    else w.buf.Contents() + news
  }

  lemma SomeRoom(v: Variant, r: Ring)
    requires r.Valid() && r.length < |r.data|
    ensures SegTotal(r.WritingSegs(v)) > 0
  {
    SegsOfTwo(r.WritingSegs(v));
  }

  /** The read half of a call that goes on to write: exactly what it brings is recorded and counted, and
      stored behind the rest unless a shipped read meets a wrap. */
  lemma FedNews(v: Variant, w: Way, rd: ReadReply)
    requires w.buf.Valid() && w.buf.length < |w.buf.data| && !ReadEnds(w, true, rd)
    ensures
      var f := Fed(v, w, rd);
      var news := News(v, w, true, rd);
      && !EndsRead(v, w.buf, rd)
      && f.active == w.active && f.sent == w.sent && f.got == w.got + news
      && f.buf.length == w.buf.length + |news| && |f.buf.data| == |w.buf.data|
      && (WithinCapacity(v, w, true, rd) ==> f.buf.Valid() && f.buf.Contents() == Waiting(v, w, true, rd))
  {
    SomeRoom(v, w.buf);
    var news := News(v, w, true, rd);
    if rd.Got? {
      hide Ring.Contents, Ring.Stored;
      WritingSegsSlots(v, w.buf);
      if !(v.Shipped? && w.buf.Clobbers()) {
        ExtendedIsFill(v, w.buf, news);
        FillAppends(v, w.buf, news);
      }
    } else {
      assert w.got + [] == w.got;
      assert w.buf.Contents() + [] == w.buf.Contents();
    }
  }

  /** A call whose read ends gives the direction up, and writes nothing. */
  lemma TransferEndsOnRead(
      v: Variant, inp: PollFd, out: PollFd, w: Way,
      readable: bool, writable: bool, rd: ReadReply, wr: WriteReply)
    requires w.buf.Valid() && ReadEnds(w, readable, rd)
    ensures Transfer(v, inp, out, w, readable, writable, rd, wr).way == Way(false, w.buf, w.got, w.sent, w.mixed)
  {
  }

  /** What any other call must do, whether or not anything is read: `got` grows by what the read
      brings. If the target is ready and bytes wait, a write that ends or fails gives the direction up,
      and one that takes `n` bytes makes `sent` longer by exactly the first `n` that wait, or by all of
      them; otherwise nothing is sent and all of them stay. */
  lemma TransferMoves(
      v: Variant, inp: PollFd, out: PollFd, w: Way,
      readable: bool, writable: bool, rd: ReadReply, wr: WriteReply)
    requires w.buf.Valid() && w.active && !ReadEnds(w, readable, rd)
    requires WithinCapacity(v, w, readable, rd)
    ensures
      var e := Transfer(v, inp, out, w, readable, writable, rd, wr).way;
      var waiting := Waiting(v, w, readable, rd);
      var writes := writable && waiting != [];
      var n := if writes && wr.Took? then Min(wr.n, |waiting|) else 0;
      && e.buf.Valid() && e.got == w.got + News(v, w, readable, rd)
      && e.sent == w.sent + waiting[..n] && e.buf.Contents() == waiting[n..]
      && (e.active <==> !(writes && (wr.WriteFailed? || wr == Took(0))))
  {
    hide Fed, Ring.Contents, Ring.Drop, SegTotal, EndsRead;
    var w1 := w;
    ContentsLength(w.buf);
    if Reads(w, readable) {
      FedNews(v, w, rd);
      w1 := Fed(v, w, rd);
    } else {
      assert w.got + [] == w.got;
      assert w.buf.Contents() + [] == w.buf.Contents();
    }
    ContentsLength(w1.buf);
    DrainMoves(w1, writable, wr);
    assert Transfer(v, inp, out, w, readable, writable, rd, wr).way
        == TransferOut(inp, out, w1, writable, wr, if Reads(w, readable) then [inp.fd] else []).way;
  }

  /** The write half. */
  lemma DrainMoves(w: Way, writable: bool, wr: WriteReply)
    requires w.buf.Valid() && w.active
    ensures forall inp: PollFd, out: PollFd, calls: seq<int> ::
      var e := TransferOut(inp, out, w, writable, wr, calls).way;
      var waiting := w.buf.Contents();
      var writes := writable && waiting != [];
      var n := if writes && wr.Took? then Min(wr.n, |waiting|) else 0;
      && e.buf.Valid() && e.got == w.got && e.sent == w.sent + waiting[..n] && e.buf.Contents() == waiting[n..]
      && (e.active <==> !(writes && (wr.WriteFailed? || wr == Took(0))))
  {
    hide Ring.Contents, Ring.Drop;
    ContentsLength(w.buf);
    var c := w.buf.Contents();
    assert c[..0] == [] && c[0..] == c && w.sent + [] == w.sent;
    if wr.Took? {
      DropDropsPrefix(w.buf, wr.n);
    }
  }

  /** All that one call does to a direction. Behind a read that leaves more than the capacity only
      what was read is claimed. */
  ghost predicate MovedBy(
      v: Variant, w: Way, e: Way, readable: bool, writable: bool, rd: ReadReply, wr: WriteReply)
    requires w.buf.Valid()
  {
    if !w.active then e == w
    else if ReadEnds(w, readable, rd) then e == Way(false, w.buf, w.got, w.sent, w.mixed)
    else if !WithinCapacity(v, w, readable, rd) then
      !e.buf.Valid() && e.active && e.sent == w.sent && e.got == w.got + News(v, w, readable, rd)
    else
      var waiting := Waiting(v, w, readable, rd);
      var writes := writable && waiting != [];
      var n := if writes && wr.Took? then Min(wr.n, |waiting|) else 0;
      && e.buf.Valid() && e.got == w.got + News(v, w, readable, rd)
      && e.sent == w.sent + waiting[..n] && e.buf.Contents() == waiting[n..]
      && (e.active <==> !(writes && (wr.WriteFailed? || wr == Took(0))))
  }

  lemma TransferMovedBy(
      v: Variant, inp: PollFd, out: PollFd, w: Way,
      readable: bool, writable: bool, rd: ReadReply, wr: WriteReply)
    requires w.buf.Valid() && w.active
    ensures MovedBy(v, w, Transfer(v, inp, out, w, readable, writable, rd, wr).way, readable, writable, rd, wr)
  {
    hide Fed, TransferOut, Waiting, Ring.Contents, SegTotal, EndsRead;
    if ReadEnds(w, readable, rd) {
      TransferEndsOnRead(v, inp, out, w, readable, writable, rd, wr);
    } else if WithinCapacity(v, w, readable, rd) {
      TransferMoves(v, inp, out, w, readable, writable, rd, wr);
    } else {
      FedNews(v, w, rd);
    }
  }

  /** When the source ends, what is still in the buffer is given up: all was delivered exactly when
      the buffer is empty. */
  lemma EndOfSourceLosesBuffer(
      v: Variant, inp: PollFd, out: PollFd, w: Way, writable: bool, rd: ReadReply, wr: WriteReply)
    requires StreamOk(w) && w.active && w.buf.Valid() && w.buf.length < |w.buf.data| && EndsRead(v, w.buf, rd)
    ensures var w' := Transfer(v, inp, out, w, true, writable, rd, wr).way;
            !w'.active && (|w'.sent| == |w'.got| <==> w.buf.length == 0)
            && (!w.mixed ==> (w'.sent == w'.got <==> w.buf.length == 0))
  {
  }

  // ---------------------------------------------------------------- a pair of sockets

  datatype Client = Client(srcFd: int, dstFd: int, src: PollFd, dst: PollFd, fwd: Way, back: Way)

  /** What poll reported for the two sockets, and what the calls on them came to. */
  datatype Answers = Answers(
    srcIn: bool, srcOut: bool, dstIn: bool, dstOut: bool,
    srcRead: ReadReply, dstWrite: WriteReply, dstRead: ReadReply, srcWrite: WriteReply)

  /** Poll reports only what it was asked for, and nothing for a negative number. */
  predicate Reported(p: PollFd, i: bool, o: bool) {
    (i ==> p.fd >= 0 && p.pollIn) && (o ==> p.fd >= 0 && p.pollOut)
  }

  predicate AnswersOk(c: Client, a: Answers) {
    Reported(c.src, a.srcIn, a.srcOut) && Reported(c.dst, a.dstIn, a.dstOut)
  }

  /** Neither buffer holds more than its capacity. */
  predicate Whole(c: Client) {
    c.fwd.buf.Valid() && c.back.buf.Valid()
  }

  /** The client after its turn in the main loop, with the numbers passed to system calls. */
  datatype Served = Served(client: Client, calls: seq<int>)

  function ServeForward(v: Variant, c: Client, a: Answers): Served
    requires c.fwd.buf.Valid()
  {
    if !c.fwd.active then Served(c, [])
    else
      var t := Transfer(v, c.src, c.dst, c.fwd, a.srcIn, a.dstOut, a.srcRead, a.dstWrite);
      Served(Client(c.srcFd, c.dstFd, t.inp, t.out, t.way, c.back), t.calls)
  }

  function ServeBackward(v: Variant, c: Client, a: Answers): Served
    requires c.back.buf.Valid()
  {
    if !c.back.active then Served(c, [])
    else
      var t := Transfer(v, c.dst, c.src, c.back, a.dstIn, a.srcOut, a.dstRead, a.srcWrite);
      Served(Client(c.srcFd, c.dstFd, t.out, t.inp, c.fwd, t.way), t.calls)
  }

  /** The body of the main loop for one client. Behind a read that left more than the capacity
      nothing is claimed. */
  function Serve(v: Variant, c: Client, a: Answers): Served
    requires Whole(c)
  {
    var f := ServeForward(v, c, a);
    if !f.client.fwd.buf.Valid() then f
    else
      var b := ServeBackward(v, f.client, a);
      Served(b.client, f.calls + b.calls)
  }

  /** The events asked for are exactly: input while the direction that reads here is active, output
      while the direction that writes here is active and has something; and the number is negative
      exactly when nothing is asked for. */
  predicate MaskOk(p: PollFd, fd: int, reading: Way, writing: Way) {
    && p.Ok() && p.Descriptor() == fd
    && p.pollIn == reading.active
    && p.pollOut == (writing.active && writing.buf.length > 0)
  }

  predicate ClientOk(c: Client) {
    && StreamOk(c.fwd) && StreamOk(c.back)
    && (Whole(c) ==> MaskOk(c.src, c.srcFd, c.fwd, c.back) && MaskOk(c.dst, c.dstFd, c.back, c.fwd))
  }

  /** Both entries of a direction from `inp` to `out`, which also serve the direction `other`. */
  predicate MasksOk(inp: PollFd, out: PollFd, w: Way, other: Way, infd: int, outfd: int) {
    MaskOk(inp, infd, w, other) && MaskOk(out, outfd, other, w)
  }

  /** In front of the last step of `transfer` the output event may lag behind the buffer. */
  lemma RearmedMasks(inp: PollFd, out: PollFd, w: Way, w': Way, other: Way, infd: int, outfd: int, calls: seq<int>)
    requires MasksOk(inp, out, w, other, infd, outfd) && w.active && w'.active
    ensures var t := Rearmed(inp, out, w', calls); MasksOk(t.inp, t.out, t.way, other, infd, outfd)
  {
  }

  lemma ClosingMasks(inp: PollFd, out: PollFd, w: Way, w': Way, other: Way, infd: int, outfd: int, calls: seq<int>)
    requires MasksOk(inp, out, w, other, infd, outfd)
    ensures var t := Closing(inp, out, w', calls); MasksOk(t.inp, t.out, t.way, other, infd, outfd)
  {
  }

  lemma TransferOutMasks(
      inp: PollFd, out: PollFd, w: Way, w': Way, other: Way, infd: int, outfd: int,
      writable: bool, wr: WriteReply, calls: seq<int>)
    requires MasksOk(inp, out, w, other, infd, outfd) && w.active && w'.active && w'.buf.Valid()
    ensures
      var t := TransferOut(inp, out, w', writable, wr, calls);
      MasksOk(t.inp, t.out, t.way, other, infd, outfd)
  {
    hide Rearmed, Closing, MasksOk, Drained, EndsWrite;
    DrainedActive(w', wr);
    ClosingMasks(inp, out, w, w', other, infd, outfd, calls + [out.fd]);
    RearmedMasks(inp, out, w, w', other, infd, outfd, calls);
    RearmedMasks(inp, out, w, Drained(w', wr), other, infd, outfd, calls + [out.fd]);
  }

  lemma TransferKeepsMasks(
      v: Variant, inp: PollFd, out: PollFd, w: Way, other: Way, infd: int, outfd: int,
      readable: bool, writable: bool, rd: ReadReply, wr: WriteReply)
    requires w.buf.Valid() && w.active && MasksOk(inp, out, w, other, infd, outfd)
    ensures
      var t := Transfer(v, inp, out, w, readable, writable, rd, wr);
      t.way.buf.Valid() ==> MasksOk(t.inp, t.out, t.way, other, infd, outfd)
  {
    hide TransferOut, Closing, MasksOk, Fed, EndsRead;
    FedActive(v, w, rd);
    ClosingMasks(inp, out, w, w, other, infd, outfd, [inp.fd]);
    TransferOutMasks(inp, out, w, w, other, infd, outfd, writable, wr, []);
    if readable && w.buf.length < |w.buf.data| && !EndsRead(v, w.buf, rd) && Fed(v, w, rd).buf.Valid() {
      TransferOutMasks(inp, out, w, Fed(v, w, rd), other, infd, outfd, writable, wr, [inp.fd]);
    }
  }

  lemma FedActive(v: Variant, w: Way, reply: ReadReply)
    requires w.buf.Valid()
    ensures Fed(v, w, reply).active == w.active
  {
  }

  lemma DrainedActive(w: Way, reply: WriteReply)
    requires w.buf.Valid()
    ensures Drained(w, reply).active == w.active
  {
  }

  /** Every number passed to readv is that of `inp`, to writev that of `out`, and only when poll
      reported it. */
  lemma TransferCalls(
      v: Variant, inp: PollFd, out: PollFd, w: Way,
      readable: bool, writable: bool, rd: ReadReply, wr: WriteReply)
    requires w.buf.Valid()
    ensures forall fd :: fd in Transfer(v, inp, out, w, readable, writable, rd, wr).calls ==>
      (fd == inp.fd && readable) || (fd == out.fd && writable)
  {
    hide Fed, Drained, EndsRead, EndsWrite;
  }

  /** `transfer` touches input only in one entry and output only in the other. */
  lemma TransferKeepsOther(
      v: Variant, inp: PollFd, out: PollFd, w: Way,
      readable: bool, writable: bool, rd: ReadReply, wr: WriteReply)
    requires w.buf.Valid()
    ensures
      var t := Transfer(v, inp, out, w, readable, writable, rd, wr);
      t.inp.pollOut == inp.pollOut && t.out.pollIn == out.pollIn
  {
    hide Fed, Drained, EndsRead, EndsWrite;
  }

  lemma ForwardKeepsOk(v: Variant, c: Client, a: Answers)
    requires ClientOk(c) && Whole(c)
    ensures ClientOk(ServeForward(v, c, a).client) && ServeForward(v, c, a).client.back == c.back
  {
    hide Transfer, StreamOk, MaskOk;
    if c.fwd.active {
      TransferKeepsStream(v, c.src, c.dst, c.fwd, a.srcIn, a.dstOut, a.srcRead, a.dstWrite);
      TransferKeepsMasks(v, c.src, c.dst, c.fwd, c.back, c.srcFd, c.dstFd,
                         a.srcIn, a.dstOut, a.srcRead, a.dstWrite);
    }
  }

  lemma BackwardKeepsOk(v: Variant, c: Client, a: Answers)
    requires ClientOk(c) && Whole(c)
    ensures ClientOk(ServeBackward(v, c, a).client)
  {
    hide Transfer, StreamOk, MaskOk;
    if c.back.active {
      TransferKeepsStream(v, c.dst, c.src, c.back, a.dstIn, a.srcOut, a.dstRead, a.srcWrite);
      TransferKeepsMasks(v, c.dst, c.src, c.back, c.fwd, c.dstFd, c.srcFd,
                         a.dstIn, a.srcOut, a.dstRead, a.srcWrite);
    }
  }

  /** One turn of a client keeps masks and streams. */
  lemma ServeKeepsOk(v: Variant, c: Client, a: Answers)
    requires ClientOk(c) && Whole(c)
    ensures ClientOk(Serve(v, c, a).client)
  {
    hide ServeForward, ServeBackward, ClientOk;
    ForwardKeepsOk(v, c, a);
    var c1 := ServeForward(v, c, a).client;
    if c1.fwd.buf.Valid() {
      BackwardKeepsOk(v, c1, a);
    }
  }

  /** No read or write is ever issued on a negative number, and only on the two sockets. */
  lemma ServeCallsOnSockets(v: Variant, c: Client, a: Answers)
    requires ClientOk(c) && Whole(c) && AnswersOk(c, a)
    ensures forall fd :: fd in Serve(v, c, a).calls ==> fd >= 0 && (fd == c.srcFd || fd == c.dstFd)
  {
    hide Transfer, StreamOk;
    if c.fwd.active {
      TransferCalls(v, c.src, c.dst, c.fwd, a.srcIn, a.dstOut, a.srcRead, a.dstWrite);
      TransferKeepsOther(v, c.src, c.dst, c.fwd, a.srcIn, a.dstOut, a.srcRead, a.dstWrite);
    }
    ForwardKeepsOk(v, c, a);
    var c1 := ServeForward(v, c, a).client;
    if c1.fwd.buf.Valid() && c1.back.active {
      TransferCalls(v, c1.dst, c1.src, c1.back, a.dstIn, a.srcOut, a.dstRead, a.srcWrite);
    }
  }

  /** All that one turn does to a client: both its directions move, forward first, each by what its own
      two sockets report. */
  ghost predicate TurnMoves(v: Variant, c: Client, a: Answers, e: Client)
    requires Whole(c)
  {
    && e.srcFd == c.srcFd && e.dstFd == c.dstFd
    && MovedBy(v, c.fwd, e.fwd, a.srcIn, a.dstOut, a.srcRead, a.dstWrite)
    && (if e.fwd.buf.Valid() then MovedBy(v, c.back, e.back, a.dstIn, a.srcOut, a.dstRead, a.srcWrite)
        else e.back == c.back)
  }

  lemma ServeMoves(v: Variant, c: Client, a: Answers)
    requires Whole(c)
    ensures TurnMoves(v, c, a, Serve(v, c, a).client)
  {
    hide MovedBy, Transfer;
    if c.fwd.active {
      TransferMovedBy(v, c.src, c.dst, c.fwd, a.srcIn, a.dstOut, a.srcRead, a.dstWrite);
    } else {
      IdleMovedBy(v, c.fwd, a.srcIn, a.dstOut, a.srcRead, a.dstWrite);
    }
    var c1 := ServeForward(v, c, a).client;
    if c1.back.active {
      TransferMovedBy(v, c1.dst, c1.src, c1.back, a.dstIn, a.srcOut, a.dstRead, a.srcWrite);
    } else {
      IdleMovedBy(v, c1.back, a.dstIn, a.srcOut, a.dstRead, a.srcWrite);
    }
  }

  lemma IdleMovedBy(v: Variant, w: Way, readable: bool, writable: bool, rd: ReadReply, wr: WriteReply)
    requires w.buf.Valid() && !w.active
    ensures MovedBy(v, w, w, readable, writable, rd, wr)
  {
  }

  // ---------------------------------------------------------------- the table of clients

  const MAX_CLIENTS := 510
  const BUFFER_SIZE := 1024

  function NewWay(): Way {
    Way(true, Ring(0, 0, seq(BUFFER_SIZE, i => 0)), [], [], false)
  }

  /** `make_client` and `add_slot`. */
  function NewClient(srcFd: int, dstFd: int): Client {
    Client(srcFd, dstFd, PollFd(srcFd, true, false), PollFd(dstFd, true, false), NewWay(), NewWay())
  }

  predicate IsDone(c: Client) {
    !c.fwd.active && !c.back.active
  }

  /** The first `n` slots after `disconnect_client` and `shrink_slots`, in their order. */
  function Kept(t: seq<Client>, n: nat): seq<Client>
    requires n <= |t|
  {
    if n == 0 then []
    else Kept(t, n - 1) + if IsDone(t[n - 1]) then [] else [t[n - 1]]
  }

  /** The descriptors closed among the first `n` slots. */
  function ClosedFds(t: seq<Client>, n: nat): seq<int>
    requires n <= |t|
  {
    if n == 0 then []
    else ClosedFds(t, n - 1) + if IsDone(t[n - 1]) then [t[n - 1].srcFd, t[n - 1].dstFd] else []
  }

  /** The descriptors of all the first `n` slots: what is closed when the program ends. */
  function AllFds(t: seq<Client>, n: nat): seq<int>
    requires n <= |t|
  {
    if n == 0 then [] else AllFds(t, n - 1) + [t[n - 1].srcFd, t[n - 1].dstFd]
  }

  /** The table, and the record of all descriptors taken over and closed. */
  datatype Proxy = Proxy(clients: seq<Client>, added: seq<int>, closed: seq<int>)

  /** What one turn of the main loop meets. */
  datatype Round = Round(answers: seq<Answers>, accepted: Option<(int, int)>)

  ghost predicate RoundOk(p: Proxy, r: Round) {
    && |r.answers| == |p.clients|
    && (forall i :: 0 <= i < |p.clients| ==> AnswersOk(p.clients[i], r.answers[i]))
    && (r.accepted.Some? ==>
          |p.clients| < MAX_CLIENTS && r.accepted.value.0 >= 0 && r.accepted.value.1 >= 0)
  }

  function AfterTurn(v: Variant, c: Client, a: Answers): Client {
    if Whole(c) then Serve(v, c, a).client else c
  }

  /** The slots behind the loop over the clients that were there before accept. */
  function AfterTurns(v: Variant, t: seq<Client>, answers: seq<Answers>, accepted: Option<(int, int)>): seq<Client>
    requires |answers| == |t|
  {
    seq(|t|, i requires 0 <= i < |t| => AfterTurn(v, t[i], answers[i]))
    + if accepted.Some? then [NewClient(accepted.value.0, accepted.value.1)] else []
  }

  function AcceptedFds(accepted: Option<(int, int)>): seq<int> {
    if accepted.Some? then [accepted.value.0, accepted.value.1] else []
  }

  ghost function Next(v: Variant, p: Proxy, r: Round): Proxy {
    if !RoundOk(p, r) then p
    else
      var t := AfterTurns(v, p.clients, r.answers, r.accepted);
      Proxy(Kept(t, |t|), p.added + AcceptedFds(r.accepted), p.closed + ClosedFds(t, |t|))
  }

  ghost function Run(v: Variant, rounds: seq<Round>): Proxy {
    RunTo((x, r) => Next(v, x, r), Proxy([], [], []), rounds, |rounds|)
  }

  ghost predicate AllOk(t: seq<Client>) {
    forall i :: 0 <= i < |t| ==> ClientOk(t[i])
  }

  /** Descriptor `d` as often as it was taken over is in the table or was closed. */
  predicate Accounted(p: Proxy, d: int) {
    Times(p.added, d) == Times(AllFds(p.clients, |p.clients|), d) + Times(p.closed, d)
  }

  lemma NewClientOk(srcFd: int, dstFd: int)
    requires srcFd >= 0 && dstFd >= 0
    ensures ClientOk(NewClient(srcFd, dstFd))
  {
    assert NewWay().buf.Contents() == [];
  }

  lemma TurnKeepsOk(v: Variant, c: Client, a: Answers)
    requires ClientOk(c)
    ensures ClientOk(AfterTurn(v, c, a))
    ensures AfterTurn(v, c, a).srcFd == c.srcFd && AfterTurn(v, c, a).dstFd == c.dstFd
  {
    hide ClientOk, Transfer;
    if Whole(c) {
      ServeKeepsOk(v, c, a);
    }
  }

  lemma {:induction false} KeptOk(t: seq<Client>, n: nat)
    requires n <= |t| && AllOk(t)
    ensures AllOk(Kept(t, n))
  {
    hide ClientOk;
    if n > 0 {
      KeptOk(t, n - 1);
    }
  }

  predicate Increasing(places: seq<nat>) {
    forall i, j :: 0 <= i < j < |places| ==> places[i] < places[j]
  }

  /** The places of the clients that stay, in the order of the table. */
  lemma {:induction false} StayPlaces(t: seq<Client>, n: nat) returns (stay: seq<nat>)
    requires n <= |t|
    ensures Increasing(stay) && |stay| == |Kept(t, n)|
    ensures forall j :: 0 <= j < |stay| ==> stay[j] < n && Kept(t, n)[j] == t[stay[j]]
    ensures forall i: nat :: i < n ==> (i in stay <==> t[i].fwd.active || t[i].back.active)
  {
    stay := [];
    if n > 0 {
      stay := StayPlaces(t, n - 1);
      if t[n - 1].fwd.active || t[n - 1].back.active {
        stay := stay + [n - 1];
      }
    }
  }

  /** The two descriptors of each of these clients. */
  function PairsAt(t: seq<Client>, gone: seq<nat>): seq<int>
    requires forall j :: 0 <= j < |gone| ==> gone[j] < |t|
  {
    if gone == [] then []
    else PairsAt(t, gone[..|gone| - 1]) + [t[gone[|gone| - 1]].srcFd, t[gone[|gone| - 1]].dstFd]
  }

  lemma NoPairs(t: seq<Client>)
    ensures PairsAt(t, []) == []
  {
  }

  lemma OnePairMore(t: seq<Client>, gone: seq<nat>, i: nat)
    requires i < |t| && forall j :: 0 <= j < |gone| ==> gone[j] < |t|
    ensures PairsAt(t, gone + [i]) == PairsAt(t, gone) + [t[i].srcFd, t[i].dstFd]
  {
    assert (gone + [i])[..|gone|] == gone;
  }

  lemma OnePlaceMore(places: seq<nat>, more: seq<nat>, n: nat)
    requires n > 0 && Increasing(places) && forall j :: 0 <= j < |places| ==> places[j] < n - 1
    requires more == places + [n - 1]
    ensures Increasing(more) && forall j :: 0 <= j < |more| ==> more[j] < n
    ensures forall i: nat :: i in more <==> i in places || i == n - 1
  {
  }

  /** The places of the clients that leave, whose descriptors are closed. */
  lemma {:induction false} GonePlaces(t: seq<Client>, n: nat) returns (gone: seq<nat>)
    requires n <= |t|
    ensures Increasing(gone) && forall j :: 0 <= j < |gone| ==> gone[j] < n
    ensures ClosedFds(t, n) == PairsAt(t, gone)
    ensures forall i: nat :: i < n ==> (i in gone <==> !t[i].fwd.active && !t[i].back.active)
  {
    hide PairsAt, Increasing;
    if n == 0 {
      gone := [];
      NoPairs(t);
      assert Increasing([]) by { OnNoPlaces(); }
    } else {
      var was := GonePlaces(t, n - 1);
      gone := was;
      if !t[n - 1].fwd.active && !t[n - 1].back.active {
        gone := was + [n - 1];
        OnePairMore(t, was, n - 1);
        OnePlaceMore(was, gone, n);
      }
    }
  }

  lemma OnNoPlaces()
    ensures Increasing([])
  {
  }

  lemma {:induction false} KeptAccounts(t: seq<Client>, n: nat, d: int)
    requires n <= |t|
    ensures Times(AllFds(t, n), d)
            == Times(AllFds(Kept(t, n), |Kept(t, n)|), d) + Times(ClosedFds(t, n), d)
  {
    hide IsDone, Times;
    TimesOne(0, d);
    if n > 0 {
      KeptAccounts(t, n - 1, d);
      var x := [t[n - 1].srcFd, t[n - 1].dstFd];
      var kept, closed := Kept(t, n - 1), ClosedFds(t, n - 1);
      TimesConcat(AllFds(t, n - 1), x, d);
      if IsDone(t[n - 1]) {
        TimesConcat(closed, x, d);
        assert Kept(t, n) == kept;
      } else {
        SameFds(kept, kept + [t[n - 1]], |kept|);
        TimesConcat(AllFds(kept, |kept|), x, d);
        assert ClosedFds(t, n) == closed;
      }
    }
  }

  lemma {:induction false} SameFds(t: seq<Client>, u: seq<Client>, n: nat)
    requires n <= |t| && n <= |u|
    requires forall i :: 0 <= i < n ==> u[i].srcFd == t[i].srcFd && u[i].dstFd == t[i].dstFd
    ensures AllFds(u, n) == AllFds(t, n)
  {
    if n > 0 {
      SameFds(t, u, n - 1);
    }
  }

  lemma RoundKeepsOk(v: Variant, p: Proxy, r: Round)
    requires AllOk(p.clients)
    ensures AllOk(Next(v, p, r).clients)
  {
    hide ClientOk, AfterTurn;
    if RoundOk(p, r) {
      var t := AfterTurns(v, p.clients, r.answers, r.accepted);
      forall i | 0 <= i < |p.clients|
        ensures ClientOk(t[i])
      {
        TurnKeepsOk(v, p.clients[i], r.answers[i]);
      }
      if r.accepted.Some? {
        NewClientOk(r.accepted.value.0, r.accepted.value.1);
      }
      KeptOk(t, |t|);
    }
  }

  lemma TurnsKeepFds(v: Variant, p: Proxy, r: Round)
    requires AllOk(p.clients) && RoundOk(p, r)
    ensures var t := AfterTurns(v, p.clients, r.answers, r.accepted);
            AllFds(t, |t|) == AllFds(p.clients, |p.clients|) + AcceptedFds(r.accepted)
  {
    hide ClientOk, AfterTurn;
    var n := |p.clients|;
    var t := AfterTurns(v, p.clients, r.answers, r.accepted);
    forall i | 0 <= i < n
      ensures t[i].srcFd == p.clients[i].srcFd && t[i].dstFd == p.clients[i].dstFd
    {
      TurnKeepsOk(v, p.clients[i], r.answers[i]);
    }
    SameFds(p.clients, t, n);
    if r.accepted.Some? {
      assert AllFds(t, n + 1) == AllFds(t, n) + [t[n].srcFd, t[n].dstFd];
    } else {
      assert AllFds(t, n) + [] == AllFds(t, n);
    }
  }

  lemma RoundKeepsAccount(v: Variant, p: Proxy, r: Round, d: int)
    requires AllOk(p.clients) && Accounted(p, d)
    ensures Accounted(Next(v, p, r), d)
  {
    hide AllOk, AfterTurns, AcceptedFds, Times;
    if RoundOk(p, r) {
      var t := AfterTurns(v, p.clients, r.answers, r.accepted);
      TurnsKeepFds(v, p, r);
      TimesConcat(AllFds(p.clients, |p.clients|), AcceptedFds(r.accepted), d);
      TimesConcat(p.added, AcceptedFds(r.accepted), d);
      KeptAccounts(t, |t|, d);
      TimesConcat(p.closed, ClosedFds(t, |t|), d);
    }
  }

  /** In one round every client with whole buffers has its turn. */
  lemma RoundServes(v: Variant, p: Proxy, r: Round, i: nat)
    requires RoundOk(p, r) && i < |p.clients| && Whole(p.clients[i])
    ensures
      var t := AfterTurns(v, p.clients, r.answers, r.accepted);
      i < |t| && TurnMoves(v, p.clients[i], r.answers[i], t[i])
  {
    hide TurnMoves, Serve, Whole, AnswersOk, NewClient;
    ServeMoves(v, p.clients[i], r.answers[i]);
  }

  /** Behind its turn a client leaves the table, and its two descriptors are closed, if and only if both
      its directions are inactive; the others stay in their order. */
  lemma RoundRemoves(v: Variant, p: Proxy, r: Round) returns (stay: seq<nat>, gone: seq<nat>)
    requires RoundOk(p, r)
    ensures
      var t := AfterTurns(v, p.clients, r.answers, r.accepted);
      var q := Next(v, p, r);
      && Increasing(stay) && Increasing(gone) && |q.clients| == |stay|
      && (forall i: nat :: i < |t| ==> (i in stay <==> t[i].fwd.active || t[i].back.active))
      && (forall i: nat :: i < |t| ==> (i in gone <==> !t[i].fwd.active && !t[i].back.active))
      && (forall j :: 0 <= j < |stay| ==> stay[j] < |t| && q.clients[j] == t[stay[j]])
      && (forall j :: 0 <= j < |gone| ==> gone[j] < |t|)
      && q.closed == p.closed + PairsAt(t, gone)
  {
    hide AfterTurns, AnswersOk, IsDone, Increasing, PairsAt;
    var t := AfterTurns(v, p.clients, r.answers, r.accepted);
    stay := StayPlaces(t, |t|);
    gone := GonePlaces(t, |t|);
  }

  lemma RunAccounts(v: Variant, rounds: seq<Round>, d: int)
    ensures AllOk(Run(v, rounds).clients) && Accounted(Run(v, rounds), d)
  {
    hide Next, AllOk, Accounted;
    StartOk(d);
    forall x: Proxy, r | AllOk(x.clients) && Accounted(x, d)
      ensures AllOk(Next(v, x, r).clients) && Accounted(Next(v, x, r), d)
    {
      RoundKeepsOk(v, x, r);
      RoundKeepsAccount(v, x, r, d);
    }
    RunKeeps((x, r) => Next(v, x, r), (x: Proxy) => AllOk(x.clients) && Accounted(x, d),
             Proxy([], [], []), rounds, |rounds|);
  }

  lemma StartOk(d: int)
    ensures AllOk([]) && Accounted(Proxy([], [], []), d)
  {
  }

  /** Over every run of the proxy, with short reads and writes, errors and ends in any order: in
      every direction in which no read went over stored bytes, what was written is the beginning of
      what was read and, while it is active, the rest is in its buffer; in all others the numbers of
      bytes agree. The poll entries of every client whose buffers hold no more than their capacity
      ask for exactly the right events. Every descriptor is closed once, at the end of its client or
      of the program. */
  lemma RunsAreSafe(v: Variant, rounds: seq<Round>)
    ensures
      var p := Run(v, rounds);
      && AllOk(p.clients)
      && multiset(p.added) == multiset(p.closed + AllFds(p.clients, |p.clients|))
  {
    hide Run, AllOk, Accounted;
    var p := Run(v, rounds);
    forall d
      ensures multiset(p.added)[d] == multiset(p.closed + AllFds(p.clients, |p.clients|))[d]
    {
      RunAccounts(v, rounds, d);
      AccountedAtEnd(p, d);
    }
    RunAccounts(v, rounds, 0);
  }

  lemma AccountedAtEnd(p: Proxy, d: int)
    requires Accounted(p, d)
    ensures multiset(p.added)[d] == multiset(p.closed + AllFds(p.clients, |p.clients|))[d]
  {
    TimesConcat(p.closed, AllFds(p.clients, |p.clients|), d);
  }

  /** After every run, whatever poll reports next, no read or write is issued on a negative number
      or on another socket than the client's own two. */
  lemma RunsCallOnSockets(v: Variant, rounds: seq<Round>, i: nat, a: Answers)
    requires i < |Run(v, rounds).clients|
    ensures var c := Run(v, rounds).clients[i];
            Whole(c) && AnswersOk(c, a) ==>
              forall fd :: fd in Serve(v, c, a).calls ==> fd >= 0 && (fd == c.srcFd || fd == c.dstFd)
  {
    hide Run, ClientOk, Serve, AnswersOk, Whole;
    RunAccounts(v, rounds, 0);
    var c := Run(v, rounds).clients[i];
    if Whole(c) && AnswersOk(c, a) {
      ServeCallsOnSockets(v, c, a);
    }
  }

  /** Both directions have kept the order of their bytes. */
  /** A client that was accepted stands last in the table, with two empty directions, both active. */
  lemma RoundAccepts(v: Variant, p: Proxy, r: Round)
    requires RoundOk(p, r) && r.accepted.Some?
    ensures
      var q := Next(v, p, r);
      && q.clients != [] && q.added == p.added + [r.accepted.value.0, r.accepted.value.1]
      && var c := q.clients[|q.clients| - 1];
      && c.srcFd == r.accepted.value.0 && c.dstFd == r.accepted.value.1 && ClientOk(c) && Whole(c)
      && c.fwd.active && c.fwd.buf.length == 0 && c.fwd.got == c.fwd.sent == []
      && c.back.active && c.back.buf.length == 0 && c.back.got == c.back.sent == []
  {
    hide AfterTurn;
    var t := AfterTurns(v, p.clients, r.answers, r.accepted);
    assert t[|t| - 1] == NewClient(r.accepted.value.0, r.accepted.value.1);
  }

  predicate Unmixed(c: Client) {
    !c.fwd.mixed && !c.back.mixed
  }

  /** With the corrected segments no read ever goes over stored bytes or leaves more than the
      capacity: in every run every direction writes the beginning of what it read. */
  lemma CorrectedNeverMixes(rounds: seq<Round>)
    ensures forall c :: c in Run(Corrected, rounds).clients ==>
      Unmixed(c) && Whole(c) && c.fwd.sent <= c.fwd.got && c.back.sent <= c.back.got
  {
    hide Next;
    forall x: Proxy, r | NoneMixed(x) && AllOk(x.clients)
      ensures NoneMixed(Next(Corrected, x, r)) && AllOk(Next(Corrected, x, r).clients)
    {
      RoundMixesNone(x, r);
      RoundKeepsOk(Corrected, x, r);
    }
    RunKeeps((x, r) => Next(Corrected, x, r), (x: Proxy) => NoneMixed(x) && AllOk(x.clients),
             Proxy([], [], []), rounds, |rounds|);
    forall c | c in Run(Corrected, rounds).clients
      ensures Unmixed(c) && Whole(c) && c.fwd.sent <= c.fwd.got && c.back.sent <= c.back.got
    {
      UnmixedStreams(Run(Corrected, rounds), c);
    }
  }

  lemma UnmixedStreams(p: Proxy, c: Client)
    requires NoneMixed(p) && AllOk(p.clients) && c in p.clients
    ensures Unmixed(c) && Whole(c) && c.fwd.sent <= c.fwd.got && c.back.sent <= c.back.got
  {
    hide MaskOk;
    var i :| 0 <= i < |p.clients| && p.clients[i] == c;
    assert ClientOk(p.clients[i]);
  }

  ghost predicate NoneMixed(p: Proxy) {
    forall c :: c in p.clients ==> Unmixed(c)
  }

  lemma RoundMixesNone(p: Proxy, r: Round)
    requires NoneMixed(p)
    ensures NoneMixed(Next(Corrected, p, r))
  {
    hide AfterTurn, Unmixed;
    if RoundOk(p, r) {
      var t := AfterTurns(Corrected, p.clients, r.answers, r.accepted);
      forall c | c in t
        ensures Unmixed(c)
      {
        var i :| 0 <= i < |t| && t[i] == c;
        if i < |p.clients| {
          assert p.clients[i] in p.clients;
          TurnMixesNot(p.clients[i], r.answers[i]);
        } else {
          NewIsUnmixed(r.accepted.value.0, r.accepted.value.1);
        }
      }
      KeptFrom(t, |t|);
    }
  }

  lemma NewIsUnmixed(srcFd: int, dstFd: int)
    ensures Unmixed(NewClient(srcFd, dstFd))
  {
  }

  lemma TurnMixesNot(c: Client, a: Answers)
    requires Unmixed(c)
    ensures Unmixed(AfterTurn(Corrected, c, a))
  {
    hide Transfer;
    if Whole(c) {
      if c.fwd.active {
        MixesOnlyOnWrap(Corrected, c.src, c.dst, c.fwd, a.srcIn, a.dstOut, a.srcRead, a.dstWrite);
      }
      var c1 := ServeForward(Corrected, c, a).client;
      if c1.back.active {
        MixesOnlyOnWrap(Corrected, c1.dst, c1.src, c1.back, a.dstIn, a.srcOut, a.dstRead, a.srcWrite);
      }
    }
  }

  lemma {:induction false} KeptFrom(t: seq<Client>, n: nat)
    requires n <= |t|
    ensures forall c :: c in Kept(t, n) ==> c in t
  {
    hide IsDone;
    if n > 0 {
      KeptFrom(t, n - 1);
    }
  }
}
