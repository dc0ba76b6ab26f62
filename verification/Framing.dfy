/** The byte stuffing and the frames of pump.c, on sequences. The functions run over places of
    one sequence and pass on what they have produced, as the loops of the C code do. */
module Framing {
  import opened Basics
  import opened Ring

  const END_BYTE: byte := 0x7E
  const ESC_BYTE: byte := 0x7F

  predicate Special(b: byte) {
    b == END_BYTE || b == ESC_BYTE
  }

  function StuffByte(b: byte): seq<byte> {
    if Special(b) then [ESC_BYTE, b] else [b]
  }

  /** The first `n` bytes of `p` as they travel: each special byte behind an escape byte. */
  function Stuff(p: seq<byte>, n: nat): seq<byte>
    requires n <= |p|
  {
    if n == 0 then [] else Stuff(p, n - 1) + StuffByte(p[n - 1])
  }

  function SpecialCount(p: seq<byte>, n: nat): nat
    requires n <= |p|
  {
    if n == 0 then 0 else SpecialCount(p, n - 1) + if Special(p[n - 1]) then 1 else 0
  }

  lemma {:induction false} StuffLength(p: seq<byte>, n: nat)
    requires n <= |p|
    ensures |Stuff(p, n)| == n + SpecialCount(p, n)
  {
    if n > 0 {
      StuffLength(p, n - 1);
    }
  }

  lemma {:induction false} StuffOfPrefix(p: seq<byte>, q: seq<byte>, n: nat)
    requires n <= |p| && n <= |q| && p[..n] == q[..n]
    ensures Stuff(p, n) == Stuff(q, n)
  {
    if n > 0 {
      assert p[..n - 1] == p[..n][..n - 1] == q[..n][..n - 1] == q[..n - 1];
      StuffOfPrefix(p, q, n - 1);
      assert p[n - 1] == p[..n][n - 1] == q[..n][n - 1] == q[n - 1];
    }
  }

  // ---------------------------------------------------------------- encode

  /** Where the encoding loop stops when it stands at place `i` with `room` bytes left. */
  function Fit(src: seq<byte>, i: nat, room: nat): (n: nat)
    requires i <= |src|
    ensures i <= n <= |src|
    decreases |src| - i
  {
    if i == |src| || room < |StuffByte(src[i])| then i
    else Fit(src, i + 1, room - |StuffByte(src[i])|)
  }

  /** The loop is greedy and optimal: a prefix fits exactly when the loop reaches its end. */
  lemma {:induction false} FitIsLongest(src: seq<byte>, i: nat, room: nat, n: nat)
    requires i <= n <= |src|
    ensures |Stuff(src, n)| <= |Stuff(src, i)| + room <==> n <= Fit(src, i, room)
    decreases |src| - i
  {
    if i < n {
      StuffGrows(src, i + 1, n);
      if room >= |StuffByte(src[i])| {
        FitIsLongest(src, i + 1, room - |StuffByte(src[i])|, n);
      }
    }
  }

  lemma {:induction false} StuffGrows(p: seq<byte>, m: nat, n: nat)
    requires m <= n <= |p|
    ensures Stuff(p, m) <= Stuff(p, n)
  {
    if m < n {
      StuffGrows(p, m, n - 1);
    }
  }

  function Frame(id: byte, p: seq<byte>): seq<byte> {
    [END_BYTE, id] + Stuff(p, |p|) + [END_BYTE]
  }

  function CommandFrame(cmd: byte, arg: byte): seq<byte> {
    [END_BYTE, 0, cmd, arg, END_BYTE]
  }

  /** The space test of `encode`: only an escape byte in front asks for a fifth byte. */
  predicate HasRoom(src: seq<byte>, avail: nat)
    requires src != []
  {
    avail >= 4 && (src[0] == ESC_BYTE ==> avail >= 5)
  }

  /** The bytes on the wire, written out. */
  lemma WireExample()
    ensures Frame(7, [0x41, 0x7E, 0x7F]) == [0x7E, 7, 0x41, 0x7F, 0x7E, 0x7F, 0x7F, 0x7E]
    ensures CommandFrame(2, 7) == [0x7E, 0, 2, 7, 0x7E]
  {
    var p := [0x41, 0x7E, 0x7F];
    assert Stuff(p, 1) == Stuff(p, 0) + [0x41];
    assert Stuff(p, 2) == Stuff(p, 1) + [0x7F, 0x7E];
    assert Stuff(p, 3) == Stuff(p, 2) + [0x7F, 0x7F];
  }

  datatype Encoded = Encoded(ok: bool, src: Ring, dst: Ring, frame: Option<seq<byte>>)

  /** `encode` as a step on the two rings; `frame` is the payload of the frame it wrote. */
  function EncodeStep(v: Variant, src: Ring, dst: Ring, id: byte): (e: Encoded)
    requires src.Valid() && dst.Valid()
    ensures e.src.Valid() && e.dst.Valid() && (e.frame.Some? ==> e.ok)
    ensures e.frame.None? ==> e.src == src && e.dst == dst
  {
    var s := src.Contents();
    if s == [] then Encoded(true, src, dst, None)
    else if !HasRoom(s, dst.Free()) then Encoded(false, src, dst, None)
    else
      var p := s[..Fit(s, 0, dst.Free() - 3)];
      Encoded(true, src.Drop(|p|), dst.Fill(v, Frame(id, p)), Some(p))
  }

  /** The frame `encode` writes holds a longest prefix of the source whose frame fits. */
  lemma FrameIsLongest(s: seq<byte>, avail: nat, id: byte)
    requires s != [] && HasRoom(s, avail)
    ensures
      var p := s[..Fit(s, 0, avail - 3)];
      && |Frame(id, p)| == 3 + |p| + SpecialCount(p, |p|) <= avail
      && (forall n :: |p| < n <= |s| ==> |Frame(id, s[..n])| > avail)
      && (p == [] <==> avail == 4 && s[0] == END_BYTE)
  {
    var n := Fit(s, 0, avail - 3);
    FitIsLongest(s, 0, avail - 3, n);
    StuffOfPrefix(s, s[..n], n);
    StuffLength(s[..n], n);
    forall m | n < m <= |s|
      ensures |Frame(id, s[..m])| > avail
    {
      FitIsLongest(s, 0, avail - 3, m);
      StuffOfPrefix(s, s[..m], m);
    }
  }

  /** The space test asks for the frame of the first byte, but one byte less if that is an end byte. */
  lemma RoomIsForFirst(s: seq<byte>, avail: nat, id: byte)
    requires s != []
    ensures HasRoom(s, avail) <==> |Frame(id, s[..1])| <= avail || (avail == 4 && s[0] == END_BYTE)
  {
    StuffLength(s[..1], 1);
    assert SpecialCount(s[..1], 0) == 0;
  }

  /** What one `encode` call decides: with bytes in the source it says no exactly when the frame of
      the first one does not fit, unless that is an end byte and four bytes are free; its frame
      holds a longest prefix that fits, never exceeds the free space and has the announced
      length, and is empty exactly for four free bytes and an end byte in front. */
  lemma EncodeTakesLongestPrefix(v: Variant, src: Ring, dst: Ring, id: byte)
    requires src.Valid() && dst.Valid()
    ensures
      var e := EncodeStep(v, src, dst, id);
      var s := src.Contents();
      && (e.ok <==> s == [] || |Frame(id, s[..1])| <= dst.Free() || (dst.Free() == 4 && s[0] == END_BYTE))
      && (e.frame.Some? <==> s != [] && e.ok)
      && (e.frame.Some? ==>
            var p := e.frame.value;
            && |Frame(id, p)| == 3 + |p| + SpecialCount(p, |p|) <= dst.Free()
            && (forall n :: |p| < n <= |s| ==> |Frame(id, s[..n])| > dst.Free())
            && (p == [] <==> dst.Free() == 4 && s[0] == END_BYTE))
  {
    hide Frame, HasRoom, SpecialCount, Ring.Contents, Ring.Stored;
    if src.Contents() != [] {
      RoomIsForFirst(src.Contents(), dst.Free(), id);
    }
    if EncodeStep(v, src, dst, id).frame.Some? {
      FrameIsLongest(src.Contents(), dst.Free(), id);
    }
  }

  /** The payload leaves the front of the source, whatever the frame may overwrite. */
  lemma EncodeTakesFront(v: Variant, src: Ring, dst: Ring, id: byte)
    requires src.Valid() && dst.Valid()
    ensures
      var e := EncodeStep(v, src, dst, id);
      e.frame.Some? ==> e.frame.value + e.src.Contents() == src.Contents()
  {
    hide Frame, HasRoom, Ring.Stored;
    var e := EncodeStep(v, src, dst, id);
    if e.frame.Some? {
      var s, n := src.Contents(), |e.frame.value|;
      DropDropsPrefix(src, n);
      assert s[..n] + s[n..] == s;
    }
  }

  /** What one `encode` call moves: the payload leaves the front of the source and its frame goes
      behind the contents of the destination; without a frame nothing changes. */
  lemma EncodeMovesBytes(v: Variant, src: Ring, dst: Ring, id: byte)
    requires src.Valid() && dst.Valid() && !(v.Shipped? && dst.Clobbers())
    ensures
      var e := EncodeStep(v, src, dst, id);
      if e.frame.None? then e.src == src && e.dst == dst
      else
        e.frame.value + e.src.Contents() == src.Contents()
        && e.dst.Contents() == dst.Contents() + Frame(id, e.frame.value)
  {
    hide Frame, HasRoom, Ring.Stored;
    var e := EncodeStep(v, src, dst, id);
    EncodeTakesFront(v, src, dst, id);
    if e.frame.Some? {
      FrameIsLongest(src.Contents(), dst.Free(), id);
      FillAppends(v, dst, Frame(id, e.frame.value));
    }
  }

  // ---------------------------------------------------------------- decode

  /** `Overrun` is the step of the C code past the last available byte. */
  datatype Status = Ended | Paused | Overrun

  /** Where a call stops reading, what has been written, and why it stopped. */
  datatype Decoded = Decoded(pos: nat, out: seq<byte>, status: Status)

  /** Stuffed length of the payload byte that starts with `b`. */
  function UnitLength(b: byte): nat {
    if b == ESC_BYTE then 2 else 1
  }

  /** `decode` over the bytes of `s` from place `i` to place `lim`; `out` has been written so far
      and the destination is full when `cap` bytes are. */
  function Decode(v: Variant, s: seq<byte>, i: nat, lim: nat, cap: nat, out: seq<byte>): (d: Decoded)
    requires i <= lim <= |s| && |out| <= cap
    ensures i <= d.pos <= lim && |out| <= |d.out| <= cap && |d.out| - |out| <= d.pos - i
    decreases lim - i
  {
    if |out| == cap || i == lim then Decoded(i, out, Paused)
    else if s[i] == END_BYTE then Decoded(i + 1, out, Ended)
    else
      var j := i + UnitLength(s[i]);
      if j > lim then Decoded(i, out, if v.Shipped? then Overrun else Paused)
      else Decode(v, s, j, lim, cap, out + [s[j - 1]])
  }

  /** The payload `p` in stuffed form, closed by an end byte, stands in `s` at place `at`. */
  predicate StandsAt(s: seq<byte>, at: nat, p: seq<byte>) {
    at + |Stuff(p, |p|)| < |s|
    && s[at..at + |Stuff(p, |p|)|] == Stuff(p, |p|) && s[at + |Stuff(p, |p|)|] == END_BYTE
  }

  /** Where the stuffed form of payload byte `n` stands. */
  lemma StuffedUnit(s: seq<byte>, at: nat, p: seq<byte>, n: nat)
    requires StandsAt(s, at, p) && n < |p|
    ensures
      var i := at + |Stuff(p, n)|;
      var j := at + |Stuff(p, n + 1)|;
      i < j <= at + |Stuff(p, |p|)| && s[i] != END_BYTE && j == i + UnitLength(s[i]) && s[j - 1] == p[n]
  {
    hide Stuff;
    var f, g := Stuff(p, |p|), Stuff(p, n + 1);
    var m := |Stuff(p, n)|;
    StuffGrows(p, n + 1, |p|);
    StuffLast(p, n);
    SliceAt(s, at, f, g, m);
    SliceAt(s, at, f, g, |g| - 1);
  }

  lemma StuffLast(p: seq<byte>, n: nat)
    requires n < |p|
    ensures
      var m, g := |Stuff(p, n)|, Stuff(p, n + 1);
      m < |g| == m + UnitLength(g[m]) && g[m] != END_BYTE && g[|g| - 1] == p[n]
  {
    var g := Stuff(p, n) + StuffByte(p[n]);
    assert g == Stuff(p, n + 1) && g[|Stuff(p, n)|] == StuffByte(p[n])[0];
  }

  lemma SliceAt(s: seq<byte>, at: nat, f: seq<byte>, g: seq<byte>, k: nat)
    requires at + |f| <= |s| && s[at..at + |f|] == f && g <= f && k < |g|
    ensures s[at + k] == g[k]
  {
    assert s[at..at + |f|][k] == f[k];
  }

  /** One turn of the decoder's loop: full, at an end byte, or over one payload byte. */
  lemma DecodeTurn(v: Variant, s: seq<byte>, i: nat, j: nat, lim: nat, cap: nat, out: seq<byte>)
    requires i < j <= lim <= |s| && |out| <= cap && j == i + UnitLength(s[i])
    ensures |out| == cap ==> Decode(v, s, i, lim, cap, out) == Decoded(i, out, Paused)
    ensures |out| < cap && s[i] == END_BYTE ==>
      Decode(v, s, i, lim, cap, out) == Decoded(j, out, Ended)
    ensures |out| < cap && s[i] != END_BYTE ==>
      Decode(v, s, i, lim, cap, out) == Decode(v, s, j, lim, cap, out + [s[j - 1]])
  {
  }

  /** What the decoder computes: behind the first `n` payload bytes it goes on to the end byte,
      which it consumes, or to the byte for which no room is left, in front of which it stops. */
  lemma {:induction false} DecodeStuffed(
      v: Variant, s: seq<byte>, at: nat, p: seq<byte>, n: nat, lim: nat, cap: nat)
    requires StandsAt(s, at, p) && at + |Stuff(p, |p|)| < lim <= |s|
    requires n <= |p| && n <= cap && at + |Stuff(p, n)| <= lim
    ensures Decode(v, s, at + |Stuff(p, n)|, lim, cap, p[..n])
            == if |p| < cap then Decoded(at + |Stuff(p, |p|)| + 1, p, Ended)
               else Decoded(at + |Stuff(p, cap)|, p[..cap], Paused)
    decreases |p| - n
  {
    hide Decode, Stuff;
    var i := at + |Stuff(p, n)|;
    if n == |p| {
      DecodeTurn(v, s, i, i + 1, lim, cap, p[..n]);
      assert p[..n] == p;
    } else {
      StuffedUnit(s, at, p, n);
      var j := at + |Stuff(p, n + 1)|;
      DecodeTurn(v, s, i, j, lim, cap, p[..n]);
      if n < cap {
        assert p[..n] + [p[n]] == p[..n + 1];
        DecodeStuffed(v, s, at, p, n + 1, lim, cap);
      }
    }
  }

  /** The stuffed form of a payload, closed by an end byte, is decoded to that payload, or to as
      much of it as there is room for. One more free byte is needed to see the end. */
  lemma DecodeInvertsStuff(v: Variant, p: seq<byte>, cap: nat)
    ensures
      var s := Stuff(p, |p|) + [END_BYTE];
      Decode(v, s, 0, |s|, cap, [])
      == if |p| < cap then Decoded(|s|, p, Ended) else Decoded(|Stuff(p, cap)|, p[..cap], Paused)
  {
    DecodeStuffed(v, Stuff(p, |p|) + [END_BYTE], 0, p, 0, |Stuff(p, |p|)| + 1, cap);
    assert p[..0] == [];
  }

  /** The decoder pauses only for lack of room, at the end of the bytes, or, when corrected, in
      front of an escape byte whose follower is not there yet. */
  lemma {:induction false} DecodePausesOnlyIfStuck(
      v: Variant, s: seq<byte>, i: nat, lim: nat, cap: nat, out: seq<byte>)
    requires i <= lim <= |s| && |out| <= cap
    ensures
      var d := Decode(v, s, i, lim, cap, out);
      d.status == Paused ==>
        |d.out| == cap || d.pos == lim || (v.Corrected? && d.pos + 1 == lim && s[d.pos] == ESC_BYTE)
    decreases lim - i
  {
    if |out| < cap && i < lim && s[i] != END_BYTE && i + UnitLength(s[i]) <= lim {
      var j := i + UnitLength(s[i]);
      DecodePausesOnlyIfStuck(v, s, j, lim, cap, out + [s[j - 1]]);
    }
  }

  datatype DecodedRings = DecodedRings(status: Status, src: Ring, dst: Ring, out: seq<byte>)

  function DecodeStep(v: Variant, src: Ring, dst: Ring): (r: DecodedRings)
    requires src.Valid() && dst.Valid()
    ensures r.src.Valid() && r.dst.Valid()
    ensures |r.src.data| == |src.data| && |r.dst.data| == |dst.data|
  {
    var d := Decode(v, src.Contents(), 0, src.length, dst.Free(), []);
    DecodedRings(d.status, src.Drop(d.pos), dst.Fill(v, d.out), d.out)
  }

  /** From place `i` the bytes end between an escape byte and its follower. */
  predicate EndsInsideEscape(s: seq<byte>, i: nat)
    requires i <= |s|
    decreases |s| - i
  {
    i < |s| &&
    (i + UnitLength(s[i]) > |s| || EndsInsideEscape(s, i + UnitLength(s[i])))
  }

  /** From place `i` an end byte stands on its own. */
  predicate HasEnd(s: seq<byte>, i: nat)
    requires i <= |s|
    decreases |s| - i
  {
    i < |s| && i + UnitLength(s[i]) <= |s| &&
    (s[i] == END_BYTE || HasEnd(s, i + UnitLength(s[i])))
  }

  /** From place `i` the number of payload bytes that are there in full. */
  function Units(s: seq<byte>, i: nat): nat
    requires i <= |s|
    decreases |s| - i
  {
    if i == |s| || i + UnitLength(s[i]) > |s| then 0
    else 1 + Units(s, i + UnitLength(s[i]))
  }

  /** The shipped decoder runs past its input exactly when the input stops inside an escape
      pair, no end byte comes earlier, and there is room for one byte more than it completes;
      in every other case it does what the corrected one does. */
  lemma {:induction false} ShippedDecodeOverrunsIff(s: seq<byte>, i: nat, cap: nat, out: seq<byte>)
    requires i <= |s| && |out| <= cap
    ensures Decode(Shipped, s, i, |s|, cap, out).status == Overrun
            <==> EndsInsideEscape(s, i) && !HasEnd(s, i) && |out| + Units(s, i) < cap
    ensures Decode(Corrected, s, i, |s|, cap, out).status != Overrun
    ensures Decode(Shipped, s, i, |s|, cap, out).status != Overrun ==>
              Decode(Shipped, s, i, |s|, cap, out) == Decode(Corrected, s, i, |s|, cap, out)
    decreases |s| - i
  {
    if |out| < cap && i < |s| && s[i] != END_BYTE && i + UnitLength(s[i]) <= |s| {
      var j := i + UnitLength(s[i]);
      ShippedDecodeOverrunsIff(s, j, cap, out + [s[j - 1]]);
    }
  }

  /** A pause loses nothing: going on from the place of the pause, when the bytes have grown
      from `lim` to `lim'` or room was made, is the one decode up to `lim'`. */
  lemma {:induction false} DecodeResumes(
      v: Variant, s: seq<byte>, i: nat, lim: nat, lim': nat, cap: nat, cap': nat, out: seq<byte>)
    requires i <= lim <= lim' <= |s| && |out| <= cap
    requires Decode(v, s, i, lim, cap, out).status == Paused
    requires |Decode(v, s, i, lim, cap, out).out| <= cap'
    ensures var d := Decode(v, s, i, lim, cap, out);
            Decode(v, s, i, lim', cap', out) == Decode(v, s, d.pos, lim', cap', d.out)
    decreases lim - i
  {
    if |out| < cap && i < lim && i + UnitLength(s[i]) <= lim {
      var j := i + UnitLength(s[i]);
      DecodeResumes(v, s, j, lim, lim', cap, cap', out + [s[j - 1]]);
    }
  }

  /** Bytes behind an end byte and further room do not change a finished decode. */
  lemma {:induction false} DecodeEnds(
      v: Variant, s: seq<byte>, i: nat, lim: nat, lim': nat, cap: nat, cap': nat, out: seq<byte>)
    requires i <= lim <= lim' <= |s| && |out| <= cap
    requires Decode(v, s, i, lim, cap, out).status == Ended
    requires |Decode(v, s, i, lim, cap, out).out| < cap'
    ensures Decode(v, s, i, lim', cap', out) == Decode(v, s, i, lim, cap, out)
    decreases lim - i
  {
    if s[i] != END_BYTE {
      var j := i + UnitLength(s[i]);
      DecodeEnds(v, s, j, lim, lim', cap, cap', out + [s[j - 1]]);
    }
  }

  /** What a call writes does not depend on what was written before it. */
  lemma {:induction false} DecodeAppends(
      v: Variant, s: seq<byte>, i: nat, lim: nat, cap: nat, before: seq<byte>, out: seq<byte>)
    requires i <= lim <= |s| && |out| <= cap
    ensures var d := Decode(v, s, i, lim, cap, out);
            Decode(v, s, i, lim, |before| + cap, before + out)
            == Decoded(d.pos, before + d.out, d.status)
    decreases lim - i
  {
    if |out| < cap && i < lim && s[i] != END_BYTE && i + UnitLength(s[i]) <= lim {
      var j := i + UnitLength(s[i]);
      DecodeAppends(v, s, j, lim, cap, before, out + [s[j - 1]]);
      assert before + (out + [s[j - 1]]) == (before + out) + [s[j - 1]];
    }
  }

  /** A call of the decoder: how far the bytes have arrived and the room it finds. */
  datatype Call = Call(lim: nat, room: nat)

  /** The limits of the calls grow from `from` and stay within the `n` bytes there are. */
  predicate Arriving(n: nat, from: nat, calls: seq<Call>)
    decreases calls
  {
    if calls == [] then from <= n else from <= calls[0].lim && Arriving(n, calls[0].lim, calls[1..])
  }

  lemma {:induction false} ArrivingBounds(n: nat, from: nat, calls: seq<Call>)
    requires Arriving(n, from, calls)
    ensures from <= n
    decreases calls
  {
    if calls != [] {
      ArrivingBounds(n, calls[0].lim, calls[1..]);
    }
  }

  /** Calls made one after another while the message lasts, each from where the last paused and
      each with an empty record of its own, as the code makes them. */
  function DecodeCalls(
      v: Variant, s: seq<byte>, i: nat, from: nat, calls: seq<Call>, out: seq<byte>): (d: Decoded)
    requires i <= from && Arriving(|s|, from, calls)
    ensures i <= d.pos <= |s| && |out| <= |d.out|
    decreases calls
  {
    ArrivingBounds(|s|, from, calls);
    if calls == [] then Decoded(i, out, Paused)
    else
      ArrivingBounds(|s|, calls[0].lim, calls[1..]);
      var d := Decode(v, s, i, calls[0].lim, calls[0].room, []);
      if d.status == Paused
      then DecodeCalls(v, s, d.pos, calls[0].lim, calls[1..], out + d.out)
      else Decoded(d.pos, out + d.out, d.status)
  }

  /** Resumable decoding: wherever the bytes are cut into arrivals and however little room each
      call finds, the calls deliver what one decode with enough room delivers, end at the same
      place, and from where they paused that decode goes on. The only cut this leaves out is the
      one inside an escape pair that makes the shipped decoder overrun. */
  lemma {:induction false} DecodeCallsAreOneDecode(
      v: Variant, s: seq<byte>, i: nat, from: nat, calls: seq<Call>, out: seq<byte>, cap: nat)
    requires i <= from && Arriving(|s|, from, calls)
    requires DecodeCalls(v, s, i, from, calls, out).status != Overrun
    requires |DecodeCalls(v, s, i, from, calls, out).out| < cap
    ensures
      var parts := DecodeCalls(v, s, i, from, calls, out);
      Decode(v, s, i, |s|, cap, out)
      == if parts.status == Ended then parts else Decode(v, s, parts.pos, |s|, cap, parts.out)
    decreases calls
  {
    ArrivingBounds(|s|, from, calls);
    if calls != [] {
      var c := calls[0];
      ArrivingBounds(|s|, c.lim, calls[1..]);
      var d := Decode(v, s, i, c.lim, c.room, []);
      DecodeAppends(v, s, i, c.lim, c.room, out, []);
      assert out + [] == out;
      if d.status == Paused {
        DecodeResumes(v, s, i, c.lim, |s|, |out| + c.room, cap, out);
        DecodeCallsAreOneDecode(v, s, d.pos, c.lim, calls[1..], out + d.out, cap);
      } else {
        DecodeEnds(v, s, i, c.lim, |s|, |out| + c.room, cap, out);
      }
    }
  }

  /** A frame cut behind an escape byte: the shipped decoder reads on past the data. */
  lemma ShippedDecodeOverrunExample()
    ensures Stuff([0x7E], 1) == [ESC_BYTE, 0x7E]
    ensures Decode(Shipped, [5, ESC_BYTE, 0x7E, END_BYTE], 0, 2, 10, []).status == Overrun
    ensures Decode(Corrected, [5, ESC_BYTE, 0x7E, END_BYTE], 0, 2, 10, []) == Decoded(1, [5], Paused)
    ensures Decode(Corrected, [5, ESC_BYTE, 0x7E, END_BYTE], 1, 4, 10, [5])
            == Decoded(4, [5, 0x7E], Ended)
  {
    var s := [5, ESC_BYTE, 0x7E, END_BYTE];
    assert Decode(Shipped, s, 1, 2, 10, [5]).status == Overrun;
    assert Decode(Corrected, s, 1, 2, 10, [5]) == Decoded(1, [5], Paused);
    assert Decode(Corrected, s, 3, 4, 10, [5, 0x7E]) == Decoded(4, [5, 0x7E], Ended);
  }
}
