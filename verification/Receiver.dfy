/** `recv_from_tunnel` of pump.c as a step on values: the tunnel's in_buf, the connection whose
    message is being continued, and the out_buf of every connection. */
module Receiver {
  import opened Basics
  import opened Ring
  import opened Framing
  import opened Wire
  import opened Payloads

  /** What the C code may run into: bytes written over data that is still stored, a read past
      the available bytes, or a head it rejects by ending the process. */
  datatype Fault = NoFault | WroteOverData | ReadPastData | Violation

  datatype Received = Received(
    tin: Ring, target: Option<byte>, outs: map<byte, Ring>, got: seq<Atom>, used: nat, fault: Fault)
  {
    predicate Valid() {
      tin.Valid() && (forall id :: id in outs ==> outs[id].Valid())
      && (target.Some? ==> target.value in outs)
    }
  }

  predicate Overwrites(v: Variant, r: Ring, bytes: seq<byte>) {
    v.Shipped? && r.Clobbers() && bytes != []
  }

  /** The connection that the next bytes belong to. */
  function After(status: Status, t: byte): Option<byte> {
    if status.Ended? then None else Some(t)
  }

  /** Decodes from the tunnel into connection `t` until the message ends or the bytes or the room
      run out. */
  function Deliver(v: Variant, r: Received, t: byte): (r': Received)
    requires r.Valid() && t in r.outs
    ensures r'.Valid() && r'.outs.Keys == r.outs.Keys
    ensures r'.used + r'.tin.length == r.used + r.tin.length
    ensures r'.fault.NoFault? ==> r.fault.NoFault?
  {
    var d := DecodeStep(v, r.tin, r.outs[t]);
    var pos := Decode(v, r.tin.Contents(), 0, r.tin.length, r.outs[t].Free(), []).pos;
    if d.status.Overrun? then Received(r.tin, Some(t), r.outs, r.got, r.used, ReadPastData)
    else
      Received(d.src, After(d.status, t), r.outs[t := d.dst],
               r.got + Bytes(t, d.out), r.used + pos,
               if r.fault.NoFault? && Overwrites(v, r.outs[t], d.out) then WroteOverData else r.fault)
  }

  function Reject(r: Received): Received {
    r.(fault := Violation)
  }

  /** `r` behind the two bytes of a data head. */
  function Opened(r: Received, id: byte): (r': Received)
    requires r.Valid()
    ensures r'.Valid() && r'.outs == r.outs && r'.fault == r.fault && r'.target == r.target
  {
    Received(r.tin.Drop(2), r.target, r.outs, r.got + [Open(id)], r.used + 2, r.fault)
  }

  /** Looks at a head once more than three bytes are there. */
  function TakeHead(v: Variant, r: Received): (r': Received)
    requires r.Valid() && r.target.None?
    ensures r'.Valid() && r'.outs.Keys == r.outs.Keys
    ensures r'.used + r'.tin.length == r.used + r.tin.length
    ensures r'.fault.NoFault? ==> r.fault.NoFault?
  {
    var x := r.tin.Contents();
    if |x| <= 3 then r
    else if x[0] != END_BYTE then Reject(r)
    else if x[1] == 0 then
      if |x| < 5 then r
      else r.(tin := r.tin.Drop(3).Drop(2), got := r.got + [Given(Command(x[2], x[3]))], used := r.used + 5)
    else if x[1] !in r.outs then Reject(r)
    else Deliver(v, Opened(r, x[1]), x[1])
  }

  /** The command handed to the handler, which a call reads last if at all. */
  function OrderOf(got: seq<Atom>): Option<Command> {
    if got != [] && got[|got| - 1].Given? then Some(got[|got| - 1].command) else None
  }

  /** Before a call nothing has been handed out or consumed. */
  function Before(tin: Ring, target: Option<byte>, outs: map<byte, Ring>): Received {
    Received(tin, target, outs, [], 0, NoFault)
  }

  function Receive(v: Variant, r: Received): (r': Received)
    requires r.Valid()
    ensures r'.Valid() && r'.outs.Keys == r.outs.Keys
    ensures r'.used + r'.tin.length == r.used + r.tin.length
    ensures r'.fault.NoFault? ==> r.fault.NoFault?
  {
    if r.tin.length == 0 then r
    else if r.target.None? then TakeHead(v, r)
    else
      var r1 := Deliver(v, r, r.target.value);
      if r1.fault.ReadPastData? || r1.target.Some? then r1 else TakeHead(v, r1)
  }

  // ---------------------------------------------------------------- against the reference reader

  /** With `r.used` bytes consumed behind place `pos` of `w`, the receiver's bytes are those up
      to place `end`. */
  predicate Sees(w: seq<byte>, pos: nat, end: nat, r: Received)
    requires r.Valid()
  {
    var x := r.tin.Contents();
    pos + r.used + |x| == end <= |w| && forall j :: 0 <= j < |x| ==> x[j] == w[pos + r.used + j]
  }

  /** The reader of `w` that stands where the receiver stands; `base` was read before. */
  function Standing(pos: nat, base: seq<Atom>, r: Received): Reader {
    Reader(pos + r.used, r.target, base + r.got)
  }

  /** A decoder that sees the bytes `x`, found in `w` at place `at`, is the reference reader of
      `w` inside one frame. */
  lemma {:induction false} DecodeReads(
      v: Variant, w: seq<byte>, x: seq<byte>, at: nat, i: nat, cap: nat, out: seq<byte>, t: byte,
      base: seq<Atom>)
    requires at + |x| <= |w| && forall j :: 0 <= j < |x| ==> x[j] == w[at + j]
    requires i <= |x| && |out| <= cap
    requires Decode(v, x, i, |x|, cap, out).status != Overrun
    ensures
      var d := Decode(v, x, i, |x|, cap, out);
      Read(w, Reader(at + i, Some(t), base + Bytes(t, out)))
      == Read(w, Reader(at + d.pos, After(d.status, t), base + Bytes(t, d.out)))
    decreases |x| - i
  {
    if |out| < cap && i < |x| {
      var r := Reader(at + i, Some(t), base + Bytes(t, out));
      assert x[i] == w[at + i];
      if x[i] == END_BYTE {
        assert ReadOne(w, r) == Reader(at + (i + 1), None, base + Bytes(t, out));
      } else if i + UnitLength(x[i]) <= |x| {
        var j := i + UnitLength(x[i]);
        var out' := out + [x[j - 1]];
        assert x[j - 1] == w[at + (j - 1)];
        assert base + Bytes(t, out) + [Byte(t, x[j - 1])] == base + Bytes(t, out');
        assert ReadOne(w, r) == Reader(at + j, Some(t), base + Bytes(t, out'));
        DecodeReads(v, w, x, at, j, cap, out', t, base);
      }
    }
  }

  lemma DropSees(w: seq<byte>, pos: nat, end: nat, r: Received, r': Received, n: nat)
    requires r.Valid() && r'.Valid() && Sees(w, pos, end, r)
    requires n <= r.tin.length && r'.used == r.used + n
    requires r'.tin.Contents() == r.tin.Contents()[n..]
    ensures Sees(w, pos, end, r')
  {
    var x := r.tin.Contents();
    forall j | 0 <= j < |x| - n
      ensures x[n..][j] == w[pos + r'.used + j]
    {
      assert x[n + j] == w[pos + r.used + (n + j)];
    }
  }

  lemma DeliverSees(v: Variant, w: seq<byte>, pos: nat, end: nat, r: Received, t: byte)
    requires r.Valid() && t in r.outs && Sees(w, pos, end, r)
    requires !Deliver(v, r, t).fault.ReadPastData?
    ensures Sees(w, pos, end, Deliver(v, r, t))
  {
    var x := r.tin.Contents();
    var n := Decode(v, x, 0, |x|, r.outs[t].Free(), []).pos;
    DropDropsPrefix(r.tin, n);
    DropSees(w, pos, end, r, Deliver(v, r, t), n);
  }

  lemma DeliverReads(v: Variant, w: seq<byte>, pos: nat, end: nat, base: seq<Atom>, r: Received, t: byte)
    requires r.Valid() && t in r.outs && Sees(w, pos, end, r)
    requires !Deliver(v, r, t).fault.ReadPastData?
    ensures Read(w, Reader(pos + r.used, Some(t), base + r.got))
            == Read(w, Standing(pos, base, Deliver(v, r, t)))
  {
    hide Read;
    var x := r.tin.Contents();
    var at := pos + r.used;
    var d := Decode(v, x, 0, |x|, r.outs[t].Free(), []);
    DecodeReads(v, w, x, at, 0, r.outs[t].Free(), [], t, base + r.got);
    assert base + r.got + Bytes(t, []) == base + r.got;
    assert base + r.got + Bytes(t, d.out) == base + (r.got + Bytes(t, d.out));
    assert Standing(pos, base, Deliver(v, r, t))
        == Reader(at + d.pos, After(d.status, t), base + r.got + Bytes(t, d.out));
  }

  lemma TakeCommandReads(v: Variant, w: seq<byte>, pos: nat, end: nat, base: seq<Atom>, r: Received)
    requires r.Valid() && r.target.None? && r.fault.NoFault? && Sees(w, pos, end, r)
    requires r.tin.length >= 5
    requires r.tin.Contents()[0] == END_BYTE && r.tin.Contents()[1] == 0
    ensures var r' := TakeHead(v, r);
            Sees(w, pos, end, r') && Read(w, Standing(pos, base, r)) == Read(w, Standing(pos, base, r'))
  {
    var x := r.tin.Contents();
    var at := pos + r.used;
    var r' := TakeHead(v, r);
    assert x[0] == w[at + 0] && x[1] == w[at + 1] && x[2] == w[at + 2] && x[3] == w[at + 3];
    assert Sees(w, pos, end, r') by {
      DropDropsPrefix(r.tin, 3);
      DropDropsPrefix(r.tin.Drop(3), 2);
      DropSees(w, pos, end, r, r', 5);
    }
    assert base + r'.got == (base + r.got) + [Given(Command(x[2], x[3]))];
    assert ReadOne(w, Standing(pos, base, r)) == Standing(pos, base, r');
  }

  lemma TakeDataHeadReads(v: Variant, w: seq<byte>, pos: nat, end: nat, base: seq<Atom>, r: Received)
    requires r.Valid() && r.target.None? && r.fault.NoFault? && Sees(w, pos, end, r)
    requires r.tin.length > 3 && TakeHead(v, r).fault.NoFault?
    requires r.tin.Contents()[1] != 0
    ensures var r' := TakeHead(v, r);
            Sees(w, pos, end, r') && Read(w, Standing(pos, base, r)) == Read(w, Standing(pos, base, r'))
  {
    hide Deliver;
    var x := r.tin.Contents();
    var at := pos + r.used;
    var r1 := Opened(r, x[1]);
    assert Sees(w, pos, end, r1) by {
      DropDropsPrefix(r.tin, 2);
      DropSees(w, pos, end, r, r1, 2);
    }
    DeliverSees(v, w, pos, end, r1, x[1]);
    assert ReadOne(w, Standing(pos, base, r)) == Reader(pos + r1.used, Some(x[1]), base + r1.got) by {
      assert x[0] == w[at + 0] && x[1] == w[at + 1];
      assert base + r1.got == (base + r.got) + [Open(x[1])];
    }
    DeliverReads(v, w, pos, end, base, r1, x[1]);
  }

  lemma TakeHeadReads(v: Variant, w: seq<byte>, pos: nat, end: nat, base: seq<Atom>, r: Received)
    requires r.Valid() && r.target.None? && r.fault.NoFault? && Sees(w, pos, end, r)
    requires TakeHead(v, r).fault.NoFault?
    ensures var r' := TakeHead(v, r);
            Sees(w, pos, end, r') && Read(w, Standing(pos, base, r)) == Read(w, Standing(pos, base, r'))
  {
    if r.tin.length > 3 {
      if r.tin.Contents()[1] != 0 {
        TakeDataHeadReads(v, w, pos, end, base, r);
      } else if r.tin.length >= 5 {
        TakeCommandReads(v, w, pos, end, base, r);
      }
    }
  }

  /** Away from the faults, one call of the receiver takes the reference reader a few units
      further and has handed out exactly what that one has read. */
  lemma ReceiveReads(v: Variant, w: seq<byte>, pos: nat, end: nat, base: seq<Atom>, r: Received)
    requires r.Valid() && r.fault.NoFault? && Sees(w, pos, end, r)
    requires Receive(v, r).fault.NoFault?
    ensures var r' := Receive(v, r);
            Sees(w, pos, end, r') && Read(w, Standing(pos, base, r)) == Read(w, Standing(pos, base, r'))
  {
    hide Read, Deliver, TakeHead;
    if r.tin.length != 0 {
      if r.target.None? {
        TakeHeadReads(v, w, pos, end, base, r);
      } else {
        DeliverSees(v, w, pos, end, r, r.target.value);
        DeliverReads(v, w, pos, end, base, r, r.target.value);
        var r1 := Deliver(v, r, r.target.value);
        if r1.target.None? {
          TakeHeadReads(v, w, pos, end, base, r1);
        }
      }
    }
  }

  /** What leaves the tunnel's in_buf is its front. */
  lemma ReceiveConsumes(v: Variant, r: Received)
    requires r.Valid() && r.used == 0 && r.fault.NoFault? && Receive(v, r).fault.NoFault?
    ensures Receive(v, r).used <= r.tin.length
    ensures Receive(v, r).tin.Contents() == r.tin.Contents()[Receive(v, r).used..]
  {
    ReceiveReads(v, r.tin.Contents(), 0, r.tin.length, [], r);
  }

  // ---------------------------------------------------------------- per connection

  /** Of everything read for connection `id`, `taken` has left and the rest is in its out_buf. */
  predicate Handed(r: Received, base: seq<Atom>, taken: seq<byte>, id: byte)
    requires r.Valid() && id in r.outs
  {
    taken + r.outs[id].Contents() == Payload(base + r.got, id)
  }

  lemma GotMore(base: seq<Atom>, got: seq<Atom>, more: seq<Atom>, id: byte)
    ensures Payload(base + (got + more), id) == Payload(base + got, id) + Payload(more, id)
  {
    assert base + (got + more) == (base + got) + more;
    PayloadConcat(base + got, more, id);
  }

  lemma DeliverHands(v: Variant, r: Received, t: byte, base: seq<Atom>, taken: seq<byte>, id: byte)
    requires r.Valid() && t in r.outs && id in r.outs && Handed(r, base, taken, id)
    requires r.fault.NoFault? && Deliver(v, r, t).fault.NoFault?
    ensures Handed(Deliver(v, r, t), base, taken, id)
  {
    hide PayloadUpTo;
    var out := DecodeStep(v, r.tin, r.outs[t]).out;
    var c := r.outs[id].Contents();
    var news := if t == id then out else [];
    assert Payload(base + (r.got + Bytes(t, out)), id) == Payload(base + r.got, id) + news by {
      GotMore(base, r.got, Bytes(t, out), id);
      PayloadOfBytes(t, out, id);
    }
    assert Deliver(v, r, t).outs[id].Contents() == c + news by {
      if t == id {
        FillAppends(v, r.outs[t], out);
      }
    }
    assert (taken + c) + news == taken + (c + news);
  }

  lemma HeadHands(r: Received, r': Received, a: Atom, base: seq<Atom>, taken: seq<byte>, id: byte)
    requires r.Valid() && r'.Valid() && id in r.outs && Handed(r, base, taken, id)
    requires !a.Byte? && r'.outs == r.outs && r'.got == r.got + [a]
    ensures Handed(r', base, taken, id)
  {
    GotMore(base, r.got, [a], id);
    PayloadOfOne(a, id);
    assert Payload(base + r.got, id) + [] == Payload(base + r.got, id);
  }

  lemma TakeHeadHands(v: Variant, r: Received, base: seq<Atom>, taken: seq<byte>, id: byte)
    requires r.Valid() && r.target.None? && id in r.outs && Handed(r, base, taken, id)
    requires r.fault.NoFault? && TakeHead(v, r).fault.NoFault?
    ensures Handed(TakeHead(v, r), base, taken, id)
  {
    var x := r.tin.Contents();
    if |x| > 3 {
      if x[1] != 0 {
        var r1 := Opened(r, x[1]);
        HeadHands(r, r1, Open(x[1]), base, taken, id);
        DeliverHands(v, r1, x[1], base, taken, id);
      } else if |x| >= 5 {
        HeadHands(r, TakeHead(v, r), Given(Command(x[2], x[3])), base, taken, id);
      }
    }
  }

  /** One call hands every connection exactly the payload bytes it reads for it. */
  lemma ReceiveHands(v: Variant, r: Received, base: seq<Atom>, taken: seq<byte>, id: byte)
    requires r.Valid() && id in r.outs && Handed(r, base, taken, id)
    requires r.fault.NoFault? && Receive(v, r).fault.NoFault?
    ensures Handed(Receive(v, r), base, taken, id)
  {
    hide Payload, Deliver, TakeHead;
    if r.tin.length != 0 {
      if r.target.None? {
        TakeHeadHands(v, r, base, taken, id);
      } else {
        var r1 := Deliver(v, r, r.target.value);
        DeliverHands(v, r, r.target.value, base, taken, id);
        if r1.target.None? {
          TakeHeadHands(v, r1, base, taken, id);
        }
      }
    }
  }

  lemma DeliverKeepsSilent(v: Variant, r: Received, t: byte, id: byte)
    requires r.Valid() && t in r.outs && id != t && Payload(r.got, id) == []
    ensures Payload(Deliver(v, r, t).got, id) == []
  {
    hide PayloadUpTo;
    var out := DecodeStep(v, r.tin, r.outs[t]).out;
    PayloadConcat(r.got, Bytes(t, out), id);
    PayloadOfBytes(t, out, id);
  }

  lemma TakeHeadKeepsSilent(v: Variant, r: Received, id: byte)
    requires r.Valid() && r.target.None? && id !in r.outs && Payload(r.got, id) == []
    ensures Payload(TakeHead(v, r).got, id) == []
  {
    hide Deliver, PayloadUpTo;
    var x := r.tin.Contents();
    if |x| > 3 && x[0] == END_BYTE {
      if x[1] == 0 && |x| >= 5 {
        PayloadConcat(r.got, [Given(Command(x[2], x[3]))], id);
        PayloadOfOne(Given(Command(x[2], x[3])), id);
      } else if x[1] in r.outs {
        PayloadConcat(r.got, [Open(x[1])], id);
        PayloadOfOne(Open(x[1]), id);
        DeliverKeepsSilent(v, Opened(r, x[1]), x[1], id);
      }
    }
  }

  /** Nothing is read for a connection that is not there. */
  lemma ReceiveKeepsSilent(v: Variant, r: Received, id: byte)
    requires r.Valid() && id !in r.outs && Payload(r.got, id) == []
    ensures Payload(Receive(v, r).got, id) == []
  {
    hide Payload, Deliver, TakeHead;
    if r.tin.length != 0 {
      if r.target.None? {
        TakeHeadKeepsSilent(v, r, id);
      } else {
        var r1 := Deliver(v, r, r.target.value);
        DeliverKeepsSilent(v, r, r.target.value, id);
        if !r1.fault.ReadPastData? && r1.target.None? {
          TakeHeadKeepsSilent(v, r1, id);
        }
      }
    }
  }

  /** No command is among the atoms. */
  predicate NoOrder(got: seq<Atom>) {
    forall i :: 0 <= i < |got| ==> !got[i].Given?
  }

  lemma TakeHeadOrdersLast(v: Variant, r: Received)
    requires r.Valid() && r.target.None? && NoOrder(r.got)
    ensures var got := TakeHead(v, r).got; got != [] ==> NoOrder(got[..|got| - 1])
  {
    var x := r.tin.Contents();
    if |x| > 3 && x[0] == END_BYTE && x[1] == 0 && |x| >= 5 {
      assert TakeHead(v, r).got[..|r.got|] == r.got;
    }
  }

  /** A command is the last that a call reads. */
  lemma ReceiveOrdersLast(v: Variant, r: Received)
    requires r.Valid() && NoOrder(r.got)
    ensures var got := Receive(v, r).got; got != [] ==> NoOrder(got[..|got| - 1])
  {
    hide TakeHead;
    if r.tin.length != 0 {
      if r.target.None? {
        TakeHeadOrdersLast(v, r);
      } else {
        var r1 := Deliver(v, r, r.target.value);
        if !r1.fault.ReadPastData? && r1.target.None? {
          TakeHeadOrdersLast(v, r1);
        }
      }
    }
  }

  // ---------------------------------------------------------------- no protocol violation

  /** All frames of the bytes are for connections in `known`, and the reader gets through them. */
  predicate ReadsThrough(w: seq<byte>, r: Reader, known: set<byte>) {
    var e := Read(w, r);
    e.pos == |w| && forall a :: a in e.out && a.Open? ==> a.id in known
  }

  lemma HeadIsKnown(w: seq<byte>, at: nat, out: seq<Atom>, known: set<byte>)
    requires at + 1 < |w| && ReadsThrough(w, Reader(at, None, out), known)
    ensures w[at] == END_BYTE && (w[at + 1] != 0 ==> w[at + 1] in known)
  {
    var r := Reader(at, None, out);
    if w[at + 1] != 0 {
      var n := ReadOne(w, r);
      ReadKeeps(w, n);
      assert n.out[|n.out| - 1] == Open(w[at + 1]);
      assert Read(w, n).out[|n.out| - 1] == Open(w[at + 1]);
    }
  }

  /** On a tunnel that carries frames for known connections the receiver never rejects a head. */
  lemma ReceiveAccepts(v: Variant, w: seq<byte>, pos: nat, end: nat, base: seq<Atom>, r: Received)
    requires r.Valid() && r.fault.NoFault? && Sees(w, pos, end, r)
    requires ReadsThrough(w, Standing(pos, base, r), r.outs.Keys)
    ensures Receive(v, r).fault != Violation
  {
    hide Read;
    if r.tin.length != 0 {
      if r.target.None? {
        TakeHeadAccepts(v, w, pos, end, base, r);
      } else {
        var r1 := Deliver(v, r, r.target.value);
        if !r1.fault.ReadPastData? && r1.target.None? {
          DeliverSees(v, w, pos, end, r, r.target.value);
          DeliverReads(v, w, pos, end, base, r, r.target.value);
          TakeHeadAccepts(v, w, pos, end, base, r1);
        }
      }
    }
  }

  lemma TakeHeadAccepts(v: Variant, w: seq<byte>, pos: nat, end: nat, base: seq<Atom>, r: Received)
    requires r.Valid() && r.target.None? && !r.fault.Violation? && Sees(w, pos, end, r)
    requires ReadsThrough(w, Standing(pos, base, r), r.outs.Keys)
    ensures TakeHead(v, r).fault != Violation
  {
    var x := r.tin.Contents();
    var at := pos + r.used;
    if |x| > 3 {
      assert x[0] == w[at + 0] && x[1] == w[at + 1];
      HeadIsKnown(w, at, base + r.got, r.outs.Keys);
    }
  }

  lemma CorrectedDeliverIsSafe(r: Received, t: byte)
    requires r.Valid() && t in r.outs
    ensures Deliver(Corrected, r, t).fault == r.fault
  {
    ShippedDecodeOverrunsIff(r.tin.Contents(), 0, r.outs[t].Free(), []);
  }

  lemma CorrectedTakeHeadIsSafe(r: Received)
    requires r.Valid() && r.target.None? && r.fault.NoFault?
    ensures TakeHead(Corrected, r).fault.NoFault? || TakeHead(Corrected, r).fault.Violation?
  {
    var x := r.tin.Contents();
    if |x| > 3 && x[1] in r.outs {
      CorrectedDeliverIsSafe(
        Opened(r, x[1]), x[1]);
    }
  }

  /** With the two corrections nothing else can go wrong. */
  lemma CorrectedReceiveIsSafe(r: Received)
    requires r.Valid() && r.fault.NoFault?
    ensures Receive(Corrected, r).fault.NoFault? || Receive(Corrected, r).fault.Violation?
  {
    if r.target.Some? {
      CorrectedDeliverIsSafe(r, r.target.value);
      var r1 := Deliver(Corrected, r, r.target.value);
      if r1.target.None? {
        CorrectedTakeHeadIsSafe(r1);
      }
    } else {
      CorrectedTakeHeadIsSafe(r);
    }
  }

  // ---------------------------------------------------------------- wrong heads

  /** Bytes behind a message that are no head for a known connection. */
  predicate WrongHead(x: seq<byte>, known: set<byte>) {
    |x| > 3 && (x[0] != END_BYTE || (x[1] != 0 && x[1] !in known))
  }

  /** Between two messages a call ends the process over the head if and only if more than three bytes are
      there and they begin with no end byte or name an unknown connection. */
  lemma RejectsIff(v: Variant, r: Received)
    requires r.Valid() && r.target.None? && !r.fault.Violation?
    ensures Receive(v, r).fault.Violation? <==> WrongHead(r.tin.Contents(), r.outs.Keys)
  {
  }
}
