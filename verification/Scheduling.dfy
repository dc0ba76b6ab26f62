/** The sending half of `pump_transfer` on values: queued commands first, then one offer to every
    connection, starting behind the place where the last pass was blocked. */
module Scheduling {
  import opened Basics
  import opened Ring
  import opened Framing
  import opened Wire
  import opened Payloads
  import opened Receiver

  // ---------------------------------------------------------------- commands

  /** The command loop after `n` commands; it ends at a command that does not fit, which as shipped
      has left the queue by then. */
  datatype Sent = Sent(n: nat, tout: Ring, blocked: bool, fault: bool)

  function SendCommands(v: Variant, queue: seq<Command>, n: nat, tout: Ring, fault: bool): (s: Sent)
    requires n <= |queue| && tout.Valid()
    ensures s.tout.Valid() && n <= s.n <= |queue| && (s.blocked ==> s.n < |queue|)
    decreases |queue| - n
  {
    if n == |queue| then Sent(n, tout, false, fault)
    else if tout.Free() < 5 then Sent(n, tout, true, fault)
    else
      var f := CommandFrame(queue[n].cmd, queue[n].arg);
      SendCommands(v, queue, n + 1, tout.Fill(v, f), fault || Overwrites(v, tout, f))
  }

  /** What the queue holds afterwards: as shipped the command that did not fit is gone. */
  function QueueAfter(v: Variant, queue: seq<Command>, s: Sent): seq<Command>
    requires s.n <= |queue| && (s.blocked ==> s.n < |queue|)
  {
    if v.Shipped? && s.blocked then queue[s.n + 1..] else queue[s.n..]
  }

  lemma SendCases(v: Variant, queue: seq<Command>, n: nat, tout: Ring, fault: bool)
    requires n <= |queue| && tout.Valid()
    ensures n == |queue| ==>
      SendCommands(v, queue, n, tout, fault) == Sent(n, tout, false, fault)
      && QueueAfter(v, queue, Sent(n, tout, false, fault)) == []
    ensures n < |queue| && tout.Free() < 5 ==>
      SendCommands(v, queue, n, tout, fault) == Sent(n, tout, true, fault)
      && QueueAfter(v, queue, Sent(n, tout, true, fault)) == if v.Shipped? then queue[n + 1..] else queue[n..]
    ensures n < |queue| && tout.Free() >= 5 ==>
      var f := CommandFrame(queue[n].cmd, queue[n].arg);
      SendCommands(v, queue, n, tout, fault)
      == SendCommands(v, queue, n + 1, tout.Fill(v, f), fault || Overwrites(v, tout, f))
  {
  }

  /** Commands are lost exactly when fewer than five bytes are free for each of them. */
  lemma {:induction false} CommandsAllSentIff(
      v: Variant, queue: seq<Command>, n: nat, tout: Ring, fault: bool)
    requires n <= |queue| && tout.Valid()
    ensures var s := SendCommands(v, queue, n, tout, fault);
            && (!s.blocked <==> tout.Free() >= 5 * (|queue| - n))
            && (!s.blocked <==> s.n == |queue|)
            && (s.blocked ==> s.n - n == tout.Free() / 5)
            && s.tout.Free() == tout.Free() - 5 * (s.n - n)
    decreases |queue| - n
  {
    if n < |queue| && tout.Free() >= 5 {
      var f := CommandFrame(queue[n].cmd, queue[n].arg);
      CommandsAllSentIff(v, queue, n + 1, tout.Fill(v, f), fault || Overwrites(v, tout, f));
    }
  }

  function Orders(queue: seq<Command>): seq<Item> {
    seq(|queue|, k requires 0 <= k < |queue| => Order(queue[k]))
  }

  /** The commands go into the tunnel in the order of the queue. */
  lemma {:induction false} CommandsInOrder(
      v: Variant, queue: seq<Command>, n: nat, tout: Ring, base: seq<byte>)
    requires n <= |queue| && tout.Valid()
    requires tout.Contents() == base + EncodingAll(Orders(queue), n)
    requires !SendCommands(v, queue, n, tout, false).fault
    ensures var s := SendCommands(v, queue, n, tout, false);
            s.tout.Contents() == base + EncodingAll(Orders(queue), s.n)
    decreases |queue| - n
  {
    if n < |queue| && tout.Free() >= 5 {
      var f := CommandFrame(queue[n].cmd, queue[n].arg);
      if Overwrites(v, tout, f) {
        FaultStays(v, queue, n + 1, tout.Fill(v, f));
      }
      FillAppends(v, tout, f);
      assert Encoding(Orders(queue)[n]) == f;
      assert base + EncodingAll(Orders(queue), n) + f == base + EncodingAll(Orders(queue), n + 1);
      CommandsInOrder(v, queue, n + 1, tout.Fill(v, f), base);
    }
  }

  lemma {:induction false} FaultStays(v: Variant, queue: seq<Command>, n: nat, tout: Ring)
    requires n <= |queue| && tout.Valid()
    ensures SendCommands(v, queue, n, tout, true).fault
    decreases |queue| - n
  {
    if n < |queue| && tout.Free() >= 5 {
      FaultStays(v, queue, n + 1, tout.Fill(v, CommandFrame(queue[n].cmd, queue[n].arg)));
    }
  }

  /** With four free bytes a queued command vanishes, neither sent nor queued; when corrected it
      stays in the queue. */
  lemma ShippedDropsCommandExample(c: Command)
    ensures
      var tout := Ring(0, 0, [0, 0, 0, 0]);
      var s := SendCommands(Shipped, [c], 0, tout, false);
      s.n == 0 && s.tout == tout && QueueAfter(Shipped, [c], s) == [] && QueueAfter(Corrected, [c], s) == [c]
  {
  }

  // ---------------------------------------------------------------- data

  /** The connection that the `i`-th offer of a pass goes to. */
  function Visit(index: nat, i: nat): (id: byte)
    ensures id != 0
  {
    (index + i) % 255 + 1
  }

  /** A pass under way: the in_bufs of the live connections, the tunnel's out_buf, the frames
      written, the connections offered so far, and the one that found no room. */
  datatype Pass = Pass(
    srcs: map<byte, Ring>, tout: Ring, items: seq<Item>, offered: seq<byte>,
    blocked: Option<byte>, fault: bool)
  {
    predicate Valid() {
      tout.Valid() && forall id :: id in srcs ==> srcs[id].Valid()
    }
  }

  /** One offer: `encode` on connection `id`. */
  function OfferTo(v: Variant, p: Pass, id: byte): (p': Pass)
    requires p.Valid() && id in p.srcs
    ensures p'.Valid() && p'.srcs.Keys == p.srcs.Keys
    ensures p'.blocked.None? || p'.blocked == Some(id)
  {
    var e := EncodeStep(v, p.srcs[id], p.tout, id);
    if !e.ok then Pass(p.srcs, p.tout, p.items, p.offered, Some(id), p.fault)
    else if e.frame.None? then Pass(p.srcs, p.tout, p.items, p.offered + [id], None, p.fault)
    else
      Pass(p.srcs[id := e.src], e.dst, p.items + [Data(id, e.frame.value)], p.offered + [id], None,
           p.fault || Overwrites(v, p.tout, Frame(id, e.frame.value)))
  }

  /** The rest of a pass from its `i`-th visit on. */
  function Offers(v: Variant, index: nat, i: nat, p: Pass): (p': Pass)
    requires p.Valid() && i <= 255
    ensures p'.Valid() && p'.srcs.Keys == p.srcs.Keys
    decreases 255 - i
  {
    if i == 255 || p.blocked.Some? then p
    else if Visit(index, i) !in p.srcs then Offers(v, index, i + 1, p)
    else Offers(v, index, i + 1, OfferTo(v, p, Visit(index, i)))
  }

  lemma OffersCases(v: Variant, index: nat, i: nat, p: Pass)
    requires p.Valid() && i <= 255 && p.blocked.None?
    ensures i == 255 ==> Offers(v, index, i, p) == p
    ensures i < 255 && Visit(index, i) !in p.srcs ==>
      Offers(v, index, i, p) == Offers(v, index, i + 1, p)
    ensures i < 255 && Visit(index, i) in p.srcs ==>
      var q := OfferTo(v, p, Visit(index, i));
      Offers(v, index, i, p) == if q.blocked.Some? then q else Offers(v, index, i + 1, q)
  {
    if i < 255 && Visit(index, i) in p.srcs && OfferTo(v, p, Visit(index, i)).blocked.Some? {
      var q := OfferTo(v, p, Visit(index, i));
      assert Offers(v, index, i + 1, q) == q;
    }
  }

  /** The live connections among the first `n` visits, in the order of the visits. */
  function LiveVisits(index: nat, n: nat, live: set<byte>): seq<byte> {
    if n == 0 then []
    else LiveVisits(index, n - 1, live)
         + if Visit(index, n - 1) in live then [Visit(index, n - 1)] else []
  }

  /** An unblocked pass has offered every live connection one `encode`; a blocked one exactly
      those whose visit comes before the blocked one. */
  lemma {:induction false} PassOffers(v: Variant, index: nat, i: nat, p: Pass)
    requires p.Valid() && i <= 255 && p.blocked.None?
    requires p.offered == LiveVisits(index, i, p.srcs.Keys)
    ensures
      var e := Offers(v, index, i, p);
      if e.blocked.None? then e.offered == LiveVisits(index, 255, p.srcs.Keys)
      else exists k: nat :: i <= k < 255 && e.blocked == Some(Visit(index, k)) && Visit(index, k) in p.srcs
             && e.offered == LiveVisits(index, k, p.srcs.Keys)
    decreases 255 - i
  {
    if i < 255 {
      var id := Visit(index, i);
      if id !in p.srcs {
        assert p.offered == LiveVisits(index, i + 1, p.srcs.Keys);
        PassOffers(v, index, i + 1, p);
      } else {
        var q := OfferTo(v, p, id);
        if q.blocked.None? {
          PassOffers(v, index, i + 1, q);
        } else {
          assert Offers(v, index, i + 1, q) == q;
        }
      }
    }
  }

  /** The visit at which connection `id` is reached. */
  function VisitOf(index: nat, id: byte): (i: nat)
    requires id != 0 && index <= 255
    ensures i < 255 && Visit(index, i) == id
    ensures forall j: nat :: j < 255 && Visit(index, j) == id ==> j == i
  {
    (id as int - 1 + 510 - index) % 255
  }

  /** No connection is visited twice, and every live one is among the visits. */
  lemma {:induction false} LiveVisitsOnce(index: nat, n: nat, live: set<byte>, id: byte)
    requires id != 0 && index <= 255 && n <= 255
    ensures multiset(LiveVisits(index, n, live))[id]
            == if id in live && VisitOf(index, id) < n then 1 else 0
  {
    hide Visit, VisitOf;
    if n > 0 {
      LiveVisitsOnce(index, n - 1, live, id);
      var w := Visit(index, n - 1);
      assert (w == id) == (VisitOf(index, id) == n - 1);
    }
  }

  /** The pass after a blocked one starts right behind the blocked connection. */
  lemma NextPassStartsBehind(blocked: byte)
    requires blocked != 0
    ensures Visit(blocked, 0) == if blocked == 255 then 1 else blocked + 1
    ensures Visit(blocked, 254) == blocked
  {
  }

  /** The frames written since the tunnel held `base` are in it, in order. */
  predicate Framed(p: Pass, base: seq<byte>)
    requires p.Valid()
  {
    p.tout.Contents() == base + EncodingAll(p.items, |p.items|)
  }

  /** The bytes of connection `id` are divided between those frames and its in_buf. */
  predicate Divided(p: Pass, id: byte, bytes: seq<byte>)
    requires p.Valid()
  {
    id in p.srcs ==> Payload(AtomsAll(p.items, |p.items|), id) + p.srcs[id].Contents() == bytes
  }

  /** `encode` within a pass, with what its ring lemmas say about it. */
  lemma OfferMoves(v: Variant, p: Pass, t: byte)
    requires p.Valid() && t in p.srcs
    ensures
      var e := EncodeStep(v, p.srcs[t], p.tout, t);
      e.frame.Some? ==>
        && (!OfferTo(v, p, t).fault ==>
              e.dst.Contents() == p.tout.Contents() + Encoding(Data(t, e.frame.value)))
        && e.frame.value + e.src.Contents() == p.srcs[t].Contents()
  {
    var e := EncodeStep(v, p.srcs[t], p.tout, t);
    if e.frame.Some? {
      assert Frame(t, e.frame.value) != [];
      hide EncodeStep, Frame;
      EncodeTakesFront(v, p.srcs[t], p.tout, t);
      if !OfferTo(v, p, t).fault {
        EncodeMovesBytes(v, p.srcs[t], p.tout, t);
      }
    }
  }

  lemma OfferFrames(v: Variant, p: Pass, t: byte, base: seq<byte>)
    requires p.Valid() && t in p.srcs && Framed(p, base) && !OfferTo(v, p, t).fault
    ensures Framed(OfferTo(v, p, t), base)
  {
    hide EncodeStep, Encoding, EncodingAll, Overwrites;
    var e := EncodeStep(v, p.srcs[t], p.tout, t);
    OfferMoves(v, p, t);
    if e.frame.Some? {
      var item := Data(t, e.frame.value);
      AppendItem(p.items, item);
      assert (base + EncodingAll(p.items, |p.items|)) + Encoding(item)
          == base + (EncodingAll(p.items, |p.items|) + Encoding(item));
    }
  }

  lemma ItemsPayload(items: seq<Item>, t: byte, f: seq<byte>, id: byte)
    ensures Payload(AtomsAll(items + [Data(t, f)], |items + [Data(t, f)]|), id)
            == Payload(AtomsAll(items, |items|), id) + if t == id then f else []
  {
    AppendItem(items, Data(t, f));
    hide AtomsAll, PayloadUpTo;
    PayloadConcat(AtomsAll(items, |items|), [Open(t)] + Bytes(t, f), id);
    PayloadOfFrame(t, f, id);
  }

  lemma OfferDivides(v: Variant, p: Pass, t: byte, id: byte, bytes: seq<byte>)
    requires p.Valid() && t in p.srcs && Divided(p, id, bytes)
    ensures Divided(OfferTo(v, p, t), id, bytes)
  {
    hide EncodeStep, AtomsAll, Payload, Encoding, Overwrites;
    var e := EncodeStep(v, p.srcs[t], p.tout, t);
    OfferMoves(v, p, t);
    if e.frame.Some? {
      var f := e.frame.value;
      var was := Payload(AtomsAll(p.items, |p.items|), id);
      ItemsPayload(p.items, t, f, id);
      assert (was + f) + e.src.Contents() == was + (f + e.src.Contents());
    }
  }

  lemma {:induction false} FaultStaysInPass(v: Variant, index: nat, i: nat, p: Pass)
    requires p.Valid() && i <= 255 && p.fault
    ensures Offers(v, index, i, p).fault
    decreases 255 - i
  {
    if i < 255 && p.blocked.None? {
      FaultStaysInPass(v, index, i + 1,
        if Visit(index, i) in p.srcs then OfferTo(v, p, Visit(index, i)) else p);
    }
  }

  /** A pass appends its frames in the order of the visits, as long as it overwrites nothing. */
  lemma {:induction false} PassFrames(v: Variant, index: nat, i: nat, p: Pass, base: seq<byte>)
    requires p.Valid() && i <= 255 && Framed(p, base) && !Offers(v, index, i, p).fault
    ensures Framed(Offers(v, index, i, p), base)
    decreases 255 - i
  {
    hide OfferTo, Framed;
    if i < 255 && p.blocked.None? {
      var t := Visit(index, i);
      if t !in p.srcs {
        PassFrames(v, index, i + 1, p, base);
      } else {
        var q := OfferTo(v, p, t);
        if q.fault {
          FaultStaysInPass(v, index, i + 1, q);
        }
        OfferFrames(v, p, t, base);
        PassFrames(v, index, i + 1, q, base);
      }
    }
  }

  /** It loses no byte of any connection, whatever it overwrites in the tunnel. */
  lemma {:induction false} PassDivides(
      v: Variant, index: nat, i: nat, p: Pass, id: byte, bytes: seq<byte>)
    requires p.Valid() && i <= 255 && Divided(p, id, bytes)
    ensures Divided(Offers(v, index, i, p), id, bytes)
    decreases 255 - i
  {
    hide OfferTo, Divided;
    if i < 255 && p.blocked.None? {
      var t := Visit(index, i);
      if t !in p.srcs {
        PassDivides(v, index, i + 1, p, id, bytes);
      } else {
        OfferDivides(v, p, t, id, bytes);
        PassDivides(v, index, i + 1, OfferTo(v, p, t), id, bytes);
      }
    }
  }

  // ---------------------------------------------------------------- what a pass must do

  /** There is a frame of connection `id` whose payload is the front of `bytes`, and not empty unless
      an end byte is in front. */
  ghost predicate HasFrame(items: seq<Item>, id: byte, bytes: seq<byte>)
    requires bytes != []
  {
    exists k :: 0 <= k < |items| && items[k].Data? && items[k].id == id
      && items[k].payload <= bytes && (items[k].payload != [] || bytes[0] == END_BYTE)
  }

  /** Not even the frame of the first byte fits into `avail` bytes, nor the empty one. */
  predicate NoRoomFor(id: byte, bytes: seq<byte>, avail: nat) {
    bytes != [] && |Frame(id, bytes[..1])| > avail && !(avail == 4 && bytes[0] == END_BYTE)
  }

  /** The pass ended at a connection that is visited no later than `id`, because the tunnel has no
      room for it. */
  predicate BlockedBefore(p: Pass, index: nat, id: byte)
    requires p.Valid() && id != 0 && index <= 255
  {
    p.blocked.Some? && p.blocked.value != 0 && p.blocked.value in p.srcs
    && VisitOf(index, p.blocked.value) <= VisitOf(index, id)
    && NoRoomFor(p.blocked.value, p.srcs[p.blocked.value].Contents(), p.tout.Free())
  }

  lemma OfferServes(v: Variant, p: Pass, id: byte)
    requires p.Valid() && id in p.srcs && p.srcs[id].length > 0
    ensures
      var q := OfferTo(v, p, id);
      var bytes := p.srcs[id].Contents();
      bytes != []
      && if q.blocked.None? then q.items != [] && HasFrame([q.items[|q.items| - 1]], id, bytes)
         else NoRoomFor(id, bytes, p.tout.Free())
  {
    hide Frame, EncodeStep, Ring.Contents, Overwrites;
    ContentsLength(p.srcs[id]);
    EncodeTakesLongestPrefix(v, p.srcs[id], p.tout, id);
    EncodeTakesFront(v, p.srcs[id], p.tout, id);
    var q := OfferTo(v, p, id);
    if q.blocked.None? {
      assert q.items[|q.items| - 1].payload <= p.srcs[id].Contents();
      assert [q.items[|q.items| - 1]][0].Data?;
    }
  }

  lemma {:induction false} ItemsStay(v: Variant, index: nat, i: nat, p: Pass)
    requires p.Valid() && i <= 255
    ensures p.items <= Offers(v, index, i, p).items
    decreases 255 - i
  {
    hide EncodeStep, Visit, Frame, Overwrites;
    if i < 255 && p.blocked.None? {
      ItemsStay(v, index, i + 1, if Visit(index, i) in p.srcs then OfferTo(v, p, Visit(index, i)) else p);
    }
  }

  lemma FrameStays(items: seq<Item>, more: seq<Item>, id: byte, bytes: seq<byte>)
    requires bytes != [] && items != [] && HasFrame([items[|items| - 1]], id, bytes) && items <= more
    ensures HasFrame(more, id, bytes)
  {
    var k := |items| - 1;
    assert [items[k]][0] == items[k] && more[k] == items[k];
  }

  /** Every live connection with bytes waiting has a frame of them in the pass, or the pass was
      blocked at it or in front of it by a connection for which there was no room. */
  lemma {:induction false} PassServes(v: Variant, index: nat, i: nat, p: Pass, id: byte)
    requires p.Valid() && p.blocked.None? && id != 0 && id in p.srcs && p.srcs[id].length > 0
    requires index <= 255 && i <= VisitOf(index, id)
    ensures
      var e := Offers(v, index, i, p);
      var bytes := p.srcs[id].Contents();
      bytes != [] && (HasFrame(e.items, id, bytes) || BlockedBefore(e, index, id))
    decreases 255 - i
  {
    hide OfferTo, HasFrame, NoRoomFor, Visit, VisitOf;
    ContentsLength(p.srcs[id]);
    OffersCases(v, index, i, p);
    var w := Visit(index, i);
    if w !in p.srcs {
      PassServes(v, index, i + 1, p, id);
    } else {
      var q := OfferTo(v, p, w);
      OfferKeeps(v, p, w);
      if q.blocked.Some? {
        BlockedHere(v, p, w);
      } else if w == id {
        OfferServes(v, p, id);
        ItemsStay(v, index, i + 1, q);
        FrameStays(q.items, Offers(v, index, i + 1, q).items, id, p.srcs[id].Contents());
      } else {
        PassServes(v, index, i + 1, q, id);
      }
    }
  }

  lemma OfferKeeps(v: Variant, p: Pass, w: byte)
    requires p.Valid() && w in p.srcs
    ensures
      var q := OfferTo(v, p, w);
      && (forall id :: id in p.srcs && id != w ==> q.srcs[id] == p.srcs[id])
      && (q.blocked.Some? ==> q.tout == p.tout && q.srcs == p.srcs && q.blocked == Some(w))
  {
    hide EncodeStep, Frame, Overwrites;
  }

  /** An offer is refused only to a connection with bytes waiting, for want of room. */
  lemma BlockedHere(v: Variant, p: Pass, w: byte)
    requires p.Valid() && w in p.srcs && OfferTo(v, p, w).blocked.Some?
    ensures NoRoomFor(w, p.srcs[w].Contents(), p.tout.Free())
  {
    hide Frame, EncodeStep, Ring.Contents, Overwrites;
    EncodeTakesLongestPrefix(v, p.srcs[w], p.tout, w);
  }

  // ---------------------------------------------------------------- both

  /** The sending half of `pump_transfer`: a command that does not fit stops all data. */
  function Transfer(v: Variant, queue: seq<Command>, tout: Ring, srcs: map<byte, Ring>, index: nat):
      (t: (Sent, Pass))
    requires Pass(srcs, tout, [], [], None, false).Valid()
    ensures t.0.tout.Valid() && t.0.n <= |queue| && (t.0.blocked ==> t.0.n < |queue|)
    ensures t.1.Valid() && t.1.srcs.Keys == srcs.Keys
  {
    var s := SendCommands(v, queue, 0, tout, false);
    var p := Pass(srcs, s.tout, [], [], None, s.fault);
    (s, if s.blocked then p else Offers(v, index, 0, p))
  }

  /** Commands go first and in order, and data behind them, unless a command did not fit. */
  lemma TransferFrames(
      v: Variant, queue: seq<Command>, tout: Ring, srcs: map<byte, Ring>, index: nat)
    requires Pass(srcs, tout, [], [], None, false).Valid()
    requires !Transfer(v, queue, tout, srcs, index).1.fault
    ensures
      var (s, p) := Transfer(v, queue, tout, srcs, index);
      && p.tout.Contents() == tout.Contents() + EncodingAll(Orders(queue), s.n)
                              + EncodingAll(p.items, |p.items|)
      && (s.blocked ==> p.items == [])
  {
    hide EncodingAll, SendCommands, Offers, Encoding;
    var (s, p) := Transfer(v, queue, tout, srcs, index);
    var p0 := Pass(srcs, s.tout, [], [], None, s.fault);
    if p0.fault {
      FaultStaysInPass(v, index, 0, p0);
    }
    NoItems(tout.Contents(), Orders(queue));
    NoItems(s.tout.Contents(), []);
    CommandsInOrder(v, queue, 0, tout, tout.Contents());
    if !s.blocked {
      PassFrames(v, index, 0, p0, s.tout.Contents());
    }
  }

  /** Writing into the tunnel, even over stored bytes, loses no byte of any connection between its
      in_buf and the frames. */
  lemma TransferDivides(
      v: Variant, queue: seq<Command>, tout: Ring, srcs: map<byte, Ring>, index: nat, id: byte)
    requires Pass(srcs, tout, [], [], None, false).Valid() && id in srcs
    ensures
      var p := Transfer(v, queue, tout, srcs, index).1;
      Payload(AtomsAll(p.items, |p.items|), id) + p.srcs[id].Contents() == srcs[id].Contents()
  {
    hide SendCommands, Offers;
    var (s, p) := Transfer(v, queue, tout, srcs, index);
    NoItems([], []);
    assert [] + srcs[id].Contents() == srcs[id].Contents();
    if !s.blocked {
      PassDivides(v, index, 0, Pass(srcs, s.tout, [], [], None, s.fault), id, srcs[id].Contents());
    }
  }

  /** Commands go first and in order, data behind them, and no byte of any connection is lost. Of
      the commands none is lost exactly when five bytes are free for each, or when corrected. */
  lemma TransferPutsCommandsFirst(
      v: Variant, queue: seq<Command>, tout: Ring, srcs: map<byte, Ring>, index: nat, id: byte)
    requires Pass(srcs, tout, [], [], None, false).Valid() && id in srcs
    requires !Transfer(v, queue, tout, srcs, index).1.fault
    ensures
      var (s, p) := Transfer(v, queue, tout, srcs, index);
      && p.tout.Contents() == tout.Contents() + EncodingAll(Orders(queue), s.n)
                              + EncodingAll(p.items, |p.items|)
      && Payload(AtomsAll(p.items, |p.items|), id) + p.srcs[id].Contents() == srcs[id].Contents()
      && (s.blocked ==> p.items == [])
      && (queue[..s.n] + QueueAfter(v, queue, s) == queue <==> v.Corrected? || !s.blocked)
      && (!s.blocked <==> tout.Free() >= 5 * |queue|)
  {
    hide EncodingAll, SendCommands, Offers, AtomsAll, Payload;
    var (s, p) := Transfer(v, queue, tout, srcs, index);
    TransferFrames(v, queue, tout, srcs, index);
    TransferDivides(v, queue, tout, srcs, index, id);
    CommandsAllSentIff(v, queue, 0, tout, false);
    assert queue[..s.n] + queue[s.n..] == queue;
  }

  /** What one `pump_transfer` must do. With five free bytes per command all commands are sent, and
      every live connection with bytes waiting has a frame of them among the items, or the pass was
      blocked at it or in front of it by one for which there was no room; with less, the commands
      that fit are sent. */
  lemma TransferServes(
      v: Variant, queue: seq<Command>, tout: Ring, srcs: map<byte, Ring>, index: nat, id: byte)
    requires Pass(srcs, tout, [], [], None, false).Valid() && index <= 255
    requires id != 0 && id in srcs && srcs[id].length > 0
    ensures
      var (s, p) := Transfer(v, queue, tout, srcs, index);
      var bytes := srcs[id].Contents();
      && s.n == Min(|queue|, tout.Free() / 5)
      && bytes != []
      && (tout.Free() >= 5 * |queue| ==> HasFrame(p.items, id, bytes) || BlockedBefore(p, index, id))
  {
    hide SendCommands, Offers, HasFrame, BlockedBefore, VisitOf;
    ContentsLength(srcs[id]);
    CommandsAllSentIff(v, queue, 0, tout, false);
    var s := SendCommands(v, queue, 0, tout, false);
    if !s.blocked {
      PassServes(v, index, 0, Pass(srcs, s.tout, [], [], None, s.fault), id);
    }
  }

  lemma NoItems(base: seq<byte>, items: seq<Item>)
    ensures base + EncodingAll(items, 0) == base
    ensures AtomsAll([], 0) == []
  {
  }
}
