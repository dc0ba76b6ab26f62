/** The bytes of every connection over whole runs, across accept, close and the reuse of its
    identifier: what was read from its socket is what was sent for it, followed by its in_buf; what
    was written to its socket is, with its out_buf behind it, what came out of the tunnel for it. */
module Accounts {
  import opened Basics
  import opened Ring
  import opened Wire
  import opened Payloads
  import opened Connections
  import opened Slots
  import opened Receiver
  import opened Scheduling
  import opened Protocol
  import opened Identifiers
  import opened Grammar
  import opened Duties
  import opened Runs
  import opened H = Host

  /** Into the tunnel, or out of it. */
  datatype Direction = Outward | Inward

  /** The payload of identifier `k` that the event moves. */
  function Share(d: Direction, e: Event, k: byte): seq<byte> {
    if d.Outward? then (if IsData(e, k) then e.item.payload else [])
    else (if e.Take? then Part(e.atom, k) else [])
  }

  /** The payload moved for identifier `k` by the first `n` events, from its last NEW on; `base`
      was moved before them. */
  function Carried(d: Direction, base: seq<byte>, es: seq<Event>, n: nat, k: byte): seq<byte>
    requires n <= |es|
  {
    if n == 0 then base
    else if IsOrder(es[n - 1], CMD_NEW, k) then []
    else Carried(d, base, es, n - 1, k) + Share(d, es[n - 1], k)
  }

  /** What was sent for the connection that holds `k` now. */
  function SentFor(h: Host, k: byte): seq<byte> {
    Carried(Outward, [], h.log, |h.log|, k)
  }

  /** What came out of the tunnel for it, unless bytes were overwritten in an out_buf. */
  function TakenFor(h: Host, k: byte): Option<seq<byte>> {
    if h.smeared then None else Some(Carried(Inward, [], h.log, |h.log|, k))
  }

  /** What has come out behind the events `es`, if `y` had come out before them. */
  function TakenOn(y: Option<seq<byte>>, es: seq<Event>, k: byte): Option<seq<byte>> {
    if y.None? then None else Some(Carried(Inward, y.value, es, |es|, k))
  }

  lemma {:induction false} CarriedFront(d: Direction, base: seq<byte>, a: seq<Event>, b: seq<Event>, n: nat, k: byte)
    requires n <= |a|
    ensures Carried(d, base, a + b, n, k) == Carried(d, base, a, n, k)
  {
    hide IsOrder, Share;
    if n > 0 {
      CarriedFront(d, base, a, b, n - 1, k);
      assert (a + b)[n - 1] == a[n - 1];
    }
  }

  lemma {:induction false} CarriedOn(
      d: Direction, base: seq<byte>, a: seq<Event>, b: seq<Event>, n: nat, m: nat, k: byte)
    requires n <= |b| && m == |a| + n
    ensures Carried(d, base, a + b, m, k) == Carried(d, Carried(d, base, a, |a|, k), b, n, k)
  {
    hide IsOrder, Share;
    if n == 0 {
      CarriedFront(d, base, a, b, |a|, k);
    } else {
      CarriedOn(d, base, a, b, n - 1, m - 1, k);
      assert (a + b)[m - 1] == b[n - 1];
    }
  }

  lemma MoreEvents(h: Host, h': Host, es: seq<Event>, k: byte)
    requires h'.log == h.log + es
    ensures SentFor(h', k) == Carried(Outward, SentFor(h, k), es, |es|, k)
    ensures h'.smeared == h.smeared ==> TakenFor(h', k) == TakenOn(TakenFor(h, k), es, k)
    ensures h'.smeared ==> TakenFor(h', k) == None
  {
    CarriedOn(Outward, [], h.log, es, |es|, |h'.log|, k);
    CarriedOn(Inward, [], h.log, es, |es|, |h'.log|, k);
  }

  lemma {:induction false} CarriedOrders(d: Direction, base: seq<byte>, said: seq<Command>, n: nat, k: byte)
    requires n <= |said|
    ensures Carried(d, base, Emits(said), n, k) == if Command(CMD_NEW, k) in said[..n] then [] else base
  {
    if n > 0 {
      CarriedOrders(d, base, said, n - 1, k);
      assert Emits(said)[n - 1] == Emit(Order(said[n - 1]));
      assert said[..n] == said[..n - 1] + [said[n - 1]];
    }
  }

  lemma CarriedPeer(d: Direction, base: seq<byte>, k: Control, c: Command, id: byte)
    ensures var es := PeerEvents(k, c); Carried(d, base, es, |es|, id) == base
  {
    hide PeerCloses;
    assert base + [] == base;
    var es := PeerEvents(k, c);
    assert Carried(d, base, es, 0, id) == base;
  }

  /** What the receiver hands out moves outward nothing and inward what it is. */
  lemma {:induction false} CarriedTakes(d: Direction, base: seq<byte>, got: seq<Atom>, n: nat, k: byte)
    requires n <= |got|
    ensures Carried(d, base, Takes(got), n, k) == base + if d.Inward? then PayloadUpTo(got, n, k) else []
  {
    if n > 0 {
      CarriedTakes(d, base, got, n - 1, k);
      assert Takes(got)[n - 1] == Event.Take(got[n - 1]);
    }
  }

  lemma {:induction false} CarriedFrames(d: Direction, base: seq<byte>, frames: seq<Item>, n: nat, k: byte)
    requires n <= |frames| && forall i :: 0 <= i < |frames| ==> frames[i].Data?
    ensures Carried(d, base, FrameEvents(frames), n, k)
            == base + if d.Outward? then Payload(AtomsAll(frames, n), k) else []
  {
    hide AtomsAll, Payload;
    if n == 0 {
      NothingCarried(base, frames, k);
    } else {
      CarriedFrames(d, base, frames, n - 1, k);
      OneFrameMore(base, frames, n, k);
    }
  }

  lemma NothingCarried(base: seq<byte>, frames: seq<Item>, k: byte)
    ensures base + Payload(AtomsAll(frames, 0), k) == base
  {
  }

  lemma OneFrameMore(base: seq<byte>, frames: seq<Item>, n: nat, k: byte)
    requires 0 < n <= |frames| && frames[n - 1].Data?
    ensures base + Payload(AtomsAll(frames, n), k)
            == base + Payload(AtomsAll(frames, n - 1), k)
               + if frames[n - 1].id == k then frames[n - 1].payload else []
  {
    hide Payload, Bytes;
    var f := frames[n - 1];
    PayloadConcat(AtomsAll(frames, n - 1), [Atom.Open(f.id)] + Bytes(f.id, f.payload), k);
    PayloadOfFrame(f.id, f.payload, k);
  }

  // ---------------------------------------------------------------- one slot

  /** What was read for the holder of `k` is `x`, if it was announced, and its in_buf; what was
      written to it is, with its out_buf behind, `y`, if that is known. A connection that was not
      announced has neither sent nor received anything. */
  predicate SlotAccount(s: Slot, k: byte, x: seq<byte>, y: Option<seq<byte>>) {
    && (s.conn.id == -1 ==> ReadIs(s, []) && WrittenIs(s, []))
    && (Holds(s.conn, k) ==>
          if s.conn.state.isNew then ReadIs(s, []) && WrittenIs(s, [])
          else ReadIs(s, x) && (y.Some? ==> WrittenIs(s, y.value)))
  }

  predicate TableAccount(t: seq<Slot>, k: byte, x: seq<byte>, y: Option<seq<byte>>) {
    forall i :: 0 <= i < |t| ==> SlotAccount(t[i], k, x, y)
  }

  ghost predicate InAccount(h: Host, k: byte) {
    TableAccount(h.table, k, SentFor(h, k), TakenFor(h, k))
  }

  lemma EvolvesAccount(s: Slot, s': Slot, k: byte, x: seq<byte>, y: Option<seq<byte>>)
    requires Evolves(s, s') && SlotAccount(s, k, x, y)
    ensures SlotAccount(s', k, x, y)
  {
    hide ReadIs, WrittenIs;
  }

  lemma AcceptedAccount(t: seq<Slot>, p: PollInput, k: byte, x: seq<byte>, y: Option<seq<byte>>)
    requires PollOk(t, p)
    ensures p.accepted.Some? ==> SlotAccount(p.accepted.value, k, x, y)
  {
    hide IoOk, Armed;
    if p.accepted.Some? {
      ContentsLength(p.accepted.value.conn.inb);
      ContentsLength(p.accepted.value.conn.outb);
    }
  }

  lemma PollKeepsAccount(h: Host, p: PollInput, k: byte)
    requires PollOk(h.table, p) && InAccount(h, k)
    ensures InAccount(Polled(h, p), k)
  {
    hide PollOk, Poll, Evolves, SlotAccount, Carried;
    var t := Poll(h.table, p).table;
    AcceptedAccount(h.table, p, k, SentFor(h, k), TakenFor(h, k));
    forall i | 0 <= i < |t|
      ensures SlotAccount(t[i], k, SentFor(h, k), TakenFor(h, k))
    {
      assert t[i] in t;
      PollDescends(h.table, p, t[i]);
      if s :| s in h.table && Evolves(s, t[i]) {
        EvolvesAccount(s, t[i], k, SentFor(h, k), TakenFor(h, k));
      } else {
        EvolvesAccount(p.accepted.value, t[i], k, SentFor(h, k), TakenFor(h, k));
      }
    }
  }

  // ---------------------------------------------------------------- names

  /** `sort_connections` does nothing to a connection but name it. */
  lemma {:induction false} SortEach(cs: seq<Conn>, free: seq<int>, n: nat, i: nat)
    requires n <= |cs| && i < |cs|
    ensures var c := SortUpTo(cs, free, n).conns[i];
            c == cs[i] || (NeedsId(cs[i]) && c == SetId(cs[i], c.id))
  {
    if n > 0 {
      SortEach(cs, free, n - 1, i);
    }
  }

  lemma NamedAccount(s: Slot, c: Conn, k: byte, x: seq<byte>, y: Option<seq<byte>>)
    requires SlotAccount(s, k, x, y) && WellNamed(s.conn)
    requires c == s.conn || (NeedsId(s.conn) && c == SetId(s.conn, c.id))
    ensures SlotAccount(s.(conn := c), k, x, y)
  {
  }

  lemma SortKeepsAccount(h: Host, k: byte)
    requires NamesOk(h) && InAccount(h, k)
    ensures InAccount(Named(h, Sort(Conns(h.table), h.free)), k)
  {
    hide SortUpTo, SlotAccount, WellNamed, Carried;
    var cs := Conns(h.table);
    var s := Sort(cs, h.free);
    forall i | 0 <= i < |h.table|
      ensures SlotAccount(Named(h, s).table[i], k, SentFor(h, k), TakenFor(h, k))
    {
      SortEach(cs, h.free, |cs|, i);
      assert WellNamed(cs[i]);
      NamedAccount(h.table[i], s.conns[i], k, SentFor(h, k), TakenFor(h, k));
    }
  }

  // ---------------------------------------------------------------- announcements

  /** What `handle_state_changes` may do to a connection, having said `said`. */
  predicate Announces(c: Conn, d: Conn, said: seq<Command>) {
    && d.id == c.id && d.inb == c.inb && d.outb == c.outb && (c.state.delete ==> d.state.delete)
    && (d.state.isNew ==> c.state.isNew)
    && (c.state.isNew && !d.state.isNew && 0 <= c.id < 256 ==> Command(CMD_NEW, c.id) in said)
  }

  lemma ReactAnnounces(c: Conn, room: nat)
    ensures Announces(c, React(c, room).conn, Said(React(c, room).said, c.id))
  {
    var r := React(c, room);
    if c.state.isNew && !r.conn.state.isNew {
      assert r.said[0] == CMD_NEW;
      assert 0 <= c.id < 256 ==> Said(r.said, c.id)[0] == Command(CMD_NEW, c.id);
    }
  }

  lemma AnnouncesOn(a: Conn, b: Conn, c: Conn, said: seq<Command>, more: seq<Command>)
    requires Announces(a, b, said) && Announces(b, c, more)
    ensures Announces(a, c, said + more)
  {
  }

  lemma AnnouncesNothing(c: Conn, said: seq<Command>)
    ensures Announces(c, c, said)
  {
  }

  lemma {:induction false} HandleEach(h: Handled, n: nat, i: nat)
    requires h.Valid() && h.said == [] && i < |h.conns|
    ensures Announces(h.conns[i], HandleUpTo(h, true, n).conns[i], HandleUpTo(h, true, n).said)
  {
    hide React, Announces;
    if n == 0 {
      AnnouncesNothing(h.conns[i], []);
    } else {
      HandleEach(h, n - 1, i);
      var g := HandleUpTo(h, true, n - 1);
      if !g.again && n in g.index {
        var c := g.conns[g.index[n]];
        var room: nat := g.room - |g.said|;
        var more := Said(React(c, room).said, c.id);
        ReactAnnounces(c, room);
        AnnouncesNothing(g.conns[i], more);
        AnnouncesOn(h.conns[i], g.conns[i], HandleUpTo(h, true, n).conns[i], g.said, more);
      }
    }
  }

  /** NEW is said only for a connection that is new. */
  lemma NewOnlyIfNew(h: Handled, i: nat, k: byte)
    requires h.Valid() && IndexOk(h.conns, h.index) && h.said == [] && !h.again
    requires Partition(h.free, h.conns) && k != 0 && i < |h.conns| && Holds(h.conns[i], k)
    ensures Command(CMD_NEW, k) in HandleUpTo(h, true, MAX_STACK_SIZE).said ==> h.conns[i].state.isNew
  {
    hide HandleUpTo, OwedUpTo, Owed, Times, Holders;
    var n := MAX_STACK_SIZE;
    HandleSaysOwed(h, true, n);
    OwedIff(h.conns, h.index, n, k, CMD_NEW);
    if Command(CMD_NEW, k) in HandleUpTo(h, true, n).said {
      FrontIn(OwedUpTo(h.conns, h.index, n), h.room, Command(CMD_NEW, k));
      assert Assigned(h.free, h.conns, k);
      OneHolder(h.free, h.conns, i, h.index[k], k);
      OwedCases(h.conns[i]);
    }
  }

  lemma AnnouncedSlot(
      s: Slot, d: Conn, said: seq<Command>, k: byte, x: seq<byte>, y: Option<seq<byte>>, x': seq<byte>,
      y': Option<seq<byte>>)
    requires SlotAccount(s, k, x, y) && Announces(s.conn, d, said)
    requires x' == (if Command(CMD_NEW, k) in said then [] else x)
    requires y'.Some? ==> y.Some? && y'.value == (if Command(CMD_NEW, k) in said then [] else y.value)
    requires Holds(s.conn, k) && Command(CMD_NEW, k) in said ==> s.conn.state.isNew
    ensures SlotAccount(s.(conn := d), k, x', y')
  {
  }

  /** The payload moved for `k` behind the announcements. */
  lemma AnnouncedShares(h: Host, d: Handled, k: byte)
    requires |d.conns| == |h.table|
    ensures
      var e := Announced(h, d);
      && SentFor(e, k) == (if Command(CMD_NEW, k) in d.said then [] else SentFor(h, k))
      && (TakenFor(e, k).Some? ==>
            TakenFor(h, k).Some?
            && TakenFor(e, k).value == if Command(CMD_NEW, k) in d.said then [] else TakenFor(h, k).value)
  {
    hide Carried, Emits;
    MoreEvents(h, Announced(h, d), Emits(d.said), k);
    CarriedOrders(Outward, SentFor(h, k), d.said, |d.said|, k);
    if !h.smeared {
      CarriedOrders(Inward, TakenFor(h, k).value, d.said, |d.said|, k);
    }
    assert d.said[..|d.said|] == d.said;
  }

  lemma HandleKeepsAccount(h: Host, s: Sorted, k: byte)
    requires |h.queue| <= QUEUE_SIZE && s.conns == Conns(h.table) && InAccount(h, k) && k != 0
    requires Partition(s.free, s.conns) && IndexOk(s.conns, s.index)
    ensures InAccount(Announced(h, HandledAll(h, s)), k)
  {
    hide HandleUpTo, SlotAccount, SentFor, TakenFor, Announces, Partition, Emits;
    var d0 := Handled(s.conns, s.free, s.index, [], QUEUE_SIZE - |h.queue|, false);
    var d := HandledAll(h, s);
    var e := Announced(h, d);
    AnnouncedShares(h, d, k);
    forall i | 0 <= i < |h.table|
      ensures SlotAccount(e.table[i], k, SentFor(e, k), TakenFor(e, k))
    {
      HandleEach(d0, MAX_STACK_SIZE, i);
      if Holds(s.conns[i], k) {
        NewOnlyIfNew(d0, i, k);
      }
      AnnouncedSlot(h.table[i], d.conns[i], d.said, k, SentFor(h, k), TakenFor(h, k), SentFor(e, k), TakenFor(e, k));
    }
  }

  /** When the end of the source, or of the connection, is said, all bytes read from its socket have
      been put into the tunnel, since its NEW. */
  lemma EndSaidMeansAllSent(h: Host, s: Sorted, k: byte)
    requires |h.queue| <= QUEUE_SIZE && s.conns == Conns(h.table) && InAccount(h, k) && k != 0
    requires Partition(s.free, s.conns) && IndexOk(s.conns, s.index) && !HandledAll(h, s).again
    requires var said := HandledAll(h, s).said;
             Command(CMD_CLOSE_SRC_TO_DST, k) in said || Command(CMD_CLOSE, k) in said
    ensures
      && k as int in s.index
      && var c := h.table[s.index[k]];
      && Holds(c.conn, k)
      && (c.read.Some? ==> c.read.value == SentFor(Announced(h, HandledAll(h, s)), k))
  {
    hide HandleUpTo, OwedUpTo, Owed, SentFor, TakenFor, Partition, Emits;
    var n := MAX_STACK_SIZE;
    var d0 := Handled(s.conns, s.free, s.index, [], QUEUE_SIZE - |h.queue|, false);
    var d := HandledAll(h, s);
    HandleSaysOwed(d0, true, n);
    OwedIff(s.conns, s.index, n, k, CMD_CLOSE);
    OwedIff(s.conns, s.index, n, k, CMD_CLOSE_SRC_TO_DST);
    OwedIff(s.conns, s.index, n, k, CMD_NEW);
    var c := s.conns[s.index[k]];
    OwedCases(c);
    AnnouncedShares(h, d, k);
    EmptyAccount(h.table[s.index[k]], k, SentFor(h, k), TakenFor(h, k));
  }

  lemma EmptyAccount(s: Slot, k: byte, x: seq<byte>, y: Option<seq<byte>>)
    requires SlotAccount(s, k, x, y) && Holds(s.conn, k) && s.conn.inb.length == 0
    ensures s.read.Some? ==> s.read.value == if s.conn.state.isNew then [] else x
  {
    if s.read.Some? {
      ContentsLength(s.conn.inb);
    }
  }

  // ---------------------------------------------------------------- the pump

  /** What a command of the peer may do to a connection. */
  predicate Obeys(c: Conn, d: Conn) {
    && d.id == c.id && d.inb == c.inb && d.outb == c.outb && (c.state.delete ==> d.state.delete)
    && d.state.isNew == c.state.isNew
  }

  lemma ReactedEach(v: Variant, h: Host, c: Command, i: nat)
    requires FromPeer(c) && i < |h.table|
    ensures
      var e := Reacted(v, h, c);
      |e.table| == |h.table| && e.table[i] == h.table[i].(conn := e.table[i].conn)
      && Obeys(h.table[i].conn, e.table[i].conn)
  {
    hide Find, PeerEvents, ReleasesTwice;
  }

  lemma ObeyedSlot(s: Slot, d: Conn, k: byte, x: seq<byte>, y: Option<seq<byte>>)
    requires SlotAccount(s, k, x, y) && Obeys(s.conn, d)
    ensures SlotAccount(s.(conn := d), k, x, y)
  {
  }

  lemma ReactedKeepsAccount(v: Variant, h: Host, c: Command, k: byte)
    requires InAccount(h, k) && FromPeer(c)
    ensures InAccount(Reacted(v, h, c), k)
  {
    hide SlotAccount, Carried, Obeys, PeerEvents, ReleasesTwice, OnCommand;
    var e := Reacted(v, h, c);
    MoreEvents(h, e, PeerEvents(ControlOf(h), c), k);
    CarriedPeer(Outward, SentFor(h, k), ControlOf(h), c, k);
    if !h.smeared {
      CarriedPeer(Inward, TakenFor(h, k).value, ControlOf(h), c, k);
    }
    forall i | 0 <= i < |h.table|
      ensures SlotAccount(e.table[i], k, SentFor(e, k), TakenFor(e, k))
    {
      ReactedEach(v, h, c, i);
      ObeyedSlot(h.table[i], e.table[i].conn, k, SentFor(h, k), TakenFor(h, k));
    }
  }

  /** The frames of a pass, and the in_buf of the connection that they are taken from. */
  lemma SendingDivides(v: Variant, h: Host, index: map<int, nat>, k: byte)
    requires Usable(Conns(h.table), index) && k in Sources(Conns(h.table), index)
    ensures
      var p := Sending(v, h, index).1;
      Payload(AtomsAll(p.items, |p.items|), k) + p.srcs[k].Contents() == Conns(h.table)[index[k]].inb.Contents()
  {
    SendingIsValid(h, index);
    hide Transfer;
    TransferDivides(v, h.queue, h.table[index[0]].conn.outb, Sources(Conns(h.table), index), h.from, k);
  }

  lemma {:induction false} NoFramesOf(frames: seq<Item>, n: nat, k: byte)
    requires n <= |frames| && forall i :: 0 <= i < |frames| ==> frames[i].Data? && frames[i].id != k
    ensures Payload(AtomsAll(frames, n), k) == []
  {
    hide AtomsAll, Payload;
    if n == 0 {
      NothingCarried([], frames, k);
    } else {
      NoFramesOf(frames, n - 1, k);
      OneFrameMore([], frames, n, k);
      assert [] + Payload(AtomsAll(frames, n), k) == Payload(AtomsAll(frames, n), k);
    }
  }

  /** A connection whose buffers stay. */
  lemma IdleSlot(
      s: Slot, d: Conn, k: byte, x: seq<byte>, y: Option<seq<byte>>, x': seq<byte>, y': Option<seq<byte>>)
    requires SlotAccount(s, k, x, y) && SameButBuffers(s.conn, d) && d.inb == s.conn.inb && d.outb == s.conn.outb
    requires Holds(s.conn, k) && !s.conn.state.isNew ==> x' == x && (y'.Some? ==> y' == y)
    ensures SlotAccount(s.(conn := d), k, x', y')
  {
  }

  /** The connection whose in_buf the pass may have taken from. */
  lemma SourceSlot(s: Slot, d: Conn, k: byte, x: seq<byte>, y: Option<seq<byte>>, sent: seq<byte>)
    requires SlotAccount(s, k, x, y) && SameButBuffers(s.conn, d) && Holds(s.conn, k) && !s.conn.state.isNew
    requires s.conn.inb.Valid() && d.inb.Valid() && sent + d.inb.Contents() == s.conn.inb.Contents()
    requires d.outb == s.conn.outb
    ensures SlotAccount(s.(conn := d), k, x + sent, y)
  {
    hide Ring.Contents;
    assert x + (sent + d.inb.Contents()) == (x + sent) + d.inb.Contents();
  }

  /** The connection whose out_buf the receiver may have filled. */
  lemma TargetSlot(s: Slot, d: Conn, k: byte, x: seq<byte>, y: Option<seq<byte>>, taken: seq<byte>)
    requires SlotAccount(s, k, x, y) && SameButBuffers(s.conn, d) && Holds(s.conn, k) && !s.conn.state.isNew
    requires s.conn.outb.Valid() && d.outb.Valid() && d.outb.Contents() == s.conn.outb.Contents() + taken
    requires d.inb == s.conn.inb
    ensures SlotAccount(s.(conn := d), k, x, if y.None? then None else Some(y.value + taken))
  {
    hide Ring.Contents;
    assert (s.written + s.conn.outb.Contents()) + taken == s.written + (s.conn.outb.Contents() + taken);
  }

  lemma OtherSlot(s: Slot, d: Conn, k: byte, x: seq<byte>, y: Option<seq<byte>>)
    requires SameButBuffers(s.conn, d) && !Holds(s.conn, k) && s.conn.id != -1
    ensures SlotAccount(s.(conn := d), k, x, y)
  {
  }

  // ---------------------------------------------------------------- the receiving half

  /** A call that overwrites nothing puts into the out_buf of `k` what it read for it. */
  lemma HearHands(v: Variant, h: Host, index: map<int, nat>, k: byte)
    requires Usable(Conns(h.table), index) && Hear(v, h, index).fault.NoFault?
    requires k in Outs(Conns(h.table), index)
    ensures
      var old_, new_ := Hearing(h, index).outs[k], Hear(v, h, index).outs[k];
      old_.Valid() && new_.Valid() && new_.Contents() == old_.Contents() + Payload(Hear(v, h, index).got, k)
  {
    hide Usable, TargetThere, Outs, PayloadUpTo;
    var r := Hearing(h, index);
    var c := r.outs[k].Contents();
    PayloadOfBytes(k, c, k);
    assert Bytes(k, c) + [] == Bytes(k, c);
    assert [] + c == c;
    ReceiveHands(v, r, Bytes(k, c), [], k);
    var n := Receiver.Receive(v, r);
    assert [] + n.outs[k].Contents() == n.outs[k].Contents();
    PayloadConcat(Bytes(k, c), n.got, k);
  }

  lemma HearsNobodyElse(v: Variant, h: Host, index: map<int, nat>, k: byte)
    requires Usable(Conns(h.table), index) && k !in Outs(Conns(h.table), index)
    ensures Payload(Hear(v, h, index).got, k) == []
  {
    hide Usable, TargetThere, Outs;
    ReceiveKeepsSilent(v, Hearing(h, index), k);
  }

  /** What has come out of the tunnel for `k` behind a call that read `got`. */
  function MoreTaken(h: Host, got: seq<Atom>, k: byte, ok: bool): Option<seq<byte>> {
    if TakenFor(h, k).None? || !ok then None else Some(TakenFor(h, k).value + Payload(got, k))
  }

  lemma HeardShares(h: Host, index: map<int, nat>, r: Received, k: byte)
    requires Usable(Conns(h.table), index)
    ensures
      var e := Listened(h, index, r);
      SentFor(e, k) == SentFor(h, k) && TakenFor(e, k) == MoreTaken(h, r.got, k, !r.fault.WroteOverData?)
  {
    hide Usable, HeardConns, Carried;
    var e := Listened(h, index, r);
    MoreEvents(h, e, Takes(r.got), k);
    CarriedTakes(Outward, SentFor(h, k), r.got, |r.got|, k);
    assert SentFor(h, k) + [] == SentFor(h, k);
    if !e.smeared {
      CarriedTakes(Inward, TakenFor(h, k).value, r.got, |r.got|, k);
    }
  }

  /** Receiving fills the out_buf of connection `i`, or leaves it as it is. */
  lemma HeardBuffers(cs: seq<Conn>, index: map<int, nat>, r: Received, i: nat)
    requires Usable(cs, index) && IndexOk(cs, index) && i < |cs| && cs[i].id != 0
    ensures
      var d := HeardConn(cs, index, r, i);
      && SameButBuffers(cs[i], d) && d.inb == cs[i].inb
      && (cs[i].id !in index ==> d.outb == cs[i].outb)
      && (cs[i].id in index && index[cs[i].id] == i && cs[i].id in r.outs ==> d.outb == r.outs[cs[i].id])
  {
  }

  /** The out_buf of the holder of `k` takes what was read for it. */
  lemma HeardHolder(v: Variant, h: Host, index: map<int, nat>, i: nat, k: byte, x: seq<byte>)
    requires IndexOk(Conns(h.table), index) && PumpTable(Conns(h.table), index) && PumpOk(v, h, index) && k != 0
    requires i < |h.table| && Holds(Conns(h.table)[i], k) && k as int in index && index[k] == i
    requires SlotAccount(h.table[i], k, x, TakenFor(h, k))
    ensures
      var r := Hear(v, h, index);
      SlotAccount(h.table[i].(conn := HeardConn(Conns(h.table), index, r, i)), k, x,
                  MoreTaken(h, r.got, k, !r.fault.WroteOverData?))
  {
    hide Hear, SlotAccount, Payload, TakenFor, HeardConn, TargetThere, IndexOk, PumpTable;
    var cs, r := Conns(h.table), Hear(v, h, index);
    var d := HeardConn(cs, index, r, i);
    HeardBuffers(cs, index, r, i);
    assert !cs[i].state.isNew by { PumpTableAt(cs, index, k); }
    assert cs[i].Valid();
    if r.fault.WroteOverData? {
      SmearedSlot(h.table[i], d, k, x, TakenFor(h, k));
    } else {
      HearHands(v, h, index, k);
      TargetSlot(h.table[i], d, k, x, TakenFor(h, k), Payload(r.got, k));
    }
  }

  lemma PumpTableAt(cs: seq<Conn>, index: map<int, nat>, k: byte)
    requires PumpTable(cs, index) && k != 0 && k as int in index && index[k] < |cs|
    ensures !cs[index[k]].state.isNew
  {
  }

  lemma SmearedSlot(s: Slot, d: Conn, k: byte, x: seq<byte>, y: Option<seq<byte>>)
    requires SlotAccount(s, k, x, y) && SameButBuffers(s.conn, d) && Holds(s.conn, k) && !s.conn.state.isNew
    requires d.inb == s.conn.inb
    ensures SlotAccount(s.(conn := d), k, x, None)
  {
  }

  /** A holder of `k` that the pump does not know. */
  lemma UnheardHolder(v: Variant, h: Host, index: map<int, nat>, i: nat, k: byte, x: seq<byte>)
    requires IndexOk(Conns(h.table), index) && PumpOk(v, h, index) && k != 0
    requires i < |h.table| && Holds(Conns(h.table)[i], k) && k as int !in index
    requires SlotAccount(h.table[i], k, x, TakenFor(h, k))
    ensures
      var r := Hear(v, h, index);
      SlotAccount(h.table[i].(conn := HeardConn(Conns(h.table), index, r, i)), k, x,
                  MoreTaken(h, r.got, k, !r.fault.WroteOverData?))
  {
    hide Hear, SlotAccount, Payload, TakenFor, HeardConn, TargetThere, IndexOk, Usable;
    var cs, r := Conns(h.table), Hear(v, h, index);
    HeardBuffers(cs, index, r, i);
    HearsNobodyElse(v, h, index, k);
    assert TakenFor(h, k).Some? ==> TakenFor(h, k).value + [] == TakenFor(h, k).value;
    IdleSlot(h.table[i], HeardConn(cs, index, r, i), k, x, TakenFor(h, k), x,
             MoreTaken(h, r.got, k, !r.fault.WroteOverData?));
  }

  lemma HeardSlot(v: Variant, h: Host, index: map<int, nat>, i: nat, k: byte, x: seq<byte>)
    requires NamesOk(h) && IndexOk(Conns(h.table), index) && PumpTable(Conns(h.table), index) && k != 0
    requires PumpOk(v, h, index) && i < |h.table| && SlotAccount(h.table[i], k, x, TakenFor(h, k))
    ensures
      var r := Hear(v, h, index);
      SlotAccount(h.table[i].(conn := HeardConn(Conns(h.table), index, r, i)), k, x,
                  MoreTaken(h, r.got, k, !r.fault.WroteOverData?))
  {
    hide NamesOk, Usable, TargetThere, Hear, SlotAccount, Payload, TakenFor, MoreTaken, HeardConn, PumpTable;
    var cs, r := Conns(h.table), Hear(v, h, index);
    var d := HeardConn(cs, index, r, i);
    var y' := MoreTaken(h, r.got, k, !r.fault.WroteOverData?);
    if Holds(cs[i], k) {
      if k as int in index {
        OnlyHolder(h, i, index[k], k);
        HeardHolder(v, h, index, i, k, x);
      } else {
        UnheardHolder(v, h, index, i, k, x);
      }
    } else if cs[i].id != -1 {
      HeardSame(cs, index, r);
      assert HeardConns(cs, index, r)[i] == d;
      OtherSlot(h.table[i], d, k, x, y');
    } else {
      HeardBuffers(cs, index, r, i);
      IdleSlot(h.table[i], d, k, x, TakenFor(h, k), x, y');
    }
  }

  lemma ListenedKeepsAccount(v: Variant, h: Host, index: map<int, nat>, k: byte)
    requires NamesOk(h) && IndexOk(Conns(h.table), index) && PumpTable(Conns(h.table), index) && k != 0
    requires PumpOk(v, h, index) && InAccount(h, k)
    ensures InAccount(Listened(h, index, Hear(v, h, index)), k)
  {
    hide NamesOk, Hear, SlotAccount, SentFor, TakenFor, MoreTaken, HeardConn, IndexOk, PumpTable, Usable, TargetThere;
    var r := Hear(v, h, index);
    var e := Listened(h, index, r);
    HeardShares(h, index, r, k);
    forall i | 0 <= i < |h.table|
      ensures SlotAccount(e.table[i], k, SentFor(e, k), TakenFor(e, k))
    {
      HeardSlot(v, h, index, i, k, SentFor(h, k));
    }
  }

  lemma OnlyHolder(h: Host, i: nat, j: nat, k: byte)
    requires NamesOk(h) && k != 0 && i < |h.table| && j < |h.table|
    requires Holds(Conns(h.table)[i], k) && Holds(Conns(h.table)[j], k)
    ensures i == j
  {
    hide Times, Holders;
    assert Assigned(h.free, Conns(h.table), k);
    OneHolder(h.free, Conns(h.table), i, j, k);
  }

  lemma SentAt(cs: seq<Conn>, index: map<int, nat>, p: Pass, i: nat)
    requires Usable(cs, index) && i < |cs|
    ensures 0 in index && SameButBuffers(cs[i], SentConn(cs, index, p, i))
    ensures i != index[0] ==>
      SentConn(cs, index, p, i).inb == InAfter(cs, index, p, i) && SentConn(cs, index, p, i).outb == cs[i].outb
  {
    hide InAfter, Conn.Valid;
  }

  /** A connection behind the pass. */
  lemma PassedSlot(v: Variant, h: Host, index: map<int, nat>, i: nat, k: byte, x: seq<byte>, y: Option<seq<byte>>)
    requires NamesOk(h) && PumpTable(Conns(h.table), index) && Usable(Conns(h.table), index) && k != 0
    requires i < |h.table| && Conns(h.table)[index[0]].id == 0 && SlotAccount(h.table[i], k, x, y)
    ensures
      var p := Sending(v, h, index).1;
      SlotAccount(h.table[i].(conn := SentConn(Conns(h.table), index, p, i)), k,
                  x + Payload(AtomsAll(p.items, |p.items|), k), y)
  {
    hide NamesOk, Usable, SentConn, Sending, SlotAccount, SameButBuffers, Payload, AtomsAll;
    var cs, p := Conns(h.table), Sending(v, h, index).1;
    var d := SentConn(cs, index, p, i);
    SentAt(cs, index, p, i);
    if i == index[0] {
      OtherSlot(h.table[i], d, k, x + Payload(AtomsAll(p.items, |p.items|), k), y);
    } else if k in Sources(cs, index) && i == index[k] {
      SendingDivides(v, h, index, k);
      SendingSound(v, h, index, i, k);
      SourceSlot(h.table[i], d, k, x, y, Payload(AtomsAll(p.items, |p.items|), k));
    } else if h.table[i].conn.id != -1 && !Holds(h.table[i].conn, k) {
      OtherSlot(h.table[i], d, k, x + Payload(AtomsAll(p.items, |p.items|), k), y);
    } else {
      if k in Sources(cs, index) {
        if Holds(h.table[i].conn, k) {
          OnlyHolder(h, i, index[k], k);
        }
      } else {
        SendingObeysFlags(v, h, index);
        NoFramesOf(p.items, |p.items|, k);
        assert x + [] == x;
      }
      IdleSlot(h.table[i], d, k, x, y, x + Payload(AtomsAll(p.items, |p.items|), k), y);
    }
  }

  lemma SendingSound(v: Variant, h: Host, index: map<int, nat>, i: nat, k: byte)
    requires Usable(Conns(h.table), index) && k in Sources(Conns(h.table), index) && i == index[k]
    requires i < |h.table|
    ensures h.table[i].conn.inb.Valid() && Sending(v, h, index).1.srcs[k].Valid()
  {
    SendingIsValid(h, index);
    assert Conns(h.table)[i].Valid();
  }

  /** The command that the call read keeps names and table, and the tunnel. */
  lemma AnswerKeepsRest(v: Variant, h: Host, index: map<int, nat>)
    requires NamesOk(h) && PumpTable(Conns(h.table), index) && PumpOk(v, h, index)
    requires Conns(h.table)[index[0]].id == 0 && !Answered(v, h, index).twice
    ensures
      var h1 := Answered(v, h, index);
      && NamesOk(h1) && PumpTable(Conns(h1.table), index) && |h1.table| == |h.table|
      && Conns(h1.table)[index[0]].id == 0
  {
    hide NamesOk, PumpTable, TargetThere, Hear, Reacted, Listened, HeardConns;
    AnswerKeepsNames(v, h, index);
    AnswerKeepsTable(v, h, index);
    TunnelAnswered(v, h, index);
  }

  lemma TunnelAnswered(v: Variant, h: Host, index: map<int, nat>)
    requires PumpOk(v, h, index) && Conns(h.table)[index[0]].id == 0
    ensures var h1 := Answered(v, h, index); |h1.table| == |h.table| && Conns(h1.table)[index[0]].id == 0
  {
    hide TargetThere, Hear, Reacted, HeardConns;
    var r := Hear(v, h, index);
    var h0 := Listened(h, index, r);
    HeardSame(Conns(h.table), index, r);
    assert Conns(h0.table)[index[0]].id == 0;
    if OrderOf(r.got).Some? {
      ReactedEach(v, h0, OrderOf(r.got).value, index[0]);
    }
  }

  lemma AnswerKeepsAccount(v: Variant, h: Host, index: map<int, nat>, k: byte)
    requires NamesOk(h) && IndexOk(Conns(h.table), index) && PumpTable(Conns(h.table), index) && k != 0
    requires PumpOk(v, h, index) && InAccount(h, k)
    ensures InAccount(Answered(v, h, index), k)
  {
    hide NamesOk, InAccount, IndexOk, PumpTable, Usable, TargetThere, Hear, Reacted, Listened;
    ListenedKeepsAccount(v, h, index, k);
    var r := Hear(v, h, index);
    if OrderOf(r.got).Some? {
      ReactedKeepsAccount(v, Listened(h, index, r), OrderOf(r.got).value, k);
    }
  }

  lemma SentShares(h: Host, e: Host, frames: seq<Item>, k: byte)
    requires e.log == h.log + FrameEvents(frames) && e.smeared == h.smeared
    requires forall i :: 0 <= i < |frames| ==> frames[i].Data?
    ensures SentFor(e, k) == SentFor(h, k) + Payload(AtomsAll(frames, |frames|), k) && TakenFor(e, k) == TakenFor(h, k)
  {
    hide Carried, FrameEvents, AtomsAll, Payload;
    MoreEvents(h, e, FrameEvents(frames), k);
    CarriedFrames(Outward, SentFor(h, k), frames, |frames|, k);
    if !h.smeared {
      CarriedFrames(Inward, TakenFor(h, k).value, frames, |frames|, k);
      assert TakenFor(h, k).value + [] == TakenFor(h, k).value;
    }
  }

  lemma PumpKeepsAccount(v: Variant, h: Host, index: map<int, nat>, k: byte)
    requires NamesOk(h) && IndexOk(Conns(h.table), index) && PumpTable(Conns(h.table), index) && k != 0
    requires PumpOk(v, h, index) && Conns(h.table)[index[0]].id == 0 && InAccount(h, k)
    requires !Pumped(v, h, index).twice
    ensures InAccount(Pumped(v, h, index), k)
  {
    hide NamesOk, IndexOk, PumpTable, Usable, SentConn, Sending, SlotAccount, SentFor, TakenFor, Payload, AtomsAll,
      FrameEvents, Answered, PumpOk;
    var h1 := Answered(v, h, index);
    AnswerKeepsAccount(v, h, index, k);
    AnswerKeepsRest(v, h, index);
    var (s, p) := Sending(v, h1, index);
    OrdersSame(v, h1, s);
    var e := Pumped(v, h, index);
    SendingObeysFlags(v, h1, index);
    SentShares(h1, e, p.items, k);
    forall i | 0 <= i < |h1.table|
      ensures SlotAccount(e.table[i], k, SentFor(e, k), TakenFor(e, k))
    {
      PassedSlot(v, h1, index, i, k, SentFor(h1, k), TakenFor(h1, k));
    }
  }

  // ---------------------------------------------------------------- whole runs

  lemma TunnelHeld(cs: seq<Conn>, index: map<int, nat>)
    requires IndexOk(cs, index) && 0 in index
    ensures index[0] < |cs| && Holds(cs[index[0]], 0)
  {
  }

  lemma BehindKeepsAccount(v: Variant, h: Host, k: byte)
    requires NamesOk(h) && NoneDeleted(Conns(h.table)) && k != 0 && InAccount(h, k) && !Behind(v, h).twice
    ensures InAccount(Behind(v, h), k)
  {
    hide Partition, IndexOk, NoneDeleted, Sort, SortUpTo, HandledAll, PumpOk, Pumped, InAccount, PumpTable, Stops;
    var cs := Conns(h.table);
    SortKeeps(cs, h.free, |cs|);
    var s := Sort(cs, h.free);
    SortIsAll(cs, h.free);
    var h2 := Named(h, s);
    SortKeepsAccount(h, k);
    if !Stops(s) {
      SameHandled(h, h2, s);
      HandleKeepsAccount(h2, s, k);
      var d := HandledAll(h, s);
      var h3 := Announced(h2, d);
      SameAccount(h3, h3.(strayed := true), k);
      if !d.again && PumpOk(v, h3, d.index) {
        HandledNames(h, s);
        AnnouncedTable(h, s);
        AnnouncedFits(h, s);
        PumpHasTunnel(v, h3, d.index);
        TunnelHeld(d.conns, d.index);
        PumpKeepsAccount(v, h3, d.index, k);
      }
    }
  }

  lemma SameAccount(h: Host, h': Host, k: byte)
    requires InAccount(h, k) && h'.table == h.table && h'.log == h.log && h'.smeared == h.smeared
    ensures InAccount(h', k)
  {
  }

  lemma SortIsAll(cs: seq<Conn>, free: seq<int>)
    ensures Sort(cs, free) == SortUpTo(cs, free, |cs|)
  {
  }

  lemma SameHandled(h: Host, h': Host, s: Sorted)
    requires |h.queue| <= QUEUE_SIZE && h'.queue == h.queue
    requires forall k :: k in s.index ==> s.index[k] < |s.conns|
    ensures HandledAll(h', s) == HandledAll(h, s)
  {
  }

  ghost predicate Counted(h: Host, k: byte) {
    NamesOk(h) && InAccount(h, k)
  }

  lemma NextKeepsAccount(v: Variant, h: Host, u: PollInput, k: byte)
    requires k != 0 && (h.twice || Counted(h, k))
    ensures var e := Next(v, h, u); e.twice || Counted(e, k)
  {
    hide NamesOk, InAccount, Behind, Poll, PollOk, NoneDeleted;
    MarksStay(v, h, u);
    NextKeepsNames(v, h, u);
    if !h.strayed && !Next(v, h, u).twice && PollOk(h.table, u) && |h.queue| <= QUEUE_SIZE {
      PollKeepsAccount(h, u, k);
      PollKeepsNames(h, u);
      if u.completes {
        PollLeavesNoneDeleted(h.table, u);
        BehindKeepsAccount(v, Polled(h, u), k);
      }
    }
  }

  lemma StartIsCounted(h: Host, k: byte)
    requires IsStart(h) && k != 0
    ensures Counted(h, k)
  {
    hide NamesOk;
    StartNames(h);
  }

  lemma RunCounts(v: Variant, h: Host, us: seq<PollInput>, k: byte)
    requires IsStart(h) && k != 0
    ensures Run(v, h, us).twice || Counted(Run(v, h, us), k)
  {
    hide Next, Counted;
    StartIsCounted(h, k);
    forall x: Host, u | x.twice || Counted(x, k)
      ensures Next(v, x, u).twice || Counted(Next(v, x, u), k)
    {
      NextKeepsAccount(v, x, u, k);
    }
    RunKeeps((x, u) => Next(v, x, u), (x: Host) => x.twice || Counted(x, k), h, us, |us|);
  }

  /** In every run that releases no identifier twice, for every connection at every time: all bytes
      ever read from its socket are, in order, the payload put into the tunnel for its identifier
      since its own NEW, and behind it what waits in its in_buf. Nothing of an earlier connection
      with the same identifier is among them. The record of the bytes read ends at a read that
      meets a wrap. */
  lemma EveryByteIsAccounted(v: Variant, h: Host, us: seq<PollInput>, k: byte, i: nat)
    requires IsStart(h) && k != 0 && !Run(v, h, us).twice
    requires i < |Run(v, h, us).table| && Holds(Run(v, h, us).table[i].conn, k)
    requires Run(v, h, us).table[i].read.Some?
    ensures
      var e := Run(v, h, us);
      var s := e.table[i];
      s.conn.inb.Valid()
      && s.read.value == (if s.conn.state.isNew then [] else SentFor(e, k)) + s.conn.inb.Contents()
  {
    hide Run, Counted, SentFor, TakenFor;
    RunCounts(v, h, us, k);
    CountedAt(Run(v, h, us), k, i);
  }

  /** The other way round, as long as no out_buf was overwritten: all bytes ever written to its
      socket, and behind them what waits in its out_buf, are the payload that came out of the tunnel
      for its identifier since its own NEW. */
  lemma EveryByteIsDelivered(v: Variant, h: Host, us: seq<PollInput>, k: byte, i: nat)
    requires IsStart(h) && k != 0 && !Run(v, h, us).twice && !Run(v, h, us).smeared
    requires i < |Run(v, h, us).table| && Holds(Run(v, h, us).table[i].conn, k)
    ensures
      var e := Run(v, h, us);
      var s := e.table[i];
      s.conn.outb.Valid() && TakenFor(e, k).Some?
      && s.written + s.conn.outb.Contents() == if s.conn.state.isNew then [] else TakenFor(e, k).value
  {
    hide Run, Counted, SentFor, Carried;
    RunCounts(v, h, us, k);
    CountedAt(Run(v, h, us), k, i);
  }

  lemma CountedAt(h: Host, k: byte, i: nat)
    requires Counted(h, k) && i < |h.table| && Holds(h.table[i].conn, k)
    ensures
      var s := h.table[i];
      && ReadIs(s, if s.conn.state.isNew then [] else SentFor(h, k))
      && (if s.conn.state.isNew then WrittenIs(s, []) else TakenFor(h, k).Some? ==> WrittenIs(s, TakenFor(h, k).value))
  {
    hide NamesOk, Carried, ReadIs, WrittenIs;
    assert SlotAccount(h.table[i], k, SentFor(h, k), TakenFor(h, k));
  }
}
