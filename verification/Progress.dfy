/** What a turn of the pump, and an `update`, must do: they send what waits and read what has come. */
module Progress {
  import opened Basics
  import opened Ring
  import opened Framing
  import opened Wire
  import opened Payloads
  import opened Connections
  import opened Slots
  import opened Receiver
  import opened ReadBack
  import opened Scheduling
  import opened Protocol
  import opened Identifiers
  import opened Duties
  import opened Grammar
  import opened Accounts
  import opened Runs
  import opened H = Host

  // ---------------------------------------------------------------- sending

  /** Bytes wait in the in_buf of connection `k`, and nothing keeps the pump from sending them. */
  predicate Waits(c: Conn, k: byte) {
    c.id == k as int && !Over(c.state) && !Over(c.inState) && c.inb.length > 0
  }

  /** The items of a turn that put `sent` into the tunnel serve connection `k`, or they end because the
      out_buf has no room left for the connection that is to be served first in the next turn, and
      comes no later than `k` in this one. */
  ghost predicate Serves(from: nat, e: Host, index: map<int, nat>, items: seq<Item>, k: byte, bytes: seq<byte>)
    requires Usable(Conns(e.table), index) && bytes != [] && k != 0 && from <= 255
  {
    || HasFrame(items, k, bytes)
    || (1 <= e.from <= 255 && e.from as int in index && index[e.from] < |e.table|
        && VisitOf(from, e.from) <= VisitOf(from, k)
        && NoRoomFor(e.from, Conns(e.table)[index[e.from]].inb.Contents(), Conns(e.table)[index[0]].outb.Free()))
  }

  lemma WaitsMaySend(cs: seq<Conn>, index: map<int, nat>, i: nat, k: byte)
    requires Usable(cs, index) && k != 0 && k as int in index && index[k] == i && i < |cs| && Waits(cs[i], k)
    ensures k in Sources(cs, index) && Sources(cs, index)[k] == cs[i].inb && cs[i].Valid()
  {
  }

  /** The sending half of a turn, from a state behind its receiving half. */
  lemma SendingServes(v: Variant, h: Host, index: map<int, nat>, i: nat, k: byte)
    requires Usable(Conns(h.table), index) && PumpTable(Conns(h.table), index) && h.from <= 255
    requires k != 0 && k as int in index && index[k] == i && i < |h.table| && Waits(Conns(h.table)[i], k)
    requires i != index[0]
    ensures
      var (s, p) := Sending(v, h, index);
      var cs := Conns(h.table);
      && cs[index[0]].outb.Valid() && cs[i].inb.Valid() && cs[i].inb.Contents() != [] && p.Valid()
      && s.n == Min(|h.queue|, cs[index[0]].outb.Free() / 5)
      && (cs[index[0]].outb.Free() >= 5 * |h.queue| ==>
            HasFrame(p.items, k, cs[i].inb.Contents()) || BlockedBefore(p, h.from, k))
  {
    hide HasFrame, BlockedBefore, Transfer, Conn.Valid, Waits;
    var cs := Conns(h.table);
    WaitsMaySend(cs, index, i, k);
    WaitsLength(cs[i], k);
    SendingIsValid(h, index);
    TunnelValid(cs, index);
    TransferServes(v, h.queue, cs[index[0]].outb, Sources(cs, index), h.from, k);
    ConnValid(cs[i]);
  }

  lemma WaitsLength(c: Conn, k: byte)
    requires Waits(c, k)
    ensures c.inb.length > 0
  {
  }

  lemma ConnValid(c: Conn)
    requires c.Valid()
    ensures c.inb.Valid() && c.outb.Valid()
  {
  }

  lemma TunnelValid(cs: seq<Conn>, index: map<int, nat>)
    requires Usable(cs, index)
    ensures cs[index[0]].outb.Valid() && cs[index[0]].inb.Valid()
  {
    assert cs[index[0]].Valid();
  }

  lemma BlockedAtNext(h: Host, e: Host, index: map<int, nat>, p: Pass, k: byte, bytes: seq<byte>)
    requires Usable(Conns(h.table), index) && PumpTable(Conns(h.table), index) && h.from <= 255 && k != 0
    requires Conns(h.table)[index[0]].id == 0 && bytes != []
    requires p.Valid() && p.srcs.Keys == Sources(Conns(h.table), index).Keys && BlockedBefore(p, h.from, k)
    requires Conns(e.table) == SentConns(Conns(h.table), index, p) && e.from == p.blocked.value as nat
    requires Usable(Conns(e.table), index)
    ensures Serves(h.from, e, index, p.items, k, bytes)
  {
    hide NoRoomFor, VisitOf, Conn.Valid, HasFrame;
    var cs, b := Conns(h.table), p.blocked.value;
    assert MaySend(cs, index, b);
    assert index[b] != index[0];
    assert SentConn(cs, index, p, index[b]).inb == p.srcs[b];
  }

  lemma SentUsable(v: Variant, h: Host, index: map<int, nat>)
    requires Usable(Conns(h.table), index)
    ensures Usable(SentConns(Conns(h.table), index, Sending(v, h, index).1), index)
  {
    hide Transfer;
    SendingIsValid(h, index);
    var cs, p := Conns(h.table), Sending(v, h, index).1;
    forall i | 0 <= i < |cs|
      ensures SentConns(cs, index, p)[i].Valid()
    {
      assert cs[i].Valid();
    }
  }

  lemma AllOrders(q: seq<Command>, n: nat)
    requires n == |q|
    ensures q[..n] == q && q[n..] == []
  {
  }

  lemma MoreWire(w: seq<Item>, a: seq<Item>, b: seq<Item>)
    ensures w + a <= w + a + b && (w + a + b)[|w + a|..] == b
  {
  }

  /** The sending half of a turn: with five free bytes per command in the tunnel's out_buf the queue is
      emptied into the tunnel, and behind its commands comes a frame of `k`, or the turn ends for want
      of room at a connection no later than `k`, behind which the next turn starts. With less, the
      commands that fit are put in. */
  lemma SentServes(v: Variant, h: Host, e: Host, index: map<int, nat>, i: nat, k: byte)
    requires Usable(Conns(h.table), index) && PumpTable(Conns(h.table), index) && h.from <= 255
    requires k != 0 && k as int in index && index[k] == i && i < |h.table| && Waits(Conns(h.table)[i], k)
    requires Conns(h.table)[index[0]].id == 0
    requires var (s, p) := Sending(v, h, index);
             e == WithFrames(WithOrders(v, h, s), p, SentConns(Conns(h.table), index, p))
    ensures Usable(Conns(e.table), index) && |e.table| == |h.table| && 0 in index && index[0] < |h.table|
    ensures
      var cs := Conns(h.table);
      && cs[index[0]].outb.Valid() && cs[i].inb.Valid() && cs[i].inb.Contents() != []
      && var room := cs[index[0]].outb.Free();
      && (room >= 5 * |h.queue| ==>
            && e.queue == [] && h.wire + Orders(h.queue) <= e.wire
            && Serves(h.from, e, index, e.wire[|h.wire + Orders(h.queue)|..], k, cs[i].inb.Contents()))
      && (room < 5 * |h.queue| ==> e.wire == h.wire + Orders(h.queue[..room / 5]))
  {
    hide Usable, PumpTable, Sending, SentConns, Waits, Serves, HasFrame, BlockedBefore, FrameEvents, Orders, Conn.Valid;
    var cs := Conns(h.table);
    var (s, p) := Sending(v, h, index);
    TunnelIsOther(cs, index, i, k);
    SendingServes(v, h, index, i, k);
    SentUsable(v, h, index);
    SendingObeysFlags(v, h, index);
    OrdersSame(v, h, s);
    var room := cs[index[0]].outb.Free();
    if room >= 5 * |h.queue| {
      AllOrders(h.queue, s.n);
      MoreWire(h.wire, Orders(h.queue), p.items);
      if BlockedBefore(p, h.from, k) {
        BlockedHasValue(p, h.from, k);
        BlockedAtNext(h, e, index, p, k, cs[i].inb.Contents());
      } else {
        ServedByFrame(h, e, index, p.items, k, cs[i].inb.Contents());
      }
    } else {
      assert h.wire + Orders(h.queue[..s.n]) + [] == h.wire + Orders(h.queue[..s.n]);
    }
  }

  lemma TunnelIsOther(cs: seq<Conn>, index: map<int, nat>, i: nat, k: byte)
    requires Usable(cs, index) && PumpTable(cs, index) && k != 0 && k as int in index && index[k] == i && i < |cs|
    requires cs[index[0]].id == 0
    ensures 0 in index && index[0] < |cs| && i != index[0]
  {
  }

  lemma BlockedHasValue(p: Pass, from: nat, k: byte)
    requires p.Valid() && k != 0 && from <= 255 && BlockedBefore(p, from, k)
    ensures p.blocked.Some?
  {
  }

  lemma ServedByFrame(h: Host, e: Host, index: map<int, nat>, items: seq<Item>, k: byte, bytes: seq<byte>)
    requires Usable(Conns(e.table), index) && bytes != [] && k != 0 && h.from <= 255 && HasFrame(items, k, bytes)
    ensures Serves(h.from, e, index, items, k, bytes)
  {
  }

  /** A whole turn of the pump serves, as `SentServes` says, every connection that waits behind its
      receiving half. */
  lemma PumpServes(v: Variant, h: Host, index: map<int, nat>, i: nat, k: byte)
    requires PumpOk(v, h, index) && PumpTable(Conns(h.table), index) && h.from <= 255
    requires Conns(h.table)[index[0]].id == 0
    requires k != 0 && k as int in index && index[k] == i && i < |h.table|
    requires i < |Answered(v, h, index).table| && Waits(Answered(v, h, index).table[i].conn, k)
    ensures
      var h1, e := Answered(v, h, index), Pumped(v, h, index);
      var cs := Conns(h1.table);
      && Usable(Conns(e.table), index) && |e.table| == |h1.table| && 0 in index && index[0] < |cs|
      && cs[index[0]].outb.Valid() && cs[i].inb.Valid() && cs[i].inb.Contents() != []
      && var room := cs[index[0]].outb.Free();
      && (room >= 5 * |h1.queue| ==>
            && e.queue == [] && h1.wire + Orders(h1.queue) <= e.wire
            && Serves(h.from, e, index, e.wire[|h1.wire + Orders(h1.queue)|..], k, cs[i].inb.Contents()))
      && (room < 5 * |h1.queue| ==> e.wire == h1.wire + Orders(h1.queue[..room / 5]))
  {
    hide Usable, PumpTable, Sending, SentConns, Waits, Serves, FrameEvents, Orders, Answered, PumpOk;
    var h1 := Answered(v, h, index);
    AnswerKeepsTable(v, h, index);
    TunnelAnswered(v, h, index);
    AnswerKeepsFrom(v, h, index);
    PumpHasTunnel(v, h, index);
    var e := Pumped(v, h, index);
    SentServes(v, h1, e, index, i, k);
  }

  lemma AnswerKeepsFrom(v: Variant, h: Host, index: map<int, nat>)
    requires PumpOk(v, h, index)
    ensures Answered(v, h, index).from == h.from && Usable(Conns(Answered(v, h, index).table), index)
  {
    hide Usable, TargetThere, Hear, HeardConns, ReleasesTwice, OnCommand, PeerEvents, Takes;
  }

  // ---------------------------------------------------------------- the table that the pump gets

  /** The state in front of the pump's turn, and its table. */
  function InFront(h: Host, u: PollInput): (Host, map<int, nat>)
    requires PollOk(h.table, u) && |h.queue| <= QUEUE_SIZE
  {
    var h1 := Polled(h, u);
    var s := Sort(Conns(h1.table), h1.free);
    var d := HandledAll(h1, s);
    (Announced(Named(h1, s), d), d.index)
  }

  /** The update gets as far as the pump, and that goes through. */
  predicate Reaches(v: Variant, h: Host, u: PollInput)
    requires PollOk(h.table, u) && |h.queue| <= QUEUE_SIZE
  {
    var h1 := Polled(h, u);
    var s := Sort(Conns(h1.table), h1.free);
    && u.completes && !Stops(s) && !HandledAll(h1, s).again
    && PumpOk(v, InFront(h, u).0, InFront(h, u).1)
  }

  /** A connection that still carries the tunnel: neither its socket nor a direction is closed. */
  predicate TunnelOpen(c: Conn) {
    c.id == 0 && !c.state.closed && !c.inState.closed && !c.outState.closed
  }

  /** Which updates get as far as the pump: those in which behind the poll the tunnel is in the table
      and open, and the queue has room for all that is owed. */
  lemma UpdateGoesOnIff(h: Host, u: PollInput)
    requires NamesOk(h) && PollOk(h.table, u) && u.completes
    ensures
      var t := Conns(Polled(h, u).table);
      var s := Sort(t, h.free);
      && (!Stops(s) <==> exists i :: 0 <= i < |t| && TunnelOpen(t[i]))
      && (!HandledAll(Polled(h, u), s).again
          <==> |h.queue| + |OwedUpTo(s.conns, s.index, MAX_STACK_SIZE)| <= QUEUE_SIZE)
  {
    hide Partition, IndexOk, Filled, NoneDeleted, SortUpTo, Poll, PollOk, HandleUpTo, TunnelOpen, Stops, OwedUpTo;
    PollKeepsNames(h, u);
    PollLeavesNoneDeleted(h.table, u);
    var t := Conns(Polled(h, u).table);
    var s := Sort(t, h.free);
    SortKeeps(t, h.free, |t|);
    HandleSaysOwed(Handled(s.conns, s.free, s.index, [], QUEUE_SIZE - |h.queue|, false), true, MAX_STACK_SIZE);
    StopsIff(t, h.free);
  }

  lemma StopsIff(cs: seq<Conn>, free: seq<int>)
    requires Partition(free, cs) && NoneDeleted(cs)
    ensures !Stops(Sort(cs, free)) <==> exists i :: 0 <= i < |cs| && TunnelOpen(cs[i])
  {
    hide Partition, SortUpTo;
    SortKeeps(cs, free, |cs|);
    SortFills(cs, free, |cs|);
    SortNames(cs, free, |cs|);
    var s := Sort(cs, free);
    if i :| 0 <= i < |cs| && TunnelOpen(cs[i]) {
      assert s.conns[i] == cs[i];
    }
    if !Stops(s) {
      assert TunnelOpen(cs[s.index[0]]);
    }
  }

  lemma UpdateIsPump(v: Variant, h: Host, u: PollInput)
    requires PollOk(h.table, u) && |h.queue| <= QUEUE_SIZE && Reaches(v, h, u)
    ensures Update(v, h, u) == Pumped(v, InFront(h, u).0, InFront(h, u).1)
    ensures InFront(h, u).0.from == h.from
  {
    hide Poll, PollOk, Sort, Stops, HandledAll, PumpOk, Pumped, Emits;
  }

  /** In every update of a divided table: the table of the pump holds the connections that hold an
      identifier and were not announced as gone, each at its place, and nobody else. */
  lemma PumpTableIsFull(h: Host, u: PollInput)
    requires NamesOk(h) && PollOk(h.table, u) && u.completes
    ensures
      var (x, index) := InFront(h, u);
      && Filled(Conns(x.table), index, |x.table|) && IndexOk(Conns(x.table), index)
      && Partition(x.free, Conns(x.table)) && |x.queue| <= QUEUE_SIZE
  {
    hide Partition, IndexOk, Filled, NoneDeleted, HandleUpTo, SortUpTo, Poll, PollOk;
    PollKeepsNames(h, u);
    PollLeavesNoneDeleted(h.table, u);
    var h1 := Polled(h, u);
    var cs := Conns(h1.table);
    SortKeeps(cs, h1.free, |cs|);
    SortFills(cs, h1.free, |cs|);
    var s := Sort(cs, h1.free);
    HandledNames(h1, s);
    HandleStaysFilled(Handled(s.conns, s.free, s.index, [], QUEUE_SIZE - |h1.queue|, false), true, MAX_STACK_SIZE);
    AnnouncedFits(h1, s);
  }

  lemma PumpTableIsGreeted(h: Host, u: PollInput)
    requires NamesOk(h) && PollOk(h.table, u) && u.completes
    requires !HandledAll(Polled(h, u), Sort(Conns(Polled(h, u).table), h.free)).again
    ensures var (x, index) := InFront(h, u); PumpTable(Conns(x.table), index)
  {
    hide Partition, IndexOk, HandledAll, Sort, Poll, PollOk, PumpTable;
    SortedNames(h, u);
    AnnouncedTable(Polled(h, u), Sort(Conns(Polled(h, u).table), h.free));
  }

  lemma InTable(cs: seq<Conn>, index: map<int, nat>, i: nat, k: byte)
    requires Filled(cs, index, |cs|) && i < |cs| && Holds(cs[i], k)
    ensures k as int in index && index[k] == i
  {
  }

  /** A whole `update` that gets to its pump serves every connection that holds an identifier and waits
      behind the receiving half: its bytes go into the tunnel behind the commands, or the turn ends for
      want of room at a connection no later than it. */
  lemma UpdateServes(v: Variant, h: Host, u: PollInput, i: nat, k: byte)
    requires NamesOk(h) && PollOk(h.table, u) && Reaches(v, h, u) && h.from <= 255 && k != 0
    requires
      var (x, index) := InFront(h, u);
      && i < |x.table| && Holds(x.table[i].conn, k)
      && i < |Answered(v, x, index).table| && Waits(Answered(v, x, index).table[i].conn, k)
    ensures
      var (x, index) := InFront(h, u);
      var h1, e := Answered(v, x, index), Update(v, h, u);
      var cs := Conns(h1.table);
      && 0 in index && index[0] < |cs| && |e.table| == |cs| && Usable(Conns(e.table), index)
      && cs[index[0]].outb.Valid() && cs[i].inb.Valid() && cs[i].inb.Contents() != []
      && (cs[index[0]].outb.Free() >= 5 * |h1.queue| ==>
            && e.queue == [] && h1.wire + Orders(h1.queue) <= e.wire
            && Serves(h.from, e, index, e.wire[|h1.wire + Orders(h1.queue)|..], k, cs[i].inb.Contents()))
  {
    hide Partition, PollOk, Reaches, InFront, Answered, Update, PumpOk, Waits, Serves, Orders, Filled, IndexOk,
      PumpTable, Usable, Pumped;
    var (x, index) := InFront(h, u);
    ReachesFacts(v, h, u);
    UpdateIsPump(v, h, u);
    PumpTableIsFull(h, u);
    PumpTableIsGreeted(h, u);
    InTable(Conns(x.table), index, i, k);
    PumpHasTunnel(v, x, index);
    TunnelHeld(Conns(x.table), index);
    PumpServes(v, x, index, i, k);
  }

  lemma ReachesFacts(v: Variant, h: Host, u: PollInput)
    requires PollOk(h.table, u) && |h.queue| <= QUEUE_SIZE && Reaches(v, h, u)
    ensures u.completes && PumpOk(v, InFront(h, u).0, InFront(h, u).1)
    ensures !HandledAll(Polled(h, u), Sort(Conns(Polled(h, u).table), h.free)).again
  {
    hide Poll, PollOk, Sort, Stops, HandledAll, PumpOk;
  }

  // ---------------------------------------------------------------- receiving

  /** The turn goes through, and nothing in it is refused, whenever the reference reader, from where the
      receiver stands, gets through the bytes with frames for connections of the table and commands that
      the peer may send; as shipped, if the call meets neither a wrap nor a split escape. */
  lemma TurnGoesThrough(
      v: Variant, h: Host, index: map<int, nat>, w: seq<byte>, pos: nat, end: nat, base: seq<Atom>, known: set<byte>)
    requires Usable(Conns(h.table), index) && TargetThere(h, index)
    requires forall id :: id in known ==> id != 0 && id as int in index
    requires Sees(w, pos, end, Hearing(h, index)) && ReadsThrough(w, Reader(pos, h.target, base), known)
    requires forall a :: a in Read(w, Reader(pos, h.target, base)).out && a.Given? ==> FromPeer(a.command)
    requires v.Shipped? ==> Hear(v, h, index).fault.NoFault? || Hear(v, h, index).fault.Violation?
    ensures PumpOk(v, h, index) && Hear(v, h, index).fault.NoFault?
  {
    hide Usable, Outs, Read, Receiver.Receive, ReadsThrough, Sees, FromPeer, Hearing, TargetThere;
    var r := Hearing(h, index);
    WantsTarget(h, index);
    KnownOuts(h, index, known);
    KnowsMore(w, Reader(pos, h.target, base), known, r.outs.Keys);
    assert r.used == 0 by { HearsFromStart(h, index); }
    NothingUsed(r, pos, base, Reader(pos, h.target, base));
    ReceiveAccepts(v, w, pos, end, base, r);
    if v.Corrected? {
      CorrectedReceiveIsSafe(r);
    }
    ReceiveReads(v, w, pos, end, base, r);
    var e := Hear(v, h, index);
    if OrderOf(e.got).Some? {
      OrderIsRead(w, Standing(pos, base, e), base, e.got);
    }
  }

  /** Behind such a turn the pump stands where the reference reader gets to: the connection of the message
      under way is remembered, and the rest of the bytes is still in the tunnel's in_buf. */
  lemma TurnKeepsReading(
      v: Variant, h: Host, index: map<int, nat>, w: seq<byte>, pos: nat, end: nat, base: seq<Atom>)
    requires PumpOk(v, h, index) && Hear(v, h, index).fault.NoFault? && TargetThere(h, index)
    requires Sees(w, pos, end, Hearing(h, index))
    ensures
      var e := Answered(v, h, index);
      && 0 in index && index[0] < |e.table|
      && var b := Conns(e.table)[index[0]].inb;
      && b.Valid() && b.length <= end <= |w| && b.Contents() == w[end - b.length..end]
      && Read(w, Reader(pos, h.target, base))
         == Read(w, Reader(end - b.length, e.target, base + Hear(v, h, index).got))
  {
    hide Usable, Outs, Read, Hear, PumpOk, Hearing, TargetThere, Answered, Ring.Contents, Sees;
    HearReads(v, h, index, w, pos, end, base);
    PumpUsable(v, h, index);
    SeesRest(w, pos, end, Hear(v, h, index));
    AnswerLeavesTunnel(v, h, index);
  }

  lemma PumpUsable(v: Variant, h: Host, index: map<int, nat>)
    requires PumpOk(v, h, index)
    ensures Usable(Conns(h.table), index)
  {
  }

  lemma HearReads(v: Variant, h: Host, index: map<int, nat>, w: seq<byte>, pos: nat, end: nat, base: seq<Atom>)
    requires PumpOk(v, h, index) && Hear(v, h, index).fault.NoFault? && TargetThere(h, index)
    requires Sees(w, pos, end, Hearing(h, index))
    ensures
      var e := Hear(v, h, index);
      Sees(w, pos, end, e) && Read(w, Reader(pos, h.target, base)) == Read(w, Standing(pos, base, e))
  {
    hide Usable, Outs, Read, Receiver.Receive, FromPeer, Hearing, TargetThere, Ring.Contents, Sees;
    var r := Hearing(h, index);
    WantsTarget(h, index);
    assert r.used == 0 by { HearsFromStart(h, index); }
    NothingUsed(r, pos, base, Reader(pos, h.target, base));
    ReceiveReads(v, w, pos, end, base, r);
  }

  lemma SeesRest(w: seq<byte>, pos: nat, end: nat, r: Received)
    requires r.Valid() && Sees(w, pos, end, r)
    ensures r.tin.length <= end <= |w| && pos + r.used == end - r.tin.length
    ensures r.tin.Contents() == w[end - r.tin.length..end]
  {
    hide Ring.Contents;
    ContentsLength(r.tin);
    var x, at := r.tin.Contents(), end - r.tin.length;
    forall j | 0 <= j < |x|
      ensures x[j] == w[at..end][j]
    {
      assert x[j] == w[pos + r.used + j];
    }
  }

  /** A command changes neither the bytes in front of the receiver nor the message under way. */
  lemma AnswerLeavesTunnel(v: Variant, h: Host, index: map<int, nat>)
    requires PumpOk(v, h, index) && TargetThere(h, index)
    ensures
      var r, e := Hear(v, h, index), Answered(v, h, index);
      && e.target == r.target && 0 in index && index[0] < |e.table| && Conns(e.table)[index[0]].inb == r.tin
  {
    hide TargetThere, Hear, Reacted, HeardConns, FromPeer;
    var r := Hear(v, h, index);
    var h0 := Listened(h, index, r);
    TunnelHears(h, index, r);
    if OrderOf(r.got).Some? {
      ReactedLeaves(v, h0, OrderOf(r.got).value, index[0]);
    }
  }

  lemma ReactedLeaves(v: Variant, h: Host, c: Command, i: nat)
    requires FromPeer(c) && i < |h.table|
    ensures
      var e := Reacted(v, h, c);
      e.target == h.target && i < |e.table| && Conns(e.table)[i].inb == Conns(h.table)[i].inb
  {
    hide Find, PeerEvents, ReleasesTwice;
  }

  lemma HearsFromStart(h: Host, index: map<int, nat>)
    requires Usable(Conns(h.table), index)
    ensures Hearing(h, index).used == 0
  {
  }

  lemma WantsTarget(h: Host, index: map<int, nat>)
    requires TargetThere(h, index)
    ensures Wanted(h, index) == h.target
  {
  }

  lemma KnownOuts(h: Host, index: map<int, nat>, known: set<byte>)
    requires Usable(Conns(h.table), index) && forall id :: id in known ==> id != 0 && id as int in index
    ensures known <= Outs(Conns(h.table), index).Keys
  {
  }

  lemma KnowsMore(w: seq<byte>, r: Reader, known: set<byte>, more: set<byte>)
    requires ReadsThrough(w, r, known) && known <= more
    ensures ReadsThrough(w, r, more)
  {
    hide Read;
  }

  lemma NothingUsed(r: Received, pos: nat, base: seq<Atom>, start: Reader)
    requires r.used == 0 && r.got == [] && start == Reader(pos, r.target, base)
    ensures Standing(pos, base, r) == start
  {
    assert base + [] == base;
  }

  lemma OrderIsRead(w: seq<byte>, r: Reader, base: seq<Atom>, got: seq<Atom>)
    requires r.out == base + got && OrderOf(got).Some?
    requires forall a :: a in Read(w, r).out && a.Given? ==> FromPeer(a.command)
    ensures FromPeer(OrderOf(got).value)
  {
    hide Read, FromPeer;
    ReadKeeps(w, r);
    var out := Read(w, r).out;
    assert out[|base + got| - 1] == got[|got| - 1];
  }

  lemma NothingFirst<T>(a: seq<T>, b: seq<T>)
    requires a == []
    ensures a + b == b
  {
  }

  lemma HearsItem(v: Variant, h: Host, index: map<int, nat>, item: Item, rest: seq<byte>)
    requires Usable(Conns(h.table), index) && h.target.None? && Fits(item, Hearing(h, index))
    requires
      var x := Conns(h.table)[index[0]].inb;
      x.Valid() && x.length > 3 && x.Contents() == Encoding(item) + rest
    ensures
      var r := Hear(v, h, index);
      r.got == Atoms(item) && r.target.None? && r.tin.Contents() == rest
  {
    hide Usable, Outs, Encoding, Atoms, Receiver.Receive, Fits, Took, Ring.Contents, Hearing, Wanted, TargetThere;
    WantsNothing(h, index);
    var r := Hearing(h, index);
    TakesItem(v, r, item, rest);
    TookAll(r, Receiver.Receive(v, r), item, |Encoding(item)|);
    NothingFirst(r.got, Atoms(item));
  }

  /** In a turn of the pump between two messages, with more than three bytes in the tunnel's in_buf: the
      frame or command in front is read, and nothing else, if its connection is there and has more room
      than the payload; the bytes behind it stay. */
  lemma TurnReads(v: Variant, h: Host, index: map<int, nat>, item: Item, rest: seq<byte>)
    requires Usable(Conns(h.table), index) && PumpOk(v, h, index) && h.target.None?
    requires
      var x := Conns(h.table)[index[0]].inb;
      x.Valid() && x.length > 3 && x.Contents() == Encoding(item) + rest
    requires Fits(item, Hearing(h, index))
    ensures
      var h0 := Listened(h, index, Hear(v, h, index));
      var e := Answered(v, h, index);
      && h0.target.None? && h0.log == h.log + Takes(Atoms(item)) && h0.log <= e.log
      && Conns(h0.table)[index[0]].inb.Valid() && Conns(h0.table)[index[0]].inb.Contents() == rest
      && (item.Order? ==> e == Reacted(v, h0, item.command)) && (item.Data? ==> e == h0)
  {
    hide Usable, Outs, Encoding, Atoms, Hear, Fits, Reacted, Ring.Contents, Takes, HeardConns, FromPeer, Hearing;
    WantsNothing(h, index);
    HearsItem(v, h, index, item, rest);
    var r := Hear(v, h, index);
    OrderOfItem(item);
    TunnelHears(h, index, r);
    if item.Order? {
      ReactedLogGrows(v, Listened(h, index, r), item.command);
    }
  }

  lemma WantsNothing(h: Host, index: map<int, nat>)
    requires h.target.None?
    ensures TargetThere(h, index) && Wanted(h, index) == None
  {
  }

  lemma TookAll(r: Received, r': Received, item: Item, n: nat)
    requires r.Valid() && r'.Valid() && n <= r.tin.length && Took(r, r', item, n)
    ensures r'.target.None? && r'.got == r.got + Atoms(item)
  {
  }

  lemma OrderOfItem(item: Item)
    ensures OrderOf(Atoms(item)) == if item.Order? then Some(item.command) else None
  {
  }

  lemma TunnelHears(h: Host, index: map<int, nat>, r: Received)
    requires Usable(Conns(h.table), index)
    ensures var h0 := Listened(h, index, r); index[0] < |h0.table| && Conns(h0.table)[index[0]].inb == r.tin
  {
  }

  lemma ReactedLogGrows(v: Variant, h: Host, c: Command)
    requires FromPeer(c)
    ensures h.log <= Reacted(v, h, c).log
  {
    hide PeerEvents, OnCommand, ReleasesTwice;
  }

  /** The payload of a frame in front goes behind the contents of the out_buf of its connection, if the
      call meets no wrap. */
  lemma TurnDelivers(v: Variant, h: Host, index: map<int, nat>, i: nat, k: byte, p: seq<byte>, rest: seq<byte>)
    requires PumpOk(v, h, index) && h.target.None? && Hear(v, h, index).fault.NoFault?
    requires
      var x := Conns(h.table)[index[0]].inb;
      x.Valid() && x.length > 3 && x.Contents() == Frame(k, p) + rest
    requires k != 0 && k as int in index && index[k] == i && i < |h.table| && i != index[0]
    requires Conns(h.table)[i].id == k as int && |p| < |Conns(h.table)[i].outb.data| - Conns(h.table)[i].outb.length
    ensures
      var b, b' := Conns(h.table)[i].outb, Conns(Answered(v, h, index).table)[i].outb;
      b.Valid() && b'.Valid() && b'.Contents() == b.Contents() + p
  {
    hide Usable, Frame, Receiver.Receive, Reacted, Ring.Contents, Takes, FromPeer, Hear, Payload, Listened;
    var item := Data(k, p);
    FrameFits(h, index, i, k, p);
    TurnReads(v, h, index, item, rest);
    HearsItem(v, h, index, item, rest);
    PayloadOfFrame(k, p, k);
    InOuts(h, index, i, k);
    HearHands(v, h, index, k);
    OutHears(h, index, Hear(v, h, index), i, k);
  }

  lemma FrameFits(h: Host, index: map<int, nat>, i: nat, k: byte, p: seq<byte>)
    requires Usable(Conns(h.table), index) && k != 0 && k as int in index && index[k] == i && i < |h.table|
    requires |p| < |Conns(h.table)[i].outb.data| - Conns(h.table)[i].outb.length
    ensures Fits(Data(k, p), Hearing(h, index)) && Encoding(Data(k, p)) == Frame(k, p)
  {
    hide Frame;
    assert Conns(h.table)[i].Valid();
  }

  lemma InOuts(h: Host, index: map<int, nat>, i: nat, k: byte)
    requires Usable(Conns(h.table), index) && k != 0 && k as int in index && index[k] == i && i < |h.table|
    ensures k in Outs(Conns(h.table), index) && Hearing(h, index).outs[k] == Conns(h.table)[i].outb
  {
  }

  lemma OutHears(h: Host, index: map<int, nat>, r: Received, i: nat, k: byte)
    requires Usable(Conns(h.table), index) && k != 0 && k as int in index && index[k] == i && i < |h.table|
    requires i != index[0] && Conns(h.table)[i].id == k as int && k in r.outs
    ensures var h0 := Listened(h, index, r); i < |h0.table| && Conns(h0.table)[i].outb == r.outs[k]
  {
  }

  // ---------------------------------------------------------------- where a pass starts

  lemma NextKeepsFrom(v: Variant, h: Host, u: PollInput)
    requires h.from <= 255
    ensures Next(v, h, u).from <= 255
  {
    hide Sort, Stops, HandledAll, PumpOk, Poll, PollOk, Answered, Sending, SentConns, Conns, Emits;
    if !h.strayed && PollOk(h.table, u) && |h.queue| <= QUEUE_SIZE && Reaches(v, h, u) {
      UpdateIsPump(v, h, u);
      var (x, index) := InFront(h, u);
      AnswerKeepsFrom(v, x, index);
    }
  }

  /** Over every run the place where the next pass starts is one that `Serves` speaks of. */
  lemma FromIsByte(v: Variant, h: Host, us: seq<PollInput>)
    requires IsStart(h)
    ensures Run(v, h, us).from <= 255
  {
    hide Next;
    forall x: Host, u | x.from <= 255
      ensures Next(v, x, u).from <= 255
    {
      NextKeepsFrom(v, x, u);
    }
    RunKeeps((x, u) => Next(v, x, u), (x: Host) => x.from <= 255, h, us, |us|);
  }
}
