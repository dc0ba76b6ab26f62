/** A message under way belongs to an identifier, not to a connection: whoever gets the identifier
    next gets the rest of the message. */
module Handover {
  import opened Basics
  import opened Ring
  import opened Framing
  import opened Wire
  import opened Connections
  import opened Slots
  import opened Receiver
  import opened Scheduling
  import opened Protocol
  import opened Identifiers
  import opened Grammar
  import opened Accounts
  import opened Stranded
  import opened H = Host

  /** A head for `k` was read since its last NEW; `b` tells of the time before the events. */
  function Headed(b: bool, es: seq<Event>, n: nat, k: byte): bool
    requires n <= |es|
  {
    if n == 0 then b
    else if IsOrder(es[n - 1], CMD_NEW, k) then false
    else es[n - 1] == Event.Take(Atom.Open(k)) || Headed(b, es, n - 1, k)
  }

  predicate IsByte(e: Event, k: byte) {
    e.Take? && e.atom.Byte? && e.atom.id == k
  }

  /** Every byte that came out of the tunnel for `k` is of a message that began since its NEW. */
  predicate OwnBytes(b: bool, es: seq<Event>, k: byte) {
    forall n :: 0 <= n < |es| && IsByte(es[n], k) ==> Headed(b, es, n, k)
  }

  lemma {:induction false} HeadedFront(b: bool, a: seq<Event>, c: seq<Event>, n: nat, k: byte)
    requires n <= |a|
    ensures Headed(b, a + c, n, k) == Headed(b, a, n, k)
  {
    hide IsOrder;
    if n > 0 {
      HeadedFront(b, a, c, n - 1, k);
    }
  }

  lemma {:induction false} HeadedOn(b: bool, a: seq<Event>, c: seq<Event>, n: nat, m: nat, k: byte)
    requires n <= |c| && m == |a| + n
    ensures Headed(b, a + c, m, k) == Headed(Headed(b, a, |a|, k), c, n, k)
  {
    hide IsOrder;
    if n == 0 {
      HeadedFront(b, a, c, |a|, k);
    } else {
      HeadedOn(b, a, c, n - 1, m - 1, k);
      assert (a + c)[m - 1] == c[n - 1];
    }
  }

  lemma OwnOn(b: bool, a: seq<Event>, c: seq<Event>, k: byte)
    ensures OwnBytes(b, a + c, k) <==> OwnBytes(b, a, k) && OwnBytes(Headed(b, a, |a|, k), c, k)
  {
    hide IsByte, Headed;
    forall n | 0 <= n < |a|
      ensures Headed(b, a + c, n, k) == Headed(b, a, n, k) && (a + c)[n] == a[n]
    {
      HeadedFront(b, a, c, n, k);
    }
    forall n | 0 <= n < |c|
      ensures Headed(b, a + c, |a| + n, k) == Headed(Headed(b, a, |a|, k), c, n, k) && (a + c)[|a| + n] == c[n]
    {
      HeadedOn(b, a, c, n, |a| + n, k);
    }
    if OwnBytes(b, a + c, k) {
      forall n | 0 <= n < |a| && IsByte(a[n], k)
        ensures Headed(b, a, n, k)
      {
        assert IsByte((a + c)[n], k);
      }
      forall n | 0 <= n < |c| && IsByte(c[n], k)
        ensures Headed(Headed(b, a, |a|, k), c, n, k)
      {
        assert IsByte((a + c)[|a| + n], k);
      }
    }
    if OwnBytes(b, a, k) && OwnBytes(Headed(b, a, |a|, k), c, k) {
      forall n | 0 <= n < |a + c| && IsByte((a + c)[n], k)
        ensures Headed(b, a + c, n, k)
      {
        if n >= |a| {
          assert IsByte(c[n - |a|], k);
        } else {
          assert IsByte(a[n], k);
        }
      }
    }
  }

  // ---------------------------------------------------------------- the receiver

  /** What was read so far is of messages that began; so is the one under way. */
  predicate Begun(b: bool, r: Received, k: byte) {
    OwnBytes(b, Takes(r.got), k) && (r.target == Some(k) ==> Headed(b, Takes(r.got), |r.got|, k))
  }

  lemma {:induction false} BytesStayHeaded(b: bool, t: byte, p: seq<byte>, n: nat, k: byte)
    requires n <= |p|
    ensures Headed(b, Takes(Bytes(t, p)), n, k) == b
  {
    if n > 0 {
      BytesStayHeaded(b, t, p, n - 1, k);
      assert Takes(Bytes(t, p))[n - 1] == Event.Take(Byte(t, p[n - 1]));
    }
  }

  lemma TakesConcat(a: seq<Atom>, c: seq<Atom>)
    ensures Takes(a + c) == Takes(a) + Takes(c)
  {
  }

  lemma MoreBytes(b: bool, got: seq<Atom>, t: byte, p: seq<byte>, k: byte)
    requires OwnBytes(b, Takes(got), k) && (t == k ==> Headed(b, Takes(got), |got|, k))
    ensures |Bytes(t, p)| == |p| && OwnBytes(b, Takes(got + Bytes(t, p)), k)
    ensures Headed(b, Takes(got + Bytes(t, p)), |got + Bytes(t, p)|, k) == Headed(b, Takes(got), |got|, k)
  {
    hide Headed, OwnBytes, Takes, Bytes;
    var was := Headed(b, Takes(got), |got|, k);
    var more := Takes(Bytes(t, p));
    BytesLength(t, p);
    TakesConcat(got, Bytes(t, p));
    OwnOn(b, Takes(got), more, k);
    HeadedOn(b, Takes(got), more, |p|, |got + Bytes(t, p)|, k);
    BytesStayHeaded(was, t, p, |p|, k);
    OwnOfBytes(was, t, p, k);
  }

  lemma OwnOfBytes(b: bool, t: byte, p: seq<byte>, k: byte)
    requires t == k ==> b
    ensures OwnBytes(b, Takes(Bytes(t, p)), k)
  {
    forall n | 0 <= n < |Takes(Bytes(t, p))| && IsByte(Takes(Bytes(t, p))[n], k)
      ensures Headed(b, Takes(Bytes(t, p)), n, k)
    {
      BytesStayHeaded(b, t, p, n, k);
    }
  }

  lemma DeliverBegun(v: Variant, b: bool, r: Received, t: byte, k: byte)
    requires r.Valid() && t in r.outs && OwnBytes(b, Takes(r.got), k)
    requires t == k ==> Headed(b, Takes(r.got), |r.got|, k)
    ensures Begun(b, Deliver(v, r, t), k)
  {
    hide Headed, OwnBytes, Takes, Bytes;
    var out := DecodeStep(v, r.tin, r.outs[t]).out;
    MoreBytes(b, r.got, t, out, k);
  }

  lemma BytesLength(t: byte, p: seq<byte>)
    ensures |Bytes(t, p)| == |p|
  {
  }

  lemma OneMore(b: bool, got: seq<Atom>, a: Atom, k: byte)
    requires OwnBytes(b, Takes(got), k) && !a.Byte?
    ensures OwnBytes(b, Takes(got + [a]), k)
    ensures Headed(b, Takes(got + [a]), |got| + 1, k) == (a == Atom.Open(k) || Headed(b, Takes(got), |got|, k))
  {
    hide OwnBytes;
    assert Takes(got + [a]) == Takes(got) + [Event.Take(a)];
    OwnOn(b, Takes(got), [Event.Take(a)], k);
    OwnOfOther(Headed(b, Takes(got), |got|, k), a, k);
    HeadedFront(b, Takes(got), [Event.Take(a)], |got|, k);
  }

  lemma OwnOfOther(b: bool, a: Atom, k: byte)
    requires !a.Byte?
    ensures OwnBytes(b, [Event.Take(a)], k)
  {
  }

  lemma TakeHeadBegun(v: Variant, b: bool, r: Received, k: byte)
    requires r.Valid() && r.target.None? && OwnBytes(b, Takes(r.got), k)
    ensures Begun(b, TakeHead(v, r), k)
  {
    hide Headed, OwnBytes, Takes, Deliver;
    var x := r.tin.Contents();
    if |x| > 3 && x[0] == END_BYTE {
      if x[1] == 0 {
        if |x| >= 5 {
          OneMore(b, r.got, Given(Command(x[2], x[3])), k);
        }
      } else if x[1] in r.outs {
        OneMore(b, r.got, Atom.Open(x[1]), k);
        DeliverBegun(v, b, Opened(r, x[1]), x[1], k);
      }
    }
  }

  /** A call reads bytes of messages that began, and leaves such a one under way. */
  lemma ReceiveBegun(v: Variant, b: bool, r: Received, k: byte)
    requires r.Valid() && Begun(b, r, k)
    ensures Begun(b, Receiver.Receive(v, r), k)
  {
    hide Headed, OwnBytes, Takes, Deliver, TakeHead;
    if r.tin.length != 0 {
      if r.target.None? {
        TakeHeadBegun(v, b, r, k);
      } else {
        var r1 := Deliver(v, r, r.target.value);
        DeliverBegun(v, b, r, r.target.value, k);
        if !r1.fault.ReadPastData? && r1.target.None? {
          TakeHeadBegun(v, b, r1, k);
        }
      }
    }
  }

  // ---------------------------------------------------------------- one update

  predicate HeadRead(h: Host, k: byte) {
    Headed(false, h.log, |h.log|, k)
  }

  predicate AllGreeted(cs: seq<Conn>, k: byte) {
    forall i :: 0 <= i < |cs| && Holds(cs[i], k) ==> !cs[i].state.isNew
  }

  /** The message under way, if it is for `k`, began since NEW, and who holds `k` was announced. */
  predicate Continues(h: Host, k: byte) {
    h.target == Some(k) ==> HeadRead(h, k) && AllGreeted(Conns(h.table), k)
  }

  /** The message under way is for `k`, and nobody holds it. */
  predicate Orphaned(h: Host, k: byte) {
    h.target == Some(k) && forall i :: 0 <= i < |h.table| ==> !Holds(Conns(h.table)[i], k)
  }

  predicate OnlyOwn(h: Host, k: byte) {
    OwnBytes(false, h.log, k)
  }

  /** Who holds `k` behind the step did so before, and was announced then if he is now. */
  predicate NoNewHolder(cs: seq<Conn>, ds: seq<Conn>, k: byte) {
    |ds| == |cs| && forall i :: 0 <= i < |cs| && Holds(ds[i], k) ==>
      Holds(cs[i], k) && (ds[i].state.isNew ==> cs[i].state.isNew)
  }

  lemma StillGreeted(cs: seq<Conn>, ds: seq<Conn>, k: byte)
    requires AllGreeted(cs, k) && NoNewHolder(cs, ds, k)
    ensures AllGreeted(ds, k)
  {
  }

  lemma PolledGreeted(t: seq<Slot>, p: PollInput, k: byte)
    requires PollOk(t, p) && AllGreeted(Conns(t), k)
    ensures AllGreeted(Conns(Poll(t, p).table), k)
  {
    hide Poll, PollOk, Evolves;
    var u := Poll(t, p).table;
    forall i | 0 <= i < |u| && Holds(u[i].conn, k)
      ensures !u[i].conn.state.isNew
    {
      PollDescends(t, p, u[i]);
      AcceptedUnnamed(t, p);
      if s :| s in t && Evolves(s, u[i]) {
        EvolvesHolder(s, u[i], k);
        var j :| 0 <= j < |t| && t[j] == s;
        assert Holds(Conns(t)[j], k);
      } else {
        EvolvesHolder(p.accepted.value, u[i], k);
      }
    }
  }

  lemma EvolvesHolder(s: Slot, s': Slot, k: byte)
    requires Evolves(s, s')
    ensures Holds(s'.conn, k) == Holds(s.conn, k) && s'.conn.state.isNew == s.conn.state.isNew
    ensures s'.conn.id == s.conn.id
  {
    hide KeepsBytes;
  }

  /** A poll keeps the holder. */
  lemma PollContinues(h: Host, p: PollInput, k: byte)
    requires NamesOk(h) && PollOk(h.table, p) && k != 0 && Continues(h, k) && OnlyOwn(h, k)
    ensures var e := Polled(h, p); Continues(e, k) && OnlyOwn(e, k) && (!Orphaned(h, k) ==> !Orphaned(e, k))
  {
    hide Poll, PollOk, Evolves, Partition, Headed, OwnBytes;
    if h.target == Some(k) {
      PolledGreeted(h.table, p, k);
      if i :| 0 <= i < |h.table| && Holds(Conns(h.table)[i], k) {
        var j := HolderDescends(h, p, i, k);
        assert Holds(Conns(Polled(h, p).table)[j], k);
      }
    }
  }

  /** Whose identifier is held does not get it again. */
  lemma SortContinues(h: Host, i: nat, k: byte)
    requires NamesOk(h) && NoneDeleted(Conns(h.table)) && k != 0 && i < |h.table| && Holds(Conns(h.table)[i], k)
    requires AllGreeted(Conns(h.table), k)
    ensures
      var s := Sort(Conns(h.table), h.free);
      AllGreeted(s.conns, k) && s.conns[i] == Conns(h.table)[i]
  {
    hide Partition, NoneDeleted, IndexOk, SortUpTo;
    var cs := Conns(h.table);
    SortKeeps(cs, h.free, |cs|);
    var s := Sort(cs, h.free);
    SortLeavesNamed(cs, h.free, |cs|, i);
    PartitionHolds(s.free, s.conns, k);
    OnlyAt(s.conns, i, k);
  }

  lemma OnlyAt(cs: seq<Conn>, i: nat, k: byte)
    requires HeldOnce(cs, k) && i < |cs| && Holds(cs[i], k) && !cs[i].state.isNew
    ensures AllGreeted(cs, k)
  {
  }

  lemma {:induction false} OrdersStayHeaded(b: bool, said: seq<Command>, n: nat, k: byte)
    requires n <= |said|
    ensures Headed(b, Emits(said), n, k) == (b && Command(CMD_NEW, k) !in said[..n])
  {
    if n > 0 {
      OrdersStayHeaded(b, said, n - 1, k);
      assert Emits(said)[n - 1] == Emit(Order(said[n - 1]));
      assert said[..n] == said[..n - 1] + [said[n - 1]];
    }
  }

  lemma OwnOfOrders(b: bool, es: seq<Event>, k: byte)
    requires forall i :: 0 <= i < |es| ==> !es[i].Take?
    ensures OwnBytes(b, es, k)
  {
  }

  lemma EmitsTakeNothing(said: seq<Command>)
    ensures forall i :: 0 <= i < |said| ==> !Emits(said)[i].Take?
  {
  }

  /** NEW is not said for a holder that was announced. */
  lemma AnnouncedContinues(h: Host, s: Sorted, i: nat, k: byte)
    requires |h.queue| <= QUEUE_SIZE && s.conns == Conns(h.table) && k != 0
    requires Partition(s.free, s.conns) && IndexOk(s.conns, s.index)
    requires OnlyOwn(h, k) && Continues(h, k)
    requires h.target == Some(k) ==> i < |s.conns| && Holds(s.conns[i], k)
    ensures var e := Announced(h, HandledAll(h, s)); OnlyOwn(e, k) && Continues(e, k)
  {
    hide HandleUpTo, Headed, OwnBytes, Partition, Emits;
    var d0 := Handled(s.conns, s.free, s.index, [], QUEUE_SIZE - |h.queue|, false);
    var d := HandledAll(h, s);
    EmitsTakeNothing(d.said);
    OwnOfOrders(Headed(false, h.log, |h.log|, k), Emits(d.said), k);
    OwnOn(false, h.log, Emits(d.said), k);
    if h.target == Some(k) {
      NewOnlyIfNew(d0, i, k);
      OrdersStayHeaded(true, d.said, |d.said|, k);
      assert d.said[..|d.said|] == d.said;
      HeadedOn(false, h.log, Emits(d.said), |d.said|, |h.log| + |d.said|, k);
      HandledHolders(d0, k);
      StillGreeted(s.conns, d.conns, k);
    }
  }

  lemma HandledHolders(h: Handled, k: byte)
    requires h.Valid() && h.said == []
    ensures NoNewHolder(h.conns, HandleUpTo(h, true, MAX_STACK_SIZE).conns, k)
  {
    hide HandleUpTo;
    forall i | 0 <= i < |h.conns|
      ensures var d := HandleUpTo(h, true, MAX_STACK_SIZE); Announces(h.conns[i], d.conns[i], d.said)
    {
      HandleEach(h, MAX_STACK_SIZE, i);
    }
  }

  lemma ListenedOwn(v: Variant, h: Host, index: map<int, nat>, k: byte)
    requires PumpOk(v, h, index) && OnlyOwn(h, k) && (h.target == Some(k) ==> HeadRead(h, k))
    ensures
      var e := Listened(h, index, Hear(v, h, index));
      OnlyOwn(e, k) && (e.target == Some(k) ==> HeadRead(e, k))
  {
    hide Usable, TargetThere, Outs, Headed, OwnBytes, Takes, HeardConns, Receiver.Receive;
    var b := Headed(false, h.log, |h.log|, k);
    var r := Hear(v, h, index);
    NothingTaken(b, k);
    ReceiveBegun(v, b, Hearing(h, index), k);
    OwnOn(false, h.log, Takes(r.got), k);
    HeadedOn(false, h.log, Takes(r.got), |r.got|, |h.log| + |r.got|, k);
    if !TargetThere(h, index) {
      UnheardStays(v, h, index);
      assert h.log + Takes([]) == h.log;
    }
  }

  /** The next message under way is for a connection in the table of the pump. */
  lemma ListenedGreeted(v: Variant, h: Host, index: map<int, nat>, k: byte)
    requires PumpOk(v, h, index) && NamesOk(h) && IndexOk(Conns(h.table), index) && PumpTable(Conns(h.table), index)
    requires k != 0 && (h.target == Some(k) ==> AllGreeted(Conns(h.table), k))
    ensures
      var e := Listened(h, index, Hear(v, h, index));
      e.target == Some(k) ==> AllGreeted(Conns(e.table), k)
  {
    hide Partition, Usable, TargetThere, Receiver.Receive, HeardConns, HeldOnce, Takes;
    var cs, r := Conns(h.table), Hear(v, h, index);
    var e := Listened(h, index, r);
    if e.target == Some(k) {
      if TargetThere(h, index) {
        assert k in r.outs;
        PartitionHolds(h.free, cs, k);
        OnlyAt(cs, index[k], k);
      }
      HeardSame(cs, index, r);
      StillGreeted(cs, Conns(e.table), k);
    }
  }

  /** Without the connection of the message under way nothing was read. */
  lemma UnheardStays(v: Variant, h: Host, index: map<int, nat>)
    requires PumpOk(v, h, index) && !TargetThere(h, index)
    ensures Hear(v, h, index).got == [] && Takes([]) == []
  {
    hide Usable, TargetThere, Outs;
  }

  lemma NothingTaken(b: bool, k: byte)
    ensures OwnBytes(b, Takes([]), k) && Headed(b, Takes([]), 0, k) == b
  {
  }

  lemma OwnBehind(h: Host, e: Host, es: seq<Event>, k: byte)
    requires OnlyOwn(h, k) && e.log == h.log + es && e.target == h.target && (h.target == Some(k) ==> HeadRead(h, k))
    requires forall i :: 0 <= i < |es| ==> !es[i].Take? && !IsOrder(es[i], CMD_NEW, k)
    ensures OnlyOwn(e, k) && (e.target == Some(k) ==> HeadRead(e, k))
  {
    hide Headed, OwnBytes, IsOrder;
    var b := Headed(false, h.log, |h.log|, k);
    OwnOfOrders(b, es, k);
    OwnOn(false, h.log, es, k);
    HeadedOn(false, h.log, es, |es|, |h.log| + |es|, k);
    StaysHeaded(b, es, |es|, k);
  }

  lemma {:induction false} StaysHeaded(b: bool, es: seq<Event>, n: nat, k: byte)
    requires n <= |es| && forall i :: 0 <= i < n ==> !es[i].Take? && !IsOrder(es[i], CMD_NEW, k)
    ensures Headed(b, es, n, k) == b
  {
    hide IsOrder;
    if n > 0 {
      StaysHeaded(b, es, n - 1, k);
    }
  }

  lemma ReactedContinues(v: Variant, h: Host, c: Command, k: byte)
    requires FromPeer(c) && OnlyOwn(h, k) && Continues(h, k)
    ensures var e := Reacted(v, h, c); OnlyOwn(e, k) && Continues(e, k)
  {
    hide Headed, OwnBytes, PeerEvents, OnCommand, ReleasesTwice, AllGreeted;
    var e := Reacted(v, h, c);
    PeerTakesNothing(ControlOf(h), c, k);
    OwnBehind(h, e, PeerEvents(ControlOf(h), c), k);
    if h.target == Some(k) {
      ReactedHolders(v, h, c, k);
      StillGreeted(Conns(h.table), Conns(e.table), k);
    }
  }

  lemma PeerTakesNothing(h: Control, c: Command, k: byte)
    ensures var es := PeerEvents(h, c); forall i :: 0 <= i < |es| ==> !es[i].Take? && !IsOrder(es[i], CMD_NEW, k)
  {
  }

  lemma ReactedHolders(v: Variant, h: Host, c: Command, k: byte)
    requires FromPeer(c)
    ensures NoNewHolder(Conns(h.table), Conns(Reacted(v, h, c).table), k)
  {
    hide Reacted;
    CommandKeepsTableSize(v, h, c);
    forall i | 0 <= i < |h.table|
      ensures Obeys(h.table[i].conn, Reacted(v, h, c).table[i].conn)
    {
      ReactedEach(v, h, c, i);
    }
  }

  lemma CommandKeepsTableSize(v: Variant, h: Host, c: Command)
    requires FromPeer(c)
    ensures |Reacted(v, h, c).table| == |h.table|
  {
    hide Find, PeerEvents, ReleasesTwice;
  }

  lemma SentHolders(cs: seq<Conn>, index: map<int, nat>, p: Pass, k: byte)
    requires Usable(cs, index)
    ensures NoNewHolder(cs, SentConns(cs, index, p), k)
  {
    hide Usable;
    SentSame(cs, index, p);
  }

  lemma FramesTakeNothing(frames: seq<Item>, k: byte)
    requires forall i :: 0 <= i < |frames| ==> frames[i].Data?
    ensures var es := FrameEvents(frames); forall i :: 0 <= i < |es| ==> !es[i].Take? && !IsOrder(es[i], CMD_NEW, k)
  {
  }

  lemma SentContinues(v: Variant, h: Host, index: map<int, nat>, k: byte)
    requires Usable(Conns(h.table), index) && OnlyOwn(h, k) && Continues(h, k)
    ensures
      var (s, p) := Sending(v, h, index);
      var e := WithFrames(WithOrders(v, h, s), p, SentConns(Conns(h.table), index, p));
      OnlyOwn(e, k) && Continues(e, k)
  {
    hide Headed, OwnBytes, Usable, Sending, SentConns, FrameEvents, AllGreeted, Orders;
    var (s, p) := Sending(v, h, index);
    var e := WithFrames(WithOrders(v, h, s), p, SentConns(Conns(h.table), index, p));
    OrdersSame(v, h, s);
    SendingObeysFlags(v, h, index);
    FramesTakeNothing(p.items, k);
    OwnBehind(h, e, FrameEvents(p.items), k);
    if h.target == Some(k) {
      SentHolders(Conns(h.table), index, p, k);
      StillGreeted(Conns(h.table), Conns(e.table), k);
    }
  }

  lemma AnsweredContinues(v: Variant, h: Host, index: map<int, nat>, k: byte)
    requires PumpOk(v, h, index) && NamesOk(h) && IndexOk(Conns(h.table), index) && PumpTable(Conns(h.table), index)
    requires k != 0 && OnlyOwn(h, k) && Continues(h, k)
    ensures var e := Answered(v, h, index); OnlyOwn(e, k) && Continues(e, k)
  {
    hide Headed, OwnBytes, Usable, TargetThere, Hear, NamesOk, IndexOk, PumpTable, AllGreeted, Listened, Reacted;
    var r := Hear(v, h, index);
    var h0 := Listened(h, index, r);
    ListenedOwn(v, h, index, k);
    ListenedGreeted(v, h, index, k);
    if OrderOf(r.got).Some? {
      ReactedContinues(v, h0, OrderOf(r.got).value, k);
    }
  }

  lemma PumpContinues(v: Variant, h: Host, index: map<int, nat>, k: byte)
    requires PumpOk(v, h, index) && NamesOk(h) && IndexOk(Conns(h.table), index) && PumpTable(Conns(h.table), index)
    requires k != 0 && OnlyOwn(h, k) && Continues(h, k)
    ensures var e := Pumped(v, h, index); OnlyOwn(e, k) && Continues(e, k)
  {
    hide OnlyOwn, Continues, PumpOk, NamesOk, IndexOk, PumpTable, Answered, Sending, SentConns, FrameEvents, Usable,
      Orders;
    AnsweredContinues(v, h, index, k);
    SentContinues(v, Answered(v, h, index), index, k);
  }

  /** Names: the holder, at place `i`, stays. */
  lemma NamedContinues(h: Host, k: byte) returns (i: nat)
    requires NamesOk(h) && NoneDeleted(Conns(h.table)) && k != 0 && OnlyOwn(h, k) && Continues(h, k)
    requires !Orphaned(h, k)
    ensures
      var s := Sort(Conns(h.table), h.free);
      var e := Named(h, s);
      && Conns(e.table) == s.conns && OnlyOwn(e, k) && Continues(e, k)
      && (e.target == Some(k) ==> i < |s.conns| && Holds(s.conns[i], k))
  {
    hide Partition, NoneDeleted, SortUpTo, AllGreeted, OwnBytes, Headed, Holds;
    i := 0;
    if h.target == Some(k) {
      i :| 0 <= i < |h.table| && Holds(Conns(h.table)[i], k);
      SortContinues(h, i, k);
    }
  }

  lemma BehindContinues(v: Variant, h: Host, k: byte)
    requires NamesOk(h) && NoneDeleted(Conns(h.table)) && k != 0 && OnlyOwn(h, k) && Continues(h, k)
    requires !Orphaned(h, k)
    ensures var e := Behind(v, h); OnlyOwn(e, k) && (e.strayed || Continues(e, k))
  {
    hide Partition, IndexOk, NoneDeleted, Sort, HandledAll, PumpOk, Pumped, PumpTable, Stops, AllGreeted, OwnBytes,
      Headed, Holds, Continues, Orphaned;
    var cs := Conns(h.table);
    var s := Sort(cs, h.free);
    SortedKeeps(h);
    var h2 := Named(h, s);
    var i := NamedContinues(h, k);
    if !Stops(s) {
      SameHandled(h, h2, s);
      AnnouncedContinues(h2, s, i, k);
      var d := HandledAll(h, s);
      var h3 := Announced(h2, d);
      if !d.again && PumpOk(v, h3, d.index) {
        HandledNames(h, s);
        AnnouncedTable(h, s);
        AnnouncedFits(h, s);
        PumpContinues(v, h3, d.index, k);
      }
    }
  }

  lemma SortedKeeps(h: Host)
    requires NamesOk(h) && NoneDeleted(Conns(h.table))
    ensures var s := Sort(Conns(h.table), h.free); Partition(s.free, s.conns) && IndexOk(s.conns, s.index)
  {
    hide Partition, IndexOk, NoneDeleted;
    SortKeeps(Conns(h.table), h.free, |h.table|);
  }

  // ---------------------------------------------------------------- whole runs

  ghost predicate Owns(h: Host, k: byte) {
    NamesOk(h) && OnlyOwn(h, k) && (h.strayed || Continues(h, k))
  }

  lemma NextOwns(v: Variant, h: Host, u: PollInput, k: byte)
    requires k != 0 && (h.twice || Owns(h, k)) && !Orphaned(h, k)
    ensures Next(v, h, u).twice || Owns(Next(v, h, u), k)
  {
    hide NamesOk, OnlyOwn, Continues, Orphaned, Behind, Poll, PollOk, NoneDeleted;
    MarksStay(v, h, u);
    NextKeepsNames(v, h, u);
    if !h.strayed && !Next(v, h, u).twice && PollOk(h.table, u) && |h.queue| <= QUEUE_SIZE {
      PollContinues(h, u, k);
      PollKeepsNames(h, u);
      if u.completes {
        PollLeavesNoneDeleted(h.table, u);
        BehindContinues(v, Polled(h, u), k);
      }
    }
  }

  lemma StartOwns(h: Host, k: byte)
    requires IsStart(h) && k != 0
    ensures Owns(h, k)
  {
    hide NamesOk;
    StartNames(h);
  }

  lemma {:induction false} RunOwns(v: Variant, h: Host, us: seq<PollInput>, n: nat, k: byte)
    requires IsStart(h) && k != 0 && n <= |us|
    requires forall m :: 0 <= m < n ==> !Orphaned(Run(v, h, us[..m]), k)
    ensures Run(v, h, us[..n]).twice || Owns(Run(v, h, us[..n]), k)
  {
    hide Next, Owns, Orphaned;
    if n == 0 {
      StartOwns(h, k);
      assert us[..0] == [];
    } else {
      RunOwns(v, h, us, n - 1, k);
      RunOneMore(v, h, us, n);
      NextOwns(v, Run(v, h, us[..n - 1]), us[n - 1], k);
    }
  }

  /** In every run that releases no identifier twice: as long as no update leaves a message under way
      for `k` while nobody holds `k`, every byte that comes out of the tunnel for a connection with
      this identifier is of a message that began since its own NEW. */
  lemma BytesAreOfOwnMessages(v: Variant, h: Host, us: seq<PollInput>, k: byte)
    requires IsStart(h) && k != 0 && !Run(v, h, us).twice
    requires forall m :: 0 <= m < |us| ==> !Orphaned(Run(v, h, us[..m]), k)
    ensures OwnBytes(false, Run(v, h, us).log, k)
  {
    hide Run, OwnBytes, Orphaned, NamesOk, Continues;
    RunOwns(v, h, us, |us|, k);
    assert us[..|us|] == us;
  }

  // ---------------------------------------------------------------- the exact condition

  lemma FirstByte(v: Variant, r: Received)
    requires r.Valid() && r.target.Some? && r.got == [] && r.tin.length > 0 && r.outs[r.target.value].Free() > 0
    requires
      var x := r.tin.Contents();
      |x| > 0 && x[0] != END_BYTE && UnitLength(x[0]) <= |x|
    requires !Deliver(v, r, r.target.value).fault.ReadPastData?
    ensures var got := Deliver(v, r, r.target.value).got; |got| > 0 && got[0].Byte? && got[0].id == r.target.value
  {
    ContentsLength(r.tin);
  }

  lemma GotGrows(v: Variant, r: Received)
    requires r.Valid() && r.target.None?
    ensures r.got <= TakeHead(v, r).got
  {
  }

  /** With a message under way and a payload byte in front, a call reads that byte first. */
  lemma FirstIsTheirs(v: Variant, r: Received, k: byte)
    requires r.Valid() && r.target == Some(k) && r.got == [] && r.tin.length > 0 && r.outs[k].Free() > 0
    requires
      var x := r.tin.Contents();
      |x| > 0 && x[0] != END_BYTE && UnitLength(x[0]) <= |x|
    requires !Receiver.Receive(v, r).fault.ReadPastData?
    ensures var got := Receiver.Receive(v, r).got; |got| > 0 && IsByte(Takes(got)[0], k)
  {
    hide TakeHead, Deliver;
    var r1 := Deliver(v, r, k);
    if !r1.fault.ReadPastData? {
      FirstByte(v, r);
      if r1.target.None? {
        GotGrows(v, r1);
      }
    }
  }

  /** The holder of `k` is about to get bytes of a message that did not begin for him: one is under
      way, no head was read since NEW, a payload byte is in front, and there is room for it. */
  predicate RestInFront(h: Host, index: map<int, nat>, k: byte)
    requires Usable(Conns(h.table), index)
  {
    && h.target == Some(k) && TargetThere(h, index) && !HeadRead(h, k)
    && var x := Hearing(h, index).tin.Contents();
    && |x| > 0 && x[0] != END_BYTE && UnitLength(x[0]) <= |x| && Hearing(h, index).outs[k].Free() > 0
  }

  lemma RestIsTheirs(v: Variant, h: Host, index: map<int, nat>, k: byte)
    requires PumpOk(v, h, index) && RestInFront(h, index, k)
    ensures !OnlyOwn(Listened(h, index, Hear(v, h, index)), k)
  {
    hide Headed, OwnBytes, Takes, Receiver.Receive, HeardConns, IsByte, Usable, Outs;
    var r := Hear(v, h, index);
    ContentsLength(Hearing(h, index).tin);
    FirstIsTheirs(v, Hearing(h, index), k);
    NotTheirs(r.got, k);
    OwnOn(false, h.log, Takes(r.got), k);
  }

  lemma NotTheirs(got: seq<Atom>, k: byte)
    requires |got| > 0 && IsByte(Takes(got)[0], k)
    ensures !OwnBytes(false, Takes(got), k)
  {
  }

  /** With no payload byte in front, or no room, a call begins with no byte of the message under way. */
  lemma NoneIsTheirs(v: Variant, r: Received, k: byte)
    requires r.Valid() && r.target == Some(k) && r.got == []
    requires
      var x := r.tin.Contents();
      |x| == 0 || x[0] == END_BYTE || UnitLength(x[0]) > |x| || r.outs[k].Free() == 0
    ensures OwnBytes(false, Takes(Receiver.Receive(v, r).got), k)
  {
    hide TakeHead, OwnBytes, Takes, Headed;
    ContentsLength(r.tin);
    NothingTaken(false, k);
    if r.tin.length > 0 {
      var r1 := Deliver(v, r, k);
      DeliversNothing(v, r, k);
      if !r1.fault.ReadPastData? && r1.target.None? {
        TakeHeadBegun(v, false, r1, k);
      }
    }
  }

  lemma DeliversNothing(v: Variant, r: Received, k: byte)
    requires r.Valid() && k in r.outs && r.got == []
    requires
      var x := r.tin.Contents();
      |x| > 0 && (x[0] == END_BYTE || UnitLength(x[0]) > |x| || r.outs[k].Free() == 0)
    ensures Deliver(v, r, k).got == []
  {
    ContentsLength(r.tin);
  }

  lemma ListenedOwnIff(v: Variant, h: Host, index: map<int, nat>, k: byte)
    requires PumpOk(v, h, index)
    ensures OnlyOwn(Listened(h, index, Hear(v, h, index)), k) <==> OnlyOwn(h, k) && !RestInFront(h, index, k)
  {
    hide Headed, OwnBytes, Takes, Receiver.Receive, HeardConns, Usable, TargetThere, Outs;
    var r := Hear(v, h, index);
    OwnOn(false, h.log, Takes(r.got), k);
    if RestInFront(h, index, k) {
      RestIsTheirs(v, h, index, k);
    } else if OnlyOwn(h, k) {
      if h.target == Some(k) && !HeadRead(h, k) {
        if TargetThere(h, index) {
          NoneIsTheirs(v, Hearing(h, index), k);
        } else {
          UnheardStays(v, h, index);
          NothingTaken(false, k);
        }
      } else {
        ListenedOwn(v, h, index, k);
      }
    }
  }

  /** Where nothing is read out of the tunnel nothing changes. */
  lemma SilentOwnIff(h: Host, e: Host, es: seq<Event>, k: byte)
    requires e.log == h.log + es && forall i :: 0 <= i < |es| ==> !es[i].Take?
    ensures OnlyOwn(e, k) <==> OnlyOwn(h, k)
  {
    hide Headed, OwnBytes;
    OwnOfOrders(Headed(false, h.log, |h.log|, k), es, k);
    OwnOn(false, h.log, es, k);
  }

  /** One turn of the pump. */
  lemma PumpOwnsIff(v: Variant, h: Host, index: map<int, nat>, k: byte)
    requires PumpOk(v, h, index)
    ensures OnlyOwn(Pumped(v, h, index), k) <==> OnlyOwn(h, k) && !RestInFront(h, index, k)
  {
    hide OnlyOwn, RestInFront, Usable, TargetThere, Hear, Listened, Reacted, Sending, SentConns, FrameEvents, Orders;
    var r := Hear(v, h, index);
    var h0, h1 := Listened(h, index, r), Answered(v, h, index);
    var (s, p) := Sending(v, h1, index);
    ListenedOwnIff(v, h, index, k);
    if OrderOf(r.got).Some? {
      var c := OrderOf(r.got).value;
      ReactedLog(v, h0, c);
      PeerTakesNothing(ControlOf(h0), c, k);
      SilentOwnIff(h0, h1, PeerEvents(ControlOf(h0), c), k);
    }
    OrdersSame(v, h1, s);
    SendingObeysFlags(v, h1, index);
    FramesTakeNothing(p.items, k);
    SilentOwnIff(h1, Pumped(v, h, index), FrameEvents(p.items), k);
  }

  /** The update comes to a turn of the pump that gives such bytes out. */
  predicate GivesRest(v: Variant, h: Host, u: PollInput, k: byte) {
    && !h.strayed && PollOk(h.table, u) && |h.queue| <= QUEUE_SIZE && u.completes
    && var h1 := Polled(h, u);
    var s := Sort(Conns(h1.table), h1.free);
    && !Stops(s)
    && var d := HandledAll(h1, s);
    var h3 := Announced(Named(h1, s), d);
    !d.again && PumpOk(v, h3, d.index) && RestInFront(h3, d.index, k)
  }

  lemma NextOwnsIff(v: Variant, h: Host, u: PollInput, k: byte)
    ensures OnlyOwn(Next(v, h, u), k) <==> OnlyOwn(h, k) && !GivesRest(v, h, u, k)
  {
    hide OnlyOwn, RestInFront, PollOk, Poll, Sort, Stops, HandledAll, PumpOk, Pumped, Emits;
    if !h.strayed && PollOk(h.table, u) && |h.queue| <= QUEUE_SIZE {
      var h1 := Polled(h, u);
      SameOwn(h, h1, k);
      if u.completes {
        var s := Sort(Conns(h1.table), h1.free);
        SameOwn(h1, Named(h1, s), k);
        if !Stops(s) {
          var d := HandledAll(h1, s);
          var h3 := Announced(Named(h1, s), d);
          EmitsTakeNothing(d.said);
          SilentOwnIff(Named(h1, s), h3, Emits(d.said), k);
          SameOwn(h3, h3.(strayed := true), k);
          if !d.again && PumpOk(v, h3, d.index) {
            PumpOwnsIff(v, h3, d.index, k);
          }
        }
      }
    }
  }

  lemma SameOwn(h: Host, e: Host, k: byte)
    requires e.log == h.log
    ensures OnlyOwn(e, k) <==> OnlyOwn(h, k)
  {
  }

  lemma {:induction false} RunOwnsIff(v: Variant, h: Host, us: seq<PollInput>, n: nat, k: byte)
    requires n <= |us| && h.log == []
    ensures OnlyOwn(Run(v, h, us[..n]), k) <==> forall m :: 0 <= m < n ==> !GivesRest(v, Run(v, h, us[..m]), us[m], k)
  {
    hide Next, GivesRest;
    if n == 0 {
      assert us[..0] == [];
    } else {
      RunOwnsIff(v, h, us, n - 1, k);
      RunOneMore(v, h, us, n);
      NextOwnsIff(v, Run(v, h, us[..n - 1]), us[n - 1], k);
    }
  }

  /** Over every run: each byte that a connection gets is of a message that began since its own NEW if
      and only if no update gives the rest of another one to it. */
  lemma OwnMessagesIff(v: Variant, h: Host, us: seq<PollInput>, k: byte)
    requires h.log == []
    ensures OwnBytes(false, Run(v, h, us).log, k)
            <==> forall m :: 0 <= m < |us| ==> !GivesRest(v, Run(v, h, us[..m]), us[m], k)
  {
    hide Run, OwnBytes, GivesRest;
    RunOwnsIff(v, h, us, |us|, k);
    assert us[..|us|] == us;
  }

  lemma ReactedLog(v: Variant, h: Host, c: Command)
    requires FromPeer(c)
    ensures Reacted(v, h, c).log == h.log + PeerEvents(ControlOf(h), c)
  {
  }
}
