/** The bytes of the tunnel over whole runs: what was written to its socket and what waits in its
    out_buf are the encodings of everything put into the tunnel, in order. */
module TunnelWire {
  import opened Basics
  import opened Ring
  import opened Wire
  import opened Connections
  import opened Slots
  import opened Receiver
  import opened Scheduling
  import opened Protocol
  import opened Identifiers
  import opened Grammar
  import opened Accounts
  import opened Duties
  import opened Runs
  import opened H = Host

  function EncodingOf(items: seq<Item>): seq<byte> {
    EncodingAll(items, |items|)
  }

  lemma {:induction false} EncodingFront(a: seq<Item>, b: seq<Item>, n: nat)
    requires n <= |a|
    ensures EncodingAll(a + b, n) == EncodingAll(a, n)
  {
    hide Encoding;
    if n > 0 {
      EncodingFront(a, b, n - 1);
      assert (a + b)[n - 1] == a[n - 1];
    }
  }

  lemma {:induction false} EncodingOn(a: seq<Item>, b: seq<Item>, n: nat, m: nat)
    requires n <= |b| && m == |a| + n
    ensures EncodingAll(a + b, m) == EncodingOf(a) + EncodingAll(b, n)
  {
    hide Encoding;
    if n == 0 {
      EncodingFront(a, b, |a|);
      assert EncodingOf(a) + [] == EncodingOf(a);
    } else {
      EncodingOn(a, b, n - 1, m - 1);
      assert (a + b)[m - 1] == b[n - 1];
      JoinsInParts(EncodingOf(a), EncodingAll(b, n - 1), Encoding(b[n - 1]), []);
    }
  }

  lemma EncodingConcat(a: seq<Item>, b: seq<Item>)
    ensures EncodingOf(a + b) == EncodingOf(a) + EncodingOf(b)
  {
    EncodingOn(a, b, |b|, |a + b|);
  }

  lemma OrdersFront(queue: seq<Command>, n: nat)
    requires n <= |queue|
    ensures EncodingAll(Orders(queue), n) == EncodingOf(Orders(queue[..n]))
  {
    hide EncodingAll;
    assert Orders(queue[..n]) + Orders(queue[n..]) == Orders(queue);
    EncodingFront(Orders(queue[..n]), Orders(queue[n..]), n);
  }

  /** What one turn of the pump does to the tunnel's out_buf, as long as it overwrites nothing: behind
      its contents come the commands it took from the queue, and behind these the frames. */
  lemma PumpFillsTunnel(v: Variant, h: Host, index: map<int, nat>)
    requires PumpOk(v, h, index) && !Pumped(v, h, index).torn
    ensures
      var h1 := Answered(v, h, index);
      var e := Pumped(v, h, index);
      var (s, p) := Sending(v, h1, index);
      && 0 in index && index[0] < |h1.table| == |e.table|
      && h1.table[index[0]].conn.outb.Valid() && e.table[index[0]].conn.outb.Valid()
      && e.wire == h.wire + Orders(h1.queue[..s.n]) + p.items
      && e.queue == QueueAfter(v, h1.queue, s)
      && e.table[index[0]].conn.outb.Contents()
         == h1.table[index[0]].conn.outb.Contents() + EncodingOf(Orders(h1.queue[..s.n])) + EncodingOf(p.items)
  {
    hide Sending, Usable, Transfer, EncodingAll, Orders, FrameEvents, Answered, SentConn, PumpOk;
    var h1 := Answered(v, h, index);
    SendingFills(v, h1, index);
    AnswerKeepsWire(v, h, index);
    WritesTunnel(v, h, index);
  }

  /** Receiving puts nothing into the tunnel. */
  lemma AnswerKeepsWire(v: Variant, h: Host, index: map<int, nat>)
    requires PumpOk(v, h, index)
    ensures var h1 := Answered(v, h, index); h1.wire == h.wire && h1.torn == h.torn
  {
    hide Usable, TargetThere, Hear, HeardConns, ReleasesTwice, OnCommand, PeerEvents;
  }

  lemma WritesTunnel(v: Variant, h: Host, index: map<int, nat>)
    requires PumpOk(v, h, index)
    ensures
      var h1 := Answered(v, h, index);
      var e := Pumped(v, h, index);
      && 0 in index && index[0] < |h1.table| == |e.table|
      && e.table[index[0]].conn.outb == Sending(v, h1, index).1.tout
      && e.torn == (h1.torn || Sending(v, h1, index).1.fault)
  {
    hide Sending, InAfter, Answered, FrameEvents, Orders, PumpOk;
    PumpHasTunnel(v, h, index);
  }

  lemma SendingFills(v: Variant, h: Host, index: map<int, nat>)
    requires Usable(Conns(h.table), index)
    ensures
      var (s, p) := Sending(v, h, index);
      && h.table[index[0]].conn.outb.Valid() && p.tout.Valid()
      && (!p.fault ==>
            p.tout.Contents() == h.table[index[0]].conn.outb.Contents() + EncodingOf(Orders(h.queue[..s.n]))
                                 + EncodingOf(p.items))
  {
    SendingIsValid(h, index);
    var (s, p) := Sending(v, h, index);
    hide Transfer, EncodingAll, Orders;
    var tout, srcs := h.table[index[0]].conn.outb, Sources(Conns(h.table), index);
    OrdersFront(h.queue, s.n);
    if !p.fault {
      TransferFrames(v, h.queue, tout, srcs, h.from);
    }
  }

  // ---------------------------------------------------------------- the tunnel in the table

  /** One connection is the tunnel, and `y` are the bytes written to it and those waiting there. */
  predicate TunnelIs(t: seq<Slot>, y: seq<byte>) {
    && Holders(Conns(t), |t|, 0) == 1
    && forall i :: 0 <= i < |t| && Holds(t[i].conn, 0) ==> WrittenIs(t[i], y)
  }

  predicate ItemsOk(items: seq<Item>) {
    forall i :: 0 <= i < |items| ==> ItemOk(items[i])
  }

  ghost predicate TunnelOk(h: Host) {
    TunnelIs(h.table, EncodingOf(h.wire)) && ItemsOk(h.wire)
  }

  /** Identifier 0 is never sent as that of a data frame. */
  lemma SentItemsOk(v: Variant, h: Host, index: map<int, nat>, wire: seq<Item>)
    requires Usable(Conns(h.table), index) && ItemsOk(wire)
    ensures var (s, p) := Sending(v, h, index); ItemsOk(wire + Orders(h.queue[..s.n]) + p.items)
  {
    hide Sending, Usable;
    SendingObeysFlags(v, h, index);
  }

  /** A step that keeps the tunnel, its record and its out_buf, and makes no other one. */
  predicate SameTunnel(s: Slot, s': Slot) {
    && Holds(s'.conn, 0) == Holds(s.conn, 0)
    && (Holds(s.conn, 0) ==> s'.written == s.written && s'.conn.outb == s.conn.outb)
  }

  lemma TunnelStaysIs(t: seq<Slot>, t': seq<Slot>, y: seq<byte>)
    requires TunnelIs(t, y) && |t'| == |t| && forall i :: 0 <= i < |t| ==> SameTunnel(t[i], t'[i])
    ensures TunnelIs(t', y)
  {
    hide Holders, Holds;
    forall i | 0 <= i < |t|
      ensures Holds(Conns(t')[i], 0) == Holds(Conns(t)[i], 0)
    {
      assert SameTunnel(t[i], t'[i]);
    }
    SameHolders(Conns(t), Conns(t'), |t|, 0);
  }

  lemma EvolvesTunnel(s: Slot, s': Slot, y: seq<byte>)
    requires Evolves(s, s')
    ensures Holds(s.conn, 0) == Holds(s'.conn, 0) && (WrittenIs(s, y) ==> WrittenIs(s', y))
  {
    hide ReadIs, WrittenIs;
  }

  lemma PollKeepsTunnel(t: seq<Slot>, p: PollInput, y: seq<byte>)
    requires PollOk(t, p) && TunnelIs(t, y)
    ensures TunnelIs(Poll(t, p).table, y)
  {
    hide PollOk, Poll, Evolves, Holders, WrittenIs;
    var t' := Poll(t, p).table;
    PollHolders(t, p, 0);
    forall i | 0 <= i < |t'| && Holds(t'[i].conn, 0)
      ensures WrittenIs(t'[i], y)
    {
      assert t'[i] in t';
      PollDescends(t, p, t'[i]);
      if s :| s in t && Evolves(s, t'[i]) {
        EvolvesTunnel(s, t'[i], y);
      } else {
        AcceptedIsNoTunnel(t, p);
        EvolvesTunnel(p.accepted.value, t'[i], y);
      }
    }
  }

  lemma AcceptedIsNoTunnel(t: seq<Slot>, p: PollInput)
    requires PollOk(t, p)
    ensures p.accepted.Some? ==> !Holds(p.accepted.value.conn, 0)
  {
    hide IoOk, Armed;
  }

  lemma NamingLeavesTunnel(s: Sorted, j: nat, i: nat)
    requires j < |s.conns| && i < |s.conns| && Partition(s.free, s.conns)
    requires forall k :: k in s.index ==> s.index[k] < |s.conns|
    ensures Holds(SortStep(s, j).conns[i], 0) == Holds(s.conns[i], 0)
  {
    hide Assigned, Times, Holders;
    assert WellNamed(s.conns[j]);
    if NeedsId(s.conns[j]) && s.free != [] {
      NamingKeeps(s.free, s.conns, j);
    }
  }

  lemma {:induction false} SortLeavesTunnel(cs: seq<Conn>, free: seq<int>, n: nat, i: nat)
    requires n <= |cs| && i < |cs| && Partition(free, cs) && NoneDeleted(cs)
    ensures Holds(SortUpTo(cs, free, n).conns[i], 0) == Holds(cs[i], 0)
  {
    hide Holds, Partition, NoneDeleted, SortStep;
    if n > 0 {
      SortLeavesTunnel(cs, free, n - 1, i);
      SortKeeps(cs, free, n - 1);
      NamingLeavesTunnel(SortUpTo(cs, free, n - 1), n - 1, i);
    }
  }

  lemma SortKeepsTunnel(h: Host, y: seq<byte>)
    requires NamesOk(h) && NoneDeleted(Conns(h.table)) && TunnelIs(h.table, y)
    ensures TunnelIs(Named(h, Sort(Conns(h.table), h.free)).table, y)
  {
    hide Partition, NoneDeleted, TunnelIs, SortUpTo, Holds;
    var cs := Conns(h.table);
    var e := Named(h, Sort(cs, h.free));
    forall i | 0 <= i < |h.table|
      ensures SameTunnel(h.table[i], e.table[i])
    {
      SortLeavesTunnel(cs, h.free, |cs|, i);
      SortEach(cs, h.free, |cs|, i);
    }
    TunnelStaysIs(h.table, e.table, y);
  }

  /** The loop of `handle_state_changes` never looks at the tunnel. */
  lemma {:induction false} HandleLeavesTunnel(h: Handled, n: nat, i: nat)
    requires h.Valid() && IndexOk(h.conns, h.index) && i < |h.conns| && h.conns[i].id == 0
    ensures HandleUpTo(h, true, n).conns[i] == h.conns[i]
  {
    hide React;
    if n > 0 {
      HandleLeavesTunnel(h, n - 1, i);
      IndexStays(h, true, n - 1);
    }
  }

  lemma HandleKeepsTunnel(h: Host, s: Sorted, y: seq<byte>)
    requires |h.queue| <= QUEUE_SIZE && s.conns == Conns(h.table) && TunnelIs(h.table, y)
    requires IndexOk(s.conns, s.index)
    ensures TunnelIs(Announced(h, HandledAll(h, s)).table, y)
  {
    hide TunnelIs, HandleUpTo;
    var d0 := Handled(s.conns, s.free, s.index, [], QUEUE_SIZE - |h.queue|, false);
    var e := Announced(h, HandledAll(h, s));
    forall i | 0 <= i < |h.table|
      ensures SameTunnel(h.table[i], e.table[i])
    {
      HandleEach(d0, MAX_STACK_SIZE, i);
      if s.conns[i].id == 0 {
        HandleLeavesTunnel(d0, MAX_STACK_SIZE, i);
      }
    }
    TunnelStaysIs(h.table, e.table, y);
  }

  lemma ReactedKeepsTunnel(v: Variant, h: Host, c: Command, y: seq<byte>)
    requires FromPeer(c) && TunnelIs(h.table, y)
    ensures TunnelIs(Reacted(v, h, c).table, y)
  {
    hide TunnelIs, Reacted;
    var e := Reacted(v, h, c);
    assert |e.table| == |h.table| by {
      TunnelUntouched(v, h, c);
    }
    forall i | 0 <= i < |h.table|
      ensures SameTunnel(h.table[i], e.table[i])
    {
      ReactedEach(v, h, c, i);
      TunnelUntouched(v, h, c);
    }
    TunnelStaysIs(h.table, e.table, y);
  }

  lemma TunnelUntouched(v: Variant, h: Host, c: Command)
    requires FromPeer(c)
    ensures var e := Reacted(v, h, c);
            |e.table| == |h.table|
            && forall i :: 0 <= i < |h.table| && h.table[i].conn.id == 0 ==> e.table[i] == h.table[i]
  {
    hide Find, PeerEvents, ReleasesTwice;
  }

  /** The tunnel, at place `index[0]`, loses bytes of its in_buf only; no other connection is one. */
  lemma HeardTunnel(h: Host, index: map<int, nat>, r: Received, i: nat, y: seq<byte>)
    requires Usable(Conns(h.table), index) && index[0] < |h.table| && Holds(Conns(h.table)[index[0]], 0)
    requires TunnelIs(h.table, y) && i < |h.table|
    ensures SameTunnel(h.table[i], Listened(h, index, r).table[i])
  {
    hide TunnelIs;
    HeardSame(Conns(h.table), index, r);
    if Holds(h.table[i].conn, 0) {
      OnlyTunnel(h.table, y, i, index[0]);
    }
  }

  lemma ListenedKeepsTunnel(h: Host, index: map<int, nat>, r: Received, y: seq<byte>)
    requires Usable(Conns(h.table), index) && index[0] < |h.table| && Holds(Conns(h.table)[index[0]], 0)
    requires TunnelIs(h.table, y)
    ensures
      var h0 := Listened(h, index, r);
      TunnelIs(h0.table, y) && |h0.table| == |h.table| && Holds(Conns(h0.table)[index[0]], 0)
  {
    hide TunnelIs, SameTunnel, HeardConns, Holds;
    var h0 := Listened(h, index, r);
    forall i | 0 <= i < |h.table|
      ensures SameTunnel(h.table[i], h0.table[i])
    {
      HeardTunnel(h, index, r, i, y);
    }
    TunnelStaysIs(h.table, h0.table, y);
    HeardSame(Conns(h.table), index, r);
    SameHolds(Conns(h.table)[index[0]], Conns(h0.table)[index[0]], 0);
  }

  lemma SameHolds(c: Conn, d: Conn, k: int)
    requires SameButBuffers(c, d)
    ensures Holds(d, k) == Holds(c, k)
  {
  }

  lemma AnswerKeepsTunnel(v: Variant, h: Host, index: map<int, nat>, y: seq<byte>)
    requires PumpOk(v, h, index) && TunnelIs(h.table, y)
    requires index[0] < |h.table| && Holds(Conns(h.table)[index[0]], 0)
    ensures
      var h1 := Answered(v, h, index);
      TunnelIs(h1.table, y) && |h1.table| == |h.table| && Holds(Conns(h1.table)[index[0]], 0)
  {
    hide TunnelIs, Reacted, Listened, Usable, TargetThere, Hear;
    var r := Hear(v, h, index);
    var h0 := Listened(h, index, r);
    PumpHasTunnel(v, h, index);
    ListenedKeepsTunnel(h, index, r, y);
    if OrderOf(r.got).Some? {
      ReactedKeepsTunnel(v, h0, OrderOf(r.got).value, y);
      TunnelUntouched(v, h0, OrderOf(r.got).value);
    }
  }

  /** There is only one tunnel. */
  lemma OnlyTunnel(t: seq<Slot>, y: seq<byte>, i: nat, j: nat)
    requires TunnelIs(t, y) && i < |t| && j < |t| && Holds(t[i].conn, 0) && Holds(t[j].conn, 0)
    ensures i == j
  {
    hide Holders, Holds, WrittenIs;
    if i < j {
      TwoHoldersCount(Conns(t), i, j, |t|, 0);
    } else if j < i {
      TwoHoldersCount(Conns(t), j, i, |t|, 0);
    }
  }

  /** The tunnel, at place `i`, after more was put behind its contents. */
  lemma TunnelGrows(t: seq<Slot>, after: seq<Conn>, y: seq<byte>, i: nat, more: seq<byte>)
    requires TunnelIs(t, y) && i < |t| == |after| && Holds(t[i].conn, 0)
    requires forall j :: 0 <= j < |t| ==> SameButBuffers(t[j].conn, after[j])
    requires t[i].conn.outb.Valid() && after[i].outb.Valid()
    requires after[i].outb.Contents() == t[i].conn.outb.Contents() + more
    ensures TunnelIs(WithConns(t, after), y + more)
  {
    hide Holders, Ring.Contents;
    var t' := WithConns(t, after);
    forall j | 0 <= j < |t|
      ensures Holds(Conns(t')[j], 0) == Holds(Conns(t)[j], 0)
      ensures Holds(t'[j].conn, 0) ==> WrittenIs(t'[j], y + more)
    {
      assert SameButBuffers(t[j].conn, after[j]);
      if Holds(t[j].conn, 0) {
        OnlyTunnel(t, y, i, j);
        assert (t[i].written + t[i].conn.outb.Contents()) + more
            == t[i].written + (t[i].conn.outb.Contents() + more);
      }
    }
    SameHolders(Conns(t), Conns(t'), |t|, 0);
  }

  lemma PumpKeepsTunnel(v: Variant, h: Host, index: map<int, nat>)
    requires PumpOk(v, h, index) && TunnelOk(h)
    requires index[0] < |h.table| && Holds(Conns(h.table)[index[0]], 0) && !Pumped(v, h, index).torn
    ensures TunnelOk(Pumped(v, h, index))
  {
    hide TunnelIs, EncodingOf, ItemsOk, Sending, Usable, Answered, SentConns, Orders, FrameEvents, SameButBuffers,
      Holds, PumpOk;
    PumpHasTunnel(v, h, index);
    var h1 := Answered(v, h, index);
    var e := Pumped(v, h, index);
    var (s, p) := Sending(v, h1, index);
    var after := SentConns(Conns(h1.table), index, p);
    var y, o, f := EncodingOf(h.wire), EncodingOf(Orders(h1.queue[..s.n])), EncodingOf(p.items);
    AnswerKeepsTunnel(v, h, index, y);
    PumpFillsTunnel(v, h, index);
    SentSame(Conns(h1.table), index, p);
    OrdersSame(v, h1, s);
    SentItemsOk(v, h1, index, h.wire);
    EncodingConcat(h.wire, Orders(h1.queue[..s.n]));
    EncodingConcat(h.wire + Orders(h1.queue[..s.n]), p.items);
    JoinsInParts(h1.table[index[0]].conn.outb.Contents(), o, f, []);
    JoinsInParts(y, o, f, []);
    assert e.table == WithConns(h1.table, after);
    TunnelGrows(h1.table, after, y, index[0], o + f);
  }

  // ---------------------------------------------------------------- whole runs

  lemma BehindKeepsTunnel(v: Variant, h: Host)
    requires NamesOk(h) && NoneDeleted(Conns(h.table)) && TunnelOk(h) && !Behind(v, h).torn
    ensures TunnelOk(Behind(v, h))
  {
    hide Partition, IndexOk, NoneDeleted, Sort, SortUpTo, HandledAll, PumpOk, Pumped, TunnelIs, ItemsOk, Stops,
      Holds;
    var cs := Conns(h.table);
    SortKeeps(cs, h.free, |cs|);
    var s := Sort(cs, h.free);
    SortIsAll(cs, h.free);
    var h2 := Named(h, s);
    SortKeepsTunnel(h, EncodingOf(h.wire));
    if !Stops(s) {
      SameHandled(h, h2, s);
      HandleKeepsTunnel(h2, s, EncodingOf(h.wire));
      var d := HandledAll(h, s);
      var h3 := Announced(h2, d);
      if !d.again && PumpOk(v, h3, d.index) {
        HandledNames(h, s);
        PumpHasTunnel(v, h3, d.index);
        TunnelHeld(d.conns, d.index);
        PumpKeepsTunnel(v, h3, d.index);
      }
    }
  }

  ghost predicate Carries(h: Host) {
    NamesOk(h) && TunnelOk(h)
  }

  lemma NextKeepsTunnel(v: Variant, h: Host, u: PollInput)
    requires h.twice || h.torn || Carries(h)
    ensures var e := Next(v, h, u); e.twice || e.torn || Carries(e)
  {
    hide NamesOk, TunnelIs, Behind, Poll, PollOk, NoneDeleted;
    MarksStay(v, h, u);
    var e := Next(v, h, u);
    if !h.strayed && !e.twice && !e.torn && PollOk(h.table, u) && |h.queue| <= QUEUE_SIZE {
      NextKeepsNames(v, h, u);
      PollKeepsTunnel(h.table, u, EncodingOf(h.wire));
      PollKeepsNames(h, u);
      if u.completes {
        PollLeavesNoneDeleted(h.table, u);
        BehindKeepsTunnel(v, Polled(h, u));
      }
    }
  }

  lemma StartCarries(h: Host)
    requires IsStart(h)
    ensures Carries(h)
  {
    hide NamesOk;
    StartNames(h);
    ContentsLength(h.table[0].conn.outb);
    assert Holders(Conns(h.table), 0, 0) == 0;
  }

  /** In every run that releases no identifier twice and overwrites nothing in the tunnel's out_buf,
      and in every corrected run: the bytes ever written to the socket of the tunnel, and behind
      them those in its out_buf, are the encodings of all that was put into the tunnel, in order;
      and the reference reader reads back exactly that. */
  lemma TunnelCarriesWire(v: Variant, h: Host, us: seq<PollInput>, i: nat)
    requires IsStart(h) && (v.Corrected? || (!Run(v, h, us).twice && !Run(v, h, us).torn))
    requires i < |Run(v, h, us).table| && Holds(Run(v, h, us).table[i].conn, 0)
    ensures
      var e := Run(v, h, us);
      && e.table[i].conn.outb.Valid()
      && var bytes := e.table[i].written + e.table[i].conn.outb.Contents();
      && bytes == EncodingOf(e.wire)
      && Read(bytes, Start()) == Reader(|bytes|, None, AtomsAll(e.wire, |e.wire|))
  {
    hide Next, Carries, Run;
    RunCarries(v, h, us);
    if v.Corrected? {
      CorrectedRunsNeverFail(h, us);
    }
    CarriesAt(Run(v, h, us), i);
  }

  lemma RunCarries(v: Variant, h: Host, us: seq<PollInput>)
    requires IsStart(h)
    ensures var e := Run(v, h, us); e.twice || e.torn || Carries(e)
  {
    hide Next, Carries;
    StartCarries(h);
    forall x: Host, u | x.twice || x.torn || Carries(x)
      ensures Next(v, x, u).twice || Next(v, x, u).torn || Carries(Next(v, x, u))
    {
      NextKeepsTunnel(v, x, u);
    }
    RunKeeps((x, u) => Next(v, x, u), (x: Host) => x.twice || x.torn || Carries(x), h, us, |us|);
  }

  lemma CarriesAt(h: Host, i: nat)
    requires Carries(h) && i < |h.table| && Holds(h.table[i].conn, 0)
    ensures WrittenIs(h.table[i], EncodingOf(h.wire))
    ensures Read(EncodingOf(h.wire), Start())
         == Reader(|EncodingOf(h.wire)|, None, AtomsAll(h.wire, |h.wire|))
  {
    hide NamesOk, WrittenIs, EncodingAll, AtomsAll, Read;
    FramesReadBack(h.wire, |h.wire|);
  }
}
