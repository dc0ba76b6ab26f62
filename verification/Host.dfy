/** Runs of the accepting side: every `update` polls, names and greets connections, reacts to the
    peer and lets the pump receive and send. The sockets and the peer are arbitrary inputs: which
    bytes are read, also from the tunnel, and how many are written. */
module Host {
  import opened Basics
  import opened Ring
  import opened Wire
  import opened Connections
  import opened Slots
  import opened Framing
  import opened Receiver
  import opened Scheduling
  import opened Protocol
  import opened Identifiers
  import opened Grammar
  import opened Runs

  /** The fields of the controller and of its pump, with the record of what went into the tunnel and
      of all that was put in line for it or read out of it; and five marks that stay: a command was
      lost, an identifier was released twice, bytes were overwritten in the tunnel's out_buf or in
      another one, and the program left what is modelled. */
  datatype Host = Host(
    table: seq<Slot>, free: seq<int>, queue: seq<Command>, from: nat, target: Option<byte>,
    wire: seq<Item>, log: seq<Event>,
    lost: bool, twice: bool, torn: bool, smeared: bool, strayed: bool)
  {
    /** The phase of identifier `k`. */
    function Phase(k: byte): Phase {
      PhaseAfter(Idle, log, |log|, k)
    }
  }

  function Conns(t: seq<Slot>): (cs: seq<Conn>)
    ensures |cs| == |t|
  {
    seq(|t|, i requires 0 <= i < |t| => t[i].conn)
  }

  function WithConns(t: seq<Slot>, cs: seq<Conn>): (t': seq<Slot>)
    requires |cs| == |t|
    ensures |t'| == |t| && Conns(t') == cs
  {
    var t' := seq(|t|, i requires 0 <= i < |t| => t[i].(conn := cs[i]));
    assert Conns(t') == cs;
    t'
  }

  // ---------------------------------------------------------------- the parts of update

  function Polled(h: Host, p: PollInput): Host
    requires PollOk(h.table, p)
  {
    h.(table := Poll(h.table, p).table)
  }

  function Named(h: Host, s: Sorted): Host
    requires |s.conns| == |h.table|
  {
    h.(table := WithConns(h.table, s.conns), free := s.free)
  }

  /** No tunnel, or a tunnel that is not usable any more. */
  predicate Stops(s: Sorted)
    requires forall k :: k in s.index ==> s.index[k] < |s.conns|
  {
    0 !in s.index || TunnelClosed(s.conns[s.index[0]])
  }

  function HandledAll(h: Host, s: Sorted): (d: Handled)
    requires |h.queue| <= QUEUE_SIZE && forall k :: k in s.index ==> s.index[k] < |s.conns|
    ensures d.Valid() && |d.conns| == |s.conns|
  {
    HandleUpTo(Handled(s.conns, s.free, s.index, [], QUEUE_SIZE - |h.queue|, false), true, MAX_STACK_SIZE)
  }

  function Announced(h: Host, d: Handled): Host
    requires |d.conns| == |h.table|
  {
    h.(table := WithConns(h.table, d.conns), free := d.free, queue := h.queue + d.said,
       log := h.log + Emits(d.said))
  }

  function ControlOf(h: Host): Control {
    Control(Conns(h.table), h.free, h.queue)
  }

  /** `on_command` for the command that `recv_from_tunnel` read. */
  function Reacted(v: Variant, h: Host, c: Command): Host
    requires FromPeer(c)
  {
    var k := OnCommand(v, true, ControlOf(h), c, None);
    h.(table := WithConns(h.table, k.conns), free := k.free, queue := k.queue,
       log := h.log + PeerEvents(ControlOf(h), c),
       twice := h.twice || (v.Shipped? && ReleasesTwice(ControlOf(h), c)))
  }

  /** The command loop of `pump_transfer`, which came to `s`. */
  function WithOrders(v: Variant, h: Host, s: Sent): Host
    requires s.n <= |h.queue| && (s.blocked ==> s.n < |h.queue|)
  {
    h.(queue := QueueAfter(v, h.queue, s), wire := h.wire + Orders(h.queue[..s.n]),
       lost := h.lost || (v.Shipped? && s.blocked))
  }

  function FrameEvents(frames: seq<Item>): (es: seq<Event>)
    ensures |es| == |frames|
  {
    seq(|frames|, i requires 0 <= i < |frames| => Emit(frames[i]))
  }

  /** The data loop, which came to `p`, and the connections after the whole `pump_transfer`. */
  function WithFrames(h: Host, p: Pass, after: seq<Conn>): Host
    requires |after| == |h.table|
  {
    h.(table := WithConns(h.table, after), from := if p.blocked.Some? then p.blocked.value else h.from,
       wire := h.wire + p.items, log := h.log + FrameEvents(p.items), torn := h.torn || p.fault)
  }

  /** Connection `id` is in the table of the pump and may send. */
  predicate MaySend(cs: seq<Conn>, index: map<int, nat>, id: int) {
    id != 0 && id in index && index[id] < |cs|
    && cs[index[id]].state.IsAlive() && cs[index[id]].inState.IsAlive()
  }

  /** The in_bufs of the connections that may send. */
  function Sources(cs: seq<Conn>, index: map<int, nat>): map<byte, Ring> {
    map id: byte | MaySend(cs, index, id) :: cs[index[id]].inb
  }

  predicate SameButBuffers(c: Conn, d: Conn) {
    d.id == c.id && d.state == c.state && d.inState == c.inState && d.outState == c.outState
  }

  /** The pump finds the tunnel, and sound buffers. */
  predicate Usable(cs: seq<Conn>, index: map<int, nat>) {
    && 0 in index && (forall k :: k in index ==> index[k] < |cs|)
    && forall i :: 0 <= i < |cs| ==> cs[i].Valid()
  }

  lemma SendingIsValid(h: Host, index: map<int, nat>)
    requires Usable(Conns(h.table), index)
    ensures Pass(Sources(Conns(h.table), index), h.table[index[0]].conn.outb, [], [], None, false).Valid()
  {
    var cs := Conns(h.table);
    assert cs[index[0]].Valid();
    forall id | id in Sources(cs, index)
      ensures Sources(cs, index)[id].Valid()
    {
      assert cs[index[id]].Valid();
    }
  }

  /** The sending half of `pump_transfer`. */
  function Sending(v: Variant, h: Host, index: map<int, nat>): (t: (Sent, Pass))
    requires Usable(Conns(h.table), index)
    ensures t.0.n <= |h.queue| && (t.0.blocked ==> t.0.n < |h.queue|)
    ensures t.1.srcs.Keys == Sources(Conns(h.table), index).Keys
  {
    SendingIsValid(h, index);
    Transfer(v, h.queue, h.table[index[0]].conn.outb, Sources(Conns(h.table), index), h.from)
  }

  /** The in_buf of connection `i` behind the pass `p`. */
  function InAfter(cs: seq<Conn>, index: map<int, nat>, p: Pass, i: nat): Ring
    requires i < |cs|
  {
    var id := cs[i].id;
    if id in index && index[id] == i && id in p.srcs then p.srcs[id] else cs[i].inb
  }

  /** Connection `i` behind the pass `p`. */
  function SentConn(cs: seq<Conn>, index: map<int, nat>, p: Pass, i: nat): Conn
    requires Usable(cs, index) && i < |cs|
  {
    if i == index[0] then cs[i].(outb := p.tout) else cs[i].(inb := InAfter(cs, index, p, i))
  }

  function SentConns(cs: seq<Conn>, index: map<int, nat>, p: Pass): (ds: seq<Conn>)
    requires Usable(cs, index)
    ensures |ds| == |cs|
  {
    seq(|cs|, i requires 0 <= i < |cs| => SentConn(cs, index, p, i))
  }

  // ---------------------------------------------------------------- the receiving half

  /** The out_bufs of the connections in the table of the pump, but for the tunnel. */
  function Outs(cs: seq<Conn>, index: map<int, nat>): map<byte, Ring> {
    map id: byte | id != 0 && id in index && index[id] < |cs| :: cs[index[id]].outb
  }

  /** The connection of the message under way is there. */
  predicate TargetThere(h: Host, index: map<int, nat>) {
    h.target.Some? ==> h.target.value in Outs(Conns(h.table), index)
  }

  /** The message that the pump goes on with. Whose connection is gone is looked for only if there
      are bytes to read. */
  function Wanted(h: Host, index: map<int, nat>): Option<byte> {
    if TargetThere(h, index) then h.target else None
  }

  /** What `recv_from_tunnel` finds. */
  function Hearing(h: Host, index: map<int, nat>): (r: Received)
    requires Usable(Conns(h.table), index)
    ensures r.Valid() && r.target == Wanted(h, index) && r.fault.NoFault? && r.got == []
    ensures r.outs == Outs(Conns(h.table), index) && r.tin == Conns(h.table)[index[0]].inb
  {
    var cs := Conns(h.table);
    assert cs[index[0]].Valid();
    assert forall id :: id in Outs(cs, index) ==> cs[index[id]].Valid();
    Before(cs[index[0]].inb, Wanted(h, index), Outs(cs, index))
  }

  /** `recv_from_tunnel`. */
  function Hear(v: Variant, h: Host, index: map<int, nat>): (r: Received)
    requires Usable(Conns(h.table), index)
    ensures r.Valid() && r.outs.Keys == Outs(Conns(h.table), index).Keys
  {
    Receiver.Receive(v, Hearing(h, index))
  }

  /** Connection `i` behind `recv_from_tunnel`, which came to `r`. */
  function HeardConn(cs: seq<Conn>, index: map<int, nat>, r: Received, i: nat): Conn
    requires Usable(cs, index) && i < |cs|
  {
    var id := cs[i].id;
    if i == index[0] then cs[i].(inb := r.tin)
    else if id in index && index[id] == i && id in r.outs then cs[i].(outb := r.outs[id])
    else cs[i]
  }

  function HeardConns(cs: seq<Conn>, index: map<int, nat>, r: Received): (ds: seq<Conn>)
    requires Usable(cs, index)
    ensures |ds| == |cs|
  {
    seq(|cs|, i requires 0 <= i < |cs| => HeardConn(cs, index, r, i))
  }

  function Takes(got: seq<Atom>): (es: seq<Event>)
    ensures |es| == |got|
  {
    seq(|got|, i requires 0 <= i < |got| => Event.Take(got[i]))
  }

  function Listened(h: Host, index: map<int, nat>, r: Received): Host
    requires Usable(Conns(h.table), index)
  {
    h.(table := WithConns(h.table, HeardConns(Conns(h.table), index, r)),
       target := if TargetThere(h, index) then r.target else h.target,
       log := h.log + Takes(r.got), smeared := h.smeared || r.fault.WroteOverData?)
  }

  /** The turn of the pump stays within what is modelled: if there is anything to read, the
      connection of the message under way is there; no head is rejected, the decoder stays within
      its data, and the command that it read, if any, is one that the peer of the accepting side
      may send. */
  predicate PumpOk(v: Variant, h: Host, index: map<int, nat>) {
    && Usable(Conns(h.table), index) && (TargetThere(h, index) || Conns(h.table)[index[0]].inb.length == 0)
    && var r := Hear(v, h, index);
    && (r.fault.NoFault? || r.fault.WroteOverData?)
    && (OrderOf(r.got).Some? ==> FromPeer(OrderOf(r.got).value))
  }

  /** Behind `recv_from_tunnel` and the command that it read. */
  function Answered(v: Variant, h: Host, index: map<int, nat>): (h': Host)
    requires PumpOk(v, h, index)
    ensures Usable(Conns(h'.table), index)
  {
    var r := Hear(v, h, index);
    var h0 := Listened(h, index, r);
    HeardUsable(Conns(h.table), index, r);
    var c := OrderOf(r.got);
    if c.Some? then ReactedUsable(v, h0, index, c.value); Reacted(v, h0, c.value) else h0
  }

  lemma HeardUsable(cs: seq<Conn>, index: map<int, nat>, r: Received)
    requires Usable(cs, index) && r.Valid()
    ensures Usable(HeardConns(cs, index, r), index)
  {
    hide Conn.Valid;
    forall i | 0 <= i < |cs|
      ensures HeardConn(cs, index, r, i).Valid()
    {
      assert cs[i].Valid();
      HeardValid(cs, index, r, i);
    }
  }

  lemma HeardValid(cs: seq<Conn>, index: map<int, nat>, r: Received, i: nat)
    requires Usable(cs, index) && r.Valid() && i < |cs| && cs[i].Valid()
    ensures HeardConn(cs, index, r, i).Valid()
  {
  }

  lemma ReactedUsable(v: Variant, h: Host, index: map<int, nat>, c: Command)
    requires FromPeer(c) && Usable(Conns(h.table), index)
    ensures Usable(Conns(Reacted(v, h, c).table), index)
  {
    hide Find, ReleasesTwice, PeerEvents;
    var cs, ds := Conns(h.table), Conns(Reacted(v, h, c).table);
    forall i | 0 <= i < |ds|
      ensures ds[i].Valid()
    {
      assert cs[i].Valid();
    }
  }

  /** `pump_transfer`. */
  function Pumped(v: Variant, h: Host, index: map<int, nat>): Host
    requires PumpOk(v, h, index)
  {
    var h1 := Answered(v, h, index);
    var (s, p) := Sending(v, h1, index);
    WithFrames(WithOrders(v, h1, s), p, SentConns(Conns(h1.table), index, p))
  }

  lemma PumpHasTunnel(v: Variant, h: Host, index: map<int, nat>)
    requires PumpOk(v, h, index)
    ensures 0 in index
  {
  }

  /** `update` behind poll. */
  function Behind(v: Variant, h: Host): Host
    requires |h.queue| <= QUEUE_SIZE
  {
    var s := Sort(Conns(h.table), h.free);
    var h2 := Named(h, s);
    if Stops(s) then h2
    else
      var d := HandledAll(h, s);
      var h3 := Announced(h2, d);
      if d.again then h3
      else if !PumpOk(v, h3, d.index) then h3.(strayed := true)
      else Pumped(v, h3, d.index)
  }

  /** `update`. */
  function Update(v: Variant, h: Host, u: PollInput): Host
    requires PollOk(h.table, u) && |h.queue| <= QUEUE_SIZE
  {
    if u.completes then Behind(v, Polled(h, u)) else Polled(h, u)
  }

  /** Nothing is said of the program after it left what is modelled. */
  function Next(v: Variant, h: Host, u: PollInput): Host {
    if !h.strayed && PollOk(h.table, u) && |h.queue| <= QUEUE_SIZE then Update(v, h, u) else h
  }

  function Run(v: Variant, h: Host, us: seq<PollInput>): Host {
    RunTo((x, u) => Next(v, x, u), h, us, |us|)
  }

  lemma RunOneMore(v: Variant, h: Host, us: seq<PollInput>, n: nat)
    requires 0 < n <= |us|
    ensures Run(v, h, us[..n]) == Next(v, Run(v, h, us[..n - 1]), us[n - 1])
  {
    hide Next;
    assert us[..n] == us[..n - 1] + [us[n - 1]];
    RunOfFront((x, u) => Next(v, x, u), h, us[..n - 1], [us[n - 1]], n - 1);
  }

  /** A new controller: its table holds the tunnel, and all identifiers are free. */
  predicate IsStart(h: Host) {
    && |h.table| == 1 && h.table[0].conn.id == 0 && !h.table[0].conn.state.delete
    && h.table[0].conn.Valid() && h.table[0].conn.outb.length == 0 && h.table[0].written == []
    && h.free == InitialIds() && h.queue == [] && h.from == 0 && h.target == None && h.wire == [] && h.log == []
    && !h.lost && !h.twice && !h.torn && !h.smeared && !h.strayed
  }

  // ---------------------------------------------------------------- identifiers over runs

  ghost predicate NamesOk(h: Host) {
    Partition(h.free, Conns(h.table)) && |h.queue| <= QUEUE_SIZE
  }

  lemma {:induction false} SameHolders(cs: seq<Conn>, ds: seq<Conn>, n: nat, k: int)
    requires n <= |cs| && n <= |ds| && forall i :: 0 <= i < n ==> Holds(ds[i], k) == Holds(cs[i], k)
    ensures Holders(ds, n, k) == Holders(cs, n, k)
  {
    hide Holds;
    if n > 0 {
      SameHolders(cs, ds, n - 1, k);
    }
  }

  lemma {:induction false} KeptHolders(t: seq<Slot>, n: nat, k: int)
    requires n <= |t|
    ensures Holders(Conns(Kept(t, n)), |Kept(t, n)|, k) == Holders(Conns(t), n, k)
  {
    if n > 0 {
      KeptHolders(t, n - 1, k);
      SameHolders(Conns(Kept(t, n - 1)), Conns(Kept(t, n)), |Kept(t, n - 1)|, k);
    }
  }

  lemma ShrunkHolders(t: seq<Slot>, k: int)
    ensures var t' := Shrink(CloseAll(t));
            Holders(Conns(t'), |t'|, k) == Holders(Conns(t), |t|, k)
  {
    hide Holders, Kept, CloseSlot, KeepsBytes;
    KeptHolders(CloseAll(t), |t|, k);
    forall i | 0 <= i < |t|
      ensures Holds(CloseSlot(t[i]).conn, k) == Holds(t[i].conn, k)
    {
      CloseSlotEvolves(t[i]);
    }
    SameHolders(Conns(t), Conns(CloseAll(t)), |t|, k);
  }

  lemma ArmedHolders(t: seq<Slot>, k: int)
    ensures Holders(Conns(Armed(t)), |Armed(t)|, k) == Holders(Conns(t), |t|, k)
  {
    hide Holders, Shrink, CloseAll, Arm;
    ShrunkHolders(t, k);
    assert Conns(Armed(t)) == Conns(Shrink(CloseAll(t)));
  }

  lemma ServedHolders(t: seq<Slot>, p: PollInput, k: int)
    requires PollOk(t, p) && k != -1
    ensures Holders(Conns(Served(t, p)), |Served(t, p)|, k) == Holders(Conns(Armed(t)), |Armed(t)|, k)
  {
    hide Armed, DoIo, Slots.CanRead, CanWrite, KeepsBytes;
    var a := Armed(t);
    forall i | 0 <= i < |a|
      ensures Holds(Served(t, p)[i].conn, k) == Holds(a[i].conn, k)
    {
      DoIoEvolves(a[i], p.ios[i]);
    }
    SameHolders(Conns(a), Conns(Served(t, p)), |a|, k);
  }

  lemma PollHolders(t: seq<Slot>, p: PollInput, k: int)
    requires PollOk(t, p) && k != -1
    ensures var t' := Poll(t, p).table; Holders(Conns(t'), |t'|, k) == Holders(Conns(t), |t|, k)
  {
    hide Holders, Armed, Served, Shrink, CloseAll, PollOk;
    ArmedHolders(t, k);
    if p.completes {
      ServedHolders(t, p, k);
      ShrunkHolders(Served(t, p), k);
    }
  }

  lemma PollNames(t: seq<Slot>, p: PollInput, s: Slot)
    requires PollOk(t, p) && AllNamed(Conns(t)) && s in Poll(t, p).table
    ensures WellNamed(s.conn)
  {
    hide Poll, Armed, IoOk;
    PollDescends(t, p, s);
    if o :| o in t && Evolves(o, s) {
      var i :| 0 <= i < |t| && t[i] == o;
      assert WellNamed(Conns(t)[i]);
    }
  }

  lemma PollKeepsNames(h: Host, p: PollInput)
    requires NamesOk(h) && PollOk(h.table, p)
    ensures NamesOk(Polled(h, p))
  {
    hide Poll, PollOk, Holders, Times, WellNamed;
    var t' := Poll(h.table, p).table;
    forall i | 0 <= i < |t'|
      ensures WellNamed(Conns(t')[i])
    {
      PollNames(h.table, p, t'[i]);
    }
    forall k
      ensures Assigned(h.free, Conns(t'), k)
    {
      assert Assigned(h.free, Conns(h.table), k);
      if k != -1 {
        PollHolders(h.table, p, k);
      }
    }
  }

  lemma CloseSlotOfDeleted(s: Slot)
    ensures CloseSlot(s).conn.state.delete ==> CloseSlot(s).conn.state.closed
  {
  }

  /** A poll that ran to its end leaves no connection that is marked for deletion. */
  lemma PollLeavesNoneDeleted(t: seq<Slot>, p: PollInput)
    requires PollOk(t, p) && p.completes
    ensures NoneDeleted(Conns(Poll(t, p).table))
  {
    hide Served, Armed, PollOk, CloseSlot;
    var u := Served(t, p);
    var t' := Poll(t, p).table;
    ShrinkIsFilter(CloseAll(u));
    forall i | 0 <= i < |t'|
      ensures !t'[i].conn.state.delete
    {
      assert t'[i] in t';
      var j :| 0 <= j < |u| && CloseAll(u)[j] == t'[i];
      CloseSlotOfDeleted(u[j]);
    }
  }

  /** The marks are never taken back. */
  lemma MarksStay(v: Variant, h: Host, u: PollInput)
    ensures
      var e := Next(v, h, u);
      && (h.lost ==> e.lost) && (h.twice ==> e.twice) && (h.torn ==> e.torn)
      && (h.smeared ==> e.smeared) && (h.strayed ==> e.strayed)
  {
    hide Poll, PollOk, Sort, Stops, HandledAll, PumpOk, Pumped;
    if !h.strayed && PollOk(h.table, u) && |h.queue| <= QUEUE_SIZE && u.completes {
      var h1 := Polled(h, u);
      var s := Sort(Conns(h1.table), h1.free);
      if !Stops(s) {
        var d := HandledAll(h1, s);
        var h3 := Announced(Named(h1, s), d);
        if PumpOk(v, h3, d.index) {
          PumpMarksStay(v, h3, d.index);
        }
      }
    }
  }

  lemma PumpMarksStay(v: Variant, h: Host, index: map<int, nat>)
    requires PumpOk(v, h, index)
    ensures
      var e := Pumped(v, h, index);
      && (h.lost ==> e.lost) && (h.twice ==> e.twice) && (h.torn ==> e.torn)
      && (h.smeared ==> e.smeared) && e.strayed == h.strayed
  {
    hide Answered, PumpOk, Sending, SentConns, FrameEvents, Orders;
    AnswerMarksStay(v, h, index);
  }

  lemma AnswerMarksStay(v: Variant, h: Host, index: map<int, nat>)
    requires PumpOk(v, h, index)
    ensures
      var e := Answered(v, h, index);
      && e.lost == h.lost && (h.twice ==> e.twice) && e.torn == h.torn
      && (h.smeared ==> e.smeared) && e.strayed == h.strayed
  {
    hide Usable, TargetThere, Hear, Listened, Reacted, ReleasesTwice;
    var r := Hear(v, h, index);
    ListenedMarks(h, index, r);
    if OrderOf(r.got).Some? {
      ReactedMarks(v, Listened(h, index, r), OrderOf(r.got).value);
    }
  }

  lemma ListenedMarks(h: Host, index: map<int, nat>, r: Received)
    requires Usable(Conns(h.table), index)
    ensures
      var e := Listened(h, index, r);
      && e.lost == h.lost && e.twice == h.twice && e.torn == h.torn && e.strayed == h.strayed
      && e.smeared == (h.smeared || r.fault.WroteOverData?)
  {
    hide Usable, TargetThere, HeardConns, Takes;
  }

  lemma ReactedMarks(v: Variant, h: Host, c: Command)
    requires FromPeer(c)
    ensures
      var e := Reacted(v, h, c);
      && e.lost == h.lost && e.torn == h.torn && e.strayed == h.strayed && e.smeared == h.smeared
      && e.twice == (h.twice || (v.Shipped? && ReleasesTwice(ControlOf(h), c)))
  {
    hide ReleasesTwice, OnCommand, PeerEvents;
  }

  /** Receiving changes no flag and no identifier. */
  lemma HeardSame(cs: seq<Conn>, index: map<int, nat>, r: Received)
    requires Usable(cs, index)
    ensures forall i :: 0 <= i < |cs| ==> SameButBuffers(cs[i], HeardConns(cs, index, r)[i])
  {
  }

  /** Neither does sending. */
  lemma SentSame(cs: seq<Conn>, index: map<int, nat>, p: Pass)
    requires Usable(cs, index)
    ensures forall i :: 0 <= i < |cs| ==> SameButBuffers(cs[i], SentConns(cs, index, p)[i])
  {
  }

  lemma ListenedKeepsNames(h: Host, index: map<int, nat>, r: Received)
    requires NamesOk(h) && Usable(Conns(h.table), index)
    ensures NamesOk(Listened(h, index, r))
  {
    hide Partition, Usable, HeardConns;
    HeardSame(Conns(h.table), index, r);
    SameNames(h.free, Conns(h.table), HeardConns(Conns(h.table), index, r));
  }

  lemma AnswerKeepsNames(v: Variant, h: Host, index: map<int, nat>)
    requires NamesOk(h) && PumpOk(v, h, index) && !Answered(v, h, index).twice
    ensures NamesOk(Answered(v, h, index))
  {
    hide Partition, ReleasesTwice, Usable, TargetThere, Hear, Listened, OnCommand;
    var r := Hear(v, h, index);
    var h0 := Listened(h, index, r);
    var c := OrderOf(r.got);
    ListenedKeepsNames(h, index, r);
    if c.Some? {
      OnCommandKeeps(v, ControlOf(h0), c.value, None);
      QueueKept(v, ControlOf(h0), c.value);
    }
  }

  lemma PumpKeepsNames(v: Variant, h: Host, index: map<int, nat>)
    requires NamesOk(h) && PumpOk(v, h, index) && !Pumped(v, h, index).twice
    ensures NamesOk(Pumped(v, h, index))
  {
    hide Partition, Sending, Usable, Answered, SentConns;
    AnswerKeepsNames(v, h, index);
    var h1 := Answered(v, h, index);
    var (s, p) := Sending(v, h1, index);
    SentSame(Conns(h1.table), index, p);
    SameNames(h1.free, Conns(h1.table), SentConns(Conns(h1.table), index, p));
  }

  lemma QueueKept(v: Variant, k: Control, c: Command)
    requires FromPeer(c)
    ensures OnCommand(v, true, k, c, None).queue == k.queue
  {
  }

  lemma SameNames(free: seq<int>, cs: seq<Conn>, ds: seq<Conn>)
    requires Partition(free, cs) && |ds| == |cs|
    requires forall i :: 0 <= i < |cs| ==> SameButBuffers(cs[i], ds[i])
    ensures Partition(free, ds)
  {
    hide Times;
    assert forall i :: 0 <= i < |cs| ==> WellNamed(cs[i]);
    forall k
      ensures Assigned(free, ds, k)
    {
      assert Assigned(free, cs, k);
      SameHolders(cs, ds, |cs|, k);
    }
  }

  /** Between `sort_connections` and the end of an `update`. */
  lemma SortedNames(h: Host, p: PollInput)
    requires NamesOk(h) && PollOk(h.table, p) && p.completes
    ensures var s := Sort(Conns(Polled(h, p).table), h.free);
            && Partition(s.free, s.conns) && IndexOk(s.conns, s.index)
  {
    hide Partition, IndexOk, NoneDeleted, Poll, PollOk;
    PollKeepsNames(h, p);
    PollLeavesNoneDeleted(h.table, p);
    var cs := Conns(Polled(h, p).table);
    SortKeeps(cs, h.free, |cs|);
  }

  lemma HandledNames(h: Host, s: Sorted)
    requires Partition(s.free, s.conns) && IndexOk(s.conns, s.index) && |h.queue| <= QUEUE_SIZE
    ensures var d := HandledAll(h, s); Partition(d.free, d.conns) && IndexOk(d.conns, d.index)
  {
    hide Partition, HandleUpTo;
    HandleKeeps(
      Handled(s.conns, s.free, s.index, [], QUEUE_SIZE - |h.queue|, false), MAX_STACK_SIZE);
  }

  lemma {:induction false} RoomStays(h: Handled, accepting: bool, n: nat)
    requires h.Valid()
    ensures HandleUpTo(h, accepting, n).room == h.room
  {
    if n > 0 {
      RoomStays(h, accepting, n - 1);
    }
  }

  lemma AnnouncedFits(h: Host, s: Sorted)
    requires |h.queue| <= QUEUE_SIZE && forall k :: k in s.index ==> s.index[k] < |s.conns|
    ensures |h.queue + HandledAll(h, s).said| <= QUEUE_SIZE
  {
    hide HandleUpTo;
    RoomStays(Handled(s.conns, s.free, s.index, [], QUEUE_SIZE - |h.queue|, false), true, MAX_STACK_SIZE);
  }

  lemma UpdateKeepsNames(v: Variant, h: Host, u: PollInput)
    requires NamesOk(h) && PollOk(h.table, u) && !Update(v, h, u).twice
    ensures NamesOk(Update(v, h, u))
  {
    hide Partition, IndexOk, PollOk, Poll, Sort, Stops, HandledAll, PumpOk, Pumped;
    PollKeepsNames(h, u);
    var h1 := Polled(h, u);
    if u.completes {
      SortedNames(h, u);
      var s := Sort(Conns(h1.table), h1.free);
      HandledNames(h1, s);
      AnnouncedFits(h1, s);
      var d := HandledAll(h1, s);
      var h3 := Announced(Named(h1, s), d);
      if !Stops(s) && !d.again && PumpOk(v, h3, d.index) {
        PumpKeepsNames(v, h3, d.index);
      }
    }
  }

  lemma StartNames(h: Host)
    requires IsStart(h)
    ensures NamesOk(h)
  {
    forall k
      ensures Assigned(h.free, Conns(h.table), k)
    {
      hide InitialIds;
      AllFreeAtFirst(k);
      assert Holders(Conns(h.table), 0, k) == 0;
    }
  }

  lemma NextKeepsNames(v: Variant, h: Host, u: PollInput)
    requires h.twice || NamesOk(h)
    ensures Next(v, h, u).twice || NamesOk(Next(v, h, u))
  {
    hide Update, NamesOk, PollOk;
    MarksStay(v, h, u);
    if !h.strayed && !Next(v, h, u).twice && PollOk(h.table, u) && |h.queue| <= QUEUE_SIZE {
      UpdateKeepsNames(v, h, u);
    }
  }

  lemma RunKeepsNames(v: Variant, h: Host, us: seq<PollInput>)
    requires IsStart(h)
    ensures Run(v, h, us).twice || NamesOk(Run(v, h, us))
  {
    hide Next;
    StartNames(h);
    forall x: Host, u | x.twice || NamesOk(x)
      ensures Next(v, x, u).twice || NamesOk(Next(v, x, u))
    {
      NextKeepsNames(v, x, u);
    }
    RunKeeps((x, u) => Next(v, x, u), (x: Host) => x.twice || NamesOk(x), h, us, |us|);
  }

  /** In every run, also one that loses commands, as long as no identifier was released twice:
      between updates the identifiers 1 to 255 are divided between the stack and the connections
      that hold them; none is lost, none is there twice. */
  lemma IdentifiersArePartitioned(v: Variant, h: Host, us: seq<PollInput>)
    requires IsStart(h) && !Run(v, h, us).twice
    ensures Partition(Run(v, h, us).free, Conns(Run(v, h, us).table))
  {
    hide Run;
    RunKeepsNames(v, h, us);
  }

  lemma CorrectedSendsSafely(queue: seq<Command>, tout: Ring, srcs: map<byte, Ring>, from: nat)
    requires Pass(srcs, tout, [], [], None, false).Valid()
    ensures !Transfer(Corrected, queue, tout, srcs, from).1.fault
  {
    hide SendCommands, Offers;
    CorrectedOrders(queue, 0, tout);
    var s := SendCommands(Corrected, queue, 0, tout, false);
    if !s.blocked {
      CorrectedOffers(from, 0, Pass(srcs, s.tout, [], [], None, s.fault));
    }
  }

  lemma {:induction false} CorrectedOrders(queue: seq<Command>, n: nat, tout: Ring)
    requires n <= |queue| && tout.Valid()
    ensures !SendCommands(Corrected, queue, n, tout, false).fault
    decreases |queue| - n
  {
    if n < |queue| && tout.Free() >= 5 {
      CorrectedOrders(queue, n + 1, tout.Fill(Corrected, CommandFrame(queue[n].cmd, queue[n].arg)));
    }
  }

  lemma {:induction false} CorrectedOffers(from: nat, i: nat, p: Pass)
    requires p.Valid() && i <= 255 && !p.fault
    ensures !Offers(Corrected, from, i, p).fault
    decreases 255 - i
  {
    hide EncodeStep, Visit;
    if i < 255 && p.blocked.None? {
      CorrectedOffers(from, i + 1, if Visit(from, i) in p.srcs then OfferTo(Corrected, p, Visit(from, i)) else p);
    }
  }

  lemma CorrectedSending(h: Host, index: map<int, nat>)
    requires Usable(Conns(h.table), index)
    ensures !Sending(Corrected, h, index).1.fault
  {
    SendingIsValid(h, index);
    CorrectedSendsSafely(h.queue, h.table[index[0]].conn.outb, Sources(Conns(h.table), index), h.from);
  }

  /** A corrected call writes over nothing. */
  lemma CorrectedHear(h: Host, index: map<int, nat>)
    requires Usable(Conns(h.table), index)
    ensures !Hear(Corrected, h, index).fault.WroteOverData? && !Hear(Corrected, h, index).fault.ReadPastData?
  {
    hide Usable, Wanted, Outs;
    CorrectedReceiveIsSafe(Hearing(h, index));
  }

  lemma CorrectedAnswer(h: Host, index: map<int, nat>)
    requires PumpOk(Corrected, h, index)
    ensures
      var e := Answered(Corrected, h, index);
      e.lost == h.lost && e.twice == h.twice && e.torn == h.torn && e.smeared == h.smeared
  {
    hide Usable, TargetThere, Hear, Listened, Reacted, ReleasesTwice;
    CorrectedHear(h, index);
    var r := Hear(Corrected, h, index);
    ListenedMarks(h, index, r);
    if OrderOf(r.got).Some? {
      ReactedMarks(Corrected, Listened(h, index, r), OrderOf(r.got).value);
    }
  }

  lemma CorrectedPump(h: Host, index: map<int, nat>)
    requires PumpOk(Corrected, h, index)
    ensures
      var e := Pumped(Corrected, h, index);
      e.lost == h.lost && e.twice == h.twice && e.torn == h.torn && e.smeared == h.smeared
  {
    hide Answered, PumpOk, Sending, SentConns, FrameEvents, Orders;
    CorrectedAnswer(h, index);
    CorrectedSending(Answered(Corrected, h, index), index);
  }

  lemma CorrectedNextNeverFails(h: Host, u: PollInput)
    requires Unharmed(h)
    ensures Unharmed(Next(Corrected, h, u))
  {
    hide Poll, PollOk, Sort, Stops, HandledAll, PumpOk, Pumped;
    if !h.strayed && PollOk(h.table, u) && |h.queue| <= QUEUE_SIZE && u.completes {
      var h1 := Polled(h, u);
      var s := Sort(Conns(h1.table), h1.free);
      if !Stops(s) {
        var d := HandledAll(h1, s);
        var h3 := Announced(Named(h1, s), d);
        if PumpOk(Corrected, h3, d.index) {
          CorrectedPump(h3, d.index);
        }
      }
    }
  }

  /** Nothing was lost, released twice or overwritten by the pump. */
  predicate Unharmed(h: Host) {
    !h.lost && !h.twice && !h.torn && !h.smeared
  }

  /** With the corrections nothing is ever lost, released twice or overwritten by the pump. */
  lemma CorrectedRunsNeverFail(h: Host, us: seq<PollInput>)
    requires IsStart(h)
    ensures Unharmed(Run(Corrected, h, us))
  {
    forall x: Host, u | Unharmed(x)
      ensures Unharmed(Next(Corrected, x, u))
    {
      CorrectedNextNeverFails(x, u);
    }
    hide Next;
    RunKeeps((x, u) => Next(Corrected, x, u), (x: Host) => Unharmed(x), h, us, |us|);
  }

  // ---------------------------------------------------------------- what the pump may do

  /** The table of the pump leads to greeted connections with the right identifiers. */
  predicate PumpTable(cs: seq<Conn>, index: map<int, nat>) {
    forall i :: i in index && i != 0 && index[i] < |cs| ==>
      cs[index[i]].id == i && !cs[index[i]].state.isNew
  }

  lemma ListenedKeepsTable(h: Host, index: map<int, nat>, r: Received)
    requires PumpTable(Conns(h.table), index) && Usable(Conns(h.table), index)
    ensures PumpTable(Conns(Listened(h, index, r).table), index)
  {
    hide Usable, HeardConns;
    HeardSame(Conns(h.table), index, r);
  }

  /** Of a slot only the connection changes. */
  lemma AnswerKeepsSlots(v: Variant, h: Host, index: map<int, nat>)
    requires PumpOk(v, h, index)
    ensures
      var h1 := Answered(v, h, index);
      |h1.table| == |h.table| && h1.table == WithConns(h.table, Conns(h1.table))
  {
    hide Usable, TargetThere, Hear, HeardConns, Find, PeerEvents, ReleasesTwice;
  }

  lemma AnswerKeepsTable(v: Variant, h: Host, index: map<int, nat>)
    requires PumpTable(Conns(h.table), index) && PumpOk(v, h, index)
    ensures PumpTable(Conns(Answered(v, h, index).table), index)
    ensures |Answered(v, h, index).table| == |h.table|
  {
    hide PumpTable, Usable, TargetThere, Hear, Reacted;
    var r := Hear(v, h, index);
    ListenedKeepsTable(h, index, r);
    var h0 := Listened(h, index, r);
    if OrderOf(r.got).Some? {
      CommandKeepsTable(v, h0, OrderOf(r.got).value, index);
    }
  }

  lemma CommandKeepsTable(v: Variant, h: Host, c: Command, index: map<int, nat>)
    requires FromPeer(c) && PumpTable(Conns(h.table), index)
    ensures PumpTable(Conns(Reacted(v, h, c).table), index) && |Reacted(v, h, c).table| == |h.table|
  {
    hide Find;
  }

  lemma AnnouncedTable(h: Host, s: Sorted)
    requires |h.queue| <= QUEUE_SIZE && |s.conns| == |h.table|
    requires Partition(s.free, s.conns) && IndexOk(s.conns, s.index)
    ensures var d := HandledAll(h, s); !d.again ==> PumpTable(d.conns, d.index)
  {
    hide HandleUpTo, Partition;
    HandledNames(h, s);
    HandleGreets(Handled(s.conns, s.free, s.index, [], QUEUE_SIZE - |h.queue|, false), MAX_STACK_SIZE);
  }

  predicate FramesOf(frames: seq<Item>, ids: set<byte>) {
    forall i :: 0 <= i < |frames| ==> frames[i].Data? && frames[i].id in ids
  }

  lemma {:induction false} OffersFrames(v: Variant, from: nat, i: nat, p: Pass)
    requires p.Valid() && i <= 255 && FramesOf(p.items, p.srcs.Keys)
    ensures FramesOf(Offers(v, from, i, p).items, p.srcs.Keys)
    decreases 255 - i
  {
    hide EncodeStep, Overwrites, Frame;
    if i < 255 && p.blocked.None? {
      if Visit(from, i) !in p.srcs {
        OffersFrames(v, from, i + 1, p);
      } else {
        OffersFrames(v, from, i + 1, OfferTo(v, p, Visit(from, i)));
      }
    }
  }

  /** What the sending half of `pump_transfer` comes to, whatever the tunnel holds and wherever its
      pass starts: only connections that may send have frames, nobody has any behind a command
      that did not fit, and that is the only way to stop in front of the end of the queue. */
  lemma SendingObeysFlags(v: Variant, h: Host, index: map<int, nat>)
    requires Usable(Conns(h.table), index)
    ensures
      var (s, p) := Sending(v, h, index);
      && (s.blocked <==> s.n < |h.queue|) && (s.blocked ==> p.items == [])
      && (forall i :: 0 <= i < |p.items| ==>
            p.items[i].Data? && MaySend(Conns(h.table), index, p.items[i].id))
  {
    hide Offers, SendCommands, Visit, MaySend;
    SendingIsValid(h, index);
    var tout := h.table[index[0]].conn.outb;
    var (s, p) := Sending(v, h, index);
    CommandsAllSentIff(v, h.queue, 0, tout, false);
    if !s.blocked {
      OffersFrames(v, h.from, 0, Pass(Sources(Conns(h.table), index), s.tout, [], [], None, s.fault));
    }
  }

  lemma OrdersSame(v: Variant, h: Host, s: Sent)
    requires s.n <= |h.queue| && (s.blocked ==> s.n < |h.queue|)
    ensures var e := WithOrders(v, h, s); e.table == h.table && e.log == h.log && e.twice == h.twice
  {
  }

  lemma {:induction false} CountsNobody(cs: seq<Conn>, n: nat, k: int)
    requires n <= |cs| && forall i :: 0 <= i < n ==> !Holds(cs[i], k)
    ensures Holders(cs, n, k) == 0
  {
    if n > 0 {
      CountsNobody(cs, n - 1, k);
    }
  }
}
