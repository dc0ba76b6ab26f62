/** The message under way is for a connection that takes no byte more: nothing is read out of the
    tunnel any longer, for no connection, and not the command that would end this one. */
module Blocked {
  import opened Basics
  import opened Ring
  import opened Wire
  import opened Connections
  import opened PollFds
  import opened Slots
  import opened Receiver
  import opened Scheduling
  import opened Protocol
  import opened Identifiers
  import opened Grammar
  import opened Stranded
  import opened Runs
  import opened H = Host

  /** The connection holds identifier `k`, its out_buf is `b`, and a poll does not write from it. */
  predicate TakesNothing(c: Conn, k: byte, b: Ring) {
    Holds(c, k) && c.outb == b && !MayTell(c)
  }

  /** The message under way is for such a connection. */
  ghost predicate BlockedBy(h: Host, k: byte, b: Ring) {
    h.target == Some(k) && exists i :: 0 <= i < |h.table| && TakesNothing(Conns(h.table)[i], k, b)
  }

  predicate IsFull(b: Ring) {
    b.Valid() && b.length > 0 && b.Free() == 0
  }

  /** Nothing is read out of the tunnel, and no connection is ended by the peer. */
  predicate OnlySays(es: seq<Event>) {
    forall i :: 0 <= i < |es| ==> es[i].Emit?
  }

  lemma OnlySaysOn(log: seq<Event>, a: seq<Event>, b: seq<Event>)
    requires log <= a <= b && OnlySays(a[|log|..]) && OnlySays(b[|a|..])
    ensures log <= b && OnlySays(b[|log|..])
  {
    assert b[|log|..] == a[|log|..] + b[|a|..];
  }

  lemma SaysMore(log: seq<Event>, es: seq<Event>)
    requires OnlySays(es)
    ensures log <= log + es && OnlySays((log + es)[|log|..])
  {
    assert (log + es)[|log|..] == es;
  }

  // ---------------------------------------------------------------- the receiver

  /** A call that finds nothing to read, or a full target, takes nothing. */
  lemma FullTargetStops(v: Variant, r: Received)
    requires r.Valid() && (r.tin.length == 0 || (r.target.Some? && IsFull(r.outs[r.target.value])))
    ensures Receiver.Receive(v, r) == r
  {
    if r.tin.length > 0 {
      var t := r.target.value;
      assert r.tin.Drop(0) == r.tin;
      assert r.outs[t].Fill(v, []) == r.outs[t];
      assert r.outs[t := r.outs[t]] == r.outs;
      assert r.got + Bytes(t, []) == r.got;
    }
  }

  // ---------------------------------------------------------------- poll

  lemma EvolvesFull(s: Slot, s': Slot, k: byte, b: Ring)
    requires Evolves(s, s') && TakesNothing(s.conn, k, b)
    ensures TakesNothing(s'.conn, k, b)
  {
    hide KeepsBytes;
  }

  lemma PollKeepsBlocked(h: Host, p: PollInput, k: byte, b: Ring)
    requires NamesOk(h) && PollOk(h.table, p) && k != 0 && BlockedBy(h, k, b)
    ensures BlockedBy(Polled(h, p), k, b)
  {
    hide Poll, PollOk, Evolves, Partition;
    var i :| 0 <= i < |h.table| && TakesNothing(Conns(h.table)[i], k, b);
    var j := HolderDescends(h, p, i, k);
    EvolvesFull(h.table[i], Poll(h.table, p).table[j], k, b);
    assert TakesNothing(Conns(Polled(h, p).table)[j], k, b);
  }

  // ---------------------------------------------------------------- announcements

  lemma ReactKeepsFull(c: Conn, room: nat, k: byte, b: Ring)
    requires TakesNothing(c, k, b) && IsFull(b)
    ensures TakesNothing(React(c, room).conn, k, b)
  {
  }

  lemma StepKeepsFull(h: Handled, n: int, i: nat, k: byte, b: Ring)
    requires h.Valid() && i < |h.conns| && TakesNothing(h.conns[i], k, b) && IsFull(b)
    ensures TakesNothing(HandleStep(h, true, n).conns[i], k, b)
  {
    hide React, TakesNothing, IsFull;
    if !h.again && n in h.index && h.index[n] == i {
      ReactKeepsFull(h.conns[i], h.room - |h.said|, k, b);
    }
  }

  lemma {:induction false} HandleKeepsFull(h: Handled, n: nat, i: nat, k: byte, b: Ring)
    requires h.Valid() && i < |h.conns| && TakesNothing(h.conns[i], k, b) && IsFull(b)
    ensures TakesNothing(HandleUpTo(h, true, n).conns[i], k, b)
  {
    hide HandleStep, TakesNothing, IsFull;
    if n > 0 {
      HandleKeepsFull(h, n - 1, i, k, b);
      StepKeepsFull(HandleUpTo(h, true, n - 1), n, i, k, b);
    }
  }

  lemma FullIsNamed(c: Conn, k: byte, b: Ring)
    requires TakesNothing(c, k, b)
    ensures !NeedsId(c) && c.id == k as int && Holds(c, k)
  {
  }

  /** Names and announcements. */
  lemma AnnouncedFull(h: Host, s: Sorted, i: nat, k: byte, b: Ring)
    requires |h.queue| <= QUEUE_SIZE && |s.conns| == |h.table| && i < |s.conns|
    requires forall j :: j in s.index ==> s.index[j] < |s.conns|
    requires TakesNothing(s.conns[i], k, b) && IsFull(b)
    ensures
      var e := Announced(Named(h, s), HandledAll(h, s));
      && |e.table| == |h.table| && TakesNothing(Conns(e.table)[i], k, b)
      && h.log <= e.log && OnlySays(e.log[|h.log|..])
      && e.target == h.target && e.twice == h.twice
  {
    hide HandleUpTo, TakesNothing, IsFull;
    HandleKeepsFull(Handled(s.conns, s.free, s.index, [], QUEUE_SIZE - |h.queue|, false), MAX_STACK_SIZE, i, k, b);
    SaysMore(h.log, Emits(HandledAll(h, s).said));
  }

  // ---------------------------------------------------------------- the pump

  /** A call that finds nothing to do leaves all as it is. */
  lemma SilentHost(h: Host, index: map<int, nat>)
    requires Usable(Conns(h.table), index)
    ensures Listened(h, index, Hearing(h, index)) == h
  {
    hide Conn.Valid;
    var cs, r := Conns(h.table), Hearing(h, index);
    forall i | 0 <= i < |cs|
      ensures HeardConn(cs, index, r, i) == cs[i]
    {
    }
    assert HeardConns(cs, index, r) == cs;
    assert WithConns(h.table, cs) == h.table;
    assert h.log + Takes([]) == h.log;
  }

  lemma FullTarget(h: Host, index: map<int, nat>, i: nat, k: byte, b: Ring)
    requires NamesOk(h) && IndexOk(Conns(h.table), index) && Usable(Conns(h.table), index) && TargetThere(h, index)
    requires i < |h.table| && TakesNothing(Conns(h.table)[i], k, b) && k != 0 && h.target == Some(k)
    ensures Hearing(h, index).outs[k] == b
  {
    hide Times, Holders;
    assert Assigned(h.free, Conns(h.table), k);
    OneHolder(h.free, Conns(h.table), i, index[k], k);
  }

  lemma HearsNothing(v: Variant, h: Host, index: map<int, nat>, i: nat, k: byte, b: Ring)
    requires NamesOk(h) && IndexOk(Conns(h.table), index) && PumpOk(v, h, index) && k != 0 && h.target == Some(k)
    requires i < |h.table| && TakesNothing(Conns(h.table)[i], k, b) && IsFull(b)
    ensures Answered(v, h, index) == h
  {
    hide NamesOk, IndexOk, Usable, TargetThere, Outs, IsFull, Reacted, Listened, Receiver.Receive, TakesNothing;
    if TargetThere(h, index) {
      FullTarget(h, index, i, k, b);
    }
    FullTargetStops(v, Hearing(h, index));
    SilentHost(h, index);
  }

  lemma SaysFrames(frames: seq<Item>)
    ensures OnlySays(FrameEvents(frames))
  {
  }

  lemma SentFull(cs: seq<Conn>, index: map<int, nat>, p: Pass, i: nat, k: byte, b: Ring)
    requires Usable(cs, index) && i < |cs| && TakesNothing(cs[i], k, b) && index[0] != i
    ensures TakesNothing(SentConns(cs, index, p)[i], k, b)
  {
  }

  lemma PumpKeepsFull(v: Variant, h: Host, index: map<int, nat>, i: nat, k: byte, b: Ring)
    requires NamesOk(h) && IndexOk(Conns(h.table), index) && PumpOk(v, h, index) && k != 0 && h.target == Some(k)
    requires i < |h.table| && TakesNothing(Conns(h.table)[i], k, b) && IsFull(b) && index[0] != i
    ensures
      var e := Pumped(v, h, index);
      && i < |e.table| && TakesNothing(Conns(e.table)[i], k, b) && e.target == Some(k) && e.twice == h.twice
      && h.log <= e.log && OnlySays(e.log[|h.log|..])
  {
    hide NamesOk, IndexOk, IsFull, TakesNothing, Usable, Answered, Sending, SentConns, FrameEvents, OnlySays, PumpOk,
      Orders;
    HearsNothing(v, h, index, i, k, b);
    var (s, p) := Sending(v, h, index);
    OrdersSame(v, h, s);
    SentFull(Conns(h.table), index, p, i, k, b);
    SaysFrames(p.items);
    SaysMore(h.log, FrameEvents(p.items));
  }

  // ---------------------------------------------------------------- whole runs

  /** From state `h` to `e` nothing was read out of the tunnel, and it is still blocked. */
  ghost predicate StaysBlocked(h: Host, e: Host, k: byte, b: Ring) {
    BlockedBy(e, k, b) && e.twice == h.twice && h.log <= e.log && OnlySays(e.log[|h.log|..])
  }

  lemma BlockedAt(h: Host, e: Host, i: nat, k: byte, b: Ring)
    requires i < |e.table| && TakesNothing(Conns(e.table)[i], k, b) && e.target == Some(k) && e.twice == h.twice
    requires h.log <= e.log && OnlySays(e.log[|h.log|..])
    ensures StaysBlocked(h, e, k, b)
  {
  }

  lemma StaysBlockedOn(h: Host, x: Host, e: Host, k: byte, b: Ring)
    requires StaysBlocked(h, x, k, b) && StaysBlocked(x, e, k, b)
    ensures StaysBlocked(h, e, k, b)
  {
    hide OnlySays, BlockedBy;
    OnlySaysOn(h.log, x.log, e.log);
  }

  lemma NothingSaid(log: seq<Event>)
    ensures OnlySays(log[|log|..])
  {
  }

  lemma TunnelIsOther(d: Handled, i: nat, k: byte, b: Ring)
    requires IndexOk(d.conns, d.index) && i < |d.conns| && TakesNothing(d.conns[i], k, b) && k != 0
    ensures 0 in d.index ==> d.index[0] != i
  {
  }

  lemma BehindKeepsBlocked(v: Variant, h: Host, i: nat, k: byte, b: Ring)
    requires NamesOk(h) && NoneDeleted(Conns(h.table)) && k != 0 && IsFull(b) && h.target == Some(k)
    requires i < |h.table| && TakesNothing(Conns(h.table)[i], k, b)
    ensures StaysBlocked(h, Behind(v, h), k, b)
  {
    hide Partition, IndexOk, TakesNothing, IsFull, NoneDeleted, SortUpTo, HandledAll, PumpOk, Pumped, StaysBlocked,
      OnlySays, PumpTable;
    var cs := Conns(h.table);
    FullIsNamed(cs[i], k, b);
    SortKeeps(cs, h.free, |cs|);
    SortLeavesNamed(cs, h.free, |cs|, i);
    var s := Sort(cs, h.free);
    var h2 := Named(h, s);
    NothingSaid(h.log);
    if Stops(s) {
      BlockedAt(h, h2, i, k, b);
    } else {
      AnnouncedFull(h, s, i, k, b);
      var d := HandledAll(h, s);
      var h3 := Announced(h2, d);
      BlockedAt(h, h3, i, k, b);
      BlockedAt(h, h3.(strayed := true), i, k, b);
      if !d.again && PumpOk(v, h3, d.index) {
        HandledNames(h, s);
        AnnouncedFits(h, s);
        TunnelIsOther(d, i, k, b);
        PumpHasTunnel(v, h3, d.index);
        PumpKeepsFull(v, h3, d.index, i, k, b);
        BlockedAt(h3, Pumped(v, h3, d.index), i, k, b);
        StaysBlockedOn(h, h3, Behind(v, h), k, b);
      }
    }
  }

  lemma UpdateKeepsBlocked(v: Variant, h: Host, u: PollInput, k: byte, b: Ring)
    requires NamesOk(h) && PollOk(h.table, u) && k != 0 && IsFull(b) && BlockedBy(h, k, b)
    ensures StaysBlocked(h, Update(v, h, u), k, b)
  {
    hide NamesOk, Behind, Poll, PollOk, TakesNothing, IsFull, NoneDeleted, OnlySays;
    PollKeepsBlocked(h, u, k, b);
    PollKeepsNames(h, u);
    var h1 := Polled(h, u);
    NothingSaid(h.log);
    if u.completes {
      PollLeavesNoneDeleted(h.table, u);
      var i :| 0 <= i < |h1.table| && TakesNothing(Conns(h1.table)[i], k, b);
      BehindKeepsBlocked(v, h1, i, k, b);
    }
  }

  ghost predicate Waits(h: Host, e: Host, k: byte, b: Ring) {
    NamesOk(e) && !e.twice && StaysBlocked(h, e, k, b)
  }

  lemma NextKeepsBlocked(v: Variant, h: Host, x: Host, u: PollInput, k: byte, b: Ring)
    requires k != 0 && IsFull(b) && Waits(h, x, k, b)
    ensures Waits(h, Next(v, x, u), k, b)
  {
    hide NamesOk, Update, PollOk, BlockedBy, OnlySays, IsFull;
    if !x.strayed && PollOk(x.table, u) && |x.queue| <= QUEUE_SIZE {
      UpdateKeepsBlocked(v, x, u, k, b);
      StaysBlockedOn(h, x, Update(v, x, u), k, b);
      UpdateKeepsNames(v, x, u);
    }
  }

  /** The message under way is for a connection with a full out_buf that no poll writes from: over
      every further run, shipped or corrected, nothing is read out of the tunnel, for any connection,
      and the peer ends none; the message stays under way, and the out_buf stays as it is. */
  lemma BlockedForever(v: Variant, h: Host, us: seq<PollInput>, k: byte, b: Ring)
    requires NamesOk(h) && !h.twice && k != 0 && IsFull(b) && BlockedBy(h, k, b)
    ensures
      var e := Run(v, h, us);
      && BlockedBy(e, k, b) && NamesOk(e) && !e.twice
      && h.log <= e.log && OnlySays(e.log[|h.log|..])
  {
    hide NamesOk, Next, BlockedBy, IsFull;
    NothingSaid(h.log);
    assert Waits(h, h, k, b);
    forall x: Host, u | Waits(h, x, k, b)
      ensures Waits(h, Next(v, x, u), k, b)
    {
      NextKeepsBlocked(v, h, x, u, k, b);
    }
    RunKeeps((x, u) => Next(v, x, u), (x: Host) => Waits(h, x, k, b), h, us, |us|);
  }

  // ---------------------------------------------------------------- the exact condition

  predicate RoomIn(b: Ring) {
    b.length < |b.data|
  }

  /** The connection that holds `k` has room in its out_buf. */
  ghost predicate HasRoom(h: Host, k: byte) {
    exists i :: 0 <= i < |h.table| && Holds(h.table[i].conn, k) && RoomIn(h.table[i].conn.outb)
  }

  /** Some further run comes to a poll that makes room. */
  ghost predicate CanMakeRoom(v: Variant, h: Host, k: byte) {
    exists us, p :: MakesRoom(Run(v, h, us), p, k)
  }

  ghost predicate MakesRoom(h: Host, p: PollInput, k: byte) {
    PollOk(h.table, p) && HasRoom(Polled(h, p), k)
  }

  lemma NoRoom(h: Host, p: PollInput, k: byte, b: Ring)
    requires NamesOk(h) && PollOk(h.table, p) && k != 0 && IsFull(b) && BlockedBy(h, k, b)
    ensures !HasRoom(Polled(h, p), k)
  {
    hide Partition, Poll, PollOk, Times, Holders;
    PollKeepsBlocked(h, p, k, b);
    PollKeepsNames(h, p);
    var e := Polled(h, p);
    var j :| 0 <= j < |e.table| && TakesNothing(Conns(e.table)[j], k, b);
    forall i | 0 <= i < |e.table| && Holds(e.table[i].conn, k)
      ensures e.table[i].conn.outb == b
    {
      OnlyOne(e, i, j, k);
    }
  }

  lemma OnlyOne(h: Host, i: nat, j: nat, k: byte)
    requires NamesOk(h) && k != 0 && i < |h.table| && j < |h.table|
    requires Holds(h.table[i].conn, k) && Holds(h.table[j].conn, k)
    ensures i == j
  {
    hide Times, Holders;
    assert Assigned(h.free, Conns(h.table), k);
    OneHolder(h.free, Conns(h.table), i, j, k);
  }

  /** The slot behind the first loop of a poll, in which its out_buf loses a byte. */
  function WritesOne(s: Slot): (io: Io)
    requires s.conn.Valid() && s.conn.outb.length > 0
    ensures io.rd.NotReady?
  {
    ContentsLength(s.conn.outb);
    Io(NotReady, Moved([s.conn.outb.Contents()[0]]))
  }

  lemma ArmedTells(s: Slot)
    requires MayTell(s.conn) && s.conn.Valid()
    ensures
      var a := Arm(CloseSlot(s)).conn;
      && a.Valid() && MayTell(a) && a.outb == s.conn.outb && a.id == s.conn.id
      && a.state.delete == s.conn.state.delete
  {
  }

  lemma ServedTells(s: Slot)
    requires s.conn.Valid() && s.conn.outb.length > 0 && MayTell(s.conn)
    ensures
      var c := DoIo(s, WritesOne(s)).conn;
      c.id == s.conn.id && c.state == s.conn.state && RoomIn(c.outb)
  {
    hide Ring.Contents, PollFd.Set, PollFd.Clear;
  }

  lemma CloseKeepsRoom(s: Slot)
    ensures
      var c := CloseSlot(s).conn;
      c.id == s.conn.id && c.state.delete == s.conn.state.delete && c.outb == s.conn.outb
  {
  }

  lemma WriteMakesRoom(s: Slot)
    requires s.conn.Valid() && s.conn.outb.length > 0 && MayTell(s.conn) && !s.conn.state.delete
    ensures Arm(CloseSlot(s)).conn.Valid()
    ensures
      var s' := CloseSlot(DoIo(Arm(CloseSlot(s)), WritesOne(Arm(CloseSlot(s)))));
      && s'.conn.id == s.conn.id && !s'.conn.state.delete && RoomIn(s'.conn.outb)
  {
    hide CloseSlot, Arm, DoIo, WritesOne, MayTell, Conn.Valid;
    ArmedTells(s);
    var a := Arm(CloseSlot(s));
    ServedTells(a);
    CloseKeepsRoom(DoIo(a, WritesOne(a)));
  }

  /** The poll in which the socket of connection `i` takes one byte, and nothing else happens. */
  function OneWrite(a: seq<Slot>, i: nat): (p: PollInput)
    requires i < |a| && forall j :: 0 <= j < |a| ==> a[j].conn.Valid()
    requires a[i].conn.outb.length > 0
  {
    PollInput(true, seq(|a|, j requires 0 <= j < |a| => if j == i then WritesOne(a[i]) else Io(NotReady, NotReady)),
              None)
  }

  lemma OneWriteOk(t: seq<Slot>, i: nat)
    requires var a := Armed(t);
             i < |a| && (forall j :: 0 <= j < |a| ==> a[j].conn.Valid()) && a[i].conn.outb.length > 0
    ensures PollOk(t, OneWrite(Armed(t), i))
  {
    hide Armed, Ring.Contents;
    ContentsLength(Armed(t)[i].conn.outb);
  }

  lemma ArmedValid(t: seq<Slot>)
    requires forall j :: 0 <= j < |t| ==> t[j].conn.Valid()
    ensures forall j :: 0 <= j < |Armed(t)| ==> Armed(t)[j].conn.Valid()
  {
    hide CloseSlot, Conn.Valid, Arm;
    ShrinkIsFilter(CloseAll(t));
    forall j | 0 <= j < |Armed(t)|
      ensures Armed(t)[j].conn.Valid()
    {
      var s := Shrink(CloseAll(t))[j];
      assert s in Shrink(CloseAll(t));
      var m :| 0 <= m < |t| && CloseAll(t)[m] == s;
      ClosedValid(t[m]);
    }
  }

  lemma ClosedValid(s: Slot)
    requires s.conn.Valid()
    ensures CloseSlot(s).conn.Valid()
  {
  }

  lemma ArmedPlace(t: seq<Slot>, i: nat) returns (j: nat)
    requires i < |t| && !t[i].conn.state.delete
    ensures j < |Armed(t)| && Armed(t)[j] == Arm(CloseSlot(t[i]))
  {
    hide Arm;
    ShrinkIsFilter(CloseAll(t));
    assert CloseAll(t)[i] in CloseAll(t);
    j :| 0 <= j < |Shrink(CloseAll(t))| && Shrink(CloseAll(t))[j] == CloseAll(t)[i];
  }

  lemma RoomIsMade(h: Host, i: nat, k: byte) returns (p: PollInput)
    requires (forall j :: 0 <= j < |h.table| ==> h.table[j].conn.Valid())
    requires i < |h.table| && Holds(h.table[i].conn, k) && MayTell(h.table[i].conn) && h.table[i].conn.outb.length > 0
    ensures MakesRoom(h, p, k)
  {
    hide Armed, CloseSlot, Arm, DoIo, Ring.Contents, Conn.Valid, MayTell;
    var j := ArmedPlace(h.table, i);
    ArmedValid(h.table);
    WriteMakesRoom(h.table[i]);
    ArmedOut(h.table[i]);
    p := OneWrite(Armed(h.table), j);
    OneWriteOk(h.table, j);
    var u := Served(h.table, p);
    ShrinkIsFilter(CloseAll(u));
    var s := CloseSlot(DoIo(Armed(h.table)[j], p.ios[j]));
    assert CloseAll(u)[j] == s && s in CloseAll(u);
    var m :| 0 <= m < |Poll(h.table, p).table| && Poll(h.table, p).table[m] == s;
    assert Holds(Polled(h, p).table[m].conn, k);
  }

  lemma ArmedOut(s: Slot)
    ensures Arm(CloseSlot(s)).conn.outb == s.conn.outb
  {
  }

  /** The message under way is for connection `i`, whose out_buf is full. Some further run makes room
      in it if and only if a poll may write from it now. */
  lemma UnblocksIff(v: Variant, h: Host, i: nat, k: byte)
    requires NamesOk(h) && !h.twice && k != 0 && h.target == Some(k)
    requires forall j :: 0 <= j < |h.table| ==> h.table[j].conn.Valid()
    requires i < |h.table| && Holds(h.table[i].conn, k) && IsFull(h.table[i].conn.outb)
    ensures CanMakeRoom(v, h, k) <==> MayTell(h.table[i].conn)
  {
    hide NamesOk, Next, MakesRoom, IsFull, MayTell, BlockedBy;
    if MayTell(h.table[i].conn) {
      var p := RoomIsMade(h, i, k) by { FullHolds(h.table[i].conn.outb); }
      assert Run(v, h, []) == h;
      assert MakesRoom(Run(v, h, []), p, k);
    } else {
      var b := h.table[i].conn.outb;
      IsBlocked(h, i, k, b);
      forall us, p
        ensures !MakesRoom(Run(v, h, us), p, k)
      {
        BlockedForever(v, h, us, k, b);
        NeverRoom(Run(v, h, us), p, k, b);
      }
    }
  }

  lemma EndedStops(s: Slot, k: byte)
    requires s.conn.Valid() && Holds(s.conn, k) && IsFull(s.conn.outb)
    ensures TakesNothing(Transmit(s, Outcome.Ended).conn, k, s.conn.outb)
  {
    hide PollFd.Set, PollFd.Clear;
  }

  lemma ClosedTakesNothing(s: Slot, k: byte, b: Ring)
    requires TakesNothing(s.conn, k, b)
    ensures TakesNothing(CloseSlot(s).conn, k, b)
  {
  }

  lemma ReceiveKeepsId(s: Slot, r: Outcome)
    requires s.conn.Valid() && Slots.CanRead(s.conn, r)
    ensures Slots.Receive(s, r).conn.id == s.conn.id
  {
    hide PollFd.Set, PollFd.Clear, Ring.Fill, Heard;
  }

  /** How it comes about: the write of a full out_buf ends with an error. */
  lemma FailedWriteBlocks(s: Slot, rd: Outcome, k: byte)
    requires s.conn.Valid() && Slots.CanRead(s.conn, rd) && Holds(s.conn, k) && IsFull(s.conn.outb)
    ensures TakesNothing(CloseSlot(DoIo(s, Io(rd, Outcome.Ended))).conn, k, s.conn.outb)
  {
    hide Slots.Receive, Transmit, CloseSlot, IsFull;
    ReceiveKeepsOut(s, rd);
    ReceiveKeepsId(s, rd);
    if s.conn.state.IsAlive() {
      EndedStops(Slots.Receive(s, rd), k);
    }
    ClosedTakesNothing(DoIo(s, Io(rd, Outcome.Ended)), k, s.conn.outb);
  }

  lemma FullHolds(b: Ring)
    requires IsFull(b)
    ensures b.length > 0
  {
  }

  lemma IsBlocked(h: Host, i: nat, k: byte, b: Ring)
    requires i < |h.table| && TakesNothing(h.table[i].conn, k, b) && h.target == Some(k)
    ensures BlockedBy(h, k, b)
  {
    assert TakesNothing(Conns(h.table)[i], k, b);
  }

  lemma NeverRoom(h: Host, p: PollInput, k: byte, b: Ring)
    requires NamesOk(h) && k != 0 && IsFull(b) && BlockedBy(h, k, b)
    ensures !MakesRoom(h, p, k)
  {
    hide NamesOk, PollOk, IsFull, BlockedBy, HasRoom;
    if PollOk(h.table, p) {
      NoRoom(h, p, k, b);
    }
  }
}
