/** The table of the connection manager on values: what one `cm_poll` does to it. */
module Slots {
  import opened Basics
  import opened Ring
  import opened Connections
  import opened PollFds

  /** A connection and its entry in the poll array. As a record, the descriptor it was added with,
      all bytes read from that into its in_buf, as long as no read met a wrap, and all bytes
      written to it out of its out_buf. */
  datatype Slot = Slot(conn: Conn, pfd: PollFd, sock: int, read: Option<seq<byte>>, written: seq<byte>)

  /** What a read or write on a ready socket came to: bytes moved, try again, or the end of the
      direction, by end of file or by an error; `NotReady` if poll did not report it. */
  datatype Outcome = NotReady | Moved(bytes: seq<byte>) | Again | Ended

  predicate CanRead(c: Conn, r: Outcome)
    requires c.Valid()
  {
    r.Moved? ==> r.bytes != [] && |r.bytes| <= SegTotal(c.inb.WritingSegs(Shipped))
  }

  predicate CanWrite(c: Conn, r: Outcome)
    requires c.Valid()
  {
    r.Moved? ==> r.bytes != [] && r.bytes <= c.outb.Contents()
  }

  // ---------------------------------------------------------------- one slot

  /** `receive` behind its read. */
  function Received(c: Conn, r: Outcome): (c': Conn)
    requires c.Valid() && CanRead(c, r)
    ensures c'.Valid()
  {
    if c.inb.Free() == 0 then c
    else
      match r
      case Moved(bytes) => Conn(c.id, c.state, c.inState, c.outState, c.inb.Fill(Shipped, bytes), c.outb)
      case Ended => Conn(c.id, c.state, c.inState.(eof := true), c.outState, c.inb, c.outb)
      case _ => c
  }

  /** The record of the bytes read, with `r` behind it. */
  function Heard(s: Slot, r: Outcome): Option<seq<byte>>
    requires s.conn.Valid()
  {
    if s.conn.inb.Free() == 0 || !r.Moved? then s.read
    else if s.read.None? || s.conn.inb.Clobbers() then None
    else Some(s.read.value + r.bytes)
  }

  function Receive(s: Slot, r: Outcome): (s': Slot)
    requires s.conn.Valid() && CanRead(s.conn, r)
    ensures s'.conn.Valid()
  {
    if !s.conn.inState.IsAlive() || s.conn.state.stopped then s
    else
      var c := Received(s.conn, r);
      Slot(c, if c.inb.Free() == 0 || !c.inState.IsAlive() then s.pfd.Clear(true, false)
              else s.pfd.Set(true, false), s.sock, Heard(s, r), s.written)
  }

  /** `transmit` behind its write. */
  function Transmitted(c: Conn, r: Outcome): (c': Conn)
    requires c.Valid()
    ensures c'.Valid()
  {
    if c.outb.length == 0 then c
    else
      match r
      case Moved(bytes) => Conn(c.id, c.state, c.inState, c.outState, c.inb, c.outb.Drop(|bytes|))
      case Ended => Conn(c.id, c.state, c.inState, c.outState.(eof := true), c.inb, c.outb)
      case _ => c
  }

  /** The record of the bytes written, with `r` behind it. */
  function Told(s: Slot, r: Outcome): seq<byte> {
    if s.conn.outb.length == 0 || !r.Moved? then s.written else s.written + r.bytes
  }

  function Transmit(s: Slot, r: Outcome): (s': Slot)
    requires s.conn.Valid()
    ensures s'.conn.Valid()
  {
    if !s.conn.outState.IsAlive() || s.conn.state.stopped then s
    else
      var c := Transmitted(s.conn, r);
      Slot(c, if c.outb.length == 0 || !c.outState.IsAlive() then s.pfd.Clear(false, true)
              else s.pfd.Set(false, true), s.sock, s.read, Told(s, r))
  }

  /** What poll reports for one slot. */
  datatype Io = Io(rd: Outcome, wr: Outcome)

  /** The body of the transfer loop of `cm_poll`. */
  function DoIo(s: Slot, io: Io): (s': Slot)
    requires s.conn.Valid() && CanRead(s.conn, io.rd)
    ensures s'.conn.Valid()
  {
    if s.conn.state.IsAlive() then Transmit(Receive(s, io.rd), io.wr) else s
  }

  /** `should_close_socket`. */
  predicate ShouldCloseSocket(c: Conn) {
    c.state.ShouldClose() || (!c.inState.IsAlive() && !c.outState.IsAlive())
  }

  /** `close_sockets` calls close for this slot. */
  predicate Closes(s: Slot) {
    !s.conn.state.closed && ShouldCloseSocket(s.conn)
  }

  function ShutDown(f: Flags): Flags {
    if f.ShouldClose() && !f.closed then f.(closed := true) else f
  }

  /** The body of the loop of `close_sockets`. */
  function CloseSlot(s: Slot): (s': Slot)
    ensures s.conn.Valid() ==> s'.conn.Valid()
  {
    var c := s.conn;
    if c.state.closed then s
    else if ShouldCloseSocket(c) then
      Slot(Conn(c.id, c.state.(closed := true), c.inState.(closed := true),
                c.outState.(closed := true), c.inb, c.outb),
           PollFd(-1, s.pfd.pollIn, s.pfd.pollOut), s.sock, s.read, s.written)
    else
      Slot(Conn(c.id, c.state, ShutDown(c.inState), ShutDown(c.outState), c.inb, c.outb),
           s.pfd, s.sock, s.read, s.written)
  }

  /** `should_delete`. */
  predicate ShouldDelete(s: Slot) {
    s.conn.state.delete && s.conn.state.closed
  }

  /** The body of the first loop of `cm_poll`. */
  function Arm(s: Slot): (s': Slot)
    ensures s'.conn == s.conn && s'.sock == s.sock && s'.read == s.read && s'.written == s.written
  {
    if s.conn.outb.length > 0 && s.conn.outState.IsAlive()
    then Slot(s.conn, s.pfd.Set(false, true), s.sock, s.read, s.written)
    else s
  }

  /** What `cm_add_connection` makes of a connection and its descriptor. */
  function AddedSlot(c: Conn, sock: int): Slot {
    Slot(c, PollFd(sock, true, false), sock, Some([]), [])
  }

  // ---------------------------------------------------------------- the table

  function CloseAll(t: seq<Slot>): (t': seq<Slot>)
    ensures |t'| == |t|
  {
    seq(|t|, i requires 0 <= i < |t| => CloseSlot(t[i]))
  }

  /** The descriptors passed to close for the first `n` slots, in order. */
  function ClosedFds(t: seq<Slot>, n: nat): seq<int>
    requires n <= |t|
  {
    if n == 0 then []
    else ClosedFds(t, n - 1) + if Closes(t[n - 1]) then [t[n - 1].pfd.Descriptor()] else []
  }

  /** `shrink`: the slots that stay, in their order. */
  function Kept(t: seq<Slot>, n: nat): seq<Slot>
    requires n <= |t|
  {
    if n == 0 then []
    else if ShouldDelete(t[n - 1]) then Kept(t, n - 1)
    else Kept(t, n - 1) + [t[n - 1]]
  }

  function Shrink(t: seq<Slot>): seq<Slot> {
    Kept(t, |t|)
  }

  function ArmAll(t: seq<Slot>): (t': seq<Slot>)
    ensures |t'| == |t|
  {
    seq(|t|, i requires 0 <= i < |t| => Arm(t[i]))
  }

  predicate IoOk(t: seq<Slot>, ios: seq<Io>) {
    |ios| == |t|
    && forall i :: 0 <= i < |t| ==>
         t[i].conn.Valid() && CanRead(t[i].conn, ios[i].rd) && CanWrite(t[i].conn, ios[i].wr)
  }

  function IoAll(t: seq<Slot>, ios: seq<Io>): (t': seq<Slot>)
    requires IoOk(t, ios)
    ensures |t'| == |t|
  {
    seq(|t|, i requires 0 <= i < |t| => DoIo(t[i], ios[i]))
  }

  const MAX_SLOTS := 1022

  /** What one call of `cm_poll` meets: whether it gets past poll without a reason to stop, what
      is ready, and a connection to accept. */
  datatype PollInput = PollInput(completes: bool, ios: seq<Io>, accepted: Option<Slot>)

  predicate IsAccepted(s: Slot) {
    && s.conn.Valid() && s.sock >= 0 && s == AddedSlot(s.conn, s.sock)
    && s.conn.id == -1 && s.conn.state == NO_FLAGS.(isNew := true)
    && s.conn.inState == s.conn.outState == NO_FLAGS
    && s.conn.inb.length == 0 && s.conn.outb.length == 0
  }

  /** The table in front of poll. */
  function Armed(t: seq<Slot>): seq<Slot> {
    ArmAll(Shrink(CloseAll(t)))
  }

  predicate PollOk(t: seq<Slot>, p: PollInput) {
    && IoOk(Armed(t), p.ios)
    && (p.accepted.Some? ==> IsAccepted(p.accepted.value) && |Armed(t)| < MAX_SLOTS)
  }

  /** The table behind accept and the transfers. */
  function Served(t: seq<Slot>, p: PollInput): seq<Slot>
    requires PollOk(t, p)
  {
    IoAll(Armed(t), p.ios) + if p.accepted.Some? then [p.accepted.value] else []
  }

  datatype PollResult = PollResult(table: seq<Slot>, closed: seq<int>)

  /** `cm_poll`: the new table and the descriptors it closed. */
  function Poll(t: seq<Slot>, p: PollInput): PollResult
    requires PollOk(t, p)
  {
    var first := ClosedFds(t, |t|);
    if !p.completes then PollResult(Armed(t), first)
    else
      var s := Served(t, p);
      PollResult(Shrink(CloseAll(s)), first + ClosedFds(s, |s|))
  }

  /** The descriptors `destroy_manager` closes. */
  function DestroyedFds(t: seq<Slot>, n: nat): seq<int>
    requires n <= |t|
  {
    if n == 0 then []
    else DestroyedFds(t, n - 1) + if !t[n - 1].conn.state.closed then [t[n - 1].pfd.Descriptor()] else []
  }

  // ---------------------------------------------------------------- what holds of every slot

  predicate SlotOk(s: Slot) {
    && s.conn.Valid() && s.sock >= 0
    && (s.conn.state.closed ==> s.conn.inState.closed && s.conn.outState.closed)
    && (!s.conn.state.closed ==> s.pfd.Ok() && s.pfd.Descriptor() == s.sock)
  }

  predicate TableOk(t: seq<Slot>) {
    forall i :: 0 <= i < |t| ==> SlotOk(t[i])
  }

  lemma {:induction false} KeptIsFilter(t: seq<Slot>, n: nat)
    requires n <= |t|
    ensures forall s :: s in Kept(t, n) <==> s in t[..n] && !ShouldDelete(s)
  {
    if n > 0 {
      KeptIsFilter(t, n - 1);
      assert t[..n] == t[..n - 1] + [t[n - 1]];
    }
  }

  lemma ShrinkIsFilter(t: seq<Slot>)
    ensures forall s :: s in Shrink(t) <==> s in t && !ShouldDelete(s)
  {
    KeptIsFilter(t, |t|);
    assert t[..|t|] == t;
  }

  /** It keeps their order, and each of them once: the `j`-th that stays is the one at the `j`-th
      of the places that are not to be deleted. */
  lemma {:induction false} KeptPlaces(t: seq<Slot>, n: nat) returns (places: seq<nat>)
    requires n <= |t|
    ensures |places| == |Kept(t, n)| && forall j :: 0 <= j < |places| ==> places[j] < n
    ensures forall j :: 0 <= j < |places| ==> Kept(t, n)[j] == t[places[j]]
    ensures forall i, j :: 0 <= i < j < |places| ==> places[i] < places[j]
    ensures forall i: nat :: i < n ==> (i in places <==> !ShouldDelete(t[i]))
  {
    places := [];
    if n > 0 {
      places := KeptPlaces(t, n - 1);
      if !ShouldDelete(t[n - 1]) {
        places := places + [n - 1];
      }
    }
  }

  lemma CloseSlotKeepsOk(s: Slot)
    requires SlotOk(s)
    ensures SlotOk(CloseSlot(s))
  {
  }

  lemma DoIoKeepsOk(s: Slot, io: Io)
    requires SlotOk(s) && CanRead(s.conn, io.rd)
    ensures SlotOk(DoIo(s, io))
  {
  }

  lemma ShrinkKeepsOk(t: seq<Slot>)
    requires TableOk(t)
    ensures TableOk(Shrink(t))
  {
    hide SlotOk;
    ShrinkIsFilter(t);
    assert forall i :: 0 <= i < |Shrink(t)| ==> Shrink(t)[i] in Shrink(t);
  }

  lemma CloseAllKeepsOk(t: seq<Slot>)
    requires TableOk(t)
    ensures TableOk(CloseAll(t))
  {
    hide SlotOk, CloseSlot;
    forall i | 0 <= i < |t|
      ensures SlotOk(CloseAll(t)[i])
    {
      CloseSlotKeepsOk(t[i]);
    }
  }

  lemma ArmedKeepsOk(t: seq<Slot>)
    requires TableOk(t)
    ensures TableOk(Armed(t))
  {
    CloseAllKeepsOk(t);
    ShrinkKeepsOk(CloseAll(t));
  }

  lemma ServedKeepsOk(t: seq<Slot>, p: PollInput)
    requires TableOk(t) && PollOk(t, p)
    ensures TableOk(Served(t, p))
  {
    hide DoIo, Armed, SlotOk, CanRead;
    ArmedKeepsOk(t);
    forall i | 0 <= i < |Armed(t)|
      ensures SlotOk(IoAll(Armed(t), p.ios)[i])
    {
      DoIoKeepsOk(Armed(t)[i], p.ios[i]);
    }
    if p.accepted.Some? {
      AcceptedIsOk(p.accepted.value);
    }
  }

  lemma AcceptedIsOk(s: Slot)
    requires IsAccepted(s)
    ensures SlotOk(s)
  {
  }

  /** In each open slot the stored descriptor is negative exactly when no event is asked for and
      stands for the descriptor the connection was added with; a closed socket has both
      directions closed. Every poll keeps this. */
  lemma PollKeepsOk(t: seq<Slot>, p: PollInput)
    requires TableOk(t) && PollOk(t, p)
    ensures TableOk(Poll(t, p).table)
  {
    hide Armed, Served, Shrink, CloseAll, SlotOk;
    ArmedKeepsOk(t);
    ServedKeepsOk(t, p);
    CloseAllKeepsOk(Served(t, p));
    ShrinkKeepsOk(CloseAll(Served(t, p)));
  }

  // ---------------------------------------------------------------- half-close machine

  /** What `close_sockets` leaves behind: a closed connection has both directions closed, a
      direction that ended or was given up is closed, two dead directions close the socket, and
      so does a connection that ended or was given up. */
  predicate Settled(c: Conn) {
    && (c.state.closed ==> c.inState.closed && c.outState.closed)
    && (c.inState.ShouldClose() ==> c.inState.closed)
    && (c.outState.ShouldClose() ==> c.outState.closed)
    && (!c.inState.IsAlive() && !c.outState.IsAlive() ==> c.state.closed)
    && (c.state.ShouldClose() ==> c.state.closed)
  }

  lemma CloseSlotSettles(s: Slot)
    requires SlotOk(s)
    ensures Settled(CloseSlot(s).conn)
  {
  }

  lemma ClosingSettles(t: seq<Slot>)
    requires TableOk(t)
    ensures forall s :: s in Shrink(CloseAll(t)) ==> Settled(s.conn) && !s.conn.state.delete
  {
    hide SlotOk, CloseSlot;
    ShrinkIsFilter(CloseAll(t));
    forall s | s in CloseAll(t)
      ensures Settled(s.conn)
    {
      var i :| 0 <= i < |t| && CloseAll(t)[i] == s;
      CloseSlotSettles(t[i]);
    }
  }

  /** In front of the transfers of every `cm_poll`, and behind it if it ran to its end, every connection
      is settled and none is marked for deletion. */
  lemma PollSettles(t: seq<Slot>, p: PollInput)
    requires TableOk(t) && PollOk(t, p)
    ensures forall s :: s in Armed(t) ==> Settled(s.conn) && !s.conn.state.delete
    ensures forall s :: s in Poll(t, p).table ==> Settled(s.conn) && !s.conn.state.delete
  {
    hide Served, SlotOk, CloseSlot, Shrink, CloseAll, Settled, PollOk;
    ClosingSettles(t);
    var u := Shrink(CloseAll(t));
    forall s | s in Armed(t)
      ensures Settled(s.conn) && !s.conn.state.delete
    {
      var i :| 0 <= i < |u| && ArmAll(u)[i] == s;
      assert u[i] in u;
    }
    if p.completes {
      ServedKeepsOk(t, p);
      ClosingSettles(Served(t, p));
    }
  }

  /** No flag but CS_NEW and CS_STOPPED is ever taken back, and the connection stays itself. */
  predicate Grows(f: Flags, g: Flags) {
    (f.eof ==> g.eof) && (f.closed ==> g.closed) && (f.delete ==> g.delete)
  }

  /** A poll reads into the in_buf of this connection. */
  predicate MayHear(c: Conn) {
    c.state.IsAlive() && c.inState.IsAlive() && !c.state.stopped
  }

  /** A poll writes from its out_buf. */
  predicate MayTell(c: Conn) {
    c.state.IsAlive() && c.outState.IsAlive() && !c.state.stopped
  }

  /** What was read are the bytes `x` and behind them the in_buf. */
  predicate ReadIs(s: Slot, x: seq<byte>) {
    s.read.Some? ==> s.conn.inb.Valid() && s.read.value == x + s.conn.inb.Contents()
  }

  /** What was written and what waits in the out_buf are the bytes `y`. */
  predicate WrittenIs(s: Slot, y: seq<byte>) {
    s.conn.outb.Valid() && s.written + s.conn.outb.Contents() == y
  }

  /** No byte is lost between a socket and a buffer. */
  ghost predicate KeepsBytes(s: Slot, s': Slot) {
    && (forall x :: ReadIs(s, x) ==> ReadIs(s', x))
    && (forall y :: WrittenIs(s, y) ==> WrittenIs(s', y))
  }

  ghost predicate Evolves(s: Slot, s': Slot) {
    && s'.sock == s.sock && s'.conn.id == s.conn.id
    && Grows(s.conn.state, s'.conn.state)
    && Grows(s.conn.inState, s'.conn.inState) && Grows(s.conn.outState, s'.conn.outState)
    && s'.conn.state.isNew == s.conn.state.isNew && s'.conn.state.delete == s.conn.state.delete
    && s'.conn.state.stopped == s.conn.state.stopped
    && s'.conn.inState.delete == s.conn.inState.delete
    && s'.conn.outState.delete == s.conn.outState.delete
    && (!MayHear(s.conn) ==> s'.conn.inb == s.conn.inb)
    && (!MayTell(s.conn) ==> s'.conn.outb == s.conn.outb)
    && KeepsBytes(s, s')
  }

  /** Each slot of the new table was accepted by this poll or evolved from an old one. */
  ghost predicate Descends(t: seq<Slot>, accepted: Option<Slot>, s': Slot) {
    (exists s :: s in t && Evolves(s, s')) || (accepted.Some? && Evolves(accepted.value, s'))
  }

  lemma CloseSlotEvolves(s: Slot)
    ensures Evolves(s, CloseSlot(s))
  {
  }

  lemma ReceiveKeepsBytes(s: Slot, r: Outcome)
    requires s.conn.Valid() && CanRead(s.conn, r)
    ensures KeepsBytes(s, Receive(s, r))
  {
    hide Ring.Contents, Ring.Fill, PollFd.Clear, PollFd.Set;
    var s' := Receive(s, r);
    forall x | ReadIs(s, x)
      ensures ReadIs(s', x)
    {
      if s'.read.Some? && r.Moved? {
        WritingSegsSlots(Shipped, s.conn.inb);
        if !s.conn.inb.Clobbers() {
          FillAppends(Shipped, s.conn.inb, r.bytes);
          assert (x + s.conn.inb.Contents()) + r.bytes == x + (s.conn.inb.Contents() + r.bytes);
        }
      }
    }
  }

  lemma ReceiveEvolves(s: Slot, r: Outcome)
    requires s.conn.Valid() && CanRead(s.conn, r) && s.conn.state.IsAlive()
    ensures Evolves(s, Receive(s, r))
  {
    hide Ring.Fill, PollFd.Clear, PollFd.Set, KeepsBytes;
    ReceiveKeepsBytes(s, r);
  }

  lemma TransmitKeepsBytes(s: Slot, r: Outcome)
    requires s.conn.Valid() && CanWrite(s.conn, r)
    ensures KeepsBytes(s, Transmit(s, r))
  {
    hide Ring.Contents, Ring.Drop, PollFd.Clear, PollFd.Set;
    var s' := Transmit(s, r);
    forall y | WrittenIs(s, y)
      ensures WrittenIs(s', y)
    {
      if r.Moved? {
        DropDropsPrefix(s.conn.outb, |r.bytes|);
        ContentsLength(s.conn.outb);
        var c := s.conn.outb.Contents();
        assert r.bytes + c[|r.bytes|..] == c;
        assert (s.written + r.bytes) + c[|r.bytes|..] == s.written + c;
      }
    }
  }

  lemma TransmitEvolves(s: Slot, r: Outcome)
    requires s.conn.Valid() && CanWrite(s.conn, r) && s.conn.state.IsAlive()
    ensures Evolves(s, Transmit(s, r))
  {
    hide Ring.Drop, PollFd.Clear, PollFd.Set, KeepsBytes;
    TransmitKeepsBytes(s, r);
  }

  lemma ReceiveKeepsOut(s: Slot, r: Outcome)
    requires s.conn.Valid() && CanRead(s.conn, r)
    ensures Receive(s, r).conn.outb == s.conn.outb && Receive(s, r).conn.state == s.conn.state
  {
  }

  lemma DoIoEvolves(s: Slot, io: Io)
    requires s.conn.Valid() && CanRead(s.conn, io.rd) && CanWrite(s.conn, io.wr)
    ensures Evolves(s, DoIo(s, io))
  {
    hide Receive, Transmit, Evolves, CanRead;
    if s.conn.state.IsAlive() {
      ReceiveEvolves(s, io.rd);
      ReceiveKeepsOut(s, io.rd);
      TransmitEvolves(Receive(s, io.rd), io.wr);
      EvolvesOn(s, Receive(s, io.rd), DoIo(s, io));
    } else {
      SelfEvolves(s);
    }
  }

  lemma EvolvesOn(s: Slot, s1: Slot, s2: Slot)
    requires Evolves(s, s1) && Evolves(s1, s2)
    ensures Evolves(s, s2)
  {
    hide ReadIs, WrittenIs;
  }

  /** Through a whole poll, in which everything else may happen, no byte of a stopped connection
      moves, neither from its socket nor to it. */
  lemma StoppedMovesNothing(t: seq<Slot>, p: PollInput, s': Slot)
    requires PollOk(t, p) && s' in Poll(t, p).table && s'.conn.state.stopped
    ensures exists s :: s in t && s.conn.id == s'.conn.id && s.sock == s'.sock
              && s'.conn.inb == s.conn.inb && s'.conn.outb == s.conn.outb
  {
    hide PollOk, Poll, KeepsBytes;
    PollDescends(t, p, s');
    AcceptedIsStarted(t, p);
    if s :| s in t && Evolves(s, s') {
    }
  }

  lemma AcceptedIsStarted(t: seq<Slot>, p: PollInput)
    requires PollOk(t, p)
    ensures p.accepted.Some? ==> !p.accepted.value.conn.state.stopped
  {
    hide IoOk, Armed;
  }

  lemma ClosedFrom(t: seq<Slot>, s': Slot)
    requires s' in Shrink(CloseAll(t))
    ensures exists s :: s in t && Evolves(s, s')
  {
    hide CloseSlot, Evolves, ShouldDelete;
    ShrinkIsFilter(CloseAll(t));
    var i :| 0 <= i < |t| && CloseAll(t)[i] == s';
    CloseSlotEvolves(t[i]);
    assert t[i] in t;
  }

  lemma ArmedFrom(t: seq<Slot>, s': Slot)
    requires s' in Armed(t)
    ensures exists s :: s in t && Evolves(s, s')
  {
    hide CloseAll, Shrink;
    var u := Shrink(CloseAll(t));
    var i :| 0 <= i < |u| && ArmAll(u)[i] == s';
    ClosedFrom(t, u[i]);
    var s :| s in t && Evolves(s, u[i]);
    EvolvesOn(s, u[i], s');
  }

  lemma ServedFrom(t: seq<Slot>, p: PollInput, s': Slot)
    requires PollOk(t, p) && s' in Served(t, p)
    ensures Descends(t, p.accepted, s')
  {
    hide Armed, Evolves, DoIo, CanRead, CanWrite, IsAccepted;
    if p.accepted.Some? && s' == p.accepted.value {
      SelfEvolves(s');
    } else {
      var a := Armed(t);
      var i :| 0 <= i < |a| && IoAll(a, p.ios)[i] == s';
      ArmedFrom(t, a[i]);
      var s :| s in t && Evolves(s, a[i]);
      DoIoEvolves(a[i], p.ios[i]);
      EvolvesOn(s, a[i], s');
    }
  }

  lemma SelfEvolves(s: Slot)
    ensures Evolves(s, s)
  {
  }

  /** Through a whole `cm_poll`, whatever happens in it, no connection changes its identifier or
      descriptor, and end-of-file, closed and deletion marks are never taken back. */
  lemma PollDescends(t: seq<Slot>, p: PollInput, s': Slot)
    requires PollOk(t, p) && s' in Poll(t, p).table
    ensures Descends(t, p.accepted, s')
  {
    hide Armed, Served, Evolves, CloseAll, Shrink, IsAccepted, IoOk;
    if !p.completes {
      ArmedFrom(t, s');
    } else {
      ClosedFrom(Served(t, p), s');
      var u :| u in Served(t, p) && Evolves(u, s');
      ServedFrom(t, p, u);
      if s :| s in t && Evolves(s, u) {
        EvolvesOn(s, u, s');
      } else {
        EvolvesOn(p.accepted.value, u, s');
      }
    }
  }

  // ---------------------------------------------------------------- descriptors

  /** How many of the first `n` slots are open and stand for descriptor `d`. */
  function OpenOn(t: seq<Slot>, n: nat, d: int): nat
    requires n <= |t|
  {
    if n == 0 then 0
    else OpenOn(t, n - 1, d) + One(!t[n - 1].conn.state.closed && t[n - 1].sock == d)
  }

  lemma CloseSlotAccounts(s: Slot, d: int)
    requires SlotOk(s)
    ensures
      var s' := CloseSlot(s);
      One(!s'.conn.state.closed && s'.sock == d) + Times(if Closes(s) then [s.pfd.Descriptor()] else [], d)
      == One(!s.conn.state.closed && s.sock == d)
  {
    TimesOne(s.pfd.Descriptor(), d);
  }

  /** `close_sockets` closes each descriptor it takes out of use once, and no other. */
  lemma {:induction false} CloseAllAccounts(t: seq<Slot>, n: nat, d: int)
    requires n <= |t| && TableOk(t)
    ensures OpenOn(CloseAll(t), n, d) + Times(ClosedFds(t, n), d) == OpenOn(t, n, d)
  {
    hide Times, CloseSlot, SlotOk;
    TimesOne(0, d);
    if n > 0 {
      var s := t[n - 1];
      CloseAllAccounts(t, n - 1, d);
      CloseSlotAccounts(s, d);
      TimesConcat(ClosedFds(t, n - 1), if Closes(s) then [s.pfd.Descriptor()] else [], d);
    }
  }

  /** `shrink` frees connections only after their descriptor was closed. */
  lemma {:induction false} KeptAccounts(t: seq<Slot>, n: nat, d: int)
    requires n <= |t|
    ensures OpenOn(Kept(t, n), |Kept(t, n)|, d) == OpenOn(t, n, d)
  {
    if n > 0 {
      KeptAccounts(t, n - 1, d);
      OpenOnFront(Kept(t, n - 1), Kept(t, n), |Kept(t, n - 1)|, d);
    }
  }

  lemma {:induction false} OpenOnFront(t: seq<Slot>, u: seq<Slot>, n: nat, d: int)
    requires n <= |t| && n <= |u| && t[..n] == u[..n]
    ensures OpenOn(t, n, d) == OpenOn(u, n, d)
  {
    if n > 0 {
      assert t[..n - 1] == t[..n][..n - 1] == u[..n][..n - 1] == u[..n - 1];
      OpenOnFront(t, u, n - 1, d);
      assert t[n - 1] == t[..n][n - 1] == u[..n][n - 1] == u[n - 1];
    }
  }

  /** Steps that neither open nor close a socket. */
  lemma {:induction false} SameSockets(t: seq<Slot>, u: seq<Slot>, n: nat, d: int)
    requires n <= |t| && n <= |u|
    requires forall i :: 0 <= i < n ==>
      u[i].sock == t[i].sock && u[i].conn.state.closed == t[i].conn.state.closed
    ensures OpenOn(t, n, d) == OpenOn(u, n, d)
  {
    if n > 0 {
      SameSockets(t, u, n - 1, d);
    }
  }

  lemma ArmedAccounts(t: seq<Slot>, d: int)
    requires TableOk(t)
    ensures OpenOn(Armed(t), |Armed(t)|, d) + Times(ClosedFds(t, |t|), d) == OpenOn(t, |t|, d)
  {
    hide OpenOn, Times, CloseSlot, SlotOk;
    var u := Shrink(CloseAll(t));
    CloseAllAccounts(t, |t|, d);
    KeptAccounts(CloseAll(t), |t|, d);
    SameSockets(u, ArmAll(u), |u|, d);
  }

  lemma ServedAccounts(t: seq<Slot>, p: PollInput, d: int)
    requires PollOk(t, p)
    ensures OpenOn(Served(t, p), |Served(t, p)|, d)
            == OpenOn(Armed(t), |Armed(t)|, d) + One(p.accepted.Some? && p.accepted.value.sock == d)
  {
    hide Armed, DoIo, CanRead, CanWrite;
    var a := Armed(t);
    var u := IoAll(a, p.ios);
    forall i | 0 <= i < |a|
      ensures u[i].sock == a[i].sock && u[i].conn.state.closed == a[i].conn.state.closed
    {
      DoIoKeepsSocket(a[i], p.ios[i]);
    }
    SameSockets(a, u, |a|, d);
    OpenOnFront(u, Served(t, p), |u|, d);
  }

  lemma DoIoKeepsSocket(s: Slot, io: Io)
    requires s.conn.Valid() && CanRead(s.conn, io.rd)
    ensures DoIo(s, io).sock == s.sock && DoIo(s, io).conn.state == s.conn.state
  {
  }

  /** Open before plus accepted is open after plus closed, for every descriptor. */
  lemma PollAccounts(t: seq<Slot>, p: PollInput, d: int)
    requires TableOk(t) && PollOk(t, p)
    ensures
      var q := Poll(t, p);
      OpenOn(q.table, |q.table|, d) + Times(q.closed, d)
      == OpenOn(t, |t|, d) + One(p.completes && p.accepted.Some? && p.accepted.value.sock == d)
  {
    hide OpenOn, Times, Armed, Served, CloseAll, SlotOk, IoOk, IsAccepted;
    ArmedAccounts(t, d);
    if p.completes {
      var s := Served(t, p);
      ServedAccounts(t, p, d);
      ServedKeepsOk(t, p);
      CloseAllAccounts(s, |s|, d);
      KeptAccounts(CloseAll(s), |s|, d);
      TimesConcat(ClosedFds(t, |t|), ClosedFds(s, |s|), d);
    }
  }

  /** `destroy_manager` closes what is still open, each once. */
  lemma {:induction false} DestroyAccounts(t: seq<Slot>, n: nat, d: int)
    requires n <= |t| && TableOk(t)
    ensures Times(DestroyedFds(t, n), d) == OpenOn(t, n, d)
  {
    hide Times;
    TimesOne(0, d);
    if n > 0 {
      DestroyAccounts(t, n - 1, d);
      assert SlotOk(t[n - 1]);
      TimesOne(t[n - 1].pfd.Descriptor(), d);
      TimesConcat(DestroyedFds(t, n - 1), [t[n - 1].pfd.Descriptor()], d);
      assert DestroyedFds(t, n - 1) + [] == DestroyedFds(t, n - 1);
    }
  }

  lemma KeptIn(t: seq<Slot>)
    requires forall s :: s in t ==> s.conn.Valid()
    ensures forall s :: s in Shrink(CloseAll(t)) ==> s.conn.Valid()
  {
    hide CloseSlot, Conn.Valid;
    ShrinkIsFilter(CloseAll(t));
    forall s | s in CloseAll(t)
      ensures s.conn.Valid()
    {
      var i :| 0 <= i < |t| && CloseAll(t)[i] == s;
      assert t[i] in t;
      CloseSlotValid(t[i]);
    }
  }

  lemma CloseSlotValid(s: Slot)
    requires s.conn.Valid()
    ensures CloseSlot(s).conn.Valid()
  {
  }

  /** Poll leaves sound buffers. */
  lemma PollLeavesValid(t: seq<Slot>, p: PollInput)
    requires PollOk(t, p)
    ensures forall s :: s in Poll(t, p).table ==> s.conn.Valid()
  {
    hide Armed, Shrink, CloseAll, DoIo, Conn.Valid, CanRead, CanWrite;
    if p.completes {
      KeptIn(Served(t, p));
    }
  }

  // ---------------------------------------------------------------- what a poll must do

  /** End of file, closed or given up. */
  predicate Over(f: Flags) {
    f.eof || f.closed || f.delete
  }

  /** The in_buf and its record behind a read that delivered `bytes`. */
  ghost predicate Stores(s: Slot, bytes: seq<byte>, s': Slot)
    requires s.conn.Valid() && s'.conn.Valid()
  {
    var r, r' := s.conn.inb, s'.conn.inb;
    && r'.length == Min(|r.data|, r.length + |bytes|) && |r'.data| == |r.data|
    && if r.Clobbers() then r' == r.Fill(Shipped, bytes) && s'.read == None
       else r'.Contents() == r.Contents() + bytes
            && s'.read == if s.read.None? then None else Some(s.read.value + bytes)
  }

  /** The out_buf and its record behind a write that took `bytes`. */
  ghost predicate Gives(s: Slot, bytes: seq<byte>, s': Slot)
    requires s.conn.Valid() && s'.conn.Valid()
  {
    && s.conn.outb.Contents() == bytes + s'.conn.outb.Contents() && s'.written == s.written + bytes
    && |s'.conn.outb.data| == |s.conn.outb.data|
  }

  /** The socket is read for this connection, if it is ready. */
  predicate Hears(c: Conn) {
    !Over(c.state) && !Over(c.inState) && !c.state.stopped
  }

  predicate Tells(c: Conn) {
    !Over(c.state) && !Over(c.outState) && !c.state.stopped
  }

  /** Of the flags only the ends of the two directions may have been set: by a read or write that
      came to an end. */
  predicate Ends(c: Conn, io: Io, c': Conn) {
    && c'.id == c.id && c'.state == c.state
    && c'.inState == (if Hears(c) && c.inb.length < |c.inb.data| && io.rd.Ended?
                      then c.inState.(eof := true) else c.inState)
    && c'.outState == (if Tells(c) && c.outb.length > 0 && io.wr.Ended?
                       then c.outState.(eof := true) else c.outState)
  }

  /** The buffers and records behind the transfers of one connection. */
  ghost predicate Carries(s: Slot, io: Io, s': Slot)
    requires s.conn.Valid() && s'.conn.Valid()
  {
    && s'.sock == s.sock
    && (if Hears(s.conn) && s.conn.inb.length < |s.conn.inb.data| && io.rd.Moved? then Stores(s, io.rd.bytes, s')
        else s'.conn.inb == s.conn.inb && s'.read == s.read)
    && (if Tells(s.conn) && s.conn.outb.length > 0 && io.wr.Moved? then Gives(s, io.wr.bytes, s')
        else s'.conn.outb == s.conn.outb && s'.written == s.written)
  }

  /** The events asked for next: input while the direction goes on and there is room, output while it
      goes on and something waits; a direction that was not served keeps its event. */
  predicate Asks(s: Slot, s': Slot) {
    var c, c' := s.conn, s'.conn;
    && s'.pfd.pollIn == (if Hears(c) then !Over(c'.inState) && c'.inb.length < |c'.inb.data| else s.pfd.pollIn)
    && s'.pfd.pollOut == (if Tells(c) then !Over(c'.outState) && c'.outb.length > 0 else s.pfd.pollOut)
  }

  lemma ReceiveMoves(s: Slot, r: Outcome)
    requires s.conn.Valid() && CanRead(s.conn, r) && !Over(s.conn.state)
    ensures
      var s' := Receive(s, r);
      Ends(s.conn, Io(r, NotReady), s'.conn) && Carries(s, Io(r, NotReady), s')
      && s'.pfd.pollOut == s.pfd.pollOut
      && s'.pfd.pollIn == if Hears(s.conn) then !Over(s'.conn.inState) && s'.conn.inb.length < |s'.conn.inb.data|
                          else s.pfd.pollIn
  {
    hide Ring.Contents, Ring.Stored;
    if r.Moved? {
      WritingSegsSlots(Shipped, s.conn.inb);
      if !s.conn.inb.Clobbers() && s.conn.inb.length < |s.conn.inb.data| {
        FillAppends(Shipped, s.conn.inb, r.bytes);
      }
    }
  }

  lemma TransmitMoves(s: Slot, r: Outcome)
    requires s.conn.Valid() && CanWrite(s.conn, r) && !Over(s.conn.state)
    ensures
      var s' := Transmit(s, r);
      Ends(s.conn, Io(NotReady, r), s'.conn) && Carries(s, Io(NotReady, r), s')
      && s'.pfd.pollIn == s.pfd.pollIn
      && s'.pfd.pollOut == if Tells(s.conn) then !Over(s'.conn.outState) && s'.conn.outb.length > 0
                           else s.pfd.pollOut
  {
    hide Ring.Contents;
    if r.Moved? {
      DropDropsPrefix(s.conn.outb, |r.bytes|);
      ContentsLength(s.conn.outb);
      var c := s.conn.outb.Contents();
      assert r.bytes + c[|r.bytes|..] == c;
    }
  }

  lemma EndsCarries(s: Slot, io: Io, s1: Slot, s2: Slot)
    requires s.conn.Valid() && s1.conn.Valid() && s2.conn.Valid()
    requires Ends(s.conn, Io(io.rd, NotReady), s1.conn) && Carries(s, Io(io.rd, NotReady), s1)
    requires Ends(s1.conn, Io(NotReady, io.wr), s2.conn) && Carries(s1, Io(NotReady, io.wr), s2)
    ensures Ends(s.conn, io, s2.conn) && Carries(s, io, s2)
  {
    hide Ring.Contents, Ring.Clobbers, Ring.Fill, Ring.Valid;
  }

  lemma DoIoMoves(s: Slot, io: Io)
    requires s.conn.Valid() && CanRead(s.conn, io.rd) && CanWrite(s.conn, io.wr)
    ensures Ends(s.conn, io, DoIo(s, io).conn) && Carries(s, io, DoIo(s, io)) && Asks(s, DoIo(s, io))
  {
    hide Receive, Transmit, Stores, Gives, CanRead, Conn.Valid;
    if !Over(s.conn.state) {
      var s1 := Receive(s, io.rd);
      ReceiveMoves(s, io.rd);
      SameWrite(s.conn, s1.conn, io.wr);
      TransmitMoves(s1, io.wr);
      EndsCarries(s, io, s1, Transmit(s1, io.wr));
    }
  }

  lemma SameWrite(c: Conn, d: Conn, r: Outcome)
    requires c.Valid() && d.Valid() && CanWrite(c, r) && d.outb == c.outb
    ensures CanWrite(d, r)
  {
  }

  /** How the directions of a connection end in a poll. */
  function InEnd(c: Conn, io: Io): Flags {
    c.inState.(eof := c.inState.eof || (Hears(c) && c.inb.length < |c.inb.data| && io.rd.Ended?))
  }

  function OutEnd(c: Conn, io: Io): Flags {
    c.outState.(eof := c.outState.eof || (Tells(c) && c.outb.length > 0 && io.wr.Ended?))
  }

  /** `close_sockets` on an open connection closes a direction exactly if it is over, and the socket
      exactly if both are. */
  predicate Closed(s: Slot, s': Slot) {
    var c, c' := s.conn, s'.conn;
    && s' == s.(conn := c', pfd := s'.pfd) && c'.id == c.id && c'.inb == c.inb && c'.outb == c.outb
    && c'.inState == c.inState.(closed := Over(c.inState)) && c'.outState == c.outState.(closed := Over(c.outState))
    && c'.state == c.state.(closed := Over(c.inState) && Over(c.outState))
    && s'.pfd.pollIn == s.pfd.pollIn && s'.pfd.pollOut == s.pfd.pollOut
  }

  lemma CloseSlotExactly(s: Slot)
    requires !Over(s.conn.state)
    ensures Closed(s, CloseSlot(s))
  {
  }

  /** One connection that is open in front of a poll, behind it: what its socket delivered is in its
      in_buf, what it took has left its out_buf, its directions are over exactly if they were before
      or came to their end, and it asks for the right events. */
  ghost predicate Moves(s: Slot, io: Io, s': Slot)
    requires s.conn.Valid() && s'.conn.Valid()
  {
    var c, c' := s.conn, s'.conn;
    && Carries(s, io, s') && c'.id == c.id
    && c'.inState == InEnd(c, io).(closed := Over(InEnd(c, io)))
    && c'.outState == OutEnd(c, io).(closed := Over(OutEnd(c, io)))
    && c'.state == c.state.(closed := Over(InEnd(c, io)) && Over(OutEnd(c, io)))
    && (!c'.state.closed ==>
          && s'.pfd.pollIn == (if Hears(c) then !Over(c'.inState) && c'.inb.length < |c'.inb.data| else s.pfd.pollIn)
          && s'.pfd.pollOut == (if Tells(c) then !Over(c'.outState) && c'.outb.length > 0
                                else s.pfd.pollOut || (c.outb.length > 0 && !Over(c.outState))))
  }

  lemma ArmExactly(s: Slot)
    requires !Over(s.conn.state)
    ensures
      var a := Arm(CloseSlot(s));
      && a.conn == CloseSlot(s).conn && a.sock == s.sock && a.read == s.read && a.written == s.written
      && a.pfd.pollIn == s.pfd.pollIn
      && a.pfd.pollOut == (s.pfd.pollOut || (s.conn.outb.length > 0 && !Over(s.conn.outState)))
  {
    CloseSlotExactly(s);
  }

  /** Closing in front of the transfers changes nothing of what may be transferred. */
  lemma SameHearing(s: Slot, a: Slot)
    requires !Over(s.conn.state) && Closed(s, s.(conn := a.conn))
    ensures Hears(a.conn) == Hears(s.conn) && Tells(a.conn) == Tells(s.conn)
  {
  }

  /** What the two calls of `close_sockets` and the transfers between them make of the flags. */
  lemma FlagsMove(s: Slot, a: Slot, u: Slot, e: Slot, io: Io)
    requires !Over(s.conn.state) && Closed(s, s.(conn := a.conn)) && Ends(a.conn, io, u.conn)
    requires Hears(a.conn) == Hears(s.conn) && Tells(a.conn) == Tells(s.conn)
    requires if u.conn.state.closed then e == u else Closed(u, e)
    ensures
      var c, c' := s.conn, e.conn;
      && c'.id == c.id
      && c'.inState == InEnd(c, io).(closed := Over(InEnd(c, io)))
      && c'.outState == OutEnd(c, io).(closed := Over(OutEnd(c, io)))
      && c'.state == c.state.(closed := Over(InEnd(c, io)) && Over(OutEnd(c, io)))
  {
    StateMoves(s, a, u, e, io);
    hide Hears, Tells;
  }

  lemma StateMoves(s: Slot, a: Slot, u: Slot, e: Slot, io: Io)
    requires !Over(s.conn.state) && Closed(s, s.(conn := a.conn)) && Ends(a.conn, io, u.conn)
    requires if u.conn.state.closed then e == u else Closed(u, e)
    ensures u.conn.state.closed ==> !Hears(a.conn) && !Tells(a.conn)
  {
  }

  lemma MasksMove(s: Slot, a: Slot, u: Slot, e: Slot)
    requires Asks(a, u) && Hears(a.conn) == Hears(s.conn) && Tells(a.conn) == Tells(s.conn)
    requires a.pfd.pollIn == s.pfd.pollIn
    requires a.pfd.pollOut == (s.pfd.pollOut || (s.conn.outb.length > 0 && !Over(s.conn.outState)))
    requires Closed(u, e)
    ensures
      var c, c' := s.conn, e.conn;
      && e.pfd.pollIn == (if Hears(c) then !Over(c'.inState) && c'.inb.length < |c'.inb.data| else s.pfd.pollIn)
      && e.pfd.pollOut == (if Tells(c) then !Over(c'.outState) && c'.outb.length > 0
                           else s.pfd.pollOut || (c.outb.length > 0 && !Over(c.outState)))
  {
    hide Hears, Tells;
  }

  lemma SlotMoves(s: Slot, io: Io)
    requires s.conn.Valid() && !Over(s.conn.state) && CanRead(s.conn, io.rd) && CanWrite(s.conn, io.wr)
    ensures Arm(CloseSlot(s)).conn.Valid() && CanRead(Arm(CloseSlot(s)).conn, io.rd)
    ensures CloseSlot(DoIo(Arm(CloseSlot(s)), io)).conn.Valid()
    ensures Moves(s, io, CloseSlot(DoIo(Arm(CloseSlot(s)), io)))
  {
    hide CloseSlot, Arm, DoIo, Carries, Ends, Asks, Hears, Tells, InEnd, OutEnd, Ring.Contents, Ring.Valid;
    ArmedFacts(s);
    var a := Arm(CloseSlot(s));
    SameHearing(s, a);
    DoIoMoves(a, io);
    var u := DoIo(a, io);
    CloseSlotValid(u);
    var e := CloseSlot(u);
    if u.conn.state.closed {
      ClosedStays(u);
      FlagsMove(s, a, u, e, io);
      SameCarries(s, a, u, e, io);
    } else {
      StillOpen(s, a, u, io);
      CloseSlotExactly(u);
      FlagsMove(s, a, u, e, io);
      SameCarries(s, a, u, e, io);
      MasksMove(s, a, u, e);
    }
  }

  lemma ArmedFacts(s: Slot)
    requires s.conn.Valid() && !Over(s.conn.state)
    ensures
      var a := Arm(CloseSlot(s));
      && a.conn.Valid() && Closed(s, s.(conn := a.conn)) && a.conn.inb == s.conn.inb && a.conn.outb == s.conn.outb
      && a.sock == s.sock && a.read == s.read && a.written == s.written && a.pfd.pollIn == s.pfd.pollIn
      && a.pfd.pollOut == (s.pfd.pollOut || (s.conn.outb.length > 0 && !Over(s.conn.outState)))
  {
    hide CloseSlot, Arm;
    CloseSlotExactly(s);
    ArmExactly(s);
  }

  lemma StillOpen(s: Slot, a: Slot, u: Slot, io: Io)
    requires !Over(s.conn.state) && Closed(s, s.(conn := a.conn)) && Ends(a.conn, io, u.conn) && !u.conn.state.closed
    ensures !Over(u.conn.state)
  {
  }

  lemma SameCarries(s: Slot, a: Slot, u: Slot, e: Slot, io: Io)
    requires s.conn.Valid() && a.conn.Valid() && u.conn.Valid() && e.conn.Valid() && Carries(a, io, u)
    requires a.conn.inb == s.conn.inb && a.conn.outb == s.conn.outb && Hears(a.conn) == Hears(s.conn)
    requires Tells(a.conn) == Tells(s.conn) && a.sock == s.sock && a.read == s.read && a.written == s.written
    requires e.conn.inb == u.conn.inb && e.conn.outb == u.conn.outb && e.sock == u.sock
    requires e.read == u.read && e.written == u.written
    ensures Carries(s, io, e)
  {
    hide Ring.Contents, Ring.Valid, Ring.Fill, Ring.Clobbers, Hears, Tells;
  }

  lemma ClosedStays(s: Slot)
    requires s.conn.state.closed
    ensures CloseSlot(s) == s
  {
  }

  /** The slots of the table that a poll gives up at first do not count in it. */
  lemma PlaceInPoll(t: seq<Slot>, n: nat, i: nat)
    requires i < n <= |t| && !ShouldDelete(t[i])
    ensures |Kept(t, i)| < |Kept(t, n)| && Kept(t, n)[|Kept(t, i)|] == t[i]
  {
    if i < n - 1 {
      PlaceInPoll(t, n - 1, i);
    }
  }

  /** Every connection that is open in front of a completed poll is in the table behind it, with what
      poll reported for its place. */
  lemma PollMoves(t: seq<Slot>, p: PollInput, i: nat)
    requires PollOk(t, p) && p.completes && i < |t| && t[i].conn.Valid() && !Over(t[i].conn.state)
    ensures
      var j := |Kept(CloseAll(t), i)|;
      j < |p.ios| && exists s' :: s' in Poll(t, p).table && s'.conn.Valid() && Moves(t[i], p.ios[j], s')
  {
    hide CloseSlot, Arm, DoIo, Moves, CanRead, CanWrite, Conn.Valid, IsAccepted;
    var u := CloseAll(t);
    CloseSlotExactly(t[i]);
    PlaceInPoll(u, |u|, i);
    var j := |Kept(u, i)|;
    var a := Armed(t)[j];
    assert a == Arm(CloseSlot(t[i]));
    var io := p.ios[j];
    BackToSlot(t[i], io);
    SlotMoves(t[i], io);
    var w := Served(t, p);
    assert w[j] == DoIo(a, io);
    var s' := CloseSlot(w[j]);
    ShrinkIsFilter(CloseAll(w));
    assert CloseAll(w)[j] == s' && s' in CloseAll(w);
    StaysOpen(t[i], io, s');
  }

  /** What may be transferred for the slot behind the first loop is that of the slot in front of it. */
  lemma BackToSlot(s: Slot, io: Io)
    requires !Over(s.conn.state) && s.conn.Valid()
    requires var a := Arm(CloseSlot(s)); a.conn.Valid() && CanRead(a.conn, io.rd) && CanWrite(a.conn, io.wr)
    ensures CanRead(s.conn, io.rd) && CanWrite(s.conn, io.wr)
  {
    hide CloseSlot, Arm;
    CloseSlotExactly(s);
    ArmExactly(s);
  }

  lemma StaysOpen(s: Slot, io: Io, s': Slot)
    requires s.conn.Valid() && s'.conn.Valid() && Moves(s, io, s') && !Over(s.conn.state)
    ensures !ShouldDelete(s')
  {
  }

  /** A connection whose socket is closed stays as it is, until it is marked for deletion. */
  lemma PollKeepsClosed(t: seq<Slot>, p: PollInput, i: nat)
    requires TableOk(t) && PollOk(t, p) && i < |t| && t[i].conn.state.closed && !t[i].conn.state.delete
    ensures t[i] in Poll(t, p).table
  {
    hide CloseSlot, Arm, DoIo, CanRead, CanWrite, SlotOk, IsAccepted;
    var u := CloseAll(t);
    ClosedIsLeft(t[i]);
    PlaceInPoll(u, |u|, i);
    var j := |Kept(u, i)|;
    assert Armed(t)[j] == t[i];
    if p.completes {
      var w := Served(t, p);
      LeftByIo(t[i], p.ios[j]);
      assert w[j] == t[i];
      ShrinkIsFilter(CloseAll(w));
      assert CloseAll(w)[j] == t[i] && t[i] in CloseAll(w);
    } else {
      assert Armed(t)[j] in Armed(t);
    }
  }

  lemma ClosedIsLeft(s: Slot)
    requires SlotOk(s) && s.conn.state.closed
    ensures CloseSlot(s) == s && Arm(s) == s
  {
  }

  lemma LeftByIo(s: Slot, io: Io)
    requires s.conn.Valid() && s.conn.state.closed && CanRead(s.conn, io.rd)
    ensures DoIo(s, io) == s
  {
  }

  /** A new client is the last of the table behind the poll that took it, with empty buffers and announced
      to nobody yet; its input is asked for next. */
  lemma PollTakesAccepted(t: seq<Slot>, p: PollInput)
    requires PollOk(t, p) && p.completes && p.accepted.Some?
    ensures
      var u := Poll(t, p).table;
      && u != [] && u[|u| - 1] == p.accepted.value
      && var s := p.accepted.value;
      && s.conn.state == NO_FLAGS.(isNew := true) && s.conn.inState == s.conn.outState == NO_FLAGS
      && s.conn.id == -1 && s.conn.inb.length == 0 && s.conn.outb.length == 0
      && s.pfd == PollFd(s.sock, true, false)
  {
    hide CloseSlot, Arm, DoIo, CanRead, CanWrite;
    var w := Served(t, p);
    AcceptedStays(w[|w| - 1]);
    assert CloseAll(w)[|w| - 1] == p.accepted.value;
  }

  lemma AcceptedStays(s: Slot)
    requires IsAccepted(s)
    ensures CloseSlot(s) == s && !ShouldDelete(s)
  {
  }
}
