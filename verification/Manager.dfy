/** The connection manager of manager.c: two parallel arrays that are walked and compacted in
    place. What the kernel answers (ready sockets, bytes, accepted descriptors) is given. */
module Managers {
  import opened Basics
  import opened Connections
  import opened PollFds
  import opened Slots

  const FIRST := 2  // entries 0 and 1 of the poll array are the acceptor and the pipe

  class ConnectionManager {
    const connections: array<Connection?>
    const fds: array<PollFd>
    var count: nat

    ghost predicate Valid()
      reads this
    {
      connections.Length == MAX_SLOTS && fds.Length == FIRST + MAX_SLOTS && count <= MAX_SLOTS
    }

    /** The first `count` entries are the connections `cs`, and with their poll entries they show
        the table `t`. */
    ghost predicate Shows(cs: seq<Connection>, t: seq<Slot>)
      reads this, connections, fds
      reads set i | 0 <= i < |cs| :: cs[i]
      reads set i | 0 <= i < |cs| :: cs[i].inBuf
      reads set i | 0 <= i < |cs| :: cs[i].inBuf.buffer
      reads set i | 0 <= i < |cs| :: cs[i].outBuf
      reads set i | 0 <= i < |cs| :: cs[i].outBuf.buffer
    {
      && Valid() && count == |cs| == |t| && Separate(cs)
      && (forall i :: 0 <= i < count ==> connections[i] == cs[i])
      && (forall i :: 0 <= i < count ==> cs[i].View() == t[i].conn && fds[FIRST + i] == t[i].pfd)
    }

    constructor ()
      ensures Valid() && count == 0 && fresh(connections) && fresh(fds)
    {
      connections := new Connection?[MAX_SLOTS](_ => null);
      fds := new PollFd[FIRST + MAX_SLOTS](_ => PollFd(-1, false, false));
      count := 0;
    }

    /** `cm_add_connection`. */
    method AddConnection(c: Connection, fd: int, ghost cs: seq<Connection>, ghost t: seq<Slot>)
      returns (ind: int)
      requires Shows(cs, t) && Separate(cs + [c])
      modifies this`count, connections, fds
      ensures if |t| == MAX_SLOTS then ind == -1 && Shows(cs, t)
              else ind == |t| && Shows(cs + [c], t + [AddedSlot(c.View(), fd)])
    {
      if count == MAX_SLOTS {
        return -1;
      }
      ind := count;
      count := count + 1;
      connections[ind] := c;
      fds[FIRST + ind] := PollFd(fd, true, false);
    }

    /** The body of the loop of `close_sockets`; says whether close was called. */
    method CloseAt(i: nat, ghost cs: seq<Connection>, ghost t: seq<Slot>) returns (closed: seq<int>)
      requires Shows(cs, t) && i < count
      modifies fds, cs[i]
      ensures Shows(cs, t[i := CloseSlot(t[i])])
      ensures closed == if Closes(t[i]) then [t[i].pfd.Descriptor()] else []
    {
      var conn := connections[i];
      closed := [];
      if conn.state.closed {
        return;
      }
      var fd := fds[FIRST + i].Descriptor();
      if conn.state.ShouldClose() || (!conn.inState.IsAlive() && !conn.outState.IsAlive()) {
        fds[FIRST + i] := fds[FIRST + i].(fd := -1);
        closed := [fd];
        conn.state := conn.state.(closed := true);
        conn.inState := conn.inState.(closed := true);
        conn.outState := conn.outState.(closed := true);
      } else {
        if conn.inState.ShouldClose() && !conn.inState.closed {
          conn.inState := conn.inState.(closed := true);
        }
        if conn.outState.ShouldClose() && !conn.outState.closed {
          conn.outState := conn.outState.(closed := true);
        }
      }
    }

    /** `close_sockets`; returns the descriptors it closed. */
    method CloseSockets(ghost cs: seq<Connection>, ghost t: seq<Slot>) returns (closed: seq<int>)
      requires Shows(cs, t)
      modifies fds, set i | 0 <= i < |cs| :: cs[i]
      ensures Shows(cs, CloseAll(t)) && closed == ClosedFds(t, |t|)
    {
      hide Shows, CloseSlot, Closes;
      ShowsCount(cs, t);
      closed := [];
      ghost var u := t;
      var i := 0;
      while i < count
        invariant 0 <= i <= count == |t| == |u| == |cs|
        invariant Shows(cs, u) && closed == ClosedFds(t, i)
        invariant forall j :: 0 <= j < |t| ==> u[j] == if j < i then CloseSlot(t[j]) else t[j]
      {
        var c := CloseAt(i, cs, u);
        u := u[i := CloseSlot(u[i])];
        ShowsCount(cs, u);
        closed := closed + c;
        i := i + 1;
      }
      assert u == CloseAll(t);
    }

    lemma ShowsCount(cs: seq<Connection>, t: seq<Slot>)
      requires Shows(cs, t)
      ensures count == |t| == |cs|
    {
    }

    /** The two arrays hold `cs` and the poll entries of `t` from `from` to `to`. */
    ghost predicate Holds(cs: seq<Connection>, t: seq<Slot>, from: nat, to: nat)
      requires Valid() && from <= to <= |cs| == |t| && to <= MAX_SLOTS
      reads this, connections, fds
    {
      forall k :: from <= k < to ==> connections[k] == cs[k] && fds[FIRST + k] == t[k].pfd
    }

    /** Entry `j` moves down to place `i`. */
    method MoveDown(i: nat, j: nat, ghost kc: seq<Connection>, ghost kt: seq<Slot>,
                    ghost cs: seq<Connection>, ghost t: seq<Slot>)
      requires Valid() && i == |kc| == |kt| <= j < count == |cs| == |t|
      requires Holds(kc, kt, 0, i) && Holds(cs, t, j, count)
      modifies connections, fds
      ensures Holds(kc + [cs[j]], kt + [t[j]], 0, i + 1) && Holds(cs, t, j + 1, count)
    {
      if i != j {
        connections[i] := connections[j];
        fds[FIRST + i] := fds[FIRST + j];
      }
    }

    /** The loop of `shrink`: entries that are done with leave both arrays, the others move down. */
    method Compact(ghost cs: seq<Connection>, ghost t: seq<Slot>) returns (i: nat)
      requires Valid() && count == |cs| == |t| && Holds(cs, t, 0, count)
      requires forall k :: 0 <= k < count ==> cs[k].state == t[k].conn.state
      modifies connections, fds
      ensures i == |Shrink(t)| <= count
      ensures Holds(KeptConns(cs, t, |t|), Shrink(t), 0, i)
    {
      hide Holds;
      i := 0;
      var j := 0;
      NothingHeld(cs, t);
      while j < count
        invariant 0 <= i <= j <= count && i == |Kept(t, j)|
        invariant Holds(KeptConns(cs, t, j), Kept(t, j), 0, i) && Holds(cs, t, j, count)
      {
        var state := StateAt(j, cs, t);
        if state.delete && state.closed {
          PassOver(cs, t, j);
        } else {
          MoveDown(i, j, KeptConns(cs, t, j), Kept(t, j), cs, t);
          i := i + 1;
        }
        j := j + 1;
      }
    }

    method StateAt(j: nat, ghost cs: seq<Connection>, ghost t: seq<Slot>) returns (f: Flags)
      requires Valid() && j < count == |cs| == |t| && Holds(cs, t, j, count)
      ensures f == cs[j].state
    {
      f := connections[j].state;
    }

    lemma NothingHeld(cs: seq<Connection>, t: seq<Slot>)
      requires Valid()
      ensures Holds([], [], 0, 0)
    {
    }

    lemma PassOver(cs: seq<Connection>, t: seq<Slot>, j: nat)
      requires Valid() && j < count == |cs| == |t| && Holds(cs, t, j, count)
      ensures Holds(cs, t, j + 1, count)
    {
    }

    /** `shrink`. */
    method ShrinkTable(ghost cs: seq<Connection>, ghost t: seq<Slot>)
      requires Shows(cs, t)
      modifies this`count, connections, fds
      ensures Shows(KeptConns(cs, t, |t|), Shrink(t))
    {
      assert forall k :: 0 <= k < count ==> cs[k].state == cs[k].View().state;
      var i := Compact(cs, t);
      count := i;
      KeptSeparate(cs, t, |t|);
      KeptViews(cs, t, |t|);
    }

    /** `receive` on slot `i`, whose socket answered `r`. */
    method ReceiveAt(i: nat, r: Outcome, ghost cs: seq<Connection>, ghost t: seq<Slot>)
      requires Shows(cs, t) && i < count && t[i].conn.Valid() && CanRead(t[i].conn, r)
      modifies fds, cs[i], cs[i].inBuf, cs[i].inBuf.buffer
      ensures Shows(cs, t[i := Receive(t[i], r)])
    {
      hide Received, Conn.Valid, CanRead;
      var conn := connections[i];
      if !conn.inState.IsAlive() || conn.state.stopped {
        assert t[i := t[i]] == t;
        return;
      }
      ReadInto(conn, r);
      if conn.inBuf.length == conn.inBuf.buffer.Length || !conn.inState.IsAlive() {
        fds[FIRST + i] := fds[FIRST + i].Clear(true, false);
      } else {
        fds[FIRST + i] := fds[FIRST + i].Set(true, false);
      }
    }

    /** `transmit` on slot `i`. */
    method TransmitAt(i: nat, r: Outcome, ghost cs: seq<Connection>, ghost t: seq<Slot>)
      requires Shows(cs, t) && i < count && t[i].conn.Valid() && CanWrite(t[i].conn, r)
      modifies fds, cs[i], cs[i].outBuf
      ensures Shows(cs, t[i := Transmit(t[i], r)])
    {
      hide Transmitted, Conn.Valid, CanWrite;
      var conn := connections[i];
      if !conn.outState.IsAlive() || conn.state.stopped {
        assert t[i := t[i]] == t;
        return;
      }
      WriteFrom(conn, r);
      if conn.outBuf.length == 0 || !conn.outState.IsAlive() {
        fds[FIRST + i] := fds[FIRST + i].Clear(false, true);
      } else {
        fds[FIRST + i] := fds[FIRST + i].Set(false, true);
      }
    }

    /** The first loop of `cm_poll`. */
    method ArmOutputs(ghost cs: seq<Connection>, ghost t: seq<Slot>)
      requires Shows(cs, t)
      modifies fds
      ensures Shows(cs, ArmAll(t))
    {
      hide Shows, Arm;
      ShowsCount(cs, t);
      ghost var u := t;
      var i := 0;
      while i < count
        invariant 0 <= i <= count == |t| == |u| == |cs|
        invariant Shows(cs, u)
        invariant forall j :: 0 <= j < |t| ==> u[j] == if j < i then Arm(t[j]) else t[j]
      {
        ArmAt(i, cs, u);
        u := u[i := Arm(u[i])];
        ShowsCount(cs, u);
        i := i + 1;
      }
      assert u == ArmAll(t);
    }

    method ArmAt(i: nat, ghost cs: seq<Connection>, ghost t: seq<Slot>)
      requires Shows(cs, t) && i < count
      modifies fds
      ensures Shows(cs, t[i := Arm(t[i])])
    {
      var conn := connections[i];
      if conn.outBuf.length > 0 && conn.outState.IsAlive() {
        fds[FIRST + i] := fds[FIRST + i].Set(false, true);
      }
    }

    /** The body of the transfer loop. */
    method IoAt(i: nat, io: Io, ghost cs: seq<Connection>, ghost t: seq<Slot>)
      requires Shows(cs, t) && i < count && t[i].conn.Valid()
      requires CanRead(t[i].conn, io.rd) && CanWrite(t[i].conn, io.wr)
      modifies fds, cs[i], cs[i].inBuf, cs[i].inBuf.buffer, cs[i].outBuf
      ensures Shows(cs, t[i := DoIo(t[i], io)])
    {
      hide Shows, Receive, Transmit, CanRead, CanWrite;
      AliveFacts(i, cs, t, io.rd);
      if connections[i].state.IsAlive() {
        ReceiveAt(i, io.rd, cs, t);
        ghost var u := t[i := Receive(t[i], io.rd)];
        ReceiveKeepsOutput(t[i], io);
        ShowsCount(cs, u);
        TransmitAt(i, io.wr, cs, u);
        assert u[i := DoIo(t[i], io)] == t[i := DoIo(t[i], io)];
      } else {
        assert t[i := t[i]] == t;
      }
    }

    lemma AliveFacts(i: nat, cs: seq<Connection>, t: seq<Slot>, r: Outcome)
      requires Shows(cs, t) && i < count
      ensures Valid() && connections[i] == cs[i] && cs[i].state == t[i].conn.state
      ensures count == |t| == |cs|
    {
      assert cs[i].View() == t[i].conn;
    }

    /** The transfer loop of `cm_poll`, over the first `|ios|` entries. */
    method DoTransfers(ios: seq<Io>, ghost cs: seq<Connection>, ghost t: seq<Slot>)
      requires Shows(cs, t) && |ios| <= count && IoOk(t[..|ios|], ios)
      modifies fds, set i | 0 <= i < |cs| :: cs[i]
      modifies set i | 0 <= i < |cs| :: cs[i].inBuf
      modifies set i | 0 <= i < |cs| :: cs[i].inBuf.buffer
      modifies set i | 0 <= i < |cs| :: cs[i].outBuf
      ensures Shows(cs, IoAll(t[..|ios|], ios) + t[|ios|..])
    {
      hide Shows, DoIo, CanRead, CanWrite;
      ShowsCount(cs, t);
      ghost var u := t;
      var i := 0;
      while i < |ios|
        invariant 0 <= i <= |ios| <= count == |t| == |u| == |cs|
        invariant Shows(cs, u)
        invariant forall j :: 0 <= j < |t| ==> u[j] == if j < i then DoIo(t[j], ios[j]) else t[j]
      {
        assert t[..|ios|][i] == t[i];
        IoAt(i, ios[i], cs, u);
        u := u[i := DoIo(u[i], ios[i])];
        ShowsCount(cs, u);
        i := i + 1;
      }
      assert u == IoAll(t[..|ios|], ios) + t[|ios|..];
    }

    /** `accept_connection` with the descriptor that accept returned. */
    method Accept(fd: int, bufSize: nat, ghost cs: seq<Connection>, ghost t: seq<Slot>)
      returns (ghost c: Connection, ghost s: Slot)
      requires Shows(cs, t) && |t| < MAX_SLOTS && fd >= 0
      modifies this`count, connections, fds
      ensures fresh(c) && fresh(c.inBuf) && fresh(c.outBuf) && fresh(c.inBuf.buffer) && fresh(c.outBuf.buffer)
      ensures IsAccepted(s) && s.sock == fd && Sizes(s.conn) == (bufSize, bufSize) && Shows(cs + [c], t + [s])
    {
      var conn := new Connection(bufSize, bufSize, -1);
      conn.state := conn.state.(isNew := true);
      c := conn;
      s := AddedSlot(conn.View(), fd);
      var _ := AddConnection(conn, fd, cs, t);
    }

    /** `cm_poll`. It completes unless poll fails or the pipe carries a reason to stop; `ios` is
        what the ready sockets answer, `accepted` the descriptor of a new client. */
    method CmPoll(
        completes: bool, ios: seq<Io>, accepted: Option<int>, bufSize: nat,
        ghost cs: seq<Connection>, ghost t: seq<Slot>)
      returns (closed: seq<int>, ghost cs': seq<Connection>, ghost p: PollInput)
      requires Shows(cs, t) && IoOk(Armed(t), ios)
      requires accepted.Some? ==> accepted.value >= 0 && |Armed(t)| < MAX_SLOTS
      modifies this`count, connections, fds, set i | 0 <= i < |cs| :: cs[i]
      modifies set i | 0 <= i < |cs| :: cs[i].inBuf
      modifies set i | 0 <= i < |cs| :: cs[i].inBuf.buffer
      modifies set i | 0 <= i < |cs| :: cs[i].outBuf
      ensures p.completes == completes && p.ios == ios && PollOk(t, p)
      ensures p.accepted.Some? <==> accepted.Some? && completes
      ensures p.accepted.Some? ==> p.accepted.value.sock == accepted.value
      ensures p.accepted.Some? ==> Sizes(p.accepted.value.conn) == (bufSize, bufSize)
      ensures Shows(cs', Poll(t, p).table) && closed == Poll(t, p).closed
      ensures forall c :: c in cs' && c !in cs ==> AllFresh(c)
    {
      hide Shows, Armed, CloseAll, Shrink, ArmAll, IoAll, IsAccepted;
      p := PollInput(completes, ios, None);
      closed, cs' := Prepare(cs, t);
      ghost var a := Armed(t);
      if completes {
        if accepted.Some? {
          ghost var c, s := Accept(accepted.value, bufSize, cs', a);
          p := PollInput(completes, ios, Some(s));
          cs' := cs' + [c];
          a := a + [s];
        }
        assert forall c :: c in cs' && c !in cs ==> AllFresh(c);
        assert forall i :: 0 <= i < |cs'| && cs'[i] !in cs ==>
          fresh(cs'[i]) && fresh(cs'[i].inBuf) && fresh(cs'[i].inBuf.buffer) && fresh(cs'[i].outBuf);
        assert a[..|ios|] == Armed(t);
        assert a[|ios|..] == if p.accepted.Some? then [p.accepted.value] else [];
        ShowsCount(cs', a);
        DoTransfers(ios, cs', a);
        var more := CloseSockets(cs', Served(t, p));
        closed := closed + more;
        ghost var u := CloseAll(Served(t, p));
        ShowsCount(cs', u);
        ShrinkTable(cs', u);
        KeptFrom(cs', u, |u|);
        cs' := KeptConns(cs', u, |u|);
      }
    }

    /** `cm_get_connections`. */
    method GetConnections(ghost cs: seq<Connection>, ghost t: seq<Slot>) returns (all: seq<Connection>)
      requires Shows(cs, t)
      ensures all == cs
    {
      all := [];
      var i := 0;
      while i < count
        invariant 0 <= i <= count && all == cs[..i]
      {
        var c: Connection := connections[i];
        all := all + [c];
        i := i + 1;
      }
    }

    /** `cm_poll` in front of poll. */
    method Prepare(ghost cs: seq<Connection>, ghost t: seq<Slot>)
      returns (closed: seq<int>, ghost cs': seq<Connection>)
      requires Shows(cs, t)
      modifies this`count, connections, fds, set i | 0 <= i < |cs| :: cs[i]
      ensures Shows(cs', Armed(t)) && closed == ClosedFds(t, |t|)
      ensures forall c :: c in cs' ==> c in cs
    {
      hide Shows, CloseAll, ArmAll;
      ShowsCount(cs, t);
      closed := CloseSockets(cs, t);
      ghost var u := CloseAll(t);
      ShrinkTable(cs, u);
      cs' := KeptConns(cs, u, |u|);
      KeptFrom(cs, u, |u|);
      ArmOutputs(cs', Shrink(u));
    }

    /** The last loop of `destroy_manager`. */
    method Destroy(ghost cs: seq<Connection>, ghost t: seq<Slot>) returns (closed: seq<int>)
      requires Shows(cs, t)
      ensures closed == DestroyedFds(t, |t|)
    {
      closed := [];
      var i := 0;
      while i < count
        invariant 0 <= i <= count && closed == DestroyedFds(t, i)
      {
        assert cs[i].View() == t[i].conn;
        var fd := fds[FIRST + i].Descriptor();
        if !connections[i].state.closed {
          closed := closed + [fd];
        }
        i := i + 1;
      }
    }
  }

  /** A connection that was made during the method, with all its parts. */
  twostate predicate AllFresh(new c: Connection) {
    fresh(c) && fresh(c.inBuf) && fresh(c.inBuf.buffer) && fresh(c.outBuf) && fresh(c.outBuf.buffer)
  }

  lemma ReceiveKeepsOutput(s: Slot, io: Io)
    requires s.conn.Valid() && CanRead(s.conn, io.rd) && CanWrite(s.conn, io.wr)
    ensures Receive(s, io.rd).conn.Valid() && CanWrite(Receive(s, io.rd).conn, io.wr)
  {
  }

  /** The read of `receive`, if there is room. */
  method ReadInto(c: Connection, r: Outcome)
    requires Apart(c) && c.View().Valid() && CanRead(c.View(), r)
    modifies c, c.inBuf, c.inBuf.buffer
    ensures c.View() == Received(old(c.View()), r)
  {
    if c.inBuf.length != c.inBuf.buffer.Length {
      match r {
        case Moved(bytes) =>
          var _ := c.inBuf.ReadFrom(bytes);
        case Ended =>
          c.inState := c.inState.(eof := true);
        case _ =>
      }
    }
  }

  /** The write of `transmit`, if there is something to write. */
  method WriteFrom(c: Connection, r: Outcome)
    requires Apart(c) && c.View().Valid() && CanWrite(c.View(), r)
    modifies c, c.outBuf
    ensures c.View() == Transmitted(old(c.View()), r)
  {
    if c.outBuf.length != 0 {
      match r {
        case Moved(bytes) =>
          var _ := c.outBuf.WriteTo(|bytes|);
        case Ended =>
          c.outState := c.outState.(eof := true);
        case _ =>
      }
    }
  }

  /** The connections that stay when the table shrinks. */
  ghost function KeptConns(cs: seq<Connection>, t: seq<Slot>, n: nat): (kc: seq<Connection>)
    requires n <= |cs| && n <= |t|
    ensures |kc| == |Kept(t, n)|
  {
    if n == 0 then []
    else if ShouldDelete(t[n - 1]) then KeptConns(cs, t, n - 1)
    else KeptConns(cs, t, n - 1) + [cs[n - 1]]
  }

  lemma {:induction false} KeptFrom(cs: seq<Connection>, t: seq<Slot>, n: nat)
    requires n <= |cs| && n <= |t|
    ensures forall c :: c in KeptConns(cs, t, n) ==> c in cs[..n]
  {
    hide ShouldDelete;
    if n > 0 {
      KeptFrom(cs, t, n - 1);
    }
  }

  lemma {:induction false} KeptSeparate(cs: seq<Connection>, t: seq<Slot>, n: nat)
    requires n <= |cs| && n <= |t| && Separate(cs)
    ensures Separate(KeptConns(cs, t, n))
  {
    if n > 0 {
      KeptSeparate(cs, t, n - 1);
      KeptFrom(cs, t, n - 1);
      var kc := KeptConns(cs, t, n - 1);
      forall i | 0 <= i < |kc|
        ensures kc[i] != cs[n - 1] && Disjoint(kc[i], cs[n - 1])
      {
        assert kc[i] in cs[..n - 1];
      }
    }
  }

  lemma {:induction false} KeptViews(cs: seq<Connection>, t: seq<Slot>, n: nat)
    requires n <= |cs| && n <= |t| && forall i :: 0 <= i < n ==> cs[i].View() == t[i].conn
    ensures forall i :: 0 <= i < |Kept(t, n)| ==> KeptConns(cs, t, n)[i].View() == Kept(t, n)[i].conn
  {
    if n > 0 {
      KeptViews(cs, t, n - 1);
    }
  }
}
